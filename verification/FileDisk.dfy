/** What the file store keeps on disk: one file a key, and one index file a namespace. */
module FileDisk {
  import opened Wrappers
  import opened Words
  import opened Bytes
  import opened Json
  import opened FileFormat

  type Field = string
  // The fields of a write. On disk a value is the name of a JSON object member.
  type Fields = map<Field, Json>
  type Value = string
  type NsIndex = map<Field, map<Value, set<Key>>>

  datatype Duration = Duration(secs: u64, nanos: nat)

  datatype QueryFilter =
    | Equals(field: Field, value: Json)
    | NotEquals(field: Field, value: Json)
    | In(field: Field, values: seq<Json>)
    | NotIn(field: Field, values: seq<Json>)
    | All

  // Index files are absent from the map until something is indexed in their namespace.
  datatype Disk = Disk(files: map<string, seq<byte>>, index: map<string, NsIndex>)

  // ----- keys -----

  // The part of the key before its first colon.
  function Namespace(k: Key): string {
    if k == "" || k[0] == ':' then "" else [k[0]] + Namespace(k[1..])
  }

  // Durations of the configured namespaces; any other key is permanent.
  type Ttls = map<string, u64>

  function TtlFor(ttls: Ttls, k: Key): Duration {
    if Namespace(k) in ttls then Duration(ttls[Namespace(k)], 0) else Duration(0, 0)
  }

  function ExpiresAt(now: nat, ttl: Duration): u64 {
    if ttl.secs == 0 && ttl.nanos == 0 then 0
    else if now + ttl.secs <= MAX_U64 then now + ttl.secs else MAX_U64
  }

  function NewHeader(expiresAt: u64): Header {
    Header(MAGIC, VERSION, expiresAt, seq(50, _ => 0))
  }

  // ----- index -----

  // The keys listed under a field and a value.
  function At<V(==)>(ix: map<Field, map<V, set<Key>>>, f: Field, v: V): set<Key> {
    if f in ix && v in ix[f] then ix[f][v] else {}
  }

  // No empty entry at either level.
  ghost predicate Tidy<V>(ix: map<Field, map<V, set<Key>>>) {
    forall f | f in ix :: ix[f] != map[] && forall v | v in ix[f] :: ix[f][v] != {}
  }

  // A tidy index is known by what it lists.
  lemma TidyIsUnique(a: NsIndex, b: NsIndex)
    requires Tidy(a) && Tidy(b)
    requires forall f, v :: At(a, f, v) == At(b, f, v)
    ensures a == b
  {
    TidyIsBelow(a, b);
    TidyIsBelow(b, a);
    assert forall f | f in a :: a[f] == b[f];
  }

  lemma TidyIsBelow(a: NsIndex, b: NsIndex)
    requires Tidy(a) && Tidy(b)
    requires forall f, v :: At(a, f, v) == At(b, f, v)
    ensures forall f | f in a :: f in b && forall v | v in a[f] :: v in b[f] && a[f][v] == b[f][v]
  {
    forall f | f in a
      ensures f in b && forall v | v in a[f] :: v in b[f] && a[f][v] == b[f][v]
    {
      forall v | v in a[f]
        ensures f in b && v in b[f] && a[f][v] == b[f][v]
      {
        assert At(a, f, v) == At(b, f, v) != {};
      }
      assert a[f].Keys != {};
    }
  }

  // What is listed once the key has these fields and no others.
  function Row(ix: NsIndex, k: Key, fields: map<Field, Value>, f: Field, v: Value): set<Key> {
    (At(ix, f, v) - {k}) + if f in fields && fields[f] == v then {k} else {}
  }

  ghost predicate IsReindexed(ix: NsIndex, k: Key, fields: map<Field, Value>, r: NsIndex) {
    Tidy(r) && forall f, v :: At(r, f, v) == Row(ix, k, fields, f, v)
  }

  ghost function Rows(ix: NsIndex, k: Key, fields: map<Field, Value>, f: Field): map<Value, set<Key>> {
    var listed := if f in ix then ix[f].Keys else {};
    map v | v in listed + fields.Values && Row(ix, k, fields, f, v) != {} :: Row(ix, k, fields, f, v)
  }

  ghost function Reindexed(ix: NsIndex, k: Key, fields: map<Field, Value>): NsIndex {
    map f | f in ix.Keys + fields.Keys && Rows(ix, k, fields, f) != map[] :: Rows(ix, k, fields, f)
  }

  lemma ReindexedIs(ix: NsIndex, k: Key, fields: map<Field, Value>)
    ensures IsReindexed(ix, k, fields, Reindexed(ix, k, fields))
  {
    var r := Reindexed(ix, k, fields);
    forall f, v
      ensures At(r, f, v) == Row(ix, k, fields, f, v)
    {
      if Row(ix, k, fields, f, v) != {} {
        assert v in Rows(ix, k, fields, f);
      }
    }
  }

  // ----- writing the index as JSON -----

  predicate AllNamed(fields: Fields) {
    forall f | f in fields :: MemberName(fields[f]).Some?
  }

  // The values as they will be read back.
  function NamesOf(fields: Fields): (names: map<Field, Value>)
    requires AllNamed(fields)
    ensures names.Keys == fields.Keys
  {
    map f | f in fields :: MemberName(fields[f]).value
  }

  // What may be on disk once the index has been written with the new fields of k. A value that is no string
  // is another member than the string of the same name; both are written, and one of them is read back.
  ghost predicate Rewritten(before: NsIndex, k: Key, fields: Fields, after: NsIndex) {
    Tidy(after) && forall f, v :: Relisted(At(before, f, v) - {k}, k, fields, f, v, At(after, f, v))
  }

  ghost predicate Relisted(others: set<Key>, k: Key, fields: Fields, f: Field, v: Value, listed: set<Key>) {
    if f !in fields || MemberName(fields[f]) != Some(v) then listed == others
    else if fields[f].JString? then listed == others + {k}
    else listed == {k} || (others != {} && listed == others)
  }

  // The new fields hold a value that is no string, where another key is listed under the same name.
  ghost predicate Conflicts(before: NsIndex, k: Key, fields: Fields)
    requires AllNamed(fields)
  {
    exists f | f in fields :: !fields[f].JString? && At(before, f, NamesOf(fields)[f]) - {k} != {}
  }

  // Nothing is lost if and only if there is no such value.
  lemma RewrittenIff(before: NsIndex, k: Key, fields: Fields, after: NsIndex)
    requires AllNamed(fields) && Rewritten(before, k, fields, after)
    ensures after == Reindexed(before, k, NamesOf(fields)) <==> !Conflicts(before, k, fields)
  {
    var names := NamesOf(fields);
    ReindexedIs(before, k, names);
    if Conflicts(before, k, fields) {
      var f :| f in fields && !fields[f].JString? && At(before, f, names[f]) - {k} != {};
      assert Relisted(At(before, f, names[f]) - {k}, k, fields, f, names[f], At(after, f, names[f]));
      assert At(Reindexed(before, k, names), f, names[f]) == Row(before, k, names, f, names[f]);
    } else {
      forall f, v
        ensures At(after, f, v) == Row(before, k, names, f, v)
      {
        assert Relisted(At(before, f, v) - {k}, k, fields, f, v, At(after, f, v));
      }
      TidyIsUnique(after, Reindexed(before, k, names));
    }
  }

  // ----- the operations -----

  ghost function IndexOf(d: Disk, ns: string): NsIndex {
    if ns in d.index then d.index[ns] else map[]
  }

  // Writes the file; without index fields the index stays as it is.
  ghost function Set(d: Disk, now: nat, ttls: Ttls, k: Key, value: seq<byte>,
                     fields: Option<map<Field, Value>>, ttl: Option<Duration>): Disk
  {
    var header := NewHeader(ExpiresAt(now, if ttl.Some? then ttl.value else TtlFor(ttls, k)));
    var ns := Namespace(k);
    Disk(d.files[FileName(k) := header.Encoded() + value],
         if fields.None? then d.index else d.index[ns := Reindexed(IndexOf(d, ns), k, fields.value)])
  }

  // The names under which a write is listed. Fields that cannot be written leave the index alone.
  function ListedNames(fields: Option<Fields>): Option<map<Field, Value>> {
    if fields.Some? && AllNamed(fields.value) then Some(NamesOf(fields.value)) else None
  }

  // What set_bytes leaves behind. The file is written before the index, and stays when that fails.
  ghost predicate SetLeaves(d: Disk, now: nat, ttls: Ttls, k: Key, value: seq<byte>, fields: Option<Fields>,
                            ttl: Option<Duration>, after: Disk, r: Result<(), StorageError>)
  {
    var ns := Namespace(k);
    && after.files == Set(d, now, ttls, k, value, None, ttl).files
    && (r.Ok? <==> fields.None? || AllNamed(fields.value))
    && (r.Err? ==> r.error == Serialization("key must be a string"))
    && if fields.None? || r.Err? then after.index == d.index
       else
         && ns in after.index && after.index == d.index[ns := after.index[ns]]
         && Rewritten(IndexOf(d, ns), k, fields.value, after.index[ns])
  }

  ghost predicate IndexConflicts(d: Disk, k: Key, fields: Option<Fields>) {
    fields.Some? && AllNamed(fields.value) && Conflicts(IndexOf(d, Namespace(k)), k, fields.value)
  }

  // So it is one certain write if and only if no value conflicts.
  lemma SetIsCertainIff(d: Disk, now: nat, ttls: Ttls, k: Key, value: seq<byte>, fields: Option<Fields>,
                        ttl: Option<Duration>, after: Disk, r: Result<(), StorageError>)
    requires SetLeaves(d, now, ttls, k, value, fields, ttl, after, r)
    ensures after == Set(d, now, ttls, k, value, ListedNames(fields), ttl) <==> !IndexConflicts(d, k, fields)
  {
    if fields.Some? && AllNamed(fields.value) {
      var ns := Namespace(k);
      RewrittenIff(IndexOf(d, ns), k, fields.value, after.index[ns]);
    }
  }

  // The index is touched only if there was a file. An index with nothing left is removed.
  ghost function Delete(d: Disk, k: Key): Disk {
    if FileName(k) !in d.files then d
    else Disk(d.files - {FileName(k)}, Unlisted(d.index, Namespace(k), k))
  }

  ghost function Unlisted(index: map<string, NsIndex>, ns: string, k: Key): map<string, NsIndex> {
    if ns !in index then index
    else
      var rest := Reindexed(index[ns], k, map[]);
      if rest == map[] then index - {ns} else index[ns := rest]
  }

  function Get(d: Disk, now: nat, k: Key): Result<seq<byte>, StorageError> {
    if FileName(k) !in d.files then Err(NotFound)
    else
      var data := d.files[FileName(k)];
      match Deserialize(data)
      case Ok(header) => if header.Expired(now) then Err(NotFound) else Ok(data[SIZE..])
      case Err(_) => Ok(data)
  }

  predicate Exists(d: Disk, k: Key) {
    FileName(k) in d.files
  }

  // Too small or legacy files are never reported, and never swept.
  predicate Readable(data: seq<byte>) {
    |data| >= SIZE && Deserialize(data[..SIZE]).Ok?
  }

  predicate Unexpired(d: Disk, now: nat, k: Key) {
    && FileName(k) in d.files
    && Readable(d.files[FileName(k)])
    && !Deserialize(d.files[FileName(k)][..SIZE]).value.Expired(now)
  }

  // Whether a filter asks for the keys listed under this field and value.
  predicate Asks(filter: QueryFilter, f: Field, v: Value) {
    match filter
    case Equals(field, value) => f == field && JString(v) == value
    case NotEquals(field, value) => f == field && JString(v) != value
    case In(field, values) => f == field && JString(v) in values
    case NotIn(field, values) => f == field && JString(v) !in values
    case All => true
  }

  ghost predicate Matches(ix: NsIndex, filter: QueryFilter, k: Key) {
    exists f, v :: k in At(ix, f, v) && Asks(filter, f, v)
  }

  ghost predicate Found(d: Disk, now: nat, ns: string, filter: QueryFilter, k: Key) {
    Matches(IndexOf(d, ns), filter, k) && Unexpired(d, now, k)
  }

  // One directory entry of the cleanup: an expired file is deleted under the key guessed from its name.
  ghost function SweepOne(d: Disk, now: nat, name: string): (Disk, nat) {
    if name in d.files && HasBinExtension(name) && Readable(d.files[name])
       && Deserialize(d.files[name][..SIZE]).value.Expired(now)
    then (Delete(d, RecoveredKey(name)), 1)
    else (d, 0)
  }

  ghost function Sweep(d: Disk, now: nat, names: seq<string>): (Disk, nat) {
    if names == [] then (d, 0)
    else
      var (before, n) := Sweep(d, now, names[..|names| - 1]);
      var (after, m) := SweepOne(before, now, names[|names| - 1]);
      (after, n + m)
  }
}
