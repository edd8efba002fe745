/** The file store agrees with a simple map from key to record. */
module FileTheorems {
  import opened Wrappers
  import opened Words
  import opened Bytes
  import opened Json
  import opened FileFormat
  import opened FileDisk

  // What a caller thinks is stored: the last write, when it ends, and its current index fields.
  datatype Record = Record(bytes: seq<byte>, deadline: Option<u64>, fields: map<Field, Value>)
  type Records = map<Key, Record>

  predicate Passed(deadline: Option<u64>, now: nat) {
    deadline.Some? && now >= deadline.value
  }

  predicate Ended(r: Record, now: nat) {
    Passed(r.deadline, now)
  }

  function Deadline(now: nat, ttl: Duration): Option<u64> {
    if ttl == Duration(0, 0) then None
    else Some(if now + ttl.secs <= MAX_U64 then now + ttl.secs else MAX_U64)
  }

  // ----- which keys can be used together -----

  // No two of the keys share a file.
  ghost predicate Usable(keys: iset<Key>) {
    forall a, b :: a in keys && b in keys && FileName(a) == FileName(b) ==> a == b
  }

  lemma CleanKeysAreUsable()
    ensures Usable(iset k: Key | Clean(k))
  {
    forall a: Key, b: Key | Clean(a) && Clean(b) && FileName(a) == FileName(b)
      ensures a == b
    {
      CleanKeysHaveTheirOwnFiles(a, b);
    }
  }

  // The namespaces of the solver; the message tracker puts a tag before its ids.
  const PREFIXES: set<string> :=
    {"orders:", "intents:", "order_by_tx_hash:", "quotes:", "settlement_messages:hyperlane:"}

  predicate Plain(id: string) {
    '_' !in id && '/' !in id && ':' !in id
  }

  // The keys of the solver have their own files too, though two of its namespaces contain '_'.
  lemma SolverKeysAreUsable()
    ensures Usable(iset p, id: string | p in PREFIXES && Plain(id) :: p + id)
  {
    forall p, q, a: string, b: string
      | p in PREFIXES && q in PREFIXES && Plain(a) && Plain(b) && FileName(p + a) == FileName(q + b)
      ensures p + a == q + b
    {
      FileNamesAgreeIff(p + a, q + b);
      LastSeparator(p, a, q, b);
      LastSeparator(q, b, p, a);
      assert Sanitize(p + a)[..|p|] == Sanitize(p) && Sanitize(q + b)[..|q|] == Sanitize(q);
      assert (p + a)[|p|..] == a && (q + b)[|q|..] == b;
      forall i | 0 <= i < |a|
        ensures a[i] == b[i]
      {
        assert Sanitize(p + a)[|p| + i] == Safe(a[i]) && Sanitize(q + b)[|p| + i] == Safe(b[i]);
      }
      assert a == b;
    }
  }

  // The separator before the id is the last '_' of the name.
  lemma LastSeparator(p: string, a: string, q: string, b: string)
    requires p in PREFIXES && q in PREFIXES && Plain(b)
    requires Sanitize(p + a) == Sanitize(q + b)
    ensures |p| <= |q|
  {
    assert Sanitize(p + a)[|p| - 1] == '_';
    forall i | |q| <= i < |q| + |b|
      ensures Sanitize(q + b)[i] != '_'
    {
      assert (q + b)[i] == b[i - |q|];
    }
  }

  // ----- the refinement -----

  function StoredHeader(r: Record): Header {
    NewHeader(if r.deadline.Some? then r.deadline.value else 0)
  }

  ghost function FileOf(r: Record): seq<byte> {
    StoredHeader(r).Encoded() + r.bytes
  }

  // Deadlines are never the zero that a header uses for "never".
  ghost predicate FilesAgree(files: map<string, seq<byte>>, recs: Records) {
    && (forall k | k in recs :: FileName(k) in files && files[FileName(k)] == FileOf(recs[k]))
    && (forall name | name in files :: Owned(recs, name))
    && (forall k | k in recs :: recs[k].deadline != Some(0))
  }

  ghost predicate Owned(recs: Records, name: string) {
    exists k :: k in recs && FileName(k) == name
  }

  predicate Lists(recs: Records, ns: string, f: Field, v: Value, k: Key) {
    k in recs && Namespace(k) == ns && f in recs[k].fields && recs[k].fields[f] == v
  }

  ghost predicate IndexAgrees(index: map<string, NsIndex>, recs: Records) {
    && (forall ns | ns in index :: Tidy(index[ns]))
    && (forall ns, f, v, k :: k in Listed(index, ns, f, v) <==> Lists(recs, ns, f, v, k))
  }

  function Listed(index: map<string, NsIndex>, ns: string, f: Field, v: Value): set<Key> {
    if ns in index then At(index[ns], f, v) else {}
  }

  // Only clean keys may be indexed: the cleanup could not unlist any other.
  ghost predicate Refines(keys: iset<Key>, d: Disk, recs: Records) {
    && (forall k | k in recs :: k in keys && (recs[k].fields != map[] ==> Clean(k)))
    && FilesAgree(d.files, recs)
    && IndexAgrees(d.index, recs)
  }

  // The invariant in the index alone: one value for each key and field.
  lemma OneValuePerField(keys: iset<Key>, d: Disk, recs: Records, ns: string, f: Field, v: Value, u: Value, k: Key)
    requires Refines(keys, d, recs)
    requires k in Listed(d.index, ns, f, v) && k in Listed(d.index, ns, f, u)
    ensures v == u
  {
    assert Lists(recs, ns, f, v, k) && Lists(recs, ns, f, u, k);
  }

  // ----- writes -----

  function SimpleSet(recs: Records, now: nat, ttls: Ttls, k: Key, value: seq<byte>,
                     fields: Option<map<Field, Value>>, ttl: Option<Duration>): Records
  {
    var kept := if k in recs then recs[k].fields else map[];
    recs[k := Record(value, Deadline(now, if ttl.Some? then ttl.value else TtlFor(ttls, k)),
                     if fields.Some? then fields.value else kept)]
  }

  lemma SetRefines(keys: iset<Key>, d: Disk, recs: Records, now: nat, ttls: Ttls, k: Key, value: seq<byte>,
                   fields: Option<map<Field, Value>>, ttl: Option<Duration>)
    requires Usable(keys) && Refines(keys, d, recs) && now > 0
    requires k in keys && (fields.Some? && fields.value != map[] ==> Clean(k))
    ensures Refines(keys, Set(d, now, ttls, k, value, fields, ttl), SimpleSet(recs, now, ttls, k, value, fields, ttl))
  {
    var r := SimpleSet(recs, now, ttls, k, value, fields, ttl);
    SetWrites(d, recs, now, ttls, k, value, fields, ttl);
    SetFiles(d.files, recs, k, r[k]);
    if fields.Some? {
      SetIndex(d, recs, k, r[k]);
    } else {
      SameFields(d.index, recs, k, r[k]);
    }
  }

  lemma SetWrites(d: Disk, recs: Records, now: nat, ttls: Ttls, k: Key, value: seq<byte>,
                  fields: Option<map<Field, Value>>, ttl: Option<Duration>)
    requires now > 0
    ensures
      var r := SimpleSet(recs, now, ttls, k, value, fields, ttl)[k];
      Set(d, now, ttls, k, value, fields, ttl).files == d.files[FileName(k) := FileOf(r)] && r.deadline != Some(0)
  {
  }

  lemma SameFields(index: map<string, NsIndex>, recs: Records, k: Key, r: Record)
    requires IndexAgrees(index, recs) && r.fields == if k in recs then recs[k].fields else map[]
    ensures IndexAgrees(index, recs[k := r])
  {
    assert forall n, f, v, x :: Lists(recs, n, f, v, x) <==> Lists(recs[k := r], n, f, v, x);
  }

  lemma SetFiles(files: map<string, seq<byte>>, recs: Records, k: Key, r: Record)
    requires forall x | x in recs && FileName(x) == FileName(k) :: x == k
    requires FilesAgree(files, recs) && r.deadline != Some(0)
    ensures FilesAgree(files[FileName(k) := FileOf(r)], recs[k := r])
  {
    OwnedAfterSet(recs, k, r);
    assert forall x | x in recs && x != k :: FileName(x) != FileName(k);
  }

  lemma OwnedAfterSet(recs: Records, k: Key, r: Record)
    ensures Owned(recs[k := r], FileName(k))
    ensures forall name | Owned(recs, name) :: Owned(recs[k := r], name)
  {
    var after := recs[k := r];
    assert k in after;
    forall name | Owned(recs, name)
      ensures Owned(after, name)
    {
      var x :| x in recs && FileName(x) == name;
      assert x in after;
    }
  }

  lemma SetIndex(d: Disk, recs: Records, k: Key, r: Record)
    requires IndexAgrees(d.index, recs)
    ensures IndexAgrees(d.index[Namespace(k) := Reindexed(IndexOf(d, Namespace(k)), k, r.fields)], recs[k := r])
  {
    var ns := Namespace(k);
    ReindexedIs(IndexOf(d, ns), k, r.fields);
    var index := d.index[ns := Reindexed(IndexOf(d, ns), k, r.fields)];
    forall n, f, v, x
      ensures x in Listed(index, n, f, v) <==> Lists(recs[k := r], n, f, v, x)
    {
      assert x in Listed(d.index, n, f, v) <==> Lists(recs, n, f, v, x);
      if n == ns {
        assert Listed(index, n, f, v) == Row(IndexOf(d, ns), k, r.fields, f, v);
      }
    }
  }

  // ----- deletions -----

  // Deleting under any name of the file of k: k itself, or the guess of the cleanup when k is not indexed.
  lemma DeleteRefines(keys: iset<Key>, d: Disk, recs: Records, k: Key, guess: Key)
    requires Usable(keys) && Refines(keys, d, recs)
    requires k in keys && FileName(guess) == FileName(k)
    requires guess == k || (guess !in recs && (k in recs ==> recs[k].fields == map[]))
    ensures Refines(keys, Delete(d, guess), recs - {k})
  {
    if FileName(k) in d.files {
      var x :| x in recs && FileName(x) == FileName(k);
      assert x == k;
      DeleteFiles(d.files, recs, k);
      UnlistedAgrees(d, recs, k, guess);
    } else {
      assert k !in recs;
      assert recs - {k} == recs;
    }
  }

  lemma DeleteFiles(files: map<string, seq<byte>>, recs: Records, k: Key)
    requires forall x | x in recs && FileName(x) == FileName(k) :: x == k
    requires FilesAgree(files, recs)
    ensures FilesAgree(files - {FileName(k)}, recs - {k})
  {
    forall name | Owned(recs, name) && name != FileName(k)
      ensures Owned(recs - {k}, name)
    {
      var y :| y in recs && FileName(y) == name;
      assert y in recs - {k};
    }
  }

  lemma UnlistedAgrees(d: Disk, recs: Records, k: Key, guess: Key)
    requires IndexAgrees(d.index, recs)
    requires guess == k || (guess !in recs && (k in recs ==> recs[k].fields == map[]))
    ensures IndexAgrees(Unlisted(d.index, Namespace(guess), guess), recs - {k})
  {
    var ns, index := Namespace(guess), Unlisted(d.index, Namespace(guess), guess);
    if ns in d.index {
      ReindexedIs(d.index[ns], guess, map[]);
    }
    forall n, f, v, x
      ensures x in Listed(index, n, f, v) <==> Lists(recs - {k}, n, f, v, x)
    {
      assert x in Listed(d.index, n, f, v) <==> Lists(recs, n, f, v, x);
      UnlistedIs(d.index, ns, guess, n, f, v);
    }
  }

  lemma UnlistedIs(index: map<string, NsIndex>, ns: string, k: Key, n: string, f: Field, v: Value)
    ensures Listed(Unlisted(index, ns, k), n, f, v) == Listed(index, n, f, v) - if n == ns then {k} else {}
  {
    if n == ns && ns in index {
      ReindexedIs(index[ns], k, map[]);
      assert At(Reindexed(index[ns], k, map[]), f, v) == Row(index[ns], k, map[], f, v);
    }
  }

  // ----- cleanup -----

  // A file named ".bin" has no extension, so the empty key is never swept.
  predicate Swept(recs: Records, now: nat, k: Key) {
    k in recs && Ended(recs[k], now) && k != ""
  }

  function SimpleCleanup(recs: Records, now: nat): Records {
    map k | k in recs && !Swept(recs, now, k) :: recs[k]
  }

  lemma StoredFileReads(r: Record)
    ensures Deserialize(FileOf(r)) == Ok(StoredHeader(r))
    ensures Readable(FileOf(r)) && Deserialize(FileOf(r)[..SIZE]) == Ok(StoredHeader(r))
    ensures FileOf(r)[SIZE..] == r.bytes
  {
    HeaderRoundTrip(StoredHeader(r), r.bytes);
    HeaderRoundTrip(StoredHeader(r), []);
    assert FileOf(r)[..SIZE] == StoredHeader(r).Encoded() + [];
  }

  // What is left after the first names of the directory have been visited.
  ghost function SweptBy(recs: Records, now: nat, names: seq<string>): Records {
    map k | k in recs && !(Swept(recs, now, k) && FileName(k) in names) :: recs[k]
  }

  lemma {:induction false} SweepRefines(keys: iset<Key>, d: Disk, recs: Records, now: nat, names: seq<string>)
    requires Usable(keys) && Refines(keys, d, recs)
    requires forall i, j :: 0 <= i < j < |names| ==> names[i] != names[j]
    ensures Refines(keys, Sweep(d, now, names).0, SweptBy(recs, now, names))
    ensures Sweep(d, now, names).1 == |recs| - |SweptBy(recs, now, names)|
  {
    if names == [] {
      assert SweptBy(recs, now, names) == recs;
    } else {
      var front, name := names[..|names| - 1], names[|names| - 1];
      SweepRefines(keys, d, recs, now, front);
      assert name !in front;
      var mid, d' := SweptBy(recs, now, front), Sweep(d, now, front).0;
      SweepOneRefines(keys, d', mid, now, name);
      SweptByNext(recs, now, names);
    }
  }

  lemma SweptByNext(recs: Records, now: nat, names: seq<string>)
    requires names != [] && names[|names| - 1] !in names[..|names| - 1]
    ensures SweptBy(recs, now, names) == SweptBy(SweptBy(recs, now, names[..|names| - 1]), now, [names[|names| - 1]])
  {
    assert forall x :: x in names <==> x in names[..|names| - 1] || x == names[|names| - 1];
  }

  lemma SweepOneRefines(keys: iset<Key>, d: Disk, recs: Records, now: nat, name: string)
    requires Usable(keys) && Refines(keys, d, recs)
    ensures Refines(keys, SweepOne(d, now, name).0, SweptBy(recs, now, [name]))
    ensures SweepOne(d, now, name).1 == |recs| - |SweptBy(recs, now, [name])|
  {
    if k :| k in recs && FileName(k) == name && Swept(recs, now, k) {
      SweepHits(keys, d, recs, now, k);
      OneFewer(keys, recs, now, k);
    } else {
      SweepMisses(keys, d, recs, now, name);
    }
  }

  lemma OneFewer(keys: iset<Key>, recs: Records, now: nat, k: Key)
    requires Usable(keys) && (forall x | x in recs :: x in keys)
    requires Swept(recs, now, k)
    ensures SweptBy(recs, now, [FileName(k)]) == recs - {k}
    ensures |recs - {k}| == |recs| - 1
  {
    assert (recs - {k}).Keys == recs.Keys - {k};
    assert forall x | x in recs && FileName(x) == FileName(k) :: x == k;
  }

  lemma SweepHits(keys: iset<Key>, d: Disk, recs: Records, now: nat, k: Key)
    requires Usable(keys) && Refines(keys, d, recs) && Swept(recs, now, k)
    ensures SweepOne(d, now, FileName(k)).1 == 1
    ensures Refines(keys, SweepOne(d, now, FileName(k)).0, recs - {k})
  {
    StoredFileReads(recs[k]);
    RecoveredIffClean(k);
    DeleteRefines(keys, d, recs, k, RecoveredKey(FileName(k)));
  }

  lemma SweepMisses(keys: iset<Key>, d: Disk, recs: Records, now: nat, name: string)
    requires Refines(keys, d, recs)
    requires forall k | k in recs && FileName(k) == name :: !Swept(recs, now, k)
    ensures SweepOne(d, now, name) == (d, 0) && SweptBy(recs, now, [name]) == recs
  {
    assert SweptBy(recs, now, [name]) == recs;
    if name in d.files {
      var k :| k in recs && FileName(k) == name;
      StoredFileReads(recs[k]);
    }
  }

  ghost predicate ListsDirectory(names: seq<string>, d: Disk) {
    && (forall i, j :: 0 <= i < j < |names| ==> names[i] != names[j])
    && (forall name | name in d.files :: name in names)
  }

  // The cleanup removes the ended records and nothing else, and counts them.
  lemma CleanupRefines(keys: iset<Key>, d: Disk, recs: Records, now: nat, names: seq<string>)
    requires Usable(keys) && Refines(keys, d, recs) && ListsDirectory(names, d)
    ensures Refines(keys, Sweep(d, now, names).0, SimpleCleanup(recs, now))
    ensures Sweep(d, now, names).1 == |recs| - |SimpleCleanup(recs, now)|
  {
    SweepRefines(keys, d, recs, now, names);
    EverythingVisited(d.files, recs, now, names);
  }

  lemma EverythingVisited(files: map<string, seq<byte>>, recs: Records, now: nat, names: seq<string>)
    requires FilesAgree(files, recs) && forall name | name in files :: name in names
    ensures SweptBy(recs, now, names) == SimpleCleanup(recs, now)
  {
  }

  // ----- reads -----

  lemma GetAgrees(keys: iset<Key>, d: Disk, recs: Records, now: nat, k: Key)
    requires Usable(keys) && Refines(keys, d, recs) && k in keys
    ensures Get(d, now, k) == if k in recs && !Ended(recs[k], now) then Ok(recs[k].bytes) else Err(NotFound)
    ensures Exists(d, k) <==> k in recs
  {
    if FileName(k) in d.files {
      var x :| x in recs && FileName(x) == FileName(k);
      assert x == k;
      StoredFileReads(recs[k]);
    }
  }

  // What a filter says about the index fields of one record.
  predicate Selects(filter: QueryFilter, fields: map<Field, Value>) {
    match filter
    case Equals(f, v) => f in fields && JString(fields[f]) == v
    case NotEquals(f, v) => f in fields && JString(fields[f]) != v
    case In(f, vs) => f in fields && JString(fields[f]) in vs
    case NotIn(f, vs) => f in fields && JString(fields[f]) !in vs
    case All => fields != map[]
  }

  lemma QueryAgrees(keys: iset<Key>, d: Disk, recs: Records, now: nat, ns: string, filter: QueryFilter, k: Key)
    requires Refines(keys, d, recs)
    ensures Found(d, now, ns, filter, k) <==>
      k in recs && Namespace(k) == ns && Selects(filter, recs[k].fields) && !Ended(recs[k], now)
  {
    IndexSelects(d, recs, ns, filter, k);
    if k in recs {
      StoredFileReads(recs[k]);
    }
  }

  lemma IndexSelects(d: Disk, recs: Records, ns: string, filter: QueryFilter, k: Key)
    requires IndexAgrees(d.index, recs)
    ensures Matches(IndexOf(d, ns), filter, k) <==> k in recs && Namespace(k) == ns && Selects(filter, recs[k].fields)
  {
    assert forall f, v :: k in At(IndexOf(d, ns), f, v) <==> Lists(recs, ns, f, v, k) by {
      assert forall f, v :: At(IndexOf(d, ns), f, v) == Listed(d.index, ns, f, v);
    }
    if k in recs && Namespace(k) == ns && Selects(filter, recs[k].fields) {
      var f := if filter.All? then var g :| g in recs[k].fields; g else filter.field;
      assert k in At(IndexOf(d, ns), f, recs[k].fields[f]) && Asks(filter, f, recs[k].fields[f]);
    }
  }

  // ----- runs -----

  datatype Op =
    | SetOp(key: Key, value: seq<byte>, fields: Option<Fields>, ttl: Option<Duration>)
    | DeleteOp(key: Key)
    | CleanupOp(names: seq<string>)
    | TickOp(secs: nat)

  datatype State = State(disk: Disk, now: nat)

  ghost function DiskStep(s: State, ttls: Ttls, op: Op): State {
    match op
    case SetOp(k, value, fields, ttl) => s.(disk := Set(s.disk, s.now, ttls, k, value, ListedNames(fields), ttl))
    case DeleteOp(k) => s.(disk := Delete(s.disk, k))
    case CleanupOp(names) => s.(disk := Sweep(s.disk, s.now, names).0)
    case TickOp(secs) => s.(now := s.now + secs)
  }

  function SimpleStep(recs: Records, now: nat, ttls: Ttls, op: Op): Records {
    match op
    case SetOp(k, value, fields, ttl) => SimpleSet(recs, now, ttls, k, value, ListedNames(fields), ttl)
    case DeleteOp(k) => recs - {k}
    case CleanupOp(_) => SimpleCleanup(recs, now)
    case TickOp(_) => recs
  }

  // The keys used are usable together, only clean ones are indexed, no value that is not a string shares its
  // name with another key, and a cleanup sees the whole directory.
  ghost predicate Allowed(keys: iset<Key>, s: State, op: Op) {
    match op
    case SetOp(k, _, fields, _) =>
      && k in keys && (fields.Some? && fields.value != map[] ==> Clean(k))
      && !IndexConflicts(s.disk, k, fields)
    case DeleteOp(k) => k in keys
    case CleanupOp(names) => ListsDirectory(names, s.disk)
    case TickOp(_) => true
  }

  ghost function StateAfter(start: nat, ttls: Ttls, ops: seq<Op>): State {
    if ops == [] then State(Disk(map[], map[]), start)
    else DiskStep(StateAfter(start, ttls, ops[..|ops| - 1]), ttls, ops[|ops| - 1])
  }

  ghost function RecordsAfter(start: nat, ttls: Ttls, ops: seq<Op>): Records {
    if ops == [] then map[]
    else
      var front := ops[..|ops| - 1];
      SimpleStep(RecordsAfter(start, ttls, front), StateAfter(start, ttls, front).now, ttls, ops[|ops| - 1])
  }

  ghost predicate AllAllowed(keys: iset<Key>, start: nat, ttls: Ttls, ops: seq<Op>) {
    forall i | 0 <= i < |ops| :: Allowed(keys, StateAfter(start, ttls, ops[..i]), ops[i])
  }

  // After any sequence of writes, deletions, cleanups and passing time.
  lemma {:induction false} StoreIsASimpleMap(keys: iset<Key>, start: nat, ttls: Ttls, ops: seq<Op>)
    requires Usable(keys) && start > 0 && AllAllowed(keys, start, ttls, ops)
    ensures Refines(keys, StateAfter(start, ttls, ops).disk, RecordsAfter(start, ttls, ops))
    ensures StateAfter(start, ttls, ops).now >= start
  {
    if ops != [] {
      var front, op := ops[..|ops| - 1], ops[|ops| - 1];
      assert forall i | 0 <= i < |front| :: front[..i] == ops[..i];
      StoreIsASimpleMap(keys, start, ttls, front);
      var s, recs := StateAfter(start, ttls, front), RecordsAfter(start, ttls, front);
      assert Allowed(keys, s, op);
      match op {
        case SetOp(k, value, fields, ttl) =>
          SetRefines(keys, s.disk, recs, s.now, ttls, k, value, ListedNames(fields), ttl);
        case DeleteOp(k) => DeleteRefines(keys, s.disk, recs, k, k);
        case CleanupOp(names) => CleanupRefines(keys, s.disk, recs, s.now, names);
        case TickOp(_) =>
      }
    }
  }

  // So every read gives what the simple map says.
  lemma ReadsAgreeAfterAnyRun(keys: iset<Key>, start: nat, ttls: Ttls, ops: seq<Op>,
                              k: Key, ns: string, filter: QueryFilter)
    requires Usable(keys) && k in keys && start > 0 && AllAllowed(keys, start, ttls, ops)
    ensures
      var s, recs := StateAfter(start, ttls, ops), RecordsAfter(start, ttls, ops);
      var alive := k in recs && !Ended(recs[k], s.now);
      && Get(s.disk, s.now, k) == (if alive then Ok(recs[k].bytes) else Err(NotFound))
      && (Found(s.disk, s.now, ns, filter, k) <==> alive && Namespace(k) == ns && Selects(filter, recs[k].fields))
  {
    StoreIsASimpleMap(keys, start, ttls, ops);
    var s, recs := StateAfter(start, ttls, ops), RecordsAfter(start, ttls, ops);
    GetAgrees(keys, s.disk, recs, s.now, k);
    QueryAgrees(keys, s.disk, recs, s.now, ns, filter, k);
  }

  // Filters on one field: Equals is In with one value, and every key with the field is in exactly one of In
  // and NotIn.
  lemma FiltersPartition(fields: map<Field, Value>, f: Field, v: Json, vs: seq<Json>)
    ensures Selects(Equals(f, v), fields) <==> Selects(In(f, [v]), fields)
    ensures Selects(NotEquals(f, v), fields) <==> Selects(NotIn(f, [v]), fields)
    ensures Selects(In(f, vs), fields) || Selects(NotIn(f, vs), fields) <==> f in fields
    ensures !(Selects(In(f, vs), fields) && Selects(NotIn(f, vs), fields))
    ensures Selects(In(f, vs), fields) <==> f in fields && exists i :: 0 <= i < |vs| && vs[i] == JString(fields[f])
    ensures Selects(All, fields) <==> exists g :: g in fields
  {
    assert fields != map[] ==> fields.Keys != {};
  }

  // A file without a header is read as it is, whatever the time; it is never found, and never swept.
  lemma LegacyFiles(d: Disk, now: nat, k: Key, ns: string, filter: QueryFilter)
    requires FileName(k) in d.files
    requires var data := d.files[FileName(k)]; |data| < 64 || data[..4] != [0x4F, 0x49, 0x46, 0x53]
    ensures Get(d, now, k) == Ok(d.files[FileName(k)]) && Exists(d, k)
    ensures !Found(d, now, ns, filter, k) && SweepOne(d, now, FileName(k)) == (d, 0)
  {
    var data := d.files[FileName(k)];
    if |data| >= 64 {
      assert data[..64][..4] == data[..4];
    }
  }

  // A deletion leaves an index file exactly if another key is listed in it.
  lemma DeleteLeavesIndexIff(d: Disk, k: Key)
    requires FileName(k) in d.files && Namespace(k) in d.index
    ensures Namespace(k) in Delete(d, k).index <==> exists f, v, x :: x in At(d.index[Namespace(k)], f, v) && x != k
  {
    var ix := d.index[Namespace(k)];
    var rest := Reindexed(ix, k, map[]);
    ReindexedIs(ix, k, map[]);
    if rest == map[] {
      forall f, v, x | x in At(ix, f, v)
        ensures x == k
      {
        assert At(rest, f, v) == Row(ix, k, map[], f, v);
        assert x != k ==> x in Row(ix, k, map[], f, v);
      }
    } else {
      var f :| f in rest;
      var v :| v in rest[f];
      assert At(rest, f, v) == Row(ix, k, map[], f, v) != {};
      var x :| x in At(rest, f, v);
      assert x in At(ix, f, v) && x != k;
    }
  }

  // ----- how long a write lasts -----

  // A deadline is the time of the write plus the duration, cut at 64 bits; no duration means forever.
  predicate Lasts(now: nat, secs: nat, forever: bool, t: nat) {
    forever || (t < now + secs && t < 0xFFFF_FFFF_FFFF_FFFF)
  }

  // A write without a duration of its own lasts as long as its namespace is configured for.
  lemma WriteLastsAsConfigured(d: Disk, now: nat, ttls: Ttls, k: Key, ns: string, id: string, value: seq<byte>,
                               names: Option<map<Field, Value>>, t: nat)
    requires ':' !in ns && (k == ns || k == ns + ":" + id) && now > 0
    ensures
      var configured := if ns in ttls then ttls[ns] else 0;
      Get(Set(d, now, ttls, k, value, names, None), t, k) ==
        if Lasts(now, configured, configured == 0, t) then Ok(value) else Err(NotFound)
  {
    if k == ns {
      NamespaceOfWhole(ns);
    } else {
      NamespaceOf(ns, id);
    }
    StoredFileReads(Record(value, Deadline(now, TtlFor(ttls, k)), map[]));
  }

  // A duration given with the write counts, whatever is configured. Its whole seconds are added.
  lemma WriteLastsAsGiven(d: Disk, now: nat, ttls: Ttls, k: Key, value: seq<byte>,
                          names: Option<map<Field, Value>>, ttl: Duration, t: nat)
    requires now > 0
    ensures
      Get(Set(d, now, ttls, k, value, names, Some(ttl)), t, k) ==
        if Lasts(now, ttl.secs, ttl.secs == 0 && ttl.nanos == 0, t) then Ok(value) else Err(NotFound)
  {
    StoredFileReads(Record(value, Deadline(now, ttl), map[]));
  }

  lemma {:induction false} NamespaceOfWhole(ns: string)
    requires ':' !in ns
    ensures Namespace(ns) == ns
  {
    if ns != "" {
      NamespaceOfWhole(ns[1..]);
    }
  }

  // ----- the values that are left out -----

  // A record can be found by the value that was written exactly if that is a string.
  lemma EqualsFindsIffString(fields: Fields, f: Field)
    requires AllNamed(fields) && f in fields
    ensures Selects(Equals(f, fields[f]), NamesOf(fields)) <==> fields[f].JString?
  {
  }

  // Two keys of a namespace with the same number are enough for a conflict.
  lemma SameNumberConflicts(d: Disk, ns: string, a: string, b: string, f: Field, number: string)
    requires ':' !in ns && a != b
    requires d == Set(Disk(map[], map[]), 1, map[], ns + ":" + a, [], Some(map[f := number]), None)
    ensures IndexConflicts(d, ns + ":" + b, Some(map[f := JNumber(number)]))
  {
    var fields: Fields := map[f := JNumber(number)];
    FirstWrite(d, ns + ":" + a, ns, a, map[f := number], f, None);
    NamespaceOf(ns, b);
    assert ns + ":" + a != ns + ":" + b by {
      assert (ns + ":" + a)[|ns| + 1..] == a && (ns + ":" + b)[|ns| + 1..] == b;
    }
    assert f in fields && !fields[f].JString? && ns + ":" + a in At(d.index[ns], f, NamesOf(fields)[f]);
  }

  lemma {:induction false} NamespaceOf(ns: string, id: string)
    requires ':' !in ns
    ensures Namespace(ns + ":" + id) == ns
  {
    if ns != "" {
      NamespaceOf(ns[1..], id);
      assert (ns + ":" + id)[1..] == ns[1..] + ":" + id;
    }
  }

  // After the first indexed write, the key is listed under each of its fields and nothing else is stored.
  lemma FirstWrite(d: Disk, k: Key, ns: string, id: string, fields: map<Field, Value>, f: Field, ttl: Option<Duration>)
    requires ':' !in ns && k == ns + ":" + id && f in fields
    requires d == Set(Disk(map[], map[]), 1, map[], k, [], Some(fields), ttl)
    ensures Namespace(k) == ns && ns in d.index && At(d.index[ns], f, fields[f]) == {k}
    ensures d.files.Keys == {FileName(k)}
  {
    NamespaceOf(ns, id);
    ReindexedIs(map[], k, fields);
    assert At(d.index[ns], f, fields[f]) == Row(map[], k, fields, f, fields[f]);
  }

  // ----- the keys that are left out -----

  // Writing b leaves what a reads alone exactly when their file names differ.
  lemma WriteDisturbsIff(d: Disk, now: nat, ttls: Ttls, a: Key, b: Key)
    requires 0 < now < MAX_U64
    ensures (forall value :: Get(Set(d, now, ttls, b, value, None, None), now, a) == Get(d, now, a))
      <==> Sanitize(a) != Sanitize(b)
  {
    FileNamesAgreeIff(a, b);
    forall value | FileName(a) == FileName(b)
      ensures Get(Set(d, now, ttls, b, value, None, None), now, a) == Ok(value)
    {
      StoredFileReads(Record(value, Deadline(now, TtlFor(ttls, b)), map[]));
    }
    if FileName(a) == FileName(b) {
      assert Get(Set(d, now, ttls, b, [], None, None), now, a) != Get(Set(d, now, ttls, b, [0], None, None), now, a);
    }
  }

  // Every value file was written under some key.
  ghost predicate OnlyOwnNames(d: Disk) {
    forall name | name in d.files :: '/' !in name && ':' !in name
  }

  ghost predicate EndedFile(d: Disk, now: nat, k: Key) {
    && k != "" && FileName(k) in d.files && Readable(d.files[FileName(k)])
    && Deserialize(d.files[FileName(k)][..SIZE]).value.Expired(now)
  }

  // A cleanup that meets an ended, indexed file removes it, and unlists its key exactly when the key is clean.
  lemma {:induction false} SweepUnlistsIffClean(d: Disk, now: nat, names: seq<string>, k: Key, f: Field, v: Value)
    requires OnlyOwnNames(d) && EndedFile(d, now, k) && k in Listed(d.index, Namespace(k), f, v)
    ensures var after := Sweep(d, now, names).0;
      && OnlyOwnNames(after)
      && (FileName(k) in names ==>
            FileName(k) !in after.files && (k in Listed(after.index, Namespace(k), f, v) <==> !Clean(k)))
      && (FileName(k) !in names ==> EndedFile(after, now, k) && k in Listed(after.index, Namespace(k), f, v))
  {
    if names != [] {
      var front, name := names[..|names| - 1], names[|names| - 1];
      SweepUnlistsIffClean(d, now, front, k, f, v);
      assert FileName(k) in names <==> FileName(k) in front || FileName(k) == name;
      if name == FileName(k) {
        SweepOwn(Sweep(d, now, front).0, now, k, f, v);
      } else {
        SweepOther(Sweep(d, now, front).0, now, name, k, f, v);
      }
    }
  }

  lemma SweepOwn(d: Disk, now: nat, k: Key, f: Field, v: Value)
    requires OnlyOwnNames(d)
    ensures var after := SweepOne(d, now, FileName(k)).0;
      && OnlyOwnNames(after)
      && (FileName(k) !in d.files ==> after == d)
      && (EndedFile(d, now, k) && k in Listed(d.index, Namespace(k), f, v) ==>
            FileName(k) !in after.files && (k in Listed(after.index, Namespace(k), f, v) <==> !Clean(k)))
  {
    RecoveredIffClean(k);
    var guess := RecoveredKey(FileName(k));
    UnlistedIs(d.index, Namespace(guess), guess, Namespace(k), f, v);
  }

  lemma SweepOther(d: Disk, now: nat, name: string, k: Key, f: Field, v: Value)
    requires OnlyOwnNames(d) && name != FileName(k)
    ensures var after := SweepOne(d, now, name).0;
      && OnlyOwnNames(after)
      && (FileName(k) in after.files <==> FileName(k) in d.files)
      && (FileName(k) in d.files ==> after.files[FileName(k)] == d.files[FileName(k)])
      && (k in Listed(after.index, Namespace(k), f, v) <==> k in Listed(d.index, Namespace(k), f, v))
  {
    if name in d.files && HasBinExtension(name) {
      var guess := RecoveredKey(name);
      assert FileName(guess) == name by {
        assert Sanitize(guess) == name[..|name| - 4];
      }
      UnlistedIs(d.index, Namespace(guess), guess, Namespace(k), f, v);
    }
  }

  // So any indexed key with '_' or '/' stays listed when the cleanup has removed its file.
  lemma StaleEntry(d: Disk, k: Key, ns: string, id: string, fields: map<Field, Value>, f: Field)
    requires ':' !in ns && k == ns + ":" + id && !Clean(k) && f in fields
    requires d == Set(Disk(map[], map[]), 1, map[], k, [], Some(fields), Some(Duration(1, 0)))
    ensures var after := Sweep(d, 2, [FileName(k)]).0;
      FileName(k) !in after.files && k in Listed(after.index, ns, f, fields[f])
  {
    FirstWrite(d, k, ns, id, fields, f, Some(Duration(1, 0)));
    EndsAtTwo(d, k, fields);
    SweepUnlistsIffClean(d, 2, [FileName(k)], k, f, fields[f]);
  }

  lemma EndsAtTwo(d: Disk, k: Key, fields: map<Field, Value>)
    requires d == Set(Disk(map[], map[]), 1, map[], k, [], Some(fields), Some(Duration(1, 0)))
    requires k != ""
    ensures EndedFile(d, 2, k)
  {
    StoredFileReads(Record([], Some(2), fields));
    assert d.files[FileName(k)] == FileOf(Record([], Some(2), fields));
  }
}
