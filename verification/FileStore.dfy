/** The file store: every operation changes the files and the index maps in place. */
module FileStore {
  import opened Wrappers
  import opened Bytes
  import opened Json
  import opened FileFormat
  import opened FileDisk

  class FileStorage {
    var files: map<string, seq<byte>>
    var index: map<string, NsIndex>
    const ttls: Ttls

    constructor (ttls: Ttls)
      ensures this.ttls == ttls && TheDisk() == Disk(map[], map[])
    {
      this.ttls, files, index := ttls, map[], map[];
    }

    ghost function TheDisk(): Disk
      reads this
    {
      Disk(files, index)
    }

    method SetBytes(now: nat, k: Key, value: seq<byte>, fields: Option<Fields>, ttl: Option<Duration>)
      returns (r: Result<(), StorageError>)
      modifies this
      ensures SetLeaves(old(TheDisk()), now, ttls, k, value, fields, ttl, TheDisk(), r)
      ensures !IndexConflicts(old(TheDisk()), k, fields) ==>
        TheDisk() == Set(old(TheDisk()), now, ttls, k, value, ListedNames(fields), ttl)
    {
      var header := NewHeader(ExpiresAt(now, if ttl.Some? then ttl.value else TtlFor(ttls, k)));
      var bytes := header.Serialize();
      files := files[FileName(k) := bytes[..] + value];
      r := Ok(());
      if fields.Some? {
        r := UpdateIndexes(Namespace(k), k, fields.value);
      }
      SetIsCertainIff(old(TheDisk()), now, ttls, k, value, fields, ttl, TheDisk(), r);
    }

    method GetBytes(now: nat, k: Key) returns (r: Result<seq<byte>, StorageError>)
      ensures r == Get(TheDisk(), now, k)
    {
      if FileName(k) !in files {
        return Err(NotFound);
      }
      var data := files[FileName(k)];
      var header := Deserialize(data);
      if header.Err? {
        return Ok(data);
      }
      if header.value.Expired(now) {
        return Err(NotFound);
      }
      assert |data| == SIZE ==> data[SIZE..] == [];
      r := Ok(if |data| > SIZE then data[SIZE..] else []);
    }

    method HasKey(k: Key) returns (r: bool)
      ensures r == Exists(TheDisk(), k)
    {
      r := FileName(k) in files;
    }

    method Remove(k: Key)
      modifies this
      ensures TheDisk() == Delete(old(TheDisk()), k)
    {
      if FileName(k) in files {
        files := files - {FileName(k)};
        RemoveFromIndexes(Namespace(k), k);
      }
    }

    // The index is read, changed and written again. Read back, every value is a string.
    method UpdateIndexes(ns: string, k: Key, fields: Fields) returns (r: Result<(), StorageError>)
      modifies this`index
      ensures r == if AllNamed(fields) then Ok(()) else Err(Serialization("key must be a string"))
      ensures r.Err? ==> index == old(index)
      ensures r.Ok? ==>
        && ns in index && index == old(index)[ns := index[ns]]
        && Rewritten(IndexOf(old(TheDisk()), ns), k, fields, index[ns])
    {
      var before: NsIndex := if ns in index then index[ns] else map[];
      var ix := Parse(before);
      ix := DropKey(ix, k);
      ix := AddKey(ix, k, fields);
      ix := DropEmpty(ix);
      ListsNamed(before, k, fields, ix);
      var written := Serialize(ix);
      if written.None? {
        return Err(Serialization("key must be a string"));
      }
      WrittenIs(before, k, fields, ix, written.value);
      index := index[ns := written.value];
      r := Ok(());
    }

    method RemoveFromIndexes(ns: string, k: Key)
      modifies this`index
      ensures index == Unlisted(old(index), ns, k)
    {
      if ns !in index {
        return;
      }
      ghost var before := index[ns];
      var ix := DropKey(index[ns], k);
      ix := DropEmpty(ix);
      SameIndex(before, k, ix);
      if ix == map[] {
        index := index - {ns};
      } else {
        index := index[ns := ix];
      }
    }

    // Keys are returned in no particular order, each once.
    method Query(now: nat, ns: string, filter: QueryFilter) returns (keys: seq<Key>)
      ensures forall k :: k in keys <==> Found(TheDisk(), now, ns, filter, k)
      ensures forall i, j :: 0 <= i < j < |keys| ==> keys[i] != keys[j]
    {
      keys := [];
      if ns !in index {
        return;
      }
      var matching := Matching(index[ns], filter);
      var left := matching;
      while left != {}
        invariant left <= matching
        invariant forall k :: k in keys <==> k in matching - left && Unexpired(TheDisk(), now, k)
        invariant forall i, j :: 0 <= i < j < |keys| ==> keys[i] != keys[j]
        decreases left
      {
        var k :| k in left;
        assert k !in keys;
        left := left - {k};
        if FileName(k) in files && Readable(files[FileName(k)])
           && !Deserialize(files[FileName(k)][..SIZE]).value.Expired(now)
        {
          keys := keys + [k];
        }
      }
    }

    // names lists the directory; entries that are not value files are passed over.
    method CleanupExpired(now: nat, names: seq<string>) returns (removed: nat)
      modifies this
      ensures (TheDisk(), removed) == Sweep(old(TheDisk()), now, names)
    {
      removed := 0;
      for i := 0 to |names|
        invariant (TheDisk(), removed) == Sweep(old(TheDisk()), now, names[..i])
      {
        assert names[..i + 1][..i] == names[..i];
        var name := names[i];
        if name in files && HasBinExtension(name) && |files[name]| >= SIZE {
          var header := Deserialize(files[name][..SIZE]);
          if header.Ok? && header.value.Expired(now) {
            Remove(RecoveredKey(name));
            removed := removed + 1;
          }
        }
      }
      assert names[..|names|] == names;
    }
  }

  // ----- an index in memory -----

  type Memory = map<Field, map<Json, set<Key>>>

  function Parse(ix: NsIndex): (r: Memory)
    ensures forall f, v :: At(r, f, v) == if v.JString? then At(ix, f, v.text) else {}
  {
    var r := map f | f in ix :: ParseValues(ix[f]);
    assert forall f, v :: At(r, f, v) == if v.JString? then At(ix, f, v.text) else {};
    r
  }

  function ParseValues(vm: map<Value, set<Key>>): (r: map<Json, set<Key>>)
    ensures forall v :: v in r <==> v.JString? && v.text in vm
    ensures forall t | t in vm :: r[JString(t)] == vm[t]
  {
    var r := map t | t in vm :: JString(t) := vm[t];
    assert forall t | t in vm :: JString(t) in r;
    r
  }

  method DropKey<V(==)>(ix: map<Field, map<V, set<Key>>>, k: Key) returns (r: map<Field, map<V, set<Key>>>)
    ensures forall f, v :: At(r, f, v) == At(ix, f, v) - {k}
  {
    r := ix;
    var left := ix.Keys;
    while left != {}
      invariant left <= r.Keys
      invariant forall f | f in left :: f in ix && r[f] == ix[f]
      invariant forall f, v | f !in left :: At(r, f, v) == At(ix, f, v) - {k}
      decreases left
    {
      var f :| f in left;
      left := left - {f};
      var keys := DropFromValues(r[f], k);
      r := r[f := keys];
    }
  }

  method DropFromValues<V(==)>(vm: map<V, set<Key>>, k: Key) returns (r: map<V, set<Key>>)
    ensures r.Keys == vm.Keys && forall v | v in vm :: r[v] == vm[v] - {k}
  {
    r := vm;
    var left := vm.Keys;
    while left != {}
      invariant left <= r.Keys == vm.Keys
      invariant forall v | v in vm :: r[v] == if v in left then vm[v] else vm[v] - {k}
      decreases left
    {
      var v :| v in left;
      left := left - {v};
      r := r[v := r[v] - {k}];
    }
  }

  method AddKey(ix: Memory, k: Key, fields: Fields) returns (r: Memory)
    ensures forall f, v ::
      At(r, f, v) == At(ix, f, v) + if f in fields && fields[f] == v then {k} else {}
  {
    r := ix;
    var left := fields.Keys;
    while left != {}
      invariant left <= fields.Keys
      invariant forall f, v ::
        At(r, f, v) == At(ix, f, v) + if f in fields && f !in left && fields[f] == v then {k} else {}
      decreases left
    {
      var f :| f in left;
      left := left - {f};
      var vm: map<Json, set<Key>> := if f in r then r[f] else map[];
      var keys := if fields[f] in vm then vm[fields[f]] else {};
      r := r[f := vm[fields[f] := keys + {k}]];
    }
  }

  function DropEmpty<V(==, !new)>(ix: map<Field, map<V, set<Key>>>): (r: map<Field, map<V, set<Key>>>)
    ensures Tidy(r)
    ensures forall f, v :: At(r, f, v) == At(ix, f, v)
  {
    var kept := map f | f in ix :: map v | v in ix[f] && ix[f][v] != {} :: ix[f][v];
    var r := map f | f in kept && kept[f] != map[] :: kept[f];
    assert forall f, v :: At(r, f, v) == At(ix, f, v) by {
      forall f, v
        ensures At(r, f, v) == At(ix, f, v)
      {
        if f in ix && v in ix[f] && ix[f][v] != {} {
          assert v in kept[f];
        }
      }
    }
    r
  }

  // Writes the members in some order. Of two with the same name the later one is read back.
  method Serialize(ix: Memory) returns (r: Option<NsIndex>)
    ensures r.None? <==> exists f, v :: f in ix && v in ix[f] && MemberName(v).None?
    ensures r.Some? ==> r.value.Keys == ix.Keys && forall f | f in ix :: WritesValues(ix[f], r.value[f])
  {
    var out: NsIndex := map[];
    var left := ix.Keys;
    while left != {}
      invariant left <= ix.Keys && out.Keys == ix.Keys - left
      invariant forall f, v :: f in out && v in ix[f] ==> MemberName(v).Some?
      invariant forall f | f in out :: WritesValues(ix[f], out[f])
      decreases left
    {
      var f :| f in left;
      left := left - {f};
      var values := SerializeValues(ix[f]);
      if values.None? {
        return None;
      }
      out := out[f := values.value];
    }
    r := Some(out);
  }

  ghost predicate WritesValues(vm: map<Json, set<Key>>, out: map<Value, set<Key>>) {
    && (forall v | v in vm :: MemberName(v).Some? && MemberName(v).value in out)
    && (forall t | t in out :: exists v :: v in vm && MemberName(v) == Some(t) && out[t] == vm[v])
  }

  method SerializeValues(vm: map<Json, set<Key>>) returns (r: Option<map<Value, set<Key>>>)
    ensures r.None? <==> exists v :: v in vm && MemberName(v).None?
    ensures r.Some? ==> WritesValues(vm, r.value)
  {
    var out: map<Value, set<Key>> := map[];
    var left := vm.Keys;
    while left != {}
      invariant left <= vm.Keys
      invariant forall v | v in vm && v !in left :: MemberName(v).Some? && MemberName(v).value in out
      invariant forall t | t in out :: exists v :: v in vm && MemberName(v) == Some(t) && out[t] == vm[v]
      decreases left
    {
      var v :| v in left;
      left := left - {v};
      if MemberName(v).None? {
        return None;
      }
      out := out[MemberName(v).value := vm[v]];
    }
    r := Some(out);
  }

  // What the index in memory lists before it is written.
  ghost predicate IsListed(before: NsIndex, k: Key, fields: Fields, ix: Memory) {
    && Tidy(ix)
    && forall f, v ::
         At(ix, f, v) == (if v.JString? then At(before, f, v.text) - {k} else {})
                         + if f in fields && fields[f] == v then {k} else {}
  }

  // So it can be written if and only if the new values can.
  lemma ListsNamed(before: NsIndex, k: Key, fields: Fields, ix: Memory)
    requires IsListed(before, k, fields, ix)
    ensures (exists f, v :: f in ix && v in ix[f] && MemberName(v).None?) <==> !AllNamed(fields)
  {
    if f, v :| f in ix && v in ix[f] && MemberName(v).None? {
      assert At(ix, f, v) != {};
    }
    if f :| f in fields && MemberName(fields[f]).None? {
      assert k in At(ix, f, fields[f]);
    }
  }

  lemma WrittenIs(before: NsIndex, k: Key, fields: Fields, ix: Memory, after: NsIndex)
    requires IsListed(before, k, fields, ix) && AllNamed(fields)
    requires after.Keys == ix.Keys && forall f | f in ix :: WritesValues(ix[f], after[f])
    ensures Rewritten(before, k, fields, after)
  {
    forall f, v
      ensures Relisted(At(before, f, v) - {k}, k, fields, f, v, At(after, f, v))
    {
      ListsOne(before, k, fields, ix, after, f, v);
    }
    WrittenIsTidy(ix, after);
  }

  lemma WrittenIsTidy(ix: Memory, after: NsIndex)
    requires Tidy(ix)
    requires after.Keys == ix.Keys && forall f | f in ix :: WritesValues(ix[f], after[f])
    ensures Tidy(after)
  {
    forall f | f in after
      ensures after[f] != map[]
    {
      var v :| v in ix[f];
      assert MemberName(v).value in after[f];
    }
  }

  // A name is written for the string, for the new value of k, or for both.
  lemma ListsOne(before: NsIndex, k: Key, fields: Fields, ix: Memory, after: NsIndex, f: Field, t: Value)
    requires IsListed(before, k, fields, ix)
    requires after.Keys == ix.Keys && forall f | f in ix :: WritesValues(ix[f], after[f])
    ensures Relisted(At(before, f, t) - {k}, k, fields, f, t, At(after, f, t))
  {
    if f in after && t in after[f] {
      var v :| v in ix[f] && MemberName(v) == Some(t) && after[f][t] == ix[f][v];
      ListedOnce(before, k, fields, ix, f, t, v);
    } else {
      forall v | MemberName(v) == Some(t)
        ensures At(ix, f, v) == {}
      {
        assert f in ix ==> v !in ix[f];
      }
      ListedNowhere(before, k, fields, ix, f, t);
    }
  }

  lemma ListedOnce(before: NsIndex, k: Key, fields: Fields, ix: Memory, f: Field, t: Value, v: Json)
    requires IsListed(before, k, fields, ix)
    requires f in ix && v in ix[f] && MemberName(v) == Some(t)
    ensures Relisted(At(before, f, t) - {k}, k, fields, f, t, ix[f][v])
  {
    assert ix[f][v] == At(ix, f, v) != {};
  }

  lemma ListedNowhere(before: NsIndex, k: Key, fields: Fields, ix: Memory, f: Field, t: Value)
    requires IsListed(before, k, fields, ix)
    requires forall v :: MemberName(v) == Some(t) ==> At(ix, f, v) == {}
    ensures Relisted(At(before, f, t) - {k}, k, fields, f, t, {})
  {
    assert At(ix, f, JString(t)) == {};
    assert f in fields ==> k in At(ix, f, fields[f]);
  }

  lemma SameIndex(before: NsIndex, k: Key, after: NsIndex)
    requires IsReindexed(before, k, map[], after)
    ensures after == Reindexed(before, k, map[])
  {
    ReindexedIs(before, k, map[]);
    TidyIsUnique(after, Reindexed(before, k, map[]));
  }

  // ----- the branches of a query -----

  method Matching(ix: NsIndex, filter: QueryFilter) returns (keys: set<Key>)
    ensures forall k :: k in keys <==> Matches(ix, filter, k)
  {
    if filter.All? {
      keys := EveryKey(ix);
      return;
    }
    if filter.field !in ix {
      return {};
    }
    var vm := ix[filter.field];
    match filter {
      case Equals(_, value) => keys := if value.JString? && value.text in vm then vm[value.text] else {};
      case NotEquals(_, value) => keys := KeysUnder(vm, set v | v in vm.Keys && JString(v) != value);
      case In(_, values) => keys := KeysUnder(vm, set v | v in vm.Keys && JString(v) in values);
      case NotIn(_, values) => keys := KeysUnder(vm, set v | v in vm.Keys && JString(v) !in values);
    }
    forall k
      ensures k in keys <==> Matches(ix, filter, k)
    {
      assert forall v :: k in At(ix, filter.field, v) ==> v in vm;
      if k in keys {
        var v :| v in vm && k in vm[v] && Asks(filter, filter.field, v);
        assert k in At(ix, filter.field, v);
      }
    }
  }

  method EveryKey(ix: NsIndex) returns (keys: set<Key>)
    ensures forall k :: k in keys <==> exists f, v :: k in At(ix, f, v)
  {
    keys := {};
    var left := ix.Keys;
    while left != {}
      invariant left <= ix.Keys
      invariant forall k :: k in keys <==> exists f, v :: f !in left && k in At(ix, f, v)
      decreases left
    {
      var f :| f in left;
      var more := KeysUnder(ix[f], ix[f].Keys);
      assert forall k :: k in more <==> exists v :: k in At(ix, f, v) by {
        assert forall v :: v in ix[f] ==> ix[f][v] == At(ix, f, v);
      }
      left := left - {f};
      keys := keys + more;
    }
  }

  // The union of the key sets of the picked values.
  method KeysUnder(vm: map<Value, set<Key>>, picked: set<Value>) returns (keys: set<Key>)
    ensures forall k :: k in keys <==> exists v :: v in picked && v in vm && k in vm[v]
  {
    keys := {};
    var left := picked;
    while left != {}
      invariant left <= picked
      invariant forall k :: k in keys <==> exists v :: v in picked - left && v in vm && k in vm[v]
      decreases left
    {
      var v :| v in left;
      left := left - {v};
      if v in vm {
        keys := keys + vm[v];
      }
    }
  }
}
