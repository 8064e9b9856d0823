/** The transaction-scoped cache in front of contract storage. Keys are modelled as ordered numbers, and a
    cache over a `BTreeMap` is read in ascending key order. */
module TransactionCache {
  import opened Machine

  datatype Entry<V> = Entry(value: V, dirty: bool)

  type Entries<V> = map<nat, Entry<V>>

  /** The keys of a set in ascending order. */
  function Ascending(keys: set<nat>): (list: seq<nat>)
    ensures Increasing(list)
    ensures forall k :: k in list <==> k in keys
    decreases |keys|
  {
    if keys == {} then []
    else
      SmallestExists(keys);
      var least :| least in keys && forall k :: k in keys ==> least <= k;
      var rest := Ascending(keys - {least});
      PrependIncreasing(least, rest, keys);
      [least] + rest
  }

  lemma PrependIncreasing(least: nat, rest: seq<nat>, keys: set<nat>)
    requires Increasing(rest) && least in keys
    requires forall k :: k in rest <==> k in keys - {least}
    requires forall k :: k in keys ==> least <= k
    ensures Increasing([least] + rest)
    ensures forall k :: k in [least] + rest <==> k in keys
  {
    forall i | 0 <= i < |rest| ensures least < rest[i] {
      assert rest[i] in rest;
    }
  }

  predicate Increasing(list: seq<nat>) {
    forall i, j :: 0 <= i < j < |list| ==> list[i] < list[j]
  }

  lemma SmallestExists(keys: set<nat>)
    requires keys != {}
    ensures exists least :: least in keys && forall k :: k in keys ==> least <= k
  {
    var x :| x in keys;
    SmallestFrom(keys, x);
  }

  lemma {:induction false} SmallestFrom(keys: set<nat>, x: nat)
    requires x in keys
    ensures exists least :: least in keys && forall k :: k in keys ==> least <= k
    decreases |keys|
  {
    if y :| y in keys && y < x {
      SmallestFrom(keys - {x}, y);
      var least :| least in keys - {x} && forall k :: k in keys - {x} ==> least <= k;
      forall k | k in keys ensures least <= k {
        assert k == x || k in keys - {x};
      }
    }
  }

  function DirtySet<V>(entries: Entries<V>): set<nat> {
    set k | k in entries && entries[k].dirty
  }

  class Cache<V(==)> {
    var entries: Entries<V>

    constructor ()
      ensures entries == map[]
    {
      entries := map[];
    }

    method Get(key: nat) returns (r: Option<V>)
      ensures r == if key in entries then Some(entries[key].value) else None
    {
      if key in entries {
        return Some(entries[key].value);
      }
      return None;
    }

    /** On a miss the store is read and the value kept, clean. */
    method GetOrInsertWith(key: nat, onMiss: nat -> V) returns (v: V)
      modifies this
      ensures entries == Loaded(old(entries), key, onMiss)
      ensures v == entries[key].value
    {
      if key !in entries {
        entries := entries[key := Entry(onMiss(key), false)];
      }
      return entries[key].value;
    }

    method Set(key: nat, value: V)
      modifies this
      ensures entries == old(entries)[key := Entry(value, true)]
    {
      entries := entries[key := Entry(value, true)];
    }

    method Invalidate(key: nat)
      modifies this
      ensures entries == old(entries) - {key}
    {
      entries := entries - {key};
    }

    method InvalidateAll()
      modifies this
      ensures entries == map[]
    {
      entries := map[];
    }

    /** The dirty keys, filtered out of the entries in ascending order. */
    function DirtyKeys(): (keys: seq<nat>)
      reads this
      ensures Increasing(keys)
      ensures forall k :: k in keys <==> k in DirtySet(entries)
    {
      OnlyDirty(entries, Ascending(entries.Keys))
    }
  }

  /** Keeps the keys whose entry is dirty, in the order given. */
  function OnlyDirty<V>(entries: Entries<V>, order: seq<nat>): (keys: seq<nat>)
    requires forall i :: 0 <= i < |order| ==> order[i] in entries
    ensures forall k :: k in keys <==> k in order && entries[k].dirty
    ensures Increasing(order) ==> Increasing(keys)
  {
    if order == [] then []
    else
      var n := |order| - 1;
      var rest := OnlyDirty(entries, order[..n]);
      assert order == order[..n] + [order[n]];
      AppendIncreasing(order, rest);
      if entries[order[n]].dirty then rest + [order[n]] else rest
  }

  lemma AppendIncreasing(order: seq<nat>, rest: seq<nat>)
    requires order != [] && forall k :: k in rest ==> k in order[..|order| - 1]
    ensures Increasing(order) ==> Increasing(order[..|order| - 1])
    ensures Increasing(order) && Increasing(rest) ==> Increasing(rest + [order[|order| - 1]])
  {
    if Increasing(order) && Increasing(rest) {
      forall i | 0 <= i < |rest| ensures rest[i] < order[|order| - 1] {
        assert rest[i] in rest;
      }
    }
  }

  function Loaded<V>(entries: Entries<V>, key: nat, store: nat -> V): (r: Entries<V>)
    ensures key in r
  {
    if key in entries then entries else entries[key := Entry(store(key), false)]
  }

  // ----- against a plain map ---------------------------------------------------------------

  datatype Op<V> = Read(key: nat) | Write(key: nat, value: V) | Drop(key: nat) | DropAll

  function Next<V>(entries: Entries<V>, op: Op<V>, store: nat -> V): Entries<V> {
    match op
    case Read(key) => Loaded(entries, key, store)
    case Write(key, value) => entries[key := Entry(value, true)]
    case Drop(key) => entries - {key}
    case DropAll => map[]
  }

  function After<V>(run: seq<Op<V>>, store: nat -> V): Entries<V> {
    if run == [] then map[] else Next(After(run[..|run| - 1], store), run[|run| - 1], store)
  }

  /** What a read of the key answers: the entry if there is one, the store's value otherwise. */
  function Seen<V>(entries: Entries<V>, store: nat -> V, key: nat): V {
    if key in entries then entries[key].value else store(key)
  }

  /** The plain map: every write, and nothing else. */
  function Written<V>(run: seq<Op<V>>): map<nat, V> {
    if run == [] then map[]
    else
      var before := Written(run[..|run| - 1]);
      match run[|run| - 1]
      case Write(key, value) => before[key := value]
      case _ => before
  }

  /** No invalidation ever meets a dirty entry. */
  ghost predicate DropsOnlyClean<V>(run: seq<Op<V>>, store: nat -> V) {
    run != [] ==>
      var earlier, op := run[..|run| - 1], run[|run| - 1];
      && DropsOnlyClean(earlier, store)
      && (op.Drop? ==> op.key !in DirtySet(After(earlier, store)))
      && (op.DropAll? ==> DirtySet(After(earlier, store)) == {})
  }

  /** Clean entries repeat the store; dirty ones are exactly the writes. */
  ghost predicate Refines<V>(entries: Entries<V>, written: map<nat, V>, store: nat -> V) {
    && (forall k :: k in entries && !entries[k].dirty ==> entries[k].value == store(k))
    && (forall k :: k in written <==> k in entries && entries[k].dirty)
    && (forall k :: k in written ==> entries[k].value == written[k])
  }

  lemma {:induction false} CacheRefines<V>(run: seq<Op<V>>, store: nat -> V)
    requires DropsOnlyClean(run, store)
    ensures Refines(After(run, store), Written(run), store)
  {
    if run == [] {
    } else {
      var before := After(run[..|run| - 1], store);
      CacheRefines(run[..|run| - 1], store);
      assert forall k :: k in DirtySet(before) <==> k in before && before[k].dirty;
    }
  }

  /** Every read answers what a plain map with the same writes would; and the dirty keys are the
      written ones, so writing their entries back yields that map. */
  lemma ReadsAsPlainMap<V>(run: seq<Op<V>>, store: nat -> V, key: nat)
    requires DropsOnlyClean(run, store)
    ensures var entries := After(run, store);
      && Seen(entries, store, key) == GetOr(Written(run), key, store(key))
      && Loaded(entries, key, store)[key].value == GetOr(Written(run), key, store(key))
      && DirtySet(entries) == Written(run).Keys
      && (map k | k in DirtySet(entries) :: entries[k].value) == Written(run)
  {
    CacheRefines(run, store);
  }

  /** Dropping a key leaves every read alone exactly when the entry is absent or agrees with the
      store; a dirty entry that differs is lost. */
  lemma DropLosesDirtyValues<V>(entries: Entries<V>, store: nat -> V, key: nat)
    ensures (forall k :: Seen(entries - {key}, store, k) == Seen(entries, store, k))
       <==> key !in entries || entries[key].value == store(key)
  {
    if key in entries && entries[key].value != store(key) {
      assert Seen(entries - {key}, store, key) != Seen(entries, store, key);
    }
  }

  /** Writing a key and dropping it loses the write, unless the store held the value anyway. */
  lemma WriteThenDrop<V>(store: nat -> V, key: nat, value: V)
    ensures var run := [Write(key, value)] + [Drop(key)];
      && Written(run) == map[key := value]
      && (Seen(After(run, store), store, key) == value <==> store(key) == value)
  {
    var first: seq<Op<V>> := [Write(key, value)];
    var run := first + [Drop(key)];
    assert run[..1] == first && first[..0] == [];
    assert After(first, store) == map[key := Entry(value, true)];
    assert Written(first) == map[key := value];
  }
}
