/**
 * The handler's frequency tables. Kotlin's `mutableMapOf()` and `toMutableMap()` build
 * LinkedHashMaps, whose iteration order (and so the order of the rows of the summary page)
 * is the order in which keys were first inserted. A table is therefore modelled as a
 * sequence of (key, count) entries in insertion order.
 */
module CountTables {
  import opened Wrappers

  type Table<K> = seq<(K, nat)>

  function KeysOf<K>(t: Table<K>): (ks: seq<K>)
    ensures |ks| == |t|
    ensures forall i :: 0 <= i < |t| ==> ks[i] == t[i].0
  {
    seq(|t|, i requires 0 <= i < |t| => t[i].0)
  }

  /** No key occurs twice, as in any map. */
  predicate Distinct<K(==,!new)>(t: Table<K>) {
    forall i, j :: 0 <= i < j < |t| ==> t[i].0 != t[j].0
  }

  /** `this[key]`: the count of the first entry with that key, if any. */
  function Lookup<K(==,!new)>(t: Table<K>, k: K): Option<nat> {
    if |t| == 0 then None
    else if t[0].0 == k then Some(t[0].1)
    else Lookup(t[1..], k)
  }

  /** A key has a value exactly when it is one of the table's keys. */
  lemma {:induction false} LookupFindsKeys<K(!new)>(t: Table<K>, k: K)
    ensures Lookup(t, k) == None <==> k !in KeysOf(t)
  {
    if |t| > 0 {
      assert KeysOf(t) == [t[0].0] + KeysOf(t[1..]);
      LookupFindsKeys(t[1..], k);
    }
  }

  /** `this.contains(key)`. */
  predicate Contains<K(==,!new)>(t: Table<K>, k: K) {
    k in KeysOf(t)
  }

  /** The count under a key, zero for a key that is not in the table. */
  function Count<K(==,!new)>(t: Table<K>, k: K): nat {
    Lookup(t, k).GetOr(0)
  }

  /** `map.values.sum()`. */
  function Sum<K>(t: Table<K>): nat {
    if |t| == 0 then 0 else Sum(t[..|t| - 1]) + t[|t| - 1].1
  }

  /**
   * `this[key] = value` on a LinkedHashMap: a key already present keeps its position and gets
   * the new value; a new key is appended at the end; every other key keeps its value.
   */
  function Put<K(==,!new)>(t: Table<K>, k: K, v: nat): Table<K> {
    if |t| == 0 then [(k, v)]
    else if t[0].0 == k then [(k, v)] + t[1..]
    else [t[0]] + Put(t[1..], k, v)
  }

  lemma {:induction false} PutKeys<K(!new)>(t: Table<K>, k: K, v: nat)
    ensures KeysOf(Put(t, k, v)) == if Contains(t, k) then KeysOf(t) else KeysOf(t) + [k]
  {
    if |t| > 0 {
      assert KeysOf(t) == [t[0].0] + KeysOf(t[1..]);
      if t[0].0 != k {
        PutKeys(t[1..], k, v);
        assert KeysOf(Put(t, k, v)) == [t[0].0] + KeysOf(Put(t[1..], k, v));
      }
    }
  }

  lemma {:induction false} PutLookup<K(!new)>(t: Table<K>, k: K, v: nat, j: K)
    ensures Lookup(Put(t, k, v), j) == if j == k then Some(v) else Lookup(t, j)
  {
    if |t| > 0 && t[0].0 != k {
      PutLookup(t[1..], k, v, j);
      assert Put(t, k, v)[1..] == Put(t[1..], k, v);
    }
  }

  lemma {:induction false} SumPut<K(!new)>(t: Table<K>, k: K, v: nat)
    ensures Sum(Put(t, k, v)) + Count(t, k) == Sum(t) + v
  {
    if |t| == 0 {
    } else if t[0].0 == k {
      SumCons(t[0], t[1..]);
      SumCons((k, v), t[1..]);
      assert t == [t[0]] + t[1..];
    } else {
      SumPut(t[1..], k, v);
      SumCons(t[0], t[1..]);
      SumCons(t[0], Put(t[1..], k, v));
      assert t == [t[0]] + t[1..];
    }
  }

  lemma {:induction false} SumCons<K>(e: (K, nat), t: Table<K>)
    ensures Sum([e] + t) == e.1 + Sum(t)
  {
    if |t| > 0 {
      SumCons(e, t[..|t| - 1]);
      assert ([e] + t)[..|t|] == [e] + t[..|t| - 1];
    } else {
      assert [e] + t == [e];
      assert [e][..0] == [];
    }
  }

  lemma DistinctByKeys<K(!new)>(t: Table<K>, u: Table<K>)
    requires Distinct(t)
    requires KeysOf(u) == KeysOf(t) || (|u| > 0 && KeysOf(u) == KeysOf(t) + [u[|u| - 1].0] && !Contains(t, u[|u| - 1].0))
    ensures Distinct(u)
  {
    assert |u| >= |t|;
    forall i, j | 0 <= i < j < |u| ensures u[i].0 != u[j].0 {
      assert KeysOf(u)[i] == u[i].0 && KeysOf(u)[j] == u[j].0;
      if j < |t| {
        assert KeysOf(t)[i] == t[i].0 && KeysOf(t)[j] == t[j].0;
      } else {
        assert KeysOf(t)[i] == t[i].0;
      }
    }
  }

  /**
   * `incrementCount(key)`: the count under `key` becomes the old count plus one, or one for a
   * key that was absent (appended at the end); every other key keeps its count and position.
   */
  function Incremented<K(==,!new)>(t: Table<K>, k: K): (r: Table<K>)
    ensures Lookup(r, k) == Some(Count(t, k) + 1)
    ensures KeysOf(r) == if Contains(t, k) then KeysOf(t) else KeysOf(t) + [k]
    ensures Sum(r) == Sum(t) + 1
    ensures Distinct(t) ==> Distinct(r)
  {
    var v := Count(t, k) + 1;
    SumPut(t, k, v);
    PutKeys(t, k, v);
    PutKeepsDistinct(t, k, v);
    PutLookup(t, k, v, k);
    Put(t, k, v)
  }

  /** An absent key is counted once; every other key keeps its count. */
  lemma IncrementedLookup<K(!new)>(t: Table<K>, k: K, j: K)
    ensures !Contains(t, k) ==> Lookup(Incremented(t, k), k) == Some(1)
    ensures j != k ==> Lookup(Incremented(t, k), j) == Lookup(t, j)
  {
    LookupFindsKeys(t, k);
    PutLookup(t, k, Count(t, k) + 1, j);
  }

  lemma PutKeepsDistinct<K(!new)>(t: Table<K>, k: K, v: nat)
    ensures Distinct(t) ==> Distinct(Put(t, k, v))
  {
    var r := Put(t, k, v);
    PutKeys(t, k, v);
    if Distinct(t) {
      if !Contains(t, k) {
        assert |r| == |t| + 1 && KeysOf(r)[|t|] == k;
      }
      DistinctByKeys(t, r);
    }
  }

  /** The number of times `k` occurs in `ks`. */
  function Occurrences<K(==,!new)>(ks: seq<K>, k: K): nat {
    if |ks| == 0 then 0
    else Occurrences(ks[..|ks| - 1], k) + (if ks[|ks| - 1] == k then 1 else 0)
  }

  /** The table after `incrementCount` has been applied to each key of `ks` in turn. */
  function Tally<K(==,!new)>(init: Table<K>, ks: seq<K>): Table<K> {
    if |ks| == 0 then init else Incremented(Tally(init, ks[..|ks| - 1]), ks[|ks| - 1])
  }

  lemma TallySnoc<K(!new)>(init: Table<K>, ks: seq<K>, k: K)
    ensures Tally(init, ks + [k]) == Incremented(Tally(init, ks), k)
  {
    assert (ks + [k])[..|ks|] == ks;
  }

  /** Each key's count is its initial count plus the number of times it was recorded. */
  lemma {:induction false} TallyCount<K(!new)>(init: Table<K>, ks: seq<K>, k: K)
    ensures Count(Tally(init, ks), k) == Count(init, k) + Occurrences(ks, k)
  {
    if |ks| > 0 {
      var prefix := ks[..|ks| - 1];
      TallyCount(init, prefix, k);
      IncrementedLookup(Tally(init, prefix), ks[|ks| - 1], k);
    }
  }

  /** Every recorded key adds exactly one to the total. */
  lemma {:induction false} TallySum<K(!new)>(init: Table<K>, ks: seq<K>)
    ensures Sum(Tally(init, ks)) == Sum(init) + |ks|
  {
    if |ks| > 0 {
      TallySum(init, ks[..|ks| - 1]);
    }
  }

  /** Tallying keeps the keys distinct. */
  lemma {:induction false} TallyDistinct<K(!new)>(init: Table<K>, ks: seq<K>)
    requires Distinct(init)
    ensures Distinct(Tally(init, ks))
  {
    if |ks| > 0 {
      TallyDistinct(init, ks[..|ks| - 1]);
    }
  }

  /** A table whose keys already include every recorded key keeps its keys and their order. */
  lemma {:induction false} TallyKeepsKeys<K(!new)>(init: Table<K>, ks: seq<K>)
    requires forall i :: 0 <= i < |ks| ==> ks[i] in KeysOf(init)
    ensures KeysOf(Tally(init, ks)) == KeysOf(init)
  {
    if |ks| > 0 {
      TallyKeepsKeys(init, ks[..|ks| - 1]);
    }
  }

  /** Every key of a tallied table was there from the start or was recorded. */
  lemma {:induction false} TallyKeysFrom<K(!new)>(init: Table<K>, ks: seq<K>, k: K)
    requires k in KeysOf(Tally(init, ks))
    ensures k in KeysOf(init) || k in ks
  {
    if |ks| > 0 {
      var front := ks[..|ks| - 1];
      if k != ks[|ks| - 1] {
        TallyKeysFrom(init, front, k);
        if k in front {
          var i :| 0 <= i < |front| && front[i] == k;
          assert ks[i] == k;
        }
      }
    }
  }

  /**
   * A frequency table that the handler mutates in place, like the Kotlin `MutableMap<K, Int>`
   * fields. `IncrementCount` is the only mutator.
   */
  class CountTable<K(==,!new)> {
    var entries: Table<K>

    ghost predicate Valid()
      reads this
    {
      Distinct(entries)
    }

    constructor (init: Table<K>)
      requires Distinct(init)
      ensures Valid() && entries == init
    {
      entries := init;
    }

    /** `MutableMap<T, Int>.incrementCount(key)`. */
    method IncrementCount(key: K)
      requires Valid()
      modifies this
      ensures Valid()
      ensures entries == Incremented(old(entries), key)
      ensures forall j :: j != key ==> Lookup(entries, j) == Lookup(old(entries), j)
    {
      LookupFindsKeys(entries, key);
      forall j | j != key ensures Lookup(Incremented(entries, key), j) == Lookup(entries, j) {
        IncrementedLookup(entries, key, j);
      }
      if Contains(entries, key) {
        var incrementedCount := Lookup(entries, key).value + 1;
        assert incrementedCount == Count(entries, key) + 1;
        assert Put(entries, key, incrementedCount) == Incremented(entries, key);
        entries := Put(entries, key, incrementedCount);
      } else {
        assert Count(entries, key) == 0;
        assert Put(entries, key, 1) == Incremented(entries, key);
        entries := Put(entries, key, 1);
      }
    }
  }
}
