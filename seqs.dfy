/**
 * The JavaScript array operations the reducers and pages are built from
 * (`filter`, `findIndex`, `find`, `map` with a conditional replacement),
 * together with the keyed update and removal that every entity list uses
 * and the uniqueness of keys those operations keep.
 */
module Seqs {
  import opened Wrappers

  /** `s.filter(keep)`: the elements `keep` accepts, in their original order. */
  function Filter<T>(s: seq<T>, keep: T -> bool): (r: seq<T>)
    ensures |r| <= |s|
    ensures forall i :: 0 <= i < |r| ==> r[i] in s && keep(r[i])
    ensures forall i :: 0 <= i < |s| && keep(s[i]) ==> s[i] in r
  {
    if s == [] then [] else (if keep(s[0]) then [s[0]] else []) + Filter(s[1..], keep)
  }

  /** Filtering distributes over concatenation: relative order is kept. */
  lemma {:induction false} FilterAppend<T>(a: seq<T>, b: seq<T>, keep: T -> bool)
    ensures Filter(a + b, keep) == Filter(a, keep) + Filter(b, keep)
  {
    if a == [] {
      assert a + b == b;
    } else {
      assert (a + b)[1..] == a[1..] + b;
      FilterAppend(a[1..], b, keep);
    }
  }

  /**
   * `r` sits inside `s` at the strictly increasing positions `idx`: the
   * shape of a subsequence.
   */
  ghost predicate Embeds<T>(s: seq<T>, r: seq<T>, idx: seq<nat>)
  {
    && |idx| == |r|
    && (forall k :: 0 <= k < |idx| ==> idx[k] < |s| && r[k] == s[idx[k]])
    && (forall k, l :: 0 <= k < l < |idx| ==> idx[k] < idx[l])
  }

  /** An embedding into the tail of `s` is, shifted by one, an embedding into `s` avoiding position 0. */
  lemma ShiftEmbedding<T>(s: seq<T>, r: seq<T>, rest: seq<nat>) returns (shifted: seq<nat>)
    requires |s| > 0 && Embeds(s[1..], r, rest)
    ensures Embeds(s, r, shifted)
    ensures forall k :: 0 <= k < |shifted| ==> 0 < shifted[k]
  {
    shifted := seq(|rest|, k requires 0 <= k < |rest| => rest[k] + 1);
    forall k | 0 <= k < |rest| ensures shifted[k] < |s| && r[k] == s[shifted[k]] {
      assert s[rest[k] + 1] == s[1..][rest[k]];
    }
  }

  /** Position 0 can be put in front of an embedding that avoids it. */
  lemma ConsEmbedding<T>(s: seq<T>, r: seq<T>, idx: seq<nat>)
    requires |s| > 0 && Embeds(s, r, idx)
    requires forall k :: 0 <= k < |idx| ==> 0 < idx[k]
    ensures Embeds(s, [s[0]] + r, [0] + idx)
  {
    var r' := [s[0]] + r;
    var idx' := [0] + idx;
    forall k | 0 < k < |idx'| ensures idx'[k] == idx[k - 1] && r'[k] == r[k - 1] { }
  }

  /**
   * Filtering keeps relative order: the kept elements sit at strictly
   * increasing positions of the original.
   */
  lemma {:induction false} FilterEmbeds<T>(s: seq<T>, keep: T -> bool) returns (idx: seq<nat>)
    ensures |idx| == |Filter(s, keep)|
    ensures forall k :: 0 <= k < |idx| ==> idx[k] < |s| && Filter(s, keep)[k] == s[idx[k]]
    ensures forall k, l :: 0 <= k < l < |idx| ==> idx[k] < idx[l]
  {
    if s == [] {
      idx := [];
    } else {
      var rest := FilterEmbeds(s[1..], keep);
      var shifted := ShiftEmbedding(s, Filter(s[1..], keep), rest);
      if keep(s[0]) {
        ConsEmbedding(s, Filter(s[1..], keep), shifted);
        idx := [0] + shifted;
      } else {
        idx := shifted;
      }
      assert Embeds(s, Filter(s, keep), idx);
    }
  }

  /** A filter that rejects nothing leaves the sequence as it was. */
  lemma {:induction false} FilterKeepsAll<T>(s: seq<T>, keep: T -> bool)
    ensures (forall x :: x in s ==> keep(x)) ==> Filter(s, keep) == s
  {
    if s != [] {
      FilterKeepsAll(s[1..], keep);
    }
  }

  /** Filtering keeps every copy of an accepted element and no copy of a rejected one. */
  lemma {:induction false} FilterCounts<T>(s: seq<T>, keep: T -> bool)
    ensures forall x :: multiset(Filter(s, keep))[x] == if keep(x) then multiset(s)[x] else 0
  {
    if s != [] {
      FilterCounts(s[1..], keep);
      assert s == [s[0]] + s[1..];
    }
  }

  /** `s.findIndex(p)`: the first index whose element satisfies `p`, or -1. */
  function FindIndex<T>(s: seq<T>, p: T -> bool): (r: int)
    ensures -1 <= r < |s|
    ensures r == -1 <==> forall i :: 0 <= i < |s| ==> !p(s[i])
    ensures 0 <= r ==> p(s[r]) && forall i :: 0 <= i < r ==> !p(s[i])
  {
    if s == [] then -1
    else if p(s[0]) then 0
    else
      var k := FindIndex(s[1..], p);
      if k == -1 then -1 else k + 1
  }

  /** Searching a concatenation searches the first part, then the second. */
  lemma FindIndexAppend<T>(a: seq<T>, b: seq<T>, p: T -> bool)
    ensures FindIndex(a + b, p) ==
      if FindIndex(a, p) != -1 then FindIndex(a, p)
      else if FindIndex(b, p) == -1 then -1
      else |a| + FindIndex(b, p)
  {
    var ab := a + b;
    assert forall i :: 0 <= i < |a| ==> ab[i] == a[i];
    assert forall i :: 0 <= i < |b| ==> ab[|a| + i] == b[i];
    var k := FindIndex(a, p);
    if k == -1 {
      var m := FindIndex(b, p);
      forall i | 0 <= i < |ab| && (m == -1 || i < |a| + m) ensures !p(ab[i]) {
        if i >= |a| {
          assert ab[i] == b[i - |a|];
        }
      }
    }
  }

  /** `s.find(p)`: the first element satisfying `p`, if any. */
  function Find<T>(s: seq<T>, p: T -> bool): (r: Option<T>)
    ensures r.None? <==> forall x :: x in s ==> !p(x)
    ensures r.Some? ==> r.value in s && p(r.value)
    ensures r.Some? ==> exists i :: 0 <= i < |s| && s[i] == r.value && p(s[i]) && forall j :: 0 <= j < i ==> !p(s[j])
  {
    var k := FindIndex(s, p);
    if k == -1 then None else Some(s[k])
  }

  /**
   * Dropping elements that can never satisfy `p` does not change what
   * `find(p)` returns.
   */
  lemma {:induction false} FindAfterFilter<T>(s: seq<T>, keep: T -> bool, p: T -> bool)
    requires forall x :: p(x) ==> keep(x)
    ensures Find(Filter(s, keep), p) == Find(s, p)
  {
    if s != [] {
      FindAfterFilter(s[1..], keep, p);
      var rest := Filter(s[1..], keep);
      FindFirst(s, p);
      if keep(s[0]) {
        var f := [s[0]] + rest;
        assert Filter(s, keep) == f;
        assert f[1..] == rest;
        FindFirst(f, p);
      } else {
        assert Filter(s, keep) == rest;
      }
    }
  }

  /** `find` looks at the head first, then at the rest. */
  lemma FindFirst<T>(s: seq<T>, p: T -> bool)
    requires s != []
    ensures Find(s, p) == if p(s[0]) then Some(s[0]) else Find(s[1..], p)
  {
  }

  /** `s.map(x => p(x) ? y : x)`: every element satisfying `p` becomes `y`. */
  function ReplaceWhere<T>(s: seq<T>, p: T -> bool, y: T): (r: seq<T>)
    ensures |r| == |s|
    ensures forall i :: 0 <= i < |s| ==> r[i] == (if p(s[i]) then y else s[i])
  {
    if s == [] then [] else [if p(s[0]) then y else s[0]] + ReplaceWhere(s[1..], p, y)
  }

  /** The predicate "has key k" under the key function `key`. */
  function HasKey<T, K(==)>(key: T -> K, k: K): T -> bool
  {
    x => key(x) == k
  }

  /** The predicate "does not have key k": what a delete-by-id filter keeps. */
  function LacksKey<T, K(==)>(key: T -> K, k: K): T -> bool
  {
    x => key(x) != k
  }

  /** No two positions of `s` carry the same key. */
  ghost predicate UniqueKeys<T, K>(s: seq<T>, key: T -> K)
  {
    forall i, j :: 0 <= i < j < |s| ==> key(s[i]) != key(s[j])
  }

  /** The keys present in `s`. */
  ghost function Keys<T, K>(s: seq<T>, key: T -> K): set<K>
  {
    set x | x in s :: key(x)
  }

  /**
   * The update-by-id reducer: `i = s.findIndex(x => key(x) === key(y));
   * if (i !== -1) s[i] = y`.
   */
  function UpdateByKey<T, K(==)>(s: seq<T>, key: T -> K, y: T): (r: seq<T>)
    ensures |r| == |s|
    ensures (forall i :: 0 <= i < |s| ==> key(s[i]) != key(y)) ==> r == s
    ensures forall i :: 0 <= i < |s| ==>
      r[i] == (if key(s[i]) == key(y) && (forall j :: 0 <= j < i ==> key(s[j]) != key(y)) then y else s[i])
  {
    var i := FindIndex(s, HasKey(key, key(y)));
    if i == -1 then s else s[i := y]
  }

  /** The delete-by-id reducer: `s.filter(x => key(x) !== k)`. */
  function RemoveByKey<T, K(==)>(s: seq<T>, key: T -> K, k: K): (r: seq<T>)
    ensures forall i :: 0 <= i < |r| ==> r[i] in s && key(r[i]) != k
    ensures forall i :: 0 <= i < |s| && key(s[i]) != k ==> s[i] in r
    ensures (forall x :: x in s ==> key(x) != k) ==> r == s
    ensures forall x {:trigger multiset(r)[x]} :: x in s ==> multiset(r)[x] == if key(x) != k then multiset(s)[x] else 0
  {
    FilterKeepsAll(s, LacksKey(key, k));
    FilterCounts(s, LacksKey(key, k));
    Filter(s, LacksKey(key, k))
  }

  /** Filtering a sequence with unique keys leaves the keys unique. */
  lemma {:induction false} FilterKeepsUniqueKeys<T, K>(s: seq<T>, keep: T -> bool, key: T -> K)
    requires UniqueKeys(s, key)
    ensures UniqueKeys(Filter(s, keep), key)
  {
    if s != [] {
      var rest := Filter(s[1..], keep);
      FilterKeepsUniqueKeys(s[1..], keep, key);
      if keep(s[0]) {
        HeadKeyUnique(s, key);
        var r := [s[0]] + rest;
        assert Filter(s, keep) == r;
        forall i, j | 0 <= i < j < |r| ensures key(r[i]) != key(r[j]) {
          if i == 0 {
            assert r[j] == rest[j - 1] && rest[j - 1] in s[1..];
          } else {
            assert r[i] == rest[i - 1] && r[j] == rest[j - 1];
          }
        }
      }
    }
  }

  /** With unique keys, no later element shares the key of the first. */
  lemma HeadKeyUnique<T, K>(s: seq<T>, key: T -> K)
    requires UniqueKeys(s, key) && s != []
    ensures forall x :: x in s[1..] ==> key(x) != key(s[0])
  {
    forall x | x in s[1..] ensures key(x) != key(s[0]) {
      var m :| 0 <= m < |s[1..]| && s[1..][m] == x;
      assert s[m + 1] == x;
    }
  }

  /** Removing by key keeps the keys unique. */
  lemma RemoveByKeyKeepsUniqueKeys<T, K>(s: seq<T>, key: T -> K, k: K)
    requires UniqueKeys(s, key)
    ensures UniqueKeys(RemoveByKey(s, key, k), key)
    ensures k !in Keys(RemoveByKey(s, key, k), key)
  {
    FilterKeepsUniqueKeys(s, LacksKey(key, k), key);
  }

  /**
   * Updating by key keeps the keys unique: the replaced position keeps the
   * key it had.
   */
  lemma UpdateByKeyKeepsUniqueKeys<T, K>(s: seq<T>, key: T -> K, y: T)
    requires UniqueKeys(s, key)
    ensures UniqueKeys(UpdateByKey(s, key, y), key)
    ensures Keys(UpdateByKey(s, key, y), key) == Keys(s, key)
  {
    var r := UpdateByKey(s, key, y);
    assert forall i :: 0 <= i < |s| ==> key(r[i]) == key(s[i]);
    forall k | k in Keys(r, key) ensures k in Keys(s, key) {
      var x :| x in r && key(x) == k;
      var i :| 0 <= i < |r| && r[i] == x;
      assert s[i] in s;
    }
    forall k | k in Keys(s, key) ensures k in Keys(r, key) {
      var x :| x in s && key(x) == k;
      var i :| 0 <= i < |s| && s[i] == x;
      assert r[i] in r;
    }
  }

  /** Appending an element whose key is not yet used keeps the keys unique. */
  lemma AppendFreshKeepsUniqueKeys<T, K>(s: seq<T>, key: T -> K, y: T)
    requires UniqueKeys(s, key)
    requires key(y) !in Keys(s, key)
    ensures UniqueKeys(s + [y], key)
  {
    forall i | 0 <= i < |s| ensures key(s[i]) != key(y) {
      assert s[i] in s;
    }
  }

  /** Filtering never adds keys. */
  lemma FilterKeys<T, K>(s: seq<T>, keep: T -> bool, key: T -> K)
    ensures Keys(Filter(s, keep), key) <= Keys(s, key)
  {
    var r := Filter(s, keep);
    forall k | k in Keys(r, key) ensures k in Keys(s, key) {
      var x :| x in r && key(x) == k;
      var i :| 0 <= i < |r| && r[i] == x;
    }
  }

  /** Appending an element adds exactly its key. */
  lemma AppendKeys<T, K>(s: seq<T>, key: T -> K, y: T)
    ensures Keys(s + [y], key) == Keys(s, key) + {key(y)}
  {
    forall k | k in Keys(s, key) ensures k in Keys(s + [y], key) {
      var x :| x in s && key(x) == k;
    }
    assert y in s + [y];
  }

  /**
   * Replacing, in place, the elements with `y`'s key by `y` keeps the keys
   * unique and the same.
   */
  lemma ReplaceByKeyKeepsUniqueKeys<T, K>(s: seq<T>, key: T -> K, y: T)
    requires UniqueKeys(s, key)
    ensures UniqueKeys(ReplaceWhere(s, HasKey(key, key(y)), y), key)
    ensures Keys(ReplaceWhere(s, HasKey(key, key(y)), y), key) == Keys(s, key)
  {
    var r := ReplaceWhere(s, HasKey(key, key(y)), y);
    assert forall i :: 0 <= i < |s| ==> key(r[i]) == key(s[i]);
    forall k | k in Keys(r, key) ensures k in Keys(s, key) {
      var x :| x in r && key(x) == k;
      var i :| 0 <= i < |r| && r[i] == x;
      assert s[i] in s;
    }
    forall k | k in Keys(s, key) ensures k in Keys(r, key) {
      var x :| x in s && key(x) == k;
      var i :| 0 <= i < |s| && s[i] == x;
      assert r[i] in r;
    }
  }

  /** Removing a key that occurs once, in a list with unique keys, removes exactly one element. */
  lemma {:induction false} RemoveByKeyRemovesOne<T, K>(s: seq<T>, key: T -> K, k: K)
    requires UniqueKeys(s, key) && k in Keys(s, key)
    ensures |RemoveByKey(s, key, k)| == |s| - 1
  {
    var x :| x in s && key(x) == k;
    var rest := s[1..];
    if key(s[0]) == k {
      forall y | y in rest ensures LacksKey(key, k)(y) {
        var j :| 0 <= j < |rest| && rest[j] == y;
        assert s[j + 1] == y;
      }
      FilterKeepsAll(rest, LacksKey(key, k));
      assert Filter(s, LacksKey(key, k)) == Filter(rest, LacksKey(key, k));
    } else {
      var i :| 0 <= i < |s| && s[i] == x;
      assert rest[i - 1] == x;
      assert x in rest;
      assert UniqueKeys(rest, key) by {
        forall a, b | 0 <= a < b < |rest| ensures key(rest[a]) != key(rest[b]) {
          assert rest[a] == s[a + 1] && rest[b] == s[b + 1];
        }
      }
      RemoveByKeyRemovesOne(rest, key, k);
      assert Filter(s, LacksKey(key, k)) == [s[0]] + Filter(rest, LacksKey(key, k));
    }
  }
}
