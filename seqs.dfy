/** Sequence helpers that the handlers get from the JavaScript library:
    de-duplication through a `Set`, `findIndex`, array overwrite-or-append,
    `filter`, numeric sort, lower-casing and `includes`. */
module Seqs {

  ghost predicate NoDup<T>(s: seq<T>)
  {
    forall i, j :: 0 <= i < j < |s| ==> s[i] != s[j]
  }

  // ---------------------------------------------------------------------
  // `[...new Set(s)]`: distinct elements in order of first occurrence

  function Dedupe<T(==)>(s: seq<T>): seq<T>
    decreases |s|
  {
    if |s| == 0 then []
    else
      var d := Dedupe(s[..|s| - 1]);
      if s[|s| - 1] in d then d else d + [s[|s| - 1]]
  }

  /** Appending one element extends the result exactly when the element is new. */
  lemma DedupeSnoc<T>(s: seq<T>, x: T)
    ensures Dedupe(s + [x]) == if x in Dedupe(s) then Dedupe(s) else Dedupe(s) + [x]
  {
    assert (s + [x])[..|s|] == s;
  }

  /** The result has no duplicates and holds exactly the elements of the input. */
  lemma {:induction false} DedupeSpec<T>(s: seq<T>)
    ensures NoDup(Dedupe(s))
    ensures forall x :: x in Dedupe(s) <==> x in s
    decreases |s|
  {
    if |s| > 0 {
      var init := s[..|s| - 1];
      DedupeSpec(init);
      assert s == init + [s[|s| - 1]];
    }
  }

  /** Order of first occurrence: de-duplicating a prefix gives a prefix. */
  lemma {:induction false} DedupePrefix<T>(s: seq<T>, k: nat)
    requires k <= |s|
    ensures Dedupe(s[..k]) <= Dedupe(s)
    decreases |s|
  {
    if k < |s| {
      var init := s[..|s| - 1];
      assert s[..k] == init[..k];
      DedupePrefix(init, k);
    } else {
      assert s[..k] == s;
    }
  }

  /** A sequence without duplicates is left as it is. */
  lemma {:induction false} DedupeOfDistinct<T>(s: seq<T>)
    requires NoDup(s)
    ensures Dedupe(s) == s
    decreases |s|
  {
    if |s| > 0 {
      var init := s[..|s| - 1];
      DedupeOfDistinct(init);
      assert s[|s| - 1] !in init;
      assert s == init + [s[|s| - 1]];
    }
  }

  lemma DedupeIdempotent<T>(s: seq<T>)
    ensures Dedupe(Dedupe(s)) == Dedupe(s)
  {
    DedupeSpec(s);
    DedupeOfDistinct(Dedupe(s));
  }

  // ---------------------------------------------------------------------
  // `findIndex`, overwrite-or-append, `filter`

  /** `s.findIndex(p)`: the first index whose element satisfies `p`, or -1. */
  function FindIndex<T>(s: seq<T>, p: T -> bool): (i: int)
    ensures -1 <= i < |s|
    ensures i >= 0 ==> p(s[i]) && forall j :: 0 <= j < i ==> !p(s[j])
    ensures i == -1 ==> forall j :: 0 <= j < |s| ==> !p(s[j])
  {
    if |s| == 0 then -1
    else if p(s[0]) then 0
    else
      var k := FindIndex(s[1..], p);
      if k == -1 then -1 else k + 1
  }

  /** Replace the first element with the same key as `x` in place, else append `x`. */
  function Upsert<T, K(==)>(s: seq<T>, x: T, key: T -> K): seq<T>
  {
    var i := FindIndex(s, y => key(y) == key(x));
    if i > -1 then s[i := x] else s + [x]
  }

  predicate HasKey<T, K(==)>(s: seq<T>, k: K, key: T -> K)
  {
    exists i :: 0 <= i < |s| && key(s[i]) == k
  }

  /** Keys are pairwise distinct. */
  ghost predicate KeysUnique<T, K>(s: seq<T>, key: T -> K)
  {
    forall i, j :: 0 <= i < j < |s| ==> key(s[i]) != key(s[j])
  }

  /** Upsert replaces the first element with `x`'s key, or appends when there is none:
      the length grows by at most one, `x` is present, and every element with
      another key stays where it was. */
  lemma UpsertSpec<T, K>(s: seq<T>, x: T, key: T -> K)
    ensures var r := Upsert(s, x, key);
      && (HasKey(s, key(x), key) ==> |r| == |s|)
      && (!HasKey(s, key(x), key) ==> r == s + [x])
      && x in r
      && (forall i :: 0 <= i < |s| && key(s[i]) != key(x) ==> r[i] == s[i])
      && (HasKey(s, key(x), key) ==>
            exists i :: 0 <= i < |s| && key(s[i]) == key(x) && (forall j :: 0 <= j < i ==> key(s[j]) != key(x))
                        && r == s[i := x])
  {
    var i := FindIndex(s, y => key(y) == key(x));
    if i == -1 {
      assert !HasKey(s, key(x), key);
    } else {
      assert key(s[i]) == key(x);
      assert forall j :: 0 <= j < i ==> key(s[j]) != key(x);
      assert Upsert(s, x, key) == s[i := x];
    }
  }

  /** Upserting keeps keys unique, and afterwards exactly one element has `x`'s key. */
  lemma UpsertKeepsKeysUnique<T, K>(s: seq<T>, x: T, key: T -> K)
    requires KeysUnique(s, key)
    ensures KeysUnique(Upsert(s, x, key), key)
    ensures var r := Upsert(s, x, key);
      forall i :: 0 <= i < |r| && key(r[i]) == key(x) ==> r[i] == x
  {
    var i := FindIndex(s, y => key(y) == key(x));
    var r := Upsert(s, x, key);
    if i == -1 {
      assert r == s + [x];
      assert forall j :: 0 <= j < |s| ==> key(s[j]) != key(x);
    } else {
      assert r == s[i := x];
      assert key(s[i]) == key(x);
    }
  }

  /** `s.filter(keep)`. */
  function Filter<T>(s: seq<T>, keep: T -> bool): (r: seq<T>)
    ensures |r| <= |s|
    ensures forall i :: 0 <= i < |r| ==> r[i] in s && keep(r[i])
    ensures forall i :: 0 <= i < |s| && keep(s[i]) ==> s[i] in r
  {
    if |s| == 0 then []
    else if keep(s[0]) then [s[0]] + Filter(s[1..], keep)
    else Filter(s[1..], keep)
  }

  /** Filtering distributes over concatenation. */
  lemma {:induction false} FilterConcat<T>(a: seq<T>, b: seq<T>, keep: T -> bool)
    ensures Filter(a + b, keep) == Filter(a, keep) + Filter(b, keep)
    decreases |a|
  {
    if |a| > 0 {
      FilterConcat(a[1..], b, keep);
      assert (a + b)[1..] == a[1..] + b;
    } else {
      assert a + b == b;
    }
  }

  /** Filtering keeps each kept value exactly as often as it occurs, and drops
      every other value. */
  lemma {:induction false} FilterMultiset<T>(s: seq<T>, keep: T -> bool, x: T)
    ensures multiset(Filter(s, keep))[x] == if keep(x) then multiset(s)[x] else 0
    decreases |s|
  {
    if |s| > 0 {
      FilterMultiset(s[1..], keep, x);
      assert s == [s[0]] + s[1..];
    }
  }

  /** Filtering a sequence that has nothing to drop returns it unchanged. */
  lemma {:induction false} FilterAllKept<T>(s: seq<T>, keep: T -> bool)
    requires forall x :: x in s ==> keep(x)
    ensures Filter(s, keep) == s
    decreases |s|
  {
    if |s| > 0 {
      FilterAllKept(s[1..], keep);
      assert s == [s[0]] + s[1..];
    }
  }

  /** `s.filter(x => key(x) !== k)`. */
  function RemoveKey<T, K(==)>(s: seq<T>, k: K, key: T -> K): seq<T>
  {
    Filter(s, (x: T) => key(x) != k)
  }

  /** Afterwards no element has the key, every element with another key is
      still there as often as before, and nothing else was added; without the
      key nothing changes. */
  lemma RemoveKeySpec<T, K>(s: seq<T>, k: K, key: T -> K)
    ensures var r := RemoveKey(s, k, key);
      && !HasKey(r, k, key)
      && |r| <= |s|
      && (forall i :: 0 <= i < |r| ==> r[i] in s)
      && (forall i :: 0 <= i < |s| && key(s[i]) != k ==> s[i] in r)
      && (!HasKey(s, k, key) ==> r == s)
      && (forall x :: multiset(r)[x] == if key(x) != k then multiset(s)[x] else 0)
  {
    var keep := (x: T) => key(x) != k;
    forall x
      ensures multiset(RemoveKey(s, k, key))[x] == if key(x) != k then multiset(s)[x] else 0
    {
      FilterMultiset(s, keep, x);
    }
    if !HasKey(s, k, key) {
      forall x | x in s
        ensures keep(x)
      {
        var i :| 0 <= i < |s| && s[i] == x;
      }
      FilterAllKept(s, keep);
    }
  }

  // ---------------------------------------------------------------------
  // `[...s].sort((a, b) => b - a)`

  ghost predicate SortedDesc(s: seq<int>)
  {
    forall i, j :: 0 <= i < j < |s| ==> s[i] >= s[j]
  }

  function InsertDesc(x: int, s: seq<int>): (r: seq<int>)
    ensures |r| == |s| + 1
  {
    if |s| == 0 then [x]
    else if x >= s[0] then [x] + s
    else [s[0]] + InsertDesc(x, s[1..])
  }

  function SortDesc(s: seq<int>): seq<int>
  {
    if |s| == 0 then [] else InsertDesc(s[0], SortDesc(s[1..]))
  }

  lemma {:induction false} InsertDescCounts(x: int, s: seq<int>)
    ensures multiset(InsertDesc(x, s)) == multiset(s) + multiset{x}
    decreases |s|
  {
    if |s| > 0 && x < s[0] {
      InsertDescCounts(x, s[1..]);
      assert s == [s[0]] + s[1..];
    }
  }

  lemma {:induction false} InsertDescBounded(x: int, s: seq<int>, b: int)
    requires x <= b
    requires forall k :: 0 <= k < |s| ==> s[k] <= b
    ensures forall k :: 0 <= k < |InsertDesc(x, s)| ==> InsertDesc(x, s)[k] <= b
    decreases |s|
  {
    if |s| > 0 && x < s[0] {
      InsertDescBounded(x, s[1..], b);
    }
  }

  lemma {:induction false} InsertDescSorted(x: int, s: seq<int>)
    requires SortedDesc(s)
    ensures SortedDesc(InsertDesc(x, s))
    decreases |s|
  {
    if |s| > 0 && x < s[0] {
      var tail := s[1..];
      InsertDescSorted(x, tail);
      InsertDescBounded(x, tail, s[0]);
      var t := InsertDesc(x, tail);
      assert InsertDesc(x, s) == [s[0]] + t;
    }
  }

  lemma InsertDescSpec(x: int, s: seq<int>)
    requires SortedDesc(s)
    ensures SortedDesc(InsertDesc(x, s))
    ensures multiset(InsertDesc(x, s)) == multiset(s) + multiset{x}
  {
    InsertDescSorted(x, s);
    InsertDescCounts(x, s);
  }

  /** The sorted copy is in descending order and a permutation of the input. */
  lemma {:induction false} SortDescSpec(s: seq<int>)
    ensures SortedDesc(SortDesc(s))
    ensures multiset(SortDesc(s)) == multiset(s)
    decreases |s|
  {
    if |s| > 0 {
      SortDescSpec(s[1..]);
      InsertDescSpec(s[0], SortDesc(s[1..]));
      assert s == [s[0]] + s[1..];
    }
  }

  // ---------------------------------------------------------------------
  // `toLowerCase()` and `includes()` on strings

  /** Lower-casing of the ASCII letters; every other character is kept. */
  function LowerChar(c: char): char
  {
    if 'A' <= c <= 'Z' then (c as int + 32) as char else c
  }

  function Lower(s: string): (r: string)
    ensures |r| == |s|
    ensures forall i :: 0 <= i < |s| ==> r[i] == LowerChar(s[i])
  {
    if |s| == 0 then [] else [LowerChar(s[0])] + Lower(s[1..])
  }

  /** `s.includes(t)`. */
  function Contains(s: string, t: string): bool
  {
    t <= s || (|s| > 0 && Contains(s[1..], t))
  }

  /** `t` occurs in `s` starting at position `i`. */
  ghost predicate OccursAt(s: string, t: string, i: int)
  {
    0 <= i <= |s| - |t| && s[i..i + |t|] == t
  }

  /** `Contains` holds exactly when `t` occurs at some position of `s`. */
  lemma {:induction false} ContainsSpec(s: string, t: string)
    ensures Contains(s, t) <==> exists i :: OccursAt(s, t, i)
    decreases |s|
  {
    if t <= s {
      assert s[0..|t|] == t;
      assert OccursAt(s, t, 0);
    } else if |s| == 0 {
      assert forall i :: !OccursAt(s, t, i);
    } else {
      ContainsSpec(s[1..], t);
      if Contains(s[1..], t) {
        var i :| OccursAt(s[1..], t, i);
        assert s[i + 1..i + 1 + |t|] == s[1..][i..i + |t|];
        assert OccursAt(s, t, i + 1);
      } else {
        forall i | 0 <= i <= |s| - |t|
          ensures !OccursAt(s, t, i)
        {
          if i > 0 {
            assert s[i..i + |t|] == s[1..][i - 1..i - 1 + |t|];
            assert !OccursAt(s[1..], t, i - 1);
          }
        }
      }
    }
  }
}
