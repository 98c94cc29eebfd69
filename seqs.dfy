/** Sequence helpers shared by the model: duplicate-freedom, first-seen
    de-duplication, filtering, and the contents of a bounded deque. */
module Seqs {

  /** No element occurs twice. */
  ghost predicate NoDup<T>(s: seq<T>)
  {
    forall i, j :: 0 <= i < j < |s| ==> s[i] != s[j]
  }

  /** Index of the first occurrence of `x` in `s`. */
  function FirstIndex<T(==)>(s: seq<T>, x: T): (k: nat)
    requires x in s
    ensures k < |s| && s[k] == x
    ensures forall i :: 0 <= i < k ==> s[i] != x
  {
    if s[0] == x then 0 else 1 + FirstIndex(s[1..], x)
  }

  /** Each element of `s` once, in the order of first appearance. */
  function Distinct<T(==)>(s: seq<T>): seq<T>
  {
    if s == [] then []
    else
      var d := Distinct(s[..|s| - 1]);
      if s[|s| - 1] in d then d else d + [s[|s| - 1]]
  }

  lemma {:induction false} DistinctElements<T>(s: seq<T>)
    ensures NoDup(Distinct(s))
    ensures forall x :: x in Distinct(s) <==> x in s
  {
    if s != [] {
      var init := s[..|s| - 1];
      DistinctElements(init);
      assert s == init + [s[|s| - 1]];
    }
  }

  /** Distinct keeps first-seen order: earlier in the result means first seen earlier in `s`. */
  lemma {:induction false} DistinctOrder<T>(s: seq<T>)
    ensures forall x :: x in Distinct(s) ==> x in s
    ensures forall i, j :: 0 <= i < j < |Distinct(s)| ==>
              FirstIndex(s, Distinct(s)[i]) < FirstIndex(s, Distinct(s)[j])
  {
    DistinctElements(s);
    if s != [] {
      var init := s[..|s| - 1];
      var last := s[|s| - 1];
      var d := Distinct(init);
      DistinctOrder(init);
      DistinctElements(init);
      assert s == init + [last];
      forall x | x in init
        ensures FirstIndex(s, x) == FirstIndex(init, x)
      {
        FirstIndexPrefix(init, [last], x);
      }
      if last !in d {
        assert last !in init;
        assert FirstIndex(s, last) == |s| - 1 by {
          forall i | 0 <= i < |s| - 1 ensures s[i] != last { assert s[i] == init[i]; }
        }
      }
    }
  }

  lemma FirstIndexPrefix<T>(a: seq<T>, b: seq<T>, x: T)
    requires x in a
    ensures x in a + b && FirstIndex(a + b, x) == FirstIndex(a, x)
  {
    if a[0] != x {
      assert (a + b)[1..] == a[1..] + b;
      FirstIndexPrefix(a[1..], b, x);
    }
  }

  /** The elements of `s` that satisfy `keep`, in their original order. */
  function Filter<T>(s: seq<T>, keep: T -> bool): (r: seq<T>)
    ensures |r| <= |s|
    ensures forall i :: 0 <= i < |r| ==> r[i] in s && keep(r[i])
    ensures forall i :: 0 <= i < |s| && keep(s[i]) ==> s[i] in r
  {
    if s == [] then []
    else
      var init := s[..|s| - 1];
      assert s == init + [s[|s| - 1]];
      Filter(init, keep) + (if keep(s[|s| - 1]) then [s[|s| - 1]] else [])
  }

  /** A single element is kept exactly when it satisfies `keep`; with
      `FilterConcat` this fixes the order of the kept elements. */
  lemma FilterSingle<T>(x: T, keep: T -> bool)
    ensures Filter([x], keep) == if keep(x) then [x] else []
  {
  }

  /** Each element is kept as often as it occurs when it satisfies `keep`,
      and not at all otherwise. */
  lemma {:induction false} FilterCounts<T>(s: seq<T>, keep: T -> bool)
    ensures forall x :: multiset(Filter(s, keep))[x] == if keep(x) then multiset(s)[x] else 0
  {
    if s != [] {
      var init := s[..|s| - 1];
      var last := s[|s| - 1];
      assert s == init + [last];
      FilterCounts(init, keep);
      assert Filter(s, keep) == Filter(init, keep) + (if keep(last) then [last] else []);
    }
  }

  /** Filtering distributes over concatenation: an append is seen at the end of every filtered view. */
  lemma {:induction false} FilterConcat<T>(a: seq<T>, b: seq<T>, keep: T -> bool)
    ensures Filter(a + b, keep) == Filter(a, keep) + Filter(b, keep)
  {
    if b != [] {
      var bi := b[..|b| - 1];
      assert (a + b)[..|a + b| - 1] == a + bi;
      assert (a + b)[|a + b| - 1] == b[|b| - 1];
      FilterConcat(a, bi, keep);
    } else {
      assert a + b == a;
    }
  }

  /** The contents of `deque(s, maxlen = cap)`: only the newest `cap` items survive. */
  function Newest<T>(s: seq<T>, cap: nat): seq<T>
  {
    if |s| <= cap then s else s[|s| - cap..]
  }

  lemma NewestShape<T>(s: seq<T>, cap: nat)
    ensures |Newest(s, cap)| == if |s| <= cap then |s| else cap
    ensures Newest(s, cap) == s[|s| - |Newest(s, cap)|..]
  {
  }

  /** Appending to a full deque and then bounding equals bounding the whole history. */
  lemma NewestAppend<T>(s: seq<T>, x: T, cap: nat)
    ensures Newest(Newest(s, cap) + [x], cap) == Newest(s + [x], cap)
  {
    if |s| > cap {
      var t := s[|s| - cap..];
      if cap > 0 {
        assert (t + [x])[1..] == (s + [x])[|s| + 1 - cap..];
      } else {
        assert Newest(t + [x], cap) == [];
      }
    }
  }

  /** Re-bounding to a new capacity keeps the newest `min(old, new)` items. */
  lemma NewestResize<T>(s: seq<T>, c1: nat, c2: nat)
    ensures Newest(Newest(s, c1), c2) == Newest(s, if c1 <= c2 then c1 else c2)
  {
  }

  /** Dropping the element at `k` from a duplicate-free sequence leaves it
      duplicate-free and removes exactly that element. */
  lemma RemoveAt<T>(s: seq<T>, k: nat)
    requires NoDup(s) && k < |s|
    ensures NoDup(s[..k] + s[k + 1..])
    ensures forall x :: x in s[..k] + s[k + 1..] <==> x in s && x != s[k]
  {
    var r := s[..k] + s[k + 1..];
    assert forall i :: 0 <= i < |r| ==> r[i] == if i < k then s[i] else s[i + 1];
    forall x | x in s && x != s[k]
      ensures x in r
    {
      var j :| 0 <= j < |s| && s[j] == x;
      if j < k { assert r[j] == x; } else { assert r[j - 1] == x; }
    }
  }
}
