/** The Kotlin standard-library list operations the flows rely on: `first()`,
    `single()`, `singleOrNull()`, `distinct()` and `sumOf`. */
module Collections {
  import opened Outcomes

  /** `first()`: the head of the list; an empty list raises. */
  function First<T>(s: seq<T>): (r: Result<T>)
    ensures r.Ok? <==> |s| > 0
    ensures r.Ok? ==> r.value == s[0]
    ensures r.Stop? ==> r.exit == Thrown(NoSuchElementException)
  {
    if |s| > 0 then Ok(s[0]) else Stop(Thrown(NoSuchElementException))
  }

  /** `single()`: the one element of a one-element list; an empty list raises
      NoSuchElementException and a longer one IllegalArgumentException. */
  function Single<T>(s: seq<T>): (r: Result<T>)
    ensures r.Ok? <==> |s| == 1
    ensures r.Ok? ==> r.value == s[0]
    ensures |s| == 0 ==> r == Stop(Thrown(NoSuchElementException))
    ensures |s| > 1 ==> r == Stop(Thrown(IllegalArgumentException))
  {
    if |s| == 1 then Ok(s[0])
    else if |s| == 0 then Stop(Thrown(NoSuchElementException))
    else Stop(Thrown(IllegalArgumentException))
  }

  /** `singleOrNull()`: the one element of a one-element list, and null both
      for an empty list and for one with several elements. */
  function SingleOrNull<T>(s: seq<T>): (r: Option<T>)
    ensures r.Some? <==> |s| == 1
    ensures r.Some? ==> r.value == s[0]
  {
    if |s| == 1 then Some(s[0]) else None
  }

  ghost predicate NoDuplicates<T>(s: seq<T>) {
    forall i, j :: 0 <= i < j < |s| ==> s[i] != s[j]
  }

  /** `distinct()`: the elements of `s`, each once, in the order of their
      first occurrence. Built from the end so that the last element is kept
      only when it has not occurred before. */
  function Distinct<T(==)>(s: seq<T>): (r: seq<T>)
    ensures NoDuplicates(r)
    ensures forall i :: 0 <= i < |s| ==> s[i] in r
    ensures forall i :: 0 <= i < |r| ==> r[i] in s
    ensures |r| <= |s|
  {
    if |s| == 0 then []
    else
      var d := Distinct(s[..|s| - 1]);
      var x := s[|s| - 1];
      if x in d then d else d + [x]
  }

  /** Distinct keeps a list that has no duplicates as it is. */
  lemma {:induction false} DistinctOfDistinct<T>(s: seq<T>)
    requires NoDuplicates(s)
    ensures Distinct(s) == s
  {
    if |s| > 0 {
      var init := s[..|s| - 1];
      assert NoDuplicates(init) by {
        forall i, j | 0 <= i < j < |init| ensures init[i] != init[j] {
          assert init[i] == s[i] && init[j] == s[j];
        }
      }
      DistinctOfDistinct(init);
      assert s[|s| - 1] !in init by {
        forall i | 0 <= i < |init| ensures init[i] != s[|s| - 1] {
          assert init[i] == s[i];
        }
      }
      assert init + [s[|s| - 1]] == s;
    }
  }

  /** The index of the first occurrence of `x` in `s`. */
  ghost function FirstIndex<T>(s: seq<T>, x: T): (i: nat)
    requires x in s
    ensures i < |s| && s[i] == x && x !in s[..i]
  {
    if s[0] == x then 0
    else
      var j := FirstIndex(s[1..], x);
      assert s[..j + 1] == [s[0]] + s[1..][..j];
      j + 1
  }

  /** Any occurrence with no earlier one is the first occurrence. */
  lemma FirstIndexUnique<T>(s: seq<T>, x: T, i: nat)
    requires i < |s| && s[i] == x && x !in s[..i]
    ensures FirstIndex(s, x) == i
  {
  }

  /** `distinct()` keeps the elements in the order of their first occurrence
      in the input. Together with the contract of `Distinct` (no duplicates,
      the same elements) this determines the result completely. */
  lemma {:induction false} DistinctKeepsFirstOccurrenceOrder<T>(s: seq<T>)
    ensures forall i, j :: 0 <= i < j < |Distinct(s)| ==>
      FirstIndex(s, Distinct(s)[i]) < FirstIndex(s, Distinct(s)[j])
  {
    if |s| > 0 {
      var init, x := s[..|s| - 1], s[|s| - 1];
      var d := Distinct(init);
      DistinctKeepsFirstOccurrenceOrder(init);
      forall y | y in init
        ensures FirstIndex(s, y) == FirstIndex(init, y)
      {
        var k := FirstIndex(init, y);
        assert s[..k] == init[..k];
        FirstIndexUnique(s, y, k);
      }
      assert forall i :: 0 <= i < |d| ==> d[i] in init;
      if x !in d {
        assert x !in init;
        FirstIndexUnique(s, x, |s| - 1);
      }
    }
  }

  /** `listOf(a, b).distinct()`: both keys once each, `a` first. */
  lemma DistinctPair<T>(a: T, b: T)
    ensures Distinct([a, b]) == if a == b then [a] else [a, b]
  {
    assert [a, b][..1] == [a];
    assert [a][..0] == [];
  }

  /** `sumOf`: the sum of a list of amounts. */
  function SumOf(s: seq<int>): int {
    if |s| == 0 then 0 else SumOf(s[..|s| - 1]) + s[|s| - 1]
  }

  lemma {:induction false} SumOfConcat(a: seq<int>, b: seq<int>)
    ensures SumOf(a + b) == SumOf(a) + SumOf(b)
  {
    if |b| == 0 {
      assert a + b == a;
    } else {
      assert (a + b)[..|a + b| - 1] == a + b[..|b| - 1];
      SumOfConcat(a, b[..|b| - 1]);
    }
  }

  /** Taking one element out of a list takes its amount out of the sum. */
  lemma SumOfMiddle(left: seq<int>, x: int, right: seq<int>)
    ensures SumOf(left + [x] + right) == SumOf(left + right) + x
  {
    var withX := left + [x];
    assert withX[..|withX| - 1] == left;
    SumOfConcat(withX, right);
    SumOfConcat(left, right);
  }

  lemma MultisetRemove(b: seq<int>, k: int)
    requires 0 <= k < |b|
    ensures multiset(b[..k] + b[k + 1..]) == multiset(b) - multiset{b[k]}
  {
    assert b == b[..k] + [b[k]] + b[k + 1..];
  }

  /** The sum does not depend on the order of the list: any reordering of the
      same amounts has the same sum. */
  lemma {:induction false} SumOfPermutation(a: seq<int>, b: seq<int>)
    requires multiset(a) == multiset(b)
    ensures SumOf(a) == SumOf(b)
  {
    if |a| > 0 {
      var x := a[|a| - 1];
      assert x in multiset(b);
      var k :| 0 <= k < |b| && b[k] == x;
      var a', b' := a[..|a| - 1], b[..k] + b[k + 1..];
      MultisetRemove(a, |a| - 1);
      MultisetRemove(b, k);
      assert multiset(a') == multiset(b');
      SumOfPermutation(a', b');
      assert SumOf(a) == SumOf(a') + x;
      assert b == b[..k] + [x] + b[k + 1..];
      SumOfMiddle(b[..k], x, b[k + 1..]);
    } else {
      assert b == [] by { assert |multiset(b)| == 0; }
    }
  }
}
