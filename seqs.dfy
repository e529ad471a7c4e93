/** Sequence operations the handlers and the feed are built from: `filter`, `includes`-based toggles, `find`. */
module Seqs {
  import opened Wrappers

  /** `Array.prototype.filter`: the elements satisfying `p`, in their original order. */
  function Filter<T(!new)>(s: seq<T>, p: T -> bool): (r: seq<T>)
    ensures |r| <= |s|
    ensures forall x :: multiset(r)[x] == if p(x) then multiset(s)[x] else 0
    ensures forall x :: x in r <==> x in s && p(x)
    decreases |s|
  {
    if s == [] then []
    else
      var rest := Filter(s[1..], p);
      assert s == [s[0]] + s[1..];
      (if p(s[0]) then [s[0]] else []) + rest
  }

  lemma {:induction false} FilterConcat<T(!new)>(a: seq<T>, b: seq<T>, p: T -> bool)
    ensures Filter(a + b, p) == Filter(a, p) + Filter(b, p)
    decreases |a|
  {
    if a == [] {
      assert a + b == b;
    } else {
      assert (a + b)[1..] == a[1..] + b;
      FilterConcat(a[1..], b, p);
    }
  }

  lemma {:induction false} FilterKeepsAll<T(!new)>(s: seq<T>, p: T -> bool)
    requires forall i :: 0 <= i < |s| ==> p(s[i])
    ensures Filter(s, p) == s
    decreases |s|
  {
    if s != [] {
      FilterKeepsAll(s[1..], p);
    }
  }

  /** `s.filter(y => y !== x)`: every occurrence of `x` removed. */
  function Remove<T(==,!new)>(s: seq<T>, x: T): (r: seq<T>)
    ensures x !in r
    ensures forall y :: y != x ==> multiset(r)[y] == multiset(s)[y]
  {
    Filter(s, y => y != x)
  }

  /**
   * The toggle the handlers write out: remove every occurrence of `x` when the caller
   * believes it `present`, otherwise append one more `x` (no duplicate check).
   */
  function Flip<T(==,!new)>(s: seq<T>, x: T, present: bool): (r: seq<T>)
    ensures x in r <==> !present
    ensures forall y :: y != x ==> multiset(r)[y] == multiset(s)[y]
    ensures !present ==> r == s + [x]
  {
    if present then Remove(s, x) else s + [x]
  }

  /** Toggle membership, testing presence on the same sequence. */
  function Toggle<T(==,!new)>(s: seq<T>, x: T): (r: seq<T>)
    ensures x in r <==> x !in s
    ensures forall y :: y != x ==> (y in r <==> y in s)
  {
    Flip(s, x, x in s)
  }

  /** Toggling from absent and back gives back exactly the original sequence. */
  lemma ToggleTwiceFromAbsent<T(!new)>(s: seq<T>, x: T)
    requires x !in s
    ensures Toggle(Toggle(s, x), x) == s
  {
    var t := Toggle(s, x);
    assert t == s + [x];
    FilterConcat(s, [x], y => y != x);
    FilterKeepsAll(s, y => y != x);
    assert Filter([x], y => y != x) == [];
  }

  /** Toggling twice always restores the membership of every element. */
  lemma ToggleTwiceSameMembers<T(!new)>(s: seq<T>, x: T, y: T)
    ensures y in Toggle(Toggle(s, x), x) <==> y in s
  {
  }

  /** From a present state the order is not restored: `[x, y]` comes back as `[y, x]`. */
  lemma ToggleTwiceFromPresentReorders<T(!new)>(x: T, y: T)
    requires x != y
    ensures Toggle(Toggle([x, y], x), x) == [y, x]
  {
    var t := Toggle([x, y], x);
    assert x in [x, y];
    assert [x, y] == [x] + [y];
    FilterConcat([x], [y], z => z != x);
    assert Filter([x], z => z != x) == [];
    assert Filter([y], z => z != x) == [y];
    assert t == [y];
    assert Toggle(t, x) == [y] + [x];
  }

  /** When exactly one element satisfies `p`, `filter` keeps just that one. */
  lemma {:induction false} FilterSingleMatch<T(!new)>(s: seq<T>, p: T -> bool, i: nat)
    requires i < |s| && p(s[i])
    requires forall j :: 0 <= j < |s| && j != i ==> !p(s[j])
    ensures Filter(s, p) == [s[i]]
    decreases |s|
  {
    if i == 0 {
      FilterKeepsNone(s[1..], p);
    } else {
      FilterSingleMatch(s[1..], p, i - 1);
    }
  }

  lemma {:induction false} FilterKeepsNone<T(!new)>(s: seq<T>, p: T -> bool)
    requires forall j :: 0 <= j < |s| ==> !p(s[j])
    ensures Filter(s, p) == []
    decreases |s|
  {
    if s != [] {
      FilterKeepsNone(s[1..], p);
    }
  }

  /** The first element `filter` keeps is the one `find` returns. */
  lemma {:induction false} FilterHeadIsFirstMatch<T(!new)>(s: seq<T>, p: T -> bool)
    requires Filter(s, p) != []
    ensures FindIndex(s, p).Some? && Filter(s, p)[0] == s[FindIndex(s, p).value]
    decreases |s|
  {
    if !p(s[0]) {
      FilterHeadIsFirstMatch(s[1..], p);
    }
  }

  /** `Array.prototype.findIndex`-style search: the first index whose element satisfies `p`. */
  function FindIndex<T(!new)>(s: seq<T>, p: T -> bool): (r: Option<nat>)
    ensures r.Some? ==> r.value < |s| && p(s[r.value]) && forall j :: 0 <= j < r.value ==> !p(s[j])
    ensures r.None? ==> forall j :: 0 <= j < |s| ==> !p(s[j])
    decreases |s|
  {
    if s == [] then None
    else if p(s[0]) then Some(0)
    else match FindIndex(s[1..], p)
      case None => None
      case Some(k) => Some(k + 1)
  }
}
