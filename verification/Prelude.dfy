/** Shared value types. */
module Prelude {

  datatype Option<+T> = None | Some(value: T)

  datatype Result<+T, +E> = Ok(value: T) | Err(error: E)

  /** Every element of `s` occurs once. */
  predicate Distinct<T(==)>(s: seq<T>) {
    forall i, j :: 0 <= i < j < |s| ==> s[i] != s[j]
  }

  /** The elements satisfying `keep`, in order. */
  function Where<T>(s: seq<T>, keep: T -> bool): (kept: seq<T>)
    ensures |kept| <= |s|
  {
    if s == [] then []
    else Where(s[..|s| - 1], keep) + if keep(s[|s| - 1]) then [s[|s| - 1]] else []
  }

  lemma {:induction false} WhereMeans<T>(s: seq<T>, keep: T -> bool)
    ensures forall x :: x in Where(s, keep) ==> x in s && keep(x)
    ensures forall x :: x in s && keep(x) ==> x in Where(s, keep)
    decreases |s|
  {
    if s != [] {
      WhereMeans(s[..|s| - 1], keep);
      assert s == s[..|s| - 1] + [s[|s| - 1]];
    }
  }

  /** The first index satisfying `p`, or the length. */
  function FirstIndex<T>(s: seq<T>, p: T -> bool): (i: nat)
    ensures i <= |s| && (i < |s| ==> p(s[i])) && forall j :: 0 <= j < i ==> !p(s[j])
  {
    if s == [] then 0 else if p(s[0]) then 0 else 1 + FirstIndex(s[1..], p)
  }

  lemma {:induction false} SubsetSize<T>(a: set<T>, b: set<T>)
    requires a <= b
    ensures |a| <= |b|
    decreases |a|
  {
    if a != {} {
      var x :| x in a;
      SubsetSize(a - {x}, b - {x});
    }
  }

  /** `f` applied to each element in turn. */
  function FoldLeft<A, B>(f: (A, B) -> A, a: A, bs: seq<B>): A {
    if bs == [] then a else f(FoldLeft(f, a, bs[..|bs| - 1]), bs[|bs| - 1])
  }

  lemma {:induction false} FoldAppend<A, B>(f: (A, B) -> A, a: A, bs: seq<B>, cs: seq<B>)
    ensures FoldLeft(f, a, bs + cs) == FoldLeft(f, FoldLeft(f, a, bs), cs)
    decreases |cs|
  {
    if cs == [] {
      assert bs + cs == bs;
    } else {
      assert (bs + cs)[..|bs + cs| - 1] == bs + cs[..|cs| - 1];
      FoldAppend(f, a, bs, cs[..|cs| - 1]);
    }
  }

  lemma FoldOne<A, B>(f: (A, B) -> A, a: A, b: B)
    ensures FoldLeft(f, a, [b]) == f(a, b)
  {
    assert [b][..0] == [];
  }

  lemma FoldTwo<A, B>(f: (A, B) -> A, a: A, b: B, c: B)
    ensures FoldLeft(f, a, [b, c]) == f(f(a, b), c)
  {
    FoldOne(f, a, b);
    assert [b, c][..1] == [b];
  }

  lemma FoldThree<A, B>(f: (A, B) -> A, a: A, b: B, c: B, d: B)
    ensures FoldLeft(f, a, [b, c, d]) == f(f(f(a, b), c), d)
  {
    FoldTwo(f, a, b, c);
    assert [b, c, d][..2] == [b, c];
  }
}
