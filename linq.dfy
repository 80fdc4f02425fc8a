/** `Enumerable.Where` over a sequence, and the facts about it the finders
    rely on; with the regrouping of appended sequences the writers of lines
    and events rely on. */
module Linq {

  lemma AppendAssociative<T>(a: seq<T>, b: seq<T>, c: seq<T>)
    ensures a + b + c == a + (b + c)
  {
  }

  lemma AppendAssociative4<T>(s: seq<T>, a: seq<T>, b: seq<T>, c: seq<T>)
    ensures s + a + b + c == s + (a + b + c)
  {
  }

  /** `xs.Where(p)`: the elements satisfying `p`, in their original order. */
  function Where<T(!new)>(xs: seq<T>, p: T -> bool): (r: seq<T>)
    ensures |r| <= |xs|
    ensures forall i :: 0 <= i < |r| ==> p(r[i])
  {
    if xs == [] then []
    else
      var rest := Where(xs[1..], p);
      if p(xs[0]) then [xs[0]] + rest else rest
  }

  /** `Where` drops exactly the elements failing `p`, every copy of them,
      and keeps every copy of the others. */
  lemma {:induction false} WhereCounts<T(!new)>(xs: seq<T>, p: T -> bool)
    ensures forall x :: multiset(Where(xs, p))[x] == if p(x) then multiset(xs)[x] else 0
    decreases |xs|
  {
    if xs != [] {
      WhereCounts(xs[1..], p);
      assert xs == [xs[0]] + xs[1..];
    }
  }

  /** `Where` keeps order: filtering a concatenation filters each part. */
  lemma {:induction false} WhereAppend<T(!new)>(xs: seq<T>, ys: seq<T>, p: T -> bool)
    ensures Where(xs + ys, p) == Where(xs, p) + Where(ys, p)
    decreases |xs|
  {
    if xs != [] {
      var zs := xs + ys;
      assert zs != [] && zs[0] == xs[0] && zs[1..] == xs[1..] + ys;
      WhereAppend(xs[1..], ys, p);
      if p(xs[0]) {
        assert Where(zs, p) == [xs[0]] + Where(xs[1..] + ys, p);
        assert Where(xs, p) == [xs[0]] + Where(xs[1..], p);
        assert [xs[0]] + (Where(xs[1..], p) + Where(ys, p)) == ([xs[0]] + Where(xs[1..], p)) + Where(ys, p);
      } else {
        assert Where(zs, p) == Where(xs[1..] + ys, p);
      }
    } else {
      assert xs + ys == ys;
    }
  }

  /** Filtering a single element. */
  lemma WhereSingleton<T(!new)>(x: T, p: T -> bool)
    ensures Where([x], p) == if p(x) then [x] else []
  {
  }

  /** Filtering keeps every element exactly when nothing fails `p`. */
  lemma WhereAll<T(!new)>(xs: seq<T>, p: T -> bool)
    requires forall i :: 0 <= i < |xs| ==> p(xs[i])
    ensures Where(xs, p) == xs
  {
    if xs != [] {
      WhereAll(xs[1..], p);
    }
  }
}
