// Types and sequence functions shared by every module.
module Prelude {

  datatype Option<+T> = None | Some(value: T)

  datatype Result<+T> = Ok(value: T) | Err(error: string)

  // The elements of xs that satisfy keep, in order.
  function Filter<T>(keep: T -> bool, xs: seq<T>): (r: seq<T>)
  {
    if xs == [] then []
    else
      var last := |xs| - 1;
      Filter(keep, xs[..last]) + (if keep(xs[last]) then [xs[last]] else [])
  }

  function MapSeq<A, B>(f: A -> B, xs: seq<A>): (r: seq<B>)
    ensures |r| == |xs|
    ensures forall i :: 0 <= i < |xs| ==> r[i] == f(xs[i])
  {
    seq(|xs|, i requires 0 <= i < |xs| => f(xs[i]))
  }

  function Min(a: int, b: int): int { if a <= b then a else b }

  function Max(a: int, b: int): int { if a <= b then b else a }

  lemma FilterMembers<T>(keep: T -> bool, xs: seq<T>)
    ensures forall x :: x in Filter(keep, xs) <==> x in xs && keep(x)
  {
    if xs != [] {
      var last := |xs| - 1;
      FilterMembers(keep, xs[..last]);
      assert xs == xs[..last] + [xs[last]];
    }
  }

  lemma FilterAll<T>(keep: T -> bool, xs: seq<T>)
    requires forall x :: x in xs ==> keep(x)
    ensures Filter(keep, xs) == xs
  {
    if xs != [] {
      var last := |xs| - 1;
      FilterAll(keep, xs[..last]);
      assert xs == xs[..last] + [xs[last]];
    }
  }

  lemma FilterAppend<T>(keep: T -> bool, xs: seq<T>, x: T)
    ensures Filter(keep, xs + [x]) == Filter(keep, xs) + (if keep(x) then [x] else [])
  {
    assert (xs + [x])[..|xs|] == xs;
  }
}
