/** Sequences of frames, events and states. */
module Sequences {
  function Last<T>(xs: seq<T>): T
    requires xs != []
  {
    xs[|xs| - 1]
  }

  function Filter<T>(xs: seq<T>, keep: T -> bool): seq<T> {
    if xs == [] then []
    else
      var rest := Filter(xs[..|xs| - 1], keep);
      if keep(Last(xs)) then rest + [Last(xs)] else rest
  }

  lemma {:induction false} FilterAppend<T>(xs: seq<T>, ys: seq<T>, keep: T -> bool)
    ensures Filter(xs + ys, keep) == Filter(xs, keep) + Filter(ys, keep)
  {
    if ys == [] {
      assert xs + ys == xs;
    } else {
      assert (xs + ys)[..|xs + ys| - 1] == xs + ys[..|ys| - 1];
      FilterAppend(xs, ys[..|ys| - 1], keep);
    }
  }

  /** Elements that are all alike are kept or dropped together. */
  lemma {:induction false} FilterAlike<T>(ys: seq<T>, keep: T -> bool, kept: bool)
    requires forall y :: y in ys ==> keep(y) == kept
    ensures Filter(ys, keep) == if kept then ys else []
  {
    if ys != [] {
      FilterAlike(ys[..|ys| - 1], keep, kept);
      assert Last(ys) in ys;
    }
  }
}
