/** Order-preserving selection: `xs` is a subsequence of `ys` when deleting entries of `ys` can give `xs`. */
module Subsequences {

  predicate IsSubsequence<T(==)>(xs: seq<T>, ys: seq<T>)
    decreases |ys|
  {
    if xs == [] then true
    else if ys == [] then false
    else if xs[0] == ys[0] then IsSubsequence(xs[1..], ys[1..])
    else IsSubsequence(xs, ys[1..])
  }

  /** Putting an entry in front of `ys` keeps every subsequence of `ys`. */
  lemma {:induction false} SubsequenceSkip<T>(xs: seq<T>, ys: seq<T>)
    requires ys != [] && IsSubsequence(xs, ys[1..])
    ensures IsSubsequence(xs, ys)
    decreases |ys|, |xs|
  {
    if xs != [] && xs[0] == ys[0] {
      SubsequenceDrop(xs, ys[1..]);
    }
  }

  /** Dropping the first entry of a subsequence keeps it a subsequence. */
  lemma {:induction false} SubsequenceDrop<T>(xs: seq<T>, ys: seq<T>)
    requires xs != [] && IsSubsequence(xs, ys)
    ensures IsSubsequence(xs[1..], ys)
    decreases |ys|, |xs|
  {
    if xs[0] == ys[0] {
      if xs[1..] != [] {
        SubsequenceDrop(xs[1..], ys[1..]);
        SubsequenceSkip(xs[1..], ys);
      }
    } else {
      SubsequenceDrop(xs, ys[1..]);
      if xs[1..] != [] {
        SubsequenceSkip(xs[1..], ys);
      }
    }
  }

  /** A subsequence is never longer. */
  lemma {:induction false} SubsequenceLength<T>(xs: seq<T>, ys: seq<T>)
    requires IsSubsequence(xs, ys)
    ensures |xs| <= |ys|
    decreases |ys|
  {
    if xs != [] {
      if xs[0] == ys[0] {
        SubsequenceLength(xs[1..], ys[1..]);
      } else {
        SubsequenceLength(xs, ys[1..]);
      }
    }
  }

  /** Appending an entry to `ys` keeps every subsequence of `ys`. */
  lemma {:induction false} SubsequenceExtend<T>(xs: seq<T>, ys: seq<T>, b: T)
    requires IsSubsequence(xs, ys)
    ensures IsSubsequence(xs, ys + [b])
    decreases |ys|
  {
    if xs != [] {
      assert (ys + [b])[0] == ys[0] && (ys + [b])[1..] == ys[1..] + [b];
      if xs[0] == ys[0] {
        SubsequenceExtend(xs[1..], ys[1..], b);
      } else {
        SubsequenceExtend(xs, ys[1..], b);
      }
    }
  }

  /** Appending the same entry to both keeps the relation. */
  lemma {:induction false} SubsequenceAppend<T>(xs: seq<T>, ys: seq<T>, b: T)
    requires IsSubsequence(xs, ys)
    ensures IsSubsequence(xs + [b], ys + [b])
    decreases |ys|
  {
    if xs == [] {
      if ys != [] {
        assert (ys + [b])[1..] == ys[1..] + [b];
        SubsequenceAppend(xs, ys[1..], b);
        assert xs + [b] == [b];
        SubsequenceSkip([b], ys + [b]);
      }
    } else {
      assert (ys + [b])[0] == ys[0] && (ys + [b])[1..] == ys[1..] + [b];
      assert (xs + [b])[0] == xs[0] && (xs + [b])[1..] == xs[1..] + [b];
      if xs[0] == ys[0] {
        SubsequenceAppend(xs[1..], ys[1..], b);
      } else {
        SubsequenceAppend(xs, ys[1..], b);
      }
    }
  }

  /** Dropping the last entry of a subsequence keeps it a subsequence. */
  lemma {:induction false} SubsequenceDropLast<T>(xs: seq<T>, a: T, ys: seq<T>)
    requires IsSubsequence(xs + [a], ys)
    ensures IsSubsequence(xs, ys)
    decreases |ys|
  {
    if xs != [] {
      assert (xs + [a])[0] == xs[0] && (xs + [a])[1..] == xs[1..] + [a];
      if xs[0] == ys[0] {
        SubsequenceDropLast(xs[1..], a, ys[1..]);
      } else {
        SubsequenceDropLast(xs, a, ys[1..]);
      }
    }
  }
}
