/**
 * Joining strings with a separator (`TextUtils.join`) and cutting them apart again
 * (`TextUtils.split`, `String.split`). The separator used by the screens contains no regular
 * expression metacharacters, so `split` matches it literally: the string is scanned from the left,
 * each occurrence found ends one piece, and the scan resumes after it.
 */
module Separated {
  import opened Wrappers

  predicate StartsAt(s: string, p: nat, sep: string)
  {
    p + |sep| <= |s| && s[p..p + |sep|] == sep
  }

  predicate Contains(s: string, sep: string)
  {
    exists p: nat :: p <= |s| && StartsAt(s, p, sep)
  }

  /** The first occurrence of `sep` in `s` at or after `from`. */
  function FindFrom(s: string, sep: string, from: nat): (r: Option<nat>)
    requires sep != []
    ensures r.Some? ==> from <= r.value && StartsAt(s, r.value, sep)
    ensures r.Some? ==> forall q: nat :: from <= q < r.value ==> !StartsAt(s, q, sep)
    ensures r.None? ==> forall q: nat :: from <= q ==> !StartsAt(s, q, sep)
    decreases |s| - from
  {
    if from + |sep| > |s| then None
    else if StartsAt(s, from, sep) then Some(from)
    else FindFrom(s, sep, from + 1)
  }

  /** The pieces between occurrences of `sep`, empty ones included (`split` with limit -1). */
  function Pieces(s: string, sep: string): (r: seq<string>)
    requires sep != []
    ensures |r| > 0
    decreases |s|
  {
    match FindFrom(s, sep, 0)
    case None => [s]
    case Some(p) => [s[..p]] + Pieces(s[p + |sep|..], sep)
  }

  /** `TextUtils.join(sep, xs)`: the elements with `sep` between neighbours. */
  function Join(xs: seq<string>, sep: string): (s: string)
    ensures xs == [] ==> s == ""
    ensures |xs| == 1 ==> s == xs[0]
  {
    if xs == [] then ""
    else if |xs| == 1 then xs[0]
    else xs[0] + sep + Join(xs[1..], sep)
  }

  /** `TextUtils.split(s, sep)`: no pieces at all for the empty string. */
  function SplitKeepingEmpty(s: string, sep: string): (r: seq<string>)
    requires sep != []
    ensures s == "" <==> r == []
  {
    if s == "" then [] else Pieces(s, sep)
  }

  function DropTrailingEmpty(xs: seq<string>): (r: seq<string>)
    ensures |r| <= |xs| && r == xs[..|r|]
    ensures r != [] ==> r[|r| - 1] != ""
    ensures forall i :: |r| <= i < |xs| ==> xs[i] == ""
  {
    if xs == [] || xs[|xs| - 1] != "" then xs else DropTrailingEmpty(xs[..|xs| - 1])
  }

  /**
   * `s.split(sep)`: the whole string when `sep` does not occur, otherwise the pieces with the
   * trailing empty ones removed.
   */
  function Split(s: string, sep: string): (r: seq<string>)
    requires sep != []
    ensures !Contains(s, sep) ==> r == [s]
  {
    if FindFrom(s, sep, 0).None? then [s] else DropTrailingEmpty(Pieces(s, sep))
  }

  /**
   * `x` can stand before a separator without an occurrence of the separator starting inside `x`.
   * This is more than `x` not containing `sep`: when a proper prefix of `sep` is also a suffix of
   * it, a value ending in the rest of `sep` completes a false occurrence with the real separator.
   */
  predicate Separable(x: string, sep: string)
  {
    forall p: nat :: p < |x| ==> !StartsAt(x + sep, p, sep)
  }

  lemma SeparableHasNoSeparator(x: string, sep: string)
    requires sep != [] && Separable(x, sep)
    ensures !Contains(x, sep)
  {
    forall p: nat | StartsAt(x, p, sep)
      ensures false
    {
      assert (x + sep)[p..p + |sep|] == x[p..p + |sep|];
      assert StartsAt(x + sep, p, sep);
    }
  }

  /** In `x + sep + rest`, the first separator is the one after `x`. */
  lemma FirstSeparatorAfter(x: string, sep: string, rest: string)
    requires sep != [] && Separable(x, sep)
    ensures FindFrom(x + sep + rest, sep, 0) == Some(|x|)
  {
    var s := x + sep + rest;
    assert s[|x|..|x| + |sep|] == sep;
    assert StartsAt(s, |x|, sep);
    forall q: nat | q < |x|
      ensures !StartsAt(s, q, sep)
    {
      assert s[q..q + |sep|] == (x + sep)[q..q + |sep|];
      assert !StartsAt(x + sep, q, sep);
    }
  }

  /** Splitting with limit -1 undoes joining. */
  lemma {:induction false} PiecesOfJoin(xs: seq<string>, sep: string)
    requires sep != [] && xs != []
    requires forall i :: 0 <= i < |xs| ==> Separable(xs[i], sep)
    ensures Pieces(Join(xs, sep), sep) == xs
  {
    if |xs| == 1 {
      SeparableHasNoSeparator(xs[0], sep);
    } else {
      var rest := Join(xs[1..], sep);
      var s := xs[0] + sep + rest;
      assert Join(xs, sep) == s;
      FirstSeparatorAfter(xs[0], sep, rest);
      assert s[..|xs[0]|] == xs[0];
      assert s[|xs[0]| + |sep|..] == rest;
      PiecesOfJoin(xs[1..], sep);
    }
  }

  /** `TextUtils.split` undoes `TextUtils.join`, for any number of elements but a single empty one. */
  lemma SplitKeepingEmptyOfJoin(xs: seq<string>, sep: string)
    requires sep != [] && xs != [[]]
    requires forall i :: 0 <= i < |xs| ==> Separable(xs[i], sep)
    ensures SplitKeepingEmpty(Join(xs, sep), sep) == xs
  {
    if xs != [] {
      if |xs| > 1 {
        FirstSeparatorAfter(xs[0], sep, Join(xs[1..], sep));
      }
      PiecesOfJoin(xs, sep);
    }
  }

  /** `String.split` undoes `TextUtils.join` when the last element is not empty. */
  lemma SplitOfJoin(xs: seq<string>, sep: string)
    requires sep != [] && xs != [] && xs[|xs| - 1] != ""
    requires forall i :: 0 <= i < |xs| ==> Separable(xs[i], sep)
    ensures Split(Join(xs, sep), sep) == xs
  {
    PiecesOfJoin(xs, sep);
    if |xs| == 1 {
      SeparableHasNoSeparator(xs[0], sep);
    } else {
      FirstSeparatorAfter(xs[0], sep, Join(xs[1..], sep));
    }
  }

  /** A value that lacks the separator's first character is separable. */
  lemma SeparableWithoutFirstChar(x: string, sep: string)
    requires sep != [] && forall i :: 0 <= i < |x| ==> x[i] != sep[0]
    ensures Separable(x, sep)
  {
    forall p: nat | p < |x|
      ensures !StartsAt(x + sep, p, sep)
    {
      assert (x + sep)[p] == x[p];
    }
  }

  /** Appending an element to a non-empty list appends the separator and the element to its join. */
  lemma {:induction false} JoinSnoc(xs: seq<string>, x: string, sep: string)
    requires xs != []
    ensures Join(xs + [x], sep) == Join(xs, sep) + sep + x
  {
    if |xs| > 1 {
      assert (xs + [x])[1..] == xs[1..] + [x];
      JoinSnoc(xs[1..], x, sep);
    }
  }
}
