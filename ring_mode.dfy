/**
 * The quick settings ring-mode codec. The selected sound modes are stored as one string: sorted by
 * their position in the preference's value list and joined with a fixed separator. Reading splits
 * the string apart again, and the summary shows the entry at each stored index, joined with " | ".
 */
module RingMode {
  import opened Wrappers
  import opened Decimal
  import opened Separated
  import opened Preferences

  /** The separator between stored ring modes. */
  const Separator: string := "OV=I=XseparatorX=I=VO"

  /** The text between the entries of the summary. */
  const SummarySeparator: string := " | "

  /** The comparator's key: a value's position in the list, -1 when it is not listed. */
  function Rank(values: seq<string>): string -> int
  {
    x => FindIndexOfValue(values, x)
  }

  /**
   * `new ArrayList<String>(set)`: the selected values, each once, in the order the set hands
   * them out, which is not specified.
   */
  method SelectionList(selection: set<string>) returns (a: array<string>)
    ensures fresh(a)
    ensures multiset(a[..]) == multiset(selection)
  {
    var xs: seq<string> := [];
    var rest := selection;
    while rest != {}
      invariant multiset(xs) + multiset(rest) == multiset(selection)
      decreases |rest|
    {
      var x :| x in rest;
      assert multiset(rest) == multiset(rest - {x}) + multiset{x};
      xs := xs + [x];
      rest := rest - {x};
    }
    a := new string[|xs|](i requires 0 <= i < |xs| => xs[i]);
    assert a[..] == xs;
  }

  /** `xs` is in the order a comparator by `key` asks for. */
  predicate SortedBy(xs: seq<string>, key: string -> int)
  {
    forall i, j :: 0 <= i < j < |xs| ==> key(xs[i]) <= key(xs[j])
  }

  /**
   * `Collections.sort` of a list's elements, in place, with a comparator that compares the keys
   * `key` gives them.
   */
  method SortBy(a: array<string>, key: string -> int)
    modifies a
    ensures SortedBy(a[..], key)
    ensures multiset(a[..]) == multiset(old(a[..]))
  {
    var i := 0;
    while i < a.Length
      invariant 0 <= i <= a.Length
      invariant SortedBy(a[..i], key)
      invariant multiset(a[..]) == multiset(old(a[..]))
    {
      InsertLast(a, i, key);
      i := i + 1;
    }
  }

  /**
   * One step of the insertion sort: `a[i]` moves down past every element with a greater key, so a
   * sorted prefix of length `i` becomes one of length `i + 1`; elements with equal keys keep their order.
   */
  method InsertLast(a: array<string>, i: nat, key: string -> int)
    requires i < a.Length && SortedBy(a[..i], key)
    modifies a
    ensures SortedBy(a[..i + 1], key)
    ensures multiset(a[..]) == multiset(old(a[..]))
  {
    var j := i;
    while j > 0 && key(a[j - 1]) > key(a[j])
      invariant 0 <= j <= i
      invariant forall p, q :: 0 <= p < q <= i && p != j && q != j ==> key(a[p]) <= key(a[q])
      invariant forall q :: j < q <= i ==> key(a[j]) < key(a[q])
      invariant multiset(a[..]) == multiset(old(a[..]))
    {
      Swap(a, j - 1, j);
      j := j - 1;
    }
  }

  /** Exchanges two neighbouring elements. */
  method Swap(a: array<string>, i: nat, j: nat)
    requires i < j < a.Length
    modifies a
    ensures a[..] == old(a[..])[i := old(a[j])][j := old(a[i])]
    ensures multiset(a[..]) == multiset(old(a[..]))
  {
    a[i], a[j] := a[j], a[i];
  }

  /**
   * `s` is what the ring-mode handler stores for `selection`: the selection, in an order the
   * comparator accepts, joined with the separator.
   */
  ghost predicate IsEncoding(selection: set<string>, values: seq<string>, s: string)
  {
    exists xs :: SortedBy(xs, Rank(values)) && multiset(xs) == multiset(selection) && s == Join(xs, Separator)
  }

  /**
   * Two sorted orders of the same listed values are the same list: a listed value is the only
   * one with its rank.
   */
  lemma {:induction false} SortedListedUnique(xs: seq<string>, ys: seq<string>, values: seq<string>)
    requires SortedBy(xs, Rank(values)) && SortedBy(ys, Rank(values))
    requires multiset(xs) == multiset(ys)
    requires forall x :: x in xs ==> x in values
    ensures xs == ys
  {
    if xs == [] {
      assert |ys| == |multiset(ys)| == 0;
    } else {
      assert |ys| == |multiset(ys)| == |multiset(xs)| == |xs|;
      SameFirst(xs, ys, values);
      SameTails(xs, ys);
      assert forall x :: x in xs[1..] ==> x in xs;
      SortedListedUnique(xs[1..], ys[1..], values);
    }
  }

  /** Lists with the same elements and the same first element have tails with the same elements. */
  lemma SameTails(xs: seq<string>, ys: seq<string>)
    requires xs != [] && ys != [] && xs[0] == ys[0]
    requires multiset(xs) == multiset(ys)
    ensures multiset(xs[1..]) == multiset(ys[1..])
  {
    assert xs == [xs[0]] + xs[1..];
    assert ys == [ys[0]] + ys[1..];
    assert multiset(xs) == multiset{xs[0]} + multiset(xs[1..]);
    assert multiset(ys) == multiset{xs[0]} + multiset(ys[1..]);
    assert multiset(xs[1..]) == multiset(xs) - multiset{xs[0]};
    assert multiset(ys[1..]) == multiset(ys) - multiset{xs[0]};
  }

  /** Both sorted orders start with the listed value of least rank. */
  lemma SameFirst(xs: seq<string>, ys: seq<string>, values: seq<string>)
    requires xs != [] && ys != []
    requires SortedBy(xs, Rank(values)) && SortedBy(ys, Rank(values))
    requires multiset(xs) == multiset(ys)
    requires xs[0] in values
    ensures xs[0] == ys[0]
  {
    var key := Rank(values);
    assert xs[0] in multiset(ys);
    var k :| 0 <= k < |ys| && ys[k] == xs[0];
    assert key(ys[0]) <= key(xs[0]);
    assert ys[0] in multiset(xs);
    var m :| 0 <= m < |xs| && xs[m] == ys[0];
    assert key(xs[0]) <= key(ys[0]);
  }

  /**
   * When every selected value is listed, what the handler stores does not depend on the order
   * in which the selected set hands out its elements.
   */
  lemma EncodingDetermined(selection: set<string>, values: seq<string>, s1: string, s2: string)
    requires IsEncoding(selection, values, s1) && IsEncoding(selection, values, s2)
    requires forall x :: x in selection ==> x in values
    ensures s1 == s2
  {
    var xs :| SortedBy(xs, Rank(values)) && multiset(xs) == multiset(selection) && s1 == Join(xs, Separator);
    var ys :| SortedBy(ys, Rank(values)) && multiset(ys) == multiset(selection) && s2 == Join(ys, Separator);
    assert forall x :: x in xs ==> x in multiset(selection);
    SortedListedUnique(xs, ys, values);
  }

  /** The selected set `onActivityCreated` reads from a stored string: `TextUtils.split`, then a hash set. */
  function SelectionOf(stored: string): set<string>
  {
    set x | x in SplitKeepingEmpty(stored, Separator)
  }

  /**
   * `onActivityCreated` reads back the set the handler stored (`TextUtils.split`, then a hash
   * set), provided no selected value is empty and each is separable from the separator.
   */
  lemma RestoresSelection(selection: set<string>, values: seq<string>, s: string)
    requires IsEncoding(selection, values, s)
    requires forall x :: x in selection ==> x != "" && Separable(x, Separator)
    ensures SelectionOf(s) == selection
  {
    var xs :| SortedBy(xs, Rank(values)) && multiset(xs) == multiset(selection) && s == Join(xs, Separator);
    assert forall x :: x in xs <==> x in selection by {
      forall x
        ensures x in xs <==> x in selection
      {
        assert x in xs <==> x in multiset(xs);
      }
    }
    assert "" !in xs;
    SplitKeepingEmptyOfJoin(xs, Separator);
  }

  /** The decimal text of a number, which is how ring modes are listed, is always separable. */
  lemma DecimalIsSeparable(n: int)
    ensures IntToDecimal(n) != "" && Separable(IntToDecimal(n), Separator)
  {
    SeparableWithoutFirstChar(IntToDecimal(n), Separator);
  }

  /**
   * Not containing the separator is not enough for the round trip: a value made of the
   * separator without its final "O" completes a false separator with the real one, so splitting
   * the join of it and "b" does not give the two values back.
   */
  lemma NotContainingIsNotEnough()
    ensures var x := Separator[..20];
      && !Contains(x, Separator)
      && SplitKeepingEmpty(Join([x, "b"], Separator), Separator) != [x, "b"]
  {
    var x := Separator[..20];
    var s := Join([x, "b"], Separator);
    assert s == x + Separator + "b";
    assert s[0..|Separator|] == Separator;
    assert StartsAt(s, 0, Separator);
    assert FindFrom(s, Separator, 0) == Some(0);
    assert Pieces(s, Separator)[0] == "";
  }

  /** `parseStoredValue`: `None` (null) for missing or empty text, otherwise `split` by the separator. */
  function ParseStoredValue(val: Option<string>): (r: Option<seq<string>>)
    ensures r.None? <==> val.None? || val.value == ""
  {
    if val.None? || val.value == "" then None else Some(Split(val.value, Separator))
  }

  /** `parseStoredValue` undoes the join the handler stores, for non-empty separable values. */
  lemma ParseStoredValueOfJoin(xs: seq<string>)
    requires forall i :: 0 <= i < |xs| ==> xs[i] != "" && Separable(xs[i], Separator)
    ensures ParseStoredValue(Some(Join(xs, Separator))) == if xs == [] then None else Some(xs)
  {
    if xs != [] {
      SplitOfJoin(xs, Separator);
    }
  }

  /** `piece` is the decimal text of a position in `entries`. */
  predicate IndexIn(piece: string, entries: seq<string>)
  {
    ParseInt(piece).Some? && 0 <= ParseInt(piece).value < |entries|
  }

  /**
   * The entry each stored piece names, or `None` where `Integer.parseInt` throws or the index
   * runs off the entries.
   */
  function EntryLabels(pieces: seq<string>, entries: seq<string>): (r: Option<seq<string>>)
    ensures r.Some? <==> forall i :: 0 <= i < |pieces| ==> IndexIn(pieces[i], entries)
    ensures r.Some? ==> |r.value| == |pieces|
    ensures r.Some? ==> forall i :: 0 <= i < |pieces| ==> r.value[i] == entries[ParseInt(pieces[i]).value]
    decreases |pieces|
  {
    if pieces == [] then Some([])
    else match EntryLabels(pieces[..|pieces| - 1], entries)
      case None => None
      case Some(labels) =>
        var last := pieces[|pieces| - 1];
        if IndexIn(last, entries) then Some(labels + [entries[ParseInt(last).value]]) else None
  }

  /** The summary `updateSummary` gives: the default text, or the joined entries. */
  datatype Summary = DefaultSummary | EntryList(text: string)

  /** What `updateSummary(val)` shows, or `None` when an exception escapes it. */
  function SummaryOf(val: string, entries: seq<string>): (r: Option<Summary>)
    ensures r == Some(DefaultSummary) <==> val == ""
    ensures r.None? <==> val != "" && EntryLabels(Split(val, Separator), entries).None?
  {
    match ParseStoredValue(Some(val))
    case None => Some(DefaultSummary)
    case Some(pieces) =>
      match EntryLabels(pieces, entries)
      case None => None
      case Some(labels) => Some(EntryList(Join(labels, SummarySeparator)))
  }

  /**
   * The loop of `updateSummary`: the entry for each piece, with " | " before every one but the
   * first; `None` when a piece is not a number or not a position in the entries.
   */
  method BuildSummary(pieces: seq<string>, entries: seq<string>) returns (r: Option<string>)
    ensures r.None? <==> EntryLabels(pieces, entries).None?
    ensures r.Some? ==> r.value == Join(EntryLabels(pieces, entries).value, SummarySeparator)
  {
    var summary := "";
    var i := 0;
    while i < |pieces|
      invariant 0 <= i <= |pieces|
      invariant EntryLabels(pieces[..i], entries).Some?
      invariant summary == Join(EntryLabels(pieces[..i], entries).value, SummarySeparator)
    {
      var index := ParseInt(pieces[i]);
      if index.None? || !(0 <= index.value < |entries|) {
        return None;
      }
      var entry := entries[index.value];
      ghost var before := EntryLabels(pieces[..i], entries).value;
      assert pieces[..i + 1][..i] == pieces[..i];
      assert EntryLabels(pieces[..i + 1], entries).value == before + [entry];
      if i != 0 {
        summary := summary + SummarySeparator;
        JoinSnoc(before, entry, SummarySeparator);
      }
      summary := summary + entry;
      i := i + 1;
    }
    assert pieces[..i] == pieces;
    return Some(summary);
  }

  /** Stored positions, written as decimal text, show the entries at those positions in stored order. */
  lemma SummaryOfPositions(pieces: seq<string>, positions: seq<nat>, entries: seq<string>)
    requires |pieces| == |positions|
    requires forall i :: 0 <= i < |positions| ==> positions[i] < |entries| && positions[i] <= MaxInt
    requires forall i :: 0 <= i < |positions| ==> pieces[i] == IntToDecimal(positions[i])
    ensures EntryLabels(pieces, entries).Some?
    ensures forall i :: 0 <= i < |positions| ==> EntryLabels(pieces, entries).value[i] == entries[positions[i]]
  {
    forall i | 0 <= i < |positions|
      ensures ParseInt(pieces[i]) == Some(positions[i] as Int32)
    {
      ParseIntOfDecimal(positions[i]);
    }
  }
}
