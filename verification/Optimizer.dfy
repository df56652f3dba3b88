/** Taking the measurements out of an OpenQASM text, optimising what is left and putting
    them back at the end: scripts/optimizer/app.py. A text is the list of its lines. */
module Optimizer {
  import opened Complex
  import opened Qasm
  import opened Text

  // ---------- the text ----------

  predicate IsMeasure(line: string) {
    StartsWith(Strip(line), "measure ")
  }

  predicate IsOther(line: string) {
    !IsMeasure(line)
  }

  predicate IsBarrier(line: string) {
    StartsWith(Strip(line), "barrier ")
  }

  predicate NonBlank(line: string) {
    Strip(line) != ""
  }

  function Filter(lines: seq<string>, keep: string -> bool): seq<string> {
    if lines == [] then []
    else (if keep(lines[0]) then [lines[0]] else []) + Filter(lines[1..], keep)
  }

  lemma {:induction false} FilterConcat(a: seq<string>, b: seq<string>, keep: string -> bool)
    ensures Filter(a + b, keep) == Filter(a, keep) + Filter(b, keep)
  {
    if a == [] {
      assert a + b == b;
    } else {
      assert (a + b)[1..] == a[1..] + b;
      FilterConcat(a[1..], b, keep);
    }
  }

  lemma FilterOne(line: string, keep: string -> bool)
    ensures Filter([line], keep) == if keep(line) then [line] else []
  {
    assert [line][1..] == [];
  }

  predicate All(lines: seq<string>, keep: string -> bool) {
    forall i :: 0 <= i < |lines| ==> keep(lines[i])
  }

  /** split_unitary_and_measurements */
  method Split(lines: seq<string>) returns (unitary: seq<string>, measures: seq<string>, barriers: seq<string>)
    ensures measures == Filter(lines, IsMeasure)
    ensures unitary + barriers == Filter(lines, IsOther)
    ensures All(barriers, IsBarrier) && (unitary == [] || !IsBarrier(unitary[|unitary| - 1]))
  {
    measures := [];
    var others: seq<string> := [];
    for i := 0 to |lines|
      invariant measures == Filter(lines[..i], IsMeasure) && others == Filter(lines[..i], IsOther)
    {
      assert lines[..i + 1] == lines[..i] + [lines[i]];
      FilterConcat(lines[..i], [lines[i]], IsMeasure);
      FilterConcat(lines[..i], [lines[i]], IsOther);
      FilterOne(lines[i], IsMeasure);
      FilterOne(lines[i], IsOther);
      if IsMeasure(lines[i]) {
        measures := measures + [lines[i]];
      } else {
        others := others + [lines[i]];
      }
    }
    assert lines[..|lines|] == lines;
    unitary, barriers := others, [];
    while unitary != []
      invariant unitary + barriers == others && All(barriers, IsBarrier)
      decreases |unitary|
    {
      var last := unitary[|unitary| - 1];
      if !IsBarrier(last) {
        break;
      }
      assert unitary + barriers == unitary[..|unitary| - 1] + ([last] + barriers);
      unitary, barriers := unitary[..|unitary| - 1], [last] + barriers;
    }
  }

  /** join_with_measurements */
  method Join(unitary: seq<string>, measures: seq<string>, barriers: seq<string>) returns (out: seq<string>)
    ensures out == Filter(unitary, NonBlank) + barriers + measures
  {
    out := [];
    for i := 0 to |unitary|
      invariant out == Filter(unitary[..i], NonBlank)
    {
      assert unitary[..i + 1] == unitary[..i] + [unitary[i]];
      FilterConcat(unitary[..i], [unitary[i]], NonBlank);
      FilterOne(unitary[i], NonBlank);
      if NonBlank(unitary[i]) {
        out := out + [unitary[i]];
      }
    }
    assert unitary[..|unitary|] == unitary;
    if barriers != [] {
      out := out + barriers;
    }
    if measures != [] {
      out := out + measures;
    }
  }

  /** The lines that are not measurements, without the blank ones, and then the measurements. */
  function Moved(lines: seq<string>): seq<string> {
    Filter(Filter(lines, IsOther), NonBlank) + Filter(lines, IsMeasure)
  }

  /** Splitting and joining, with nothing in between. */
  method MoveMeasurements(lines: seq<string>) returns (out: seq<string>)
    ensures out == Moved(lines)
  {
    var unitary, measures, barriers := Split(lines);
    FilterConcat(unitary, barriers, NonBlank);
    BarriersStay(barriers);
    out := Join(unitary, measures, barriers);
  }

  lemma {:induction false} FilterAll(lines: seq<string>, keep: string -> bool)
    requires All(lines, keep)
    ensures Filter(lines, keep) == lines
  {
    if lines != [] {
      FilterAll(lines[1..], keep);
    }
  }

  lemma {:induction false} FilterNone(lines: seq<string>, keep: string -> bool)
    requires forall i :: 0 <= i < |lines| ==> !keep(lines[i])
    ensures Filter(lines, keep) == []
  {
    if lines != [] {
      FilterNone(lines[1..], keep);
    }
  }

  lemma {:induction false} FilterHolds(lines: seq<string>, keep: string -> bool, also: string -> bool)
    requires All(lines, also)
    ensures All(Filter(lines, keep), keep) && All(Filter(lines, keep), also)
  {
    if lines != [] {
      FilterHolds(lines[1..], keep, also);
    }
  }

  lemma BarriersStay(barriers: seq<string>)
    requires All(barriers, IsBarrier)
    ensures Filter(barriers, NonBlank) == barriers
  {
    hide Strip;
    FilterAll(barriers, NonBlank);
  }

  lemma MeasuresStay(measures: seq<string>)
    requires All(measures, IsMeasure)
    ensures Filter(measures, IsMeasure) == measures && Filter(measures, IsOther) == []
    ensures Filter(measures, NonBlank) == measures
  {
    hide Strip;
    FilterAll(measures, IsMeasure);
    FilterAll(measures, NonBlank);
    FilterNone(measures, IsOther);
  }

  /** Gates keep their order, measurements keep theirs. */
  lemma MovedKeepsOrder(lines: seq<string>)
    ensures Filter(Moved(lines), IsMeasure) == Filter(lines, IsMeasure)
    ensures Filter(Moved(lines), IsOther) == Filter(Filter(lines, IsOther), NonBlank)
    ensures All(Moved(lines), NonBlank)
  {
    hide IsMeasure, IsOther, NonBlank, Strip;
    var others, measures := Filter(Filter(lines, IsOther), NonBlank), Filter(lines, IsMeasure);
    FilterHolds(lines, IsMeasure, Anything);
    FilterHolds(lines, IsOther, Anything);
    FilterHolds(Filter(lines, IsOther), NonBlank, IsOther);
    MeasuresStay(measures);
    FilterHolds(measures, NonBlank, IsMeasure);
    FilterAll(others, IsOther);
    OthersAreNoMeasures(others);
    FilterConcat(others, measures, IsMeasure);
    FilterConcat(others, measures, IsOther);
  }

  predicate Anything(line: string) {
    true
  }

  lemma OthersAreNoMeasures(lines: seq<string>)
    requires All(lines, IsOther)
    ensures Filter(lines, IsMeasure) == []
  {
    FilterNone(lines, IsMeasure);
  }

  /** Doing it again changes nothing. */
  lemma MovedIsIdempotent(lines: seq<string>)
    ensures Moved(Moved(lines)) == Moved(lines)
  {
    hide IsMeasure, IsOther, NonBlank, Strip;
    MovedKeepsOrder(lines);
    FilterHolds(Filter(lines, IsOther), NonBlank, Anything);
    FilterAll(Filter(Filter(lines, IsOther), NonBlank), NonBlank);
  }

  lemma MeasureIsNonBlank(line: string)
    ensures IsMeasure(line) ==> NonBlank(line)
  {
  }

  lemma {:induction false} BlanksDropOut(lines: seq<string>)
    ensures Filter(Filter(lines, IsOther), NonBlank) == Filter(Filter(lines, NonBlank), IsOther)
    ensures Filter(lines, IsMeasure) == Filter(Filter(lines, NonBlank), IsMeasure)
  {
    hide IsMeasure, NonBlank;
    if lines != [] {
      var line, rest := lines[0], lines[1..];
      BlanksDropOut(rest);
      MeasureIsNonBlank(line);
      FilterFirst(lines, IsOther);
      FilterFirst(lines, NonBlank);
      FilterFirst(lines, IsMeasure);
      if IsOther(line) {
        FilterFirst([line] + Filter(rest, IsOther), NonBlank);
        assert ([line] + Filter(rest, IsOther))[1..] == Filter(rest, IsOther);
      }
      if NonBlank(line) {
        FilterFirst([line] + Filter(rest, NonBlank), IsOther);
        FilterFirst([line] + Filter(rest, NonBlank), IsMeasure);
        assert ([line] + Filter(rest, NonBlank))[1..] == Filter(rest, NonBlank);
      }
    }
  }

  lemma FilterFirst(lines: seq<string>, keep: string -> bool)
    requires lines != []
    ensures Filter(lines, keep) ==
            if keep(lines[0]) then [lines[0]] + Filter(lines[1..], keep) else Filter(lines[1..], keep)
  {
  }

  lemma Bag(line: string, rest: seq<string>)
    ensures multiset([line] + rest) == multiset{line} + multiset(rest)
  {
  }

  lemma {:induction false} Partition(lines: seq<string>)
    ensures multiset(Filter(lines, IsOther)) + multiset(Filter(lines, IsMeasure)) == multiset(lines)
  {
    hide IsMeasure, Filter;
    if lines == [] {
      FilterAll(lines, IsOther);
      FilterAll(lines, IsMeasure);
    } else {
      var line, rest := lines[0], lines[1..];
      Partition(rest);
      FilterFirst(lines, IsOther);
      FilterFirst(lines, IsMeasure);
      assert lines == [line] + rest;
      Bag(line, rest);
      Bag(line, Filter(rest, IsOther));
      Bag(line, Filter(rest, IsMeasure));
    }
  }

  /** The lines that are not blank are only rearranged. */
  lemma MovedIsPermutation(lines: seq<string>)
    ensures multiset(Moved(lines)) == multiset(Filter(lines, NonBlank))
  {
    hide Filter;
    BlanksDropOut(lines);
    Partition(Filter(lines, NonBlank));
  }

  // ---------- written out ----------

  /** What a measurement looks like. */
  lemma MeasureWrittenOut()
    ensures IsMeasure("  measure q[0] -> c[0];") && !IsMeasure("h q[0];") && !IsMeasure("measured q;")
  {
    assert "  measure q[0] -> c[0];" == "  " + "measure q[0] -> c[0];";
    StripPadded("  ", "measure q[0] -> c[0];");
    StripOf("h q[0];");
    StripOf("measured q;");
    hide Strip;
    assert "measured q;"[..8] == "measured" && "measured"[7] != ' ';
    assert "measure q[0] -> c[0];"[..8] == "measure ";
  }

  /** What a barrier looks like. */
  lemma BarrierWrittenOut()
    ensures IsBarrier("barrier q;") && !IsBarrier("barrier(q);") && !NonBlank("")
  {
    StripOf("barrier q;");
    StripOf("barrier(q);");
    assert "barrier q;"[..8] == "barrier " && "barrier(q);"[..8] == "barrier(" && "barrier("[7] != ' ';
  }
}
