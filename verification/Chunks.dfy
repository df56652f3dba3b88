/** Cutting an OpenQASM file into pieces that fit a token budget: scripts/aiqasm/split.py.
    The tokenizer is a parameter, and a piece is the list of its lines. */
module Chunks {
  import opened Basics
  import opened Text

  // ---------- header and body ----------

  predicate Skipped(line: string) {
    line == "" || StartsWith(line, "//")
  }

  predicate IsGlobal(line: string) {
    StartsWith(line, "OPENQASM") || StartsWith(line, "include") ||
    StartsWith(line, "qreg") || StartsWith(line, "creg")
  }

  /** The lines that are kept, stripped, and are or are not global. */
  function Kept(lines: seq<string>, global: bool): seq<string> {
    if lines == [] then
      []
    else
      var before, line := Kept(lines[..|lines| - 1], global), Strip(lines[|lines| - 1]);
      if !Skipped(line) && IsGlobal(line) == global then before + [line] else before
  }

  method Classify(code: seq<string>) returns (globals: seq<string>, body: seq<string>)
    ensures globals == Kept(code, true) && body == Kept(code, false)
  {
    globals, body := [], [];
    for i := 0 to |code|
      invariant globals == Kept(code[..i], true) && body == Kept(code[..i], false)
    {
      var line := Strip(code[i]);
      assert code[..i + 1][..i] == code[..i];
      if Skipped(line) {
        continue;
      }
      if IsGlobal(line) {
        globals := globals + [line];
      } else {
        body := body + [line];
      }
    }
    assert code[..|code|] == code;
  }

  // ---------- budget ----------

  /** What the tokenizer makes of the joined global lines and of a line, and the limit. */
  datatype Budget = Budget(header: nat, cost: string -> nat, limit: nat) {

    function Cost(lines: seq<string>): nat {
      if lines == [] then 0 else cost(lines[0]) + Cost(lines[1..])
    }

    predicate Fits(lines: seq<string>) {
      header + Cost(lines) <= limit
    }
  }

  function Flatten(groups: seq<seq<string>>): seq<string> {
    if groups == [] then [] else groups[0] + Flatten(groups[1..])
  }

  /** The bodies the loop still emits when `current`, of cost `count`, has been collected. */
  function Pack(b: Budget, lines: seq<string>, current: seq<string>, count: nat): seq<seq<string>> {
    if lines == [] then
      if current == [] then [] else [current]
    else
      var t := b.cost(lines[0]);
      if count + t > b.limit then
        [current] + Pack(b, lines[1..], [lines[0]], b.header + t)
      else
        Pack(b, lines[1..], current + [lines[0]], count + t)
  }

  lemma PackStep(b: Budget, done: seq<seq<string>>, body: seq<string>, i: nat, current: seq<string>, count: nat)
    requires i < |body|
    ensures var t := b.cost(body[i]);
            done + Pack(b, body[i..], current, count) ==
            if count + t > b.limit then done + [current] + Pack(b, body[i + 1..], [body[i]], b.header + t)
            else done + Pack(b, body[i + 1..], current + [body[i]], count + t)
  {
    assert body[i..][1..] == body[i + 1..];
  }

  lemma PackEnd(b: Budget, done: seq<seq<string>>, lines: seq<string>, current: seq<string>, count: nat)
    requires lines == []
    ensures done + Pack(b, lines, current, count) == if current == [] then done else done + [current]
  {
  }

  /** split_openqasm_into_chunks, with None for an unknown model. */
  method Split(code: seq<string>, model: string, limits: map<string, nat>,
               encoded: seq<string> -> nat, cost: string -> nat)
    returns (chunks: Option<seq<seq<string>>>)
    ensures chunks.None? <==> model !in limits
    ensures chunks.Some? ==>
              var globals, body := Kept(code, true), Kept(code, false);
              var bodies := Pack(Budget(encoded(globals), cost, limits[model]), body, [], encoded(globals));
              |chunks.value| == |bodies| &&
              forall i :: 0 <= i < |bodies| ==> chunks.value[i] == globals + bodies[i]
  {
    hide Kept, Pack;
    if model !in limits {
      return None;
    }
    var globals, body := Classify(code);
    var limit := limits[model];
    ghost var b := Budget(encoded(globals), cost, limit);
    ghost var bodies: seq<seq<string>> := [];
    var out: seq<seq<string>> := [];
    assert body[0..] == body && [] + Pack(b, body, [], b.header) == Pack(b, body, [], b.header);
    var current: seq<string> := [];
    var count: nat := encoded(globals);
    for i := 0 to |body|
      invariant |out| == |bodies| && forall k :: 0 <= k < |out| ==> out[k] == globals + bodies[k]
      invariant bodies + Pack(b, body[i..], current, count) == Pack(b, body, [], encoded(globals))
    {
      var line := body[i];
      var t := cost(line);
      PackStep(b, bodies, body, i, current, count);
      if count + t > limit {
        out := out + [globals + current];
        bodies := bodies + [current];
        current := [line];
        count := encoded(globals) + t;
      } else {
        current := current + [line];
        count := count + t;
      }
    }
    PackEnd(b, bodies, body[|body|..], current, count);
    if current != [] {
      out := out + [globals + current];
    }
    return Some(out);
  }

  // ---------- the pieces ----------

  function Greedy(b: Budget, body: seq<string>): seq<seq<string>> {
    Pack(b, body, [], b.header)
  }

  lemma {:induction false} CostSnoc(b: Budget, lines: seq<string>, line: string)
    ensures b.Cost(lines + [line]) == b.Cost(lines) + b.cost(line)
  {
    if lines == [] {
      assert [] + [line] == [line];
    } else {
      assert (lines + [line])[1..] == lines[1..] + [line];
      CostSnoc(b, lines[1..], line);
    }
  }

  /** No line is lost, repeated or moved. */
  lemma {:induction false} PackKeepsLines(b: Budget, lines: seq<string>, current: seq<string>, count: nat)
    ensures Flatten(Pack(b, lines, current, count)) == current + lines
    decreases |lines|
  {
    if lines == [] {
      assert current + [] == current;
    } else {
      var t := b.cost(lines[0]);
      assert current + lines == current + ([lines[0]] + lines[1..]) == current + [lines[0]] + lines[1..];
      if count + t > b.limit {
        PackKeepsLines(b, lines[1..], [lines[0]], b.header + t);
        var more := Pack(b, lines[1..], [lines[0]], b.header + t);
        assert ([current] + more)[1..] == more;
      } else {
        PackKeepsLines(b, lines[1..], current + [lines[0]], count + t);
      }
    }
  }

  /** A body over budget is a single line that would not fit anywhere. */
  predicate Sound(b: Budget, group: seq<string>) {
    group != [] && (b.Fits(group) || |group| == 1)
  }

  lemma {:induction false} PackIsSound(b: Budget, lines: seq<string>, current: seq<string>)
    requires Sound(b, current)
    ensures forall g :: g in Pack(b, lines, current, b.header + b.Cost(current)) ==> Sound(b, g)
    decreases |lines|
  {
    if lines != [] {
      var count, t := b.header + b.Cost(current), b.cost(lines[0]);
      CostSnoc(b, current, lines[0]);
      if count + t > b.limit {
        CostSnoc(b, [], lines[0]);
        assert [] + [lines[0]] == [lines[0]];
        PackIsSound(b, lines[1..], [lines[0]]);
      } else {
        PackIsSound(b, lines[1..], current + [lines[0]]);
      }
    }
  }

  /** Every piece but the first has lines of its own; the first one is bare headers exactly
      when the first line does not fit behind them. A piece with lines is within the budget
      unless it is one line too long for any piece. */
  lemma {:induction false} GreedyIsSound(b: Budget, body: seq<string>)
    ensures body == [] <==> Greedy(b, body) == []
    ensures forall i :: 0 <= i < |Greedy(b, body)| && Greedy(b, body)[i] != [] ==> Sound(b, Greedy(b, body)[i])
    ensures forall i :: 0 <= i < |Greedy(b, body)| && Greedy(b, body)[i] == [] ==> i == 0
    ensures body != [] ==> (Greedy(b, body)[0] == [] <==> !b.Fits([body[0]]))
  {
    if body != [] {
      CostSnoc(b, [], body[0]);
      assert [] + [body[0]] == [body[0]];
      PackIsSound(b, body[1..], [body[0]]);
      var more := Pack(b, body[1..], [body[0]], b.header + b.cost(body[0]));
      forall i | 0 <= i < |more| ensures Sound(b, more[i]) {
        assert more[i] in more;
      }
      PackStarts(b, body[1..], [body[0]], b.header + b.cost(body[0]));
    }
  }

  lemma PackStarts(b: Budget, lines: seq<string>, current: seq<string>, count: nat)
    requires current != []
    ensures Pack(b, lines, current, count) != []
  {
  }

  /** All pieces are within the budget exactly when each line fits into a piece of its own. */
  lemma {:induction false} WithinBudget(b: Budget, body: seq<string>)
    ensures (forall g :: g in Greedy(b, body) ==> b.Fits(g)) <==>
            (forall i :: 0 <= i < |body| ==> b.Fits([body[i]]))
  {
    var groups := Greedy(b, body);
    GreedyIsSound(b, body);
    PackKeepsLines(b, body, [], b.header);
    assert [] + body == body;
    if forall g :: g in groups ==> b.Fits(g) {
      forall i | 0 <= i < |body| ensures b.Fits([body[i]]) {
        FlattenFits(b, groups, i);
      }
    }
    if forall i :: 0 <= i < |body| ==> b.Fits([body[i]]) {
      forall g | g in groups ensures b.Fits(g) {
        var k :| 0 <= k < |groups| && groups[k] == g;
        if |g| == 1 {
          var i := FlattenHas(groups, k, 0);
          assert [g[0]] == g;
        }
      }
    }
  }

  lemma {:induction false} CostContains(b: Budget, lines: seq<string>, i: nat)
    requires i < |lines|
    ensures b.Cost([lines[i]]) == b.cost(lines[i]) <= b.Cost(lines)
  {
    assert [lines[i]][1..] == [];
    if i > 0 {
      CostContains(b, lines[1..], i - 1);
    }
  }

  lemma {:induction false} FlattenFits(b: Budget, groups: seq<seq<string>>, i: nat)
    requires i < |Flatten(groups)| && forall g :: g in groups ==> b.Fits(g)
    ensures b.Fits([Flatten(groups)[i]])
  {
    assert groups[0] in groups;
    if i < |groups[0]| {
      CostContains(b, groups[0], i);
    } else {
      FlattenFits(b, groups[1..], i - |groups[0]|);
    }
  }

  lemma {:induction false} FlattenHas(groups: seq<seq<string>>, k: nat, j: nat) returns (i: nat)
    requires k < |groups| && j < |groups[k]|
    ensures i < |Flatten(groups)| && Flatten(groups)[i] == groups[k][j]
  {
    if k == 0 {
      i := j;
    } else {
      i := FlattenHas(groups[1..], k - 1, j);
      i := i + |groups[0]|;
    }
  }

  // ---------- no split is shorter ----------

  /** `lead` is what another split has already put into its current piece, `current` what the
      loop has. While the loop is not ahead in cost it needs no more pieces; when it is, at
      most one more. */
  lemma {:induction false} StaysAhead(
    b: Budget, lines: seq<string>, current: seq<string>, other: seq<seq<string>>, lead: nat)
    requires current != [] && other != [] && Flatten(other) == lines
    requires b.header + lead + b.Cost(other[0]) <= b.limit
    requires forall g :: g in other[1..] ==> b.Fits(g)
    ensures |Pack(b, lines, current, b.header + b.Cost(current))| <=
            |other| + if lead < b.Cost(current) then 1 else 0
    decreases |other|, |lines|
  {
    var c := b.Cost(current);
    if lines == [] {
    } else if other[0] == [] {
      assert Flatten(other[1..]) == lines;
      assert other[1] in other[1..];
      StaysAhead(b, lines, current, other[1..], 0);
    } else {
      var line, t := lines[0], b.cost(lines[0]);
      var first, rest := other[0][1..], other[1..];
      var next := [first] + rest;
      assert next[1..] == rest;
      assert lines == [line] + (first + Flatten(rest));
      assert lines[1..] == first + Flatten(rest) == Flatten(next);
      CostSnoc(b, current, line);
      CostSnoc(b, [], line);
      assert [] + [line] == [line];
      if b.header + c + t > b.limit {
        StaysAhead(b, lines[1..], [line], next, lead + t);
      } else {
        StaysAhead(b, lines[1..], current + [line], next, lead + t);
      }
    }
  }

  /** No way of cutting the same lines into consecutive pieces within the budget uses fewer
      pieces. */
  lemma {:induction false} Optimal(b: Budget, body: seq<string>, other: seq<seq<string>>)
    requires Flatten(other) == body && forall g :: g in other ==> b.Fits(g)
    ensures |Greedy(b, body)| <= |other|
  {
    if body != [] {
      FlattenFits(b, other, 0);
      DropEmpty(b, body, other);
    }
  }

  /** Leading empty pieces only make the other split longer. */
  lemma {:induction false} DropEmpty(b: Budget, body: seq<string>, other: seq<seq<string>>)
    requires body != [] && b.Fits([body[0]])
    requires Flatten(other) == body && forall g :: g in other ==> b.Fits(g)
    ensures |Greedy(b, body)| <= |other|
    decreases |other|
  {
    if other[0] == [] {
      assert Flatten(other[1..]) == body;
      DropEmpty(b, body, other[1..]);
    } else {
      var line, first, rest := body[0], other[0][1..], other[1..];
      var next := [first] + rest;
      assert other[0] in other && next[1..] == rest;
      assert body == [line] + (first + Flatten(rest));
      assert body[1..] == first + Flatten(rest) == Flatten(next);
      CostSnoc(b, [], line);
      assert [] + [line] == [line];
      StaysAhead(b, body[1..], [line], next, b.cost(line));
    }
  }

  // ---------- splitting a piece again ----------

  predicate Clean(lines: seq<string>, global: bool) {
    forall i :: 0 <= i < |lines| ==>
      Strip(lines[i]) == lines[i] && !Skipped(lines[i]) && IsGlobal(lines[i]) == global
  }

  lemma {:induction false} KeptIsClean(code: seq<string>, global: bool)
    ensures Clean(Kept(code, global), global)
  {
    if code != [] {
      KeptIsClean(code[..|code| - 1], global);
      StripTwice(code[|code| - 1]);
    }
  }

  lemma {:induction false} KeptOfClean(globals: seq<string>, body: seq<string>, global: bool)
    requires Clean(globals, true) && Clean(body, false)
    ensures Kept(globals + body, global) == if global then globals else body
    decreases |globals| + |body|
  {
    hide Strip, Skipped, IsGlobal;
    var all := globals + body;
    if body != [] {
      assert all[..|all| - 1] == globals + body[..|body| - 1];
      assert all[|all| - 1] == body[|body| - 1];
      assert body[..|body| - 1] + [body[|body| - 1]] == body;
      KeptOfClean(globals, body[..|body| - 1], global);
    } else if globals != [] {
      assert all == globals;
      assert all[..|all| - 1] == globals[..|globals| - 1] + [];
      assert globals[..|globals| - 1] + [globals[|globals| - 1]] == globals;
      KeptOfClean(globals[..|globals| - 1], [], global);
    }
  }

  /** Each piece is a file of its own: it has the same header, its body is the piece's, and
      if that is within the budget, splitting it again gives that one piece. */
  lemma {:induction false} PieceIsStable(b: Budget, code: seq<string>, i: nat)
    requires i < |Greedy(b, Kept(code, false))|
    ensures var globals, group := Kept(code, true), Greedy(b, Kept(code, false))[i];
            Kept(globals + group, true) == globals && Kept(globals + group, false) == group &&
            (group != [] && b.Fits(group) ==> Greedy(b, group) == [group])
  {
    hide Kept, Pack, Strip, Skipped, IsGlobal, Flatten;
    var body := Kept(code, false);
    var groups := Greedy(b, body);
    var group := groups[i];
    KeptIsClean(code, true);
    KeptIsClean(code, false);
    PackKeepsLines(b, body, [], b.header);
    assert [] + body == body;
    forall j | 0 <= j < |group|
      ensures Strip(group[j]) == group[j] && !Skipped(group[j]) && IsGlobal(group[j]) == false
    {
      var k := FlattenHas(groups, i, j);
    }
    KeptOfClean(Kept(code, true), group, true);
    KeptOfClean(Kept(code, true), group, false);
    if group != [] && b.Fits(group) {
      assert [] + group == group;
      PackOfFitting(b, group, []);
    }
  }

  lemma {:induction false} PackOfFitting(b: Budget, lines: seq<string>, current: seq<string>)
    requires b.Fits(current + lines) && current + lines != []
    ensures Pack(b, lines, current, b.header + b.Cost(current)) == [current + lines]
    decreases |lines|
  {
    if lines == [] {
      assert current + [] == current;
    } else {
      CostSnoc(b, current, lines[0]);
      assert current + lines == current + [lines[0]] + lines[1..];
      CostGrows(b, current + [lines[0]], lines[1..]);
      PackOfFitting(b, lines[1..], current + [lines[0]]);
    }
  }

  lemma {:induction false} CostGrows(b: Budget, lines: seq<string>, more: seq<string>)
    ensures b.Cost(lines) <= b.Cost(lines + more)
  {
    if lines != [] {
      assert (lines + more)[1..] == lines[1..] + more;
      CostGrows(b, lines[1..], more);
    }
  }

  // ---------- written out ----------

  /** The four kinds of header lines, and what is left out. */
  lemma LinesWrittenOut()
    ensures IsGlobal("OPENQASM 2.0;") && IsGlobal("include \"q.inc\";")
    ensures IsGlobal("qreg q[2];") && IsGlobal("creg c[2];")
    ensures !IsGlobal("gate g a {") && !IsGlobal("crz(1) q[0], q[1];") && !IsGlobal("barrier q;")
    ensures Skipped("// two") && Skipped("") && !Skipped("/ two") && !Skipped("h q[0];")
  {
    assert "OPENQASM 2.0;"[..8] == "OPENQASM" && "include \"q.inc\";"[..7] == "include";
    assert "qreg q[2];"[..4] == "qreg" && "creg c[2];"[..4] == "creg" && "// two"[..2] == "//";
    assert "/ two"[..2] == "/ " && "/ "[1] != '/';
    OtherLetter("gate g a {", 0);
    OtherLetter("barrier q;", 0);
    OtherLetter("crz(1) q[0], q[1];", 2);
  }

  lemma OtherLetter(line: string, i: nat)
    requires i < |line| && i < 4
    requires line[i] != "OPENQASM"[i] && line[i] != "include"[i] && line[i] != "qreg"[i] && line[i] != "creg"[i]
    ensures !IsGlobal(line)
  {
    assert |line| >= 4 ==> line[..4][i] == line[i];
    assert |line| >= 7 ==> line[..7][i] == line[i];
    assert |line| >= 8 ==> line[..8][i] == line[i];
  }
}
