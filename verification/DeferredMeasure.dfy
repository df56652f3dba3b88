/** What moving the measurements to the end (scripts/optimizer/app.py) does to the meaning
    of an OpenQASM text. */
module DeferredMeasure {
  import opened Complex
  import opened Qasm
  import opened Optimizer
  import opened Probes

  /** One operation, which may be conditional on classical bits. */
  datatype Instr = Does(line: Line) | When(cbits: seq<nat>, want: seq<bool>, line: Line)

  predicate Holds(creg: map<nat, bool>, cbits: seq<nat>, want: seq<bool>) {
    forall i :: 0 <= i < |cbits| && i < |want| ==> (cbits[i] in creg && creg[cbits[i]]) == want[i]
  }

  function Perform(w: Roots, instr: Instr, br: Branch): Branch {
    match instr
    case Does(line) => DoLine(w, line, br)
    case When(cbits, want, line) => if Holds(br.creg, cbits, want) then DoLine(w, line, br) else br
  }

  function RunInstrs(w: Roots, instrs: seq<Instr>, br: Branch): Branch {
    if instrs == [] then br else RunInstrs(w, instrs[1..], Perform(w, instrs[0], br))
  }

  /** What a line of text stands for: a declaration, comment or barrier for nothing, a line
      with whole registers for one operation per index. */
  type Reading = string -> seq<Instr>

  function Denoted(read: Reading, lines: seq<string>): seq<Instr> {
    if lines == [] then [] else read(lines[0]) + Denoted(read, lines[1..])
  }

  function RunText(w: Roots, read: Reading, lines: seq<string>, br: Branch): Branch {
    RunInstrs(w, Denoted(read, lines), br)
  }

  predicate Reads(instr: Instr) {
    instr.Does? && instr.line.MeasureLine?
  }

  predicate AllRead(instrs: seq<Instr>) {
    forall i :: 0 <= i < |instrs| ==> Reads(instrs[i])
  }

  predicate NoneReads(instrs: seq<Instr>) {
    forall i :: 0 <= i < |instrs| ==> !instrs[i].line.MeasureLine?
  }

  /** Measurements, of a qubit or of a whole register, are exactly what the splitter takes for
      one, and blank lines do nothing. */
  predicate Regular(read: Reading, line: string) {
    if IsMeasure(line) then AllRead(read(line))
    else NoneReads(read(line)) && (!NonBlank(line) ==> read(line) == [])
  }

  /** The line does not disturb qubit q: it acts elsewhere, or along the measured axis. */
  predicate Spares(w: Roots, line: Line, q: Qubit) {
    match line
    case GateLine(g, _, target) => target != q || Diagonal(TargetMatrix(w, g))
    case ResetLine(target) => target != q
    case MeasureLine(_, _) => false
  }

  /** A gate that does nothing, such as a rotation by no angle. */
  predicate Idle(w: Roots, line: Line) {
    line.GateLine? && TargetMatrix(w, line.gate) == IDENTITY
  }

  /** The instruction spares the measured qubit, and its condition does not look at the
      measured bit, unless nothing hangs on it. */
  predicate SparesAll(w: Roots, instr: Instr, q: Qubit, cbit: nat) {
    match instr
    case Does(line) => Spares(w, line, q)
    case When(cbits, _, line) => Spares(w, line, q) && (cbit !in cbits || Idle(w, line))
  }

  // ---------- one measurement past one line ----------

  lemma PutBit(b: Basis, q: Qubit, p: Qubit, v: bool)
    ensures |Put(b, q, v)| == |b|
    ensures p != q ==> Bit(Put(b, q, v), p) == Bit(b, p)
    ensures v == Bit(b, q) ==> Put(b, q, v) == b
  {
  }

  lemma ZeroApplied(m: Matrix, bit: bool)
    ensures m.Apply(bit, ZERO, ZERO) == ZERO
  {
  }

  lemma DiagonalApplied(m: Matrix, bit: bool, x0: Complex, x1: Complex)
    requires Diagonal(m)
    ensures m.Apply(bit, x0, x1) == if bit then m.d.Times(x1) else m.a.Times(x0)
  {
  }

  lemma TimesZero(x: Complex)
    ensures x.Times(ZERO) == ZERO
  {
  }

  lemma OneTimes(x: Complex)
    ensures ONE.Times(x) == x
  {
  }

  function GateOn(w: Roots, g: Gate, ctrls: seq<Qubit>, target: Qubit, psi: State): State {
    Controlled(ctrls, OnQubit(TargetMatrix(w, g), target, psi), psi)
  }

  lemma GateCrosses(w: Roots, g: Gate, ctrls: seq<Qubit>, target: Qubit, q: Qubit, v: bool, psi: State, b: Basis)
    requires target != q || Diagonal(TargetMatrix(w, g))
    ensures GateOn(w, g, ctrls, target, Project(q, v, psi))(b) == Project(q, v, GateOn(w, g, ctrls, target, psi))(b)
  {
    hide TargetMatrix, Matrix.Apply, Complex.Times, Diagonal;
    var m := TargetMatrix(w, g);
    var b0, b1 := Put(b, target, false), Put(b, target, true);
    PutBit(b, target, q, false);
    PutBit(b, target, q, true);
    var p := Project(q, v, psi);
    if target != q {
      ZeroApplied(m, Bit(b, target));
    } else {
      DiagonalApplied(m, Bit(b, target), psi(b0), psi(b1));
      DiagonalApplied(m, Bit(b, target), p(b0), p(b1));
      TimesZero(m.a);
      TimesZero(m.d);
    }
  }

  lemma ClearCrosses(target: Qubit, q: Qubit, v: bool, u: bool, psi: State, b: Basis)
    requires target != q
    ensures Clear(target, u, Project(q, v, psi))(b) == Project(q, v, Clear(target, u, psi))(b)
  {
    PutBit(b, target, q, u);
  }

  /** Pointwise equality of branches. */
  ghost predicate Same(n: nat, s: Branch, t: Branch) {
    SameUpToPhase(n, ONE, s, t)
  }

  lemma SameIf(n: nat, s: Branch, t: Branch)
    requires s.creg == t.creg && s.measured == t.measured && s.cleared == t.cleared
    requires forall b: Basis :: |b| == n ==> t.psi(b) == s.psi(b)
    ensures Same(n, s, t)
  {
    forall b: Basis | |b| == n ensures t.psi(b) == ONE.Times(s.psi(b)) {
      OneTimes(s.psi(b));
    }
  }

  lemma LineCrosses(w: Roots, line: Line, q: Qubit, cbit: nat, n: nat, br: Branch)
    requires Spares(w, line, q)
    ensures Same(n, DoLine(w, line, DoMeasure(q, cbit, br)), DoMeasure(q, cbit, DoLine(w, line, br)))
  {
    hide TargetMatrix, Matrix.Apply, Complex.Times, Diagonal;
    var v := Next(br.measured);
    var s, t := DoLine(w, line, DoMeasure(q, cbit, br)), DoMeasure(q, cbit, DoLine(w, line, br));
    forall b: Basis | |b| == n ensures t.psi(b) == s.psi(b) {
      if line.GateLine? {
        GateCrosses(w, line.gate, line.ctrls, line.target, q, v, br.psi, b);
      } else {
        ClearCrosses(line.target, q, v, Next(br.cleared), br.psi, b);
      }
    }
    SameIf(n, s, t);
  }

  lemma SameSelf(n: nat, s: Branch)
    ensures Same(n, s, s)
  {
    SameIf(n, s, s);
  }

  lemma IdleLine(w: Roots, line: Line, br: Branch, b: Basis)
    requires Idle(w, line)
    ensures DoLine(w, line, br).psi(b) == br.psi(b)
    ensures DoLine(w, line, br) == br.(psi := DoLine(w, line, br).psi)
  {
    hide TargetMatrix, Complex.Times;
    var q := line.target;
    var b0, b1 := Put(b, q, false), Put(b, q, true);
    PutBit(b, q, q, Bit(b, q));
    IdentityApplied(Bit(b, q), br.psi(b0), br.psi(b1));
  }

  /** An idle line may as well be left out, on either side of a measurement. */
  lemma IdleCrosses(w: Roots, instr: Instr, q: Qubit, cbit: nat, n: nat, br: Branch)
    requires instr.When? && Idle(w, instr.line)
    ensures Same(n, Perform(w, instr, DoMeasure(q, cbit, br)), DoMeasure(q, cbit, Perform(w, instr, br)))
  {
    hide TargetMatrix, DoLine, Idle, Complex.Times, Holds;
    var s, t := Perform(w, instr, DoMeasure(q, cbit, br)), DoMeasure(q, cbit, Perform(w, instr, br));
    forall b: Basis | |b| == n ensures t.psi(b) == s.psi(b) {
      IdleLine(w, instr.line, DoMeasure(q, cbit, br), b);
      IdleLine(w, instr.line, br, b);
    }
    IdleLine(w, instr.line, DoMeasure(q, cbit, br), []);
    IdleLine(w, instr.line, br, []);
    SameIf(n, s, t);
  }

  lemma InstrCrosses(w: Roots, instr: Instr, q: Qubit, cbit: nat, n: nat, br: Branch)
    requires SparesAll(w, instr, q, cbit)
    ensures Same(n, Perform(w, instr, DoMeasure(q, cbit, br)), DoMeasure(q, cbit, Perform(w, instr, br)))
  {
    hide DoLine, Same, Spares, Idle;
    if instr.When? && cbit in instr.cbits {
      IdleCrosses(w, instr, q, cbit, n, br);
    } else {
      if instr.When? {
        assert Holds(DoMeasure(q, cbit, br).creg, instr.cbits, instr.want) == Holds(br.creg, instr.cbits, instr.want);
      }
      if instr.When? && !Holds(br.creg, instr.cbits, instr.want) {
        SameSelf(n, DoMeasure(q, cbit, br));
      } else {
        LineCrosses(w, instr.line, q, cbit, n, br);
      }
    }
  }

  // ---------- lists of operations ----------

  lemma {:induction false} RunConcat(w: Roots, xs: seq<Instr>, ys: seq<Instr>, br: Branch)
    ensures RunInstrs(w, xs + ys, br) == RunInstrs(w, ys, RunInstrs(w, xs, br))
    decreases |xs|
  {
    hide Perform;
    if xs == [] {
      assert xs + ys == ys;
    } else {
      assert (xs + ys)[1..] == xs[1..] + ys;
      RunConcat(w, xs[1..], ys, Perform(w, xs[0], br));
    }
  }

  lemma {:induction false} RunInstrsKeepsPhase(w: Roots, instrs: seq<Instr>, n: nat, u: Complex, s: Branch, t: Branch)
    requires SameUpToPhase(n, u, s, t)
    ensures SameUpToPhase(n, u, RunInstrs(w, instrs, s), RunInstrs(w, instrs, t))
    decreases |instrs|
  {
    hide DoLine, PhaseApart;
    if instrs != [] {
      LineKeepsPhase(w, instrs[0].line, n, u, s, t);
      RunInstrsKeepsPhase(w, instrs[1..], n, u, Perform(w, instrs[0], s), Perform(w, instrs[0], t));
    }
  }

  lemma OneIsUnit(u: Complex)
    ensures ONE.Times(u) == u && u.Times(ONE) == u
  {
  }

  lemma SameThen(n: nat, u: Complex, r: Branch, s: Branch, t: Branch)
    requires Same(n, r, s) && SameUpToPhase(n, u, s, t)
    ensures SameUpToPhase(n, u, r, t)
  {
    hide SameUpToPhase, Complex.Times;
    PhasesCompose(n, ONE, u, r, s, t);
    OneIsUnit(u);
  }

  predicate AllSpare(w: Roots, instrs: seq<Instr>, q: Qubit, cbit: nat) {
    forall i :: 0 <= i < |instrs| ==> SparesAll(w, instrs[i], q, cbit)
  }

  /** A measurement moves past any operations that spare it. */
  lemma {:induction false} MeasureCrosses(w: Roots, instrs: seq<Instr>, q: Qubit, cbit: nat, n: nat, br: Branch)
    requires AllSpare(w, instrs, q, cbit)
    ensures Same(n, RunInstrs(w, instrs, DoMeasure(q, cbit, br)), DoMeasure(q, cbit, RunInstrs(w, instrs, br)))
    decreases |instrs|
  {
    hide SparesAll, Perform, DoMeasure, SameUpToPhase;
    if instrs == [] {
      SameSelf(n, DoMeasure(q, cbit, br));
    } else {
      var instr, rest := instrs[0], instrs[1..];
      InstrCrosses(w, instr, q, cbit, n, br);
      var s, t := Perform(w, instr, DoMeasure(q, cbit, br)), DoMeasure(q, cbit, Perform(w, instr, br));
      RunInstrsKeepsPhase(w, rest, n, ONE, s, t);
      MeasureCrosses(w, rest, q, cbit, n, Perform(w, instr, br));
      SameThen(n, ONE, RunInstrs(w, rest, s), RunInstrs(w, rest, t),
               DoMeasure(q, cbit, RunInstrs(w, rest, Perform(w, instr, br))));
    }
  }

  /** None of the operations disturbs a qubit or reads a bit that the measurements concern. */
  predicate Undisturbing(w: Roots, measures: seq<Instr>, instrs: seq<Instr>)
    requires AllRead(measures)
  {
    forall i :: 0 <= i < |measures| ==> AllSpare(w, instrs, measures[i].line.target, measures[i].line.cbit)
  }

  /** So do measurements of a whole register. */
  lemma {:induction false} MeasuresCross(w: Roots, measures: seq<Instr>, instrs: seq<Instr>, n: nat, br: Branch)
    requires AllRead(measures) && Undisturbing(w, measures, instrs)
    ensures Same(n, RunInstrs(w, instrs, RunInstrs(w, measures, br)), RunInstrs(w, measures, RunInstrs(w, instrs, br)))
    decreases |measures|
  {
    hide AllSpare, DoMeasure, SameUpToPhase;
    if measures == [] {
      SameSelf(n, RunInstrs(w, instrs, br));
    } else {
      assert Reads(measures[0]);
      var q, cbit, rest := measures[0].line.target, measures[0].line.cbit, measures[1..];
      var next, run := DoMeasure(q, cbit, br), RunInstrs(w, instrs, br);
      MeasuresCross(w, rest, instrs, n, next);
      MeasureCrosses(w, instrs, q, cbit, n, br);
      RunInstrsKeepsPhase(w, rest, n, ONE, RunInstrs(w, instrs, next), DoMeasure(q, cbit, run));
      SameThen(n, ONE, RunInstrs(w, instrs, RunInstrs(w, measures, br)),
               RunInstrs(w, rest, RunInstrs(w, instrs, next)), RunInstrs(w, measures, run));
    }
  }

  // ---------- texts ----------

  lemma {:induction false} DenotedConcat(read: Reading, a: seq<string>, b: seq<string>)
    ensures Denoted(read, a + b) == Denoted(read, a) + Denoted(read, b)
  {
    if a == [] {
      assert a + b == b;
    } else {
      assert (a + b)[1..] == a[1..] + b;
      DenotedConcat(read, a[1..], b);
    }
  }

  lemma RunTextConcat(w: Roots, read: Reading, a: seq<string>, b: seq<string>, br: Branch)
    ensures RunText(w, read, a + b, br) == RunText(w, read, b, RunText(w, read, a, br))
  {
    DenotedConcat(read, a, b);
    RunConcat(w, Denoted(read, a), Denoted(read, b), br);
  }

  predicate AllRegular(read: Reading, lines: seq<string>) {
    forall i :: 0 <= i < |lines| ==> Regular(read, lines[i])
  }

  /** No line behind a measurement disturbs a qubit or reads a bit it measured. */
  predicate Undisturbed(w: Roots, read: Reading, lines: seq<string>)
    requires AllRegular(read, lines)
  {
    forall i, j :: 0 <= i < j < |lines| && IsMeasure(lines[i]) && IsOther(lines[j]) ==>
      Undisturbing(w, read(lines[i]), read(lines[j]))
  }

  lemma UndisturbingConcat(w: Roots, measures: seq<Instr>, xs: seq<Instr>, ys: seq<Instr>)
    requires AllRead(measures) && Undisturbing(w, measures, xs) && Undisturbing(w, measures, ys)
    ensures Undisturbing(w, measures, xs + ys)
  {
    hide SparesAll;
  }

  lemma {:induction false} FilterSpares(w: Roots, read: Reading, measures: seq<Instr>, lines: seq<string>)
    requires AllRead(measures)
    requires forall j :: 0 <= j < |lines| && IsOther(lines[j]) ==> Undisturbing(w, measures, read(lines[j]))
    ensures Undisturbing(w, measures, Denoted(read, Filter(lines, IsOther)))
    decreases |lines|
  {
    hide Undisturbing, IsMeasure, Filter;
    if lines == [] {
      FilterAll(lines, IsOther);
      NothingDisturbs(w, measures);
    } else {
      FilterSpares(w, read, measures, lines[1..]);
      FilterFirst(lines, IsOther);
      if IsOther(lines[0]) {
        var others := Filter(lines[1..], IsOther);
        assert ([lines[0]] + others)[1..] == others;
        UndisturbingConcat(w, measures, read(lines[0]), Denoted(read, others));
      }
    }
  }

  lemma NothingDisturbs(w: Roots, measures: seq<Instr>)
    requires AllRead(measures)
    ensures Undisturbing(w, measures, [])
  {
  }

  lemma DenotedFirst(read: Reading, line: string, rest: seq<string>)
    ensures Denoted(read, [line] + rest) == read(line) + Denoted(read, rest)
  {
    assert ([line] + rest)[1..] == rest;
  }

  lemma {:induction false} SplittingKeepsMeaning(w: Roots, read: Reading, lines: seq<string>, n: nat, br: Branch)
    requires AllRegular(read, lines) && Undisturbed(w, read, lines)
    ensures Same(n, RunText(w, read, lines, br),
                 RunText(w, read, Filter(lines, IsMeasure), RunText(w, read, Filter(lines, IsOther), br)))
    decreases |lines|
  {
    hide IsMeasure, Undisturbing, RunInstrs, SameUpToPhase, Filter, AllRead, NoneReads;
    if lines == [] {
      FilterAll(lines, IsOther);
      FilterAll(lines, IsMeasure);
      EmptyRun(w, br);
      SameSelf(n, br);
    } else {
      var line, rest := lines[0], lines[1..];
      var others, measures := Filter(rest, IsOther), Filter(rest, IsMeasure);
      var next := RunInstrs(w, read(line), br);
      TailIsUndisturbed(w, read, lines);
      SplittingKeepsMeaning(w, read, rest, n, next);
      FilterFirst(lines, IsOther);
      FilterFirst(lines, IsMeasure);
      RunConcat(w, read(line), Denoted(read, rest), br);
      if IsMeasure(line) {
        assert Regular(read, line);
        FilterSpares(w, read, read(line), rest);
        MeasuresCross(w, read(line), Denoted(read, others), n, br);
        var run := RunText(w, read, others, br);
        var s, t := RunText(w, read, others, next), RunInstrs(w, read(line), run);
        RunInstrsKeepsPhase(w, Denoted(read, measures), n, ONE, s, t);
        SameThen(n, ONE, RunText(w, read, lines, br), RunText(w, read, measures, s), RunText(w, read, measures, t));
        DenotedFirst(read, line, measures);
        RunConcat(w, read(line), Denoted(read, measures), run);
      } else {
        DenotedFirst(read, line, others);
        RunConcat(w, read(line), Denoted(read, others), br);
      }
    }
  }

  lemma EmptyRun(w: Roots, br: Branch)
    ensures RunInstrs(w, [], br) == br
  {
  }

  lemma TailIsUndisturbed(w: Roots, read: Reading, lines: seq<string>)
    requires AllRegular(read, lines) && Undisturbed(w, read, lines) && lines != []
    ensures AllRegular(read, lines[1..]) && Undisturbed(w, read, lines[1..])
    ensures IsMeasure(lines[0]) ==>
              forall j :: 0 <= j < |lines[1..]| && IsOther(lines[1..][j]) ==>
                Undisturbing(w, read(lines[0]), read(lines[1..][j]))
  {
    hide IsMeasure, Undisturbing, IsOther, AllRead, NoneReads;
    var rest := lines[1..];
    forall i | 0 <= i < |rest| ensures Regular(read, rest[i]) {
      assert rest[i] == lines[i + 1];
    }
    forall i, j | 0 <= i < j < |rest| && IsMeasure(rest[i]) && IsOther(rest[j])
      ensures Undisturbing(w, read(rest[i]), read(rest[j]))
    {
      assert rest[i] == lines[i + 1] && rest[j] == lines[j + 1];
    }
  }

  /** Blank lines do nothing. */
  lemma {:induction false} BlanksDoNothing(read: Reading, lines: seq<string>)
    requires forall i :: 0 <= i < |lines| && !NonBlank(lines[i]) ==> read(lines[i]) == []
    ensures Denoted(read, Filter(lines, NonBlank)) == Denoted(read, lines)
    decreases |lines|
  {
    hide NonBlank;
    if lines != [] {
      FilterFirst(lines, NonBlank);
      DenotedFirst(read, lines[0], Filter(lines[1..], NonBlank));
      BlanksDoNothing(read, lines[1..]);
    }
  }

  // ---------- the optimizer service ----------

  /** The whole service, for any optimizer that keeps the meaning of the unitary part up to a
      global phase: the text it returns means what the text it was given means. */
  lemma OptimizingKeepsMeaning(w: Roots, read: Reading, lines: seq<string>, unitary: seq<string>,
                               barriers: seq<string>, optimized: seq<string>, n: nat, u: Complex, br: Branch)
    requires AllRegular(read, lines) && Undisturbed(w, read, lines)
    requires unitary + barriers == Filter(lines, IsOther)
    requires SameUpToPhase(n, u, RunText(w, read, unitary, br), RunText(w, read, optimized, br))
    requires forall i :: 0 <= i < |optimized| && !NonBlank(optimized[i]) ==> read(optimized[i]) == []
    ensures var out := Filter(optimized, NonBlank) + barriers + Filter(lines, IsMeasure);
            SameUpToPhase(n, u, RunText(w, read, lines, br), RunText(w, read, out, br))
  {
    hide Undisturbing, NonBlank, IsMeasure, IsOther, SameUpToPhase, Filter, RunInstrs, Denoted;
    var measures := Filter(lines, IsMeasure);
    var kept := Filter(optimized, NonBlank);
    SplittingKeepsMeaning(w, read, lines, n, br);
    RunTextConcat(w, read, unitary, barriers, br);
    BlanksDoNothing(read, optimized);
    RunTextConcat(w, read, kept + barriers, measures, br);
    RunTextConcat(w, read, kept, barriers, br);
    var s, t := RunText(w, read, unitary, br), RunText(w, read, optimized, br);
    RunInstrsKeepsPhase(w, Denoted(read, barriers), n, u, s, t);
    RunInstrsKeepsPhase(w, Denoted(read, measures), n, u, RunText(w, read, barriers, s), RunText(w, read, barriers, t));
    SameThen(n, u, RunText(w, read, lines, br),
             RunText(w, read, measures, RunText(w, read, barriers, s)),
             RunText(w, read, measures, RunText(w, read, barriers, t)));
  }

  /** Moving the measurements to the end keeps the meaning, on every branch. */
  lemma MovingKeepsMeaning(w: Roots, read: Reading, lines: seq<string>, n: nat, br: Branch)
    requires AllRegular(read, lines) && Undisturbed(w, read, lines)
    ensures Same(n, RunText(w, read, lines, br), RunText(w, read, Moved(lines), br))
  {
    hide Undisturbing, NonBlank, IsMeasure, SameUpToPhase, Filter, RunInstrs, Denoted;
    var others := Filter(lines, IsOther);
    OthersAreRegular(read, lines);
    SameSelf(n, RunText(w, read, others, br));
    assert others + [] == others;
    OptimizingKeepsMeaning(w, read, lines, others, [], others, n, ONE, br);
    assert Filter(others, NonBlank) + [] + Filter(lines, IsMeasure) == Moved(lines);
  }

  lemma {:induction false} OthersAreRegular(read: Reading, lines: seq<string>)
    requires AllRegular(read, lines)
    ensures forall i :: 0 <= i < |Filter(lines, IsOther)| && !NonBlank(Filter(lines, IsOther)[i]) ==>
              read(Filter(lines, IsOther)[i]) == []
  {
    hide IsMeasure, NonBlank;
    if lines != [] {
      assert Regular(read, lines[0]);
      forall i | 0 <= i < |lines[1..]| ensures Regular(read, lines[1..][i]) {
        assert lines[1..][i] == lines[i + 1];
      }
      OthersAreRegular(read, lines[1..]);
      FilterFirst(lines, IsOther);
    }
  }
}
