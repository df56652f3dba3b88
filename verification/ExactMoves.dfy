/** Exactly when a measurement may be moved behind another line (scripts/optimizer/app.py). */
module ExactMoves {
  import opened Complex
  import opened Qasm
  import opened Optimizer
  import opened DeferredMeasure
  import opened Probes

  // ---------- amplitudes to look at ----------

  function Only(x: Basis): State {
    (b: Basis) => if b == x then ONE else ZERO
  }

  /** With all its controls set, a gate shows its matrix. */
  lemma GateShows(w: Roots, g: Gate, ctrls: seq<Qubit>, target: Qubit, n: nat, row: bool, col: bool)
    requires Placed(ctrls, target, n)
    ensures GateOn(w, g, ctrls, target, Only(Ones(n, target, col)))(Ones(n, target, row)) ==
            Entry(TargetMatrix(w, g), row, col)
  {
    hide TargetMatrix, Matrix.Apply, Ones;
    var b, psi := Ones(n, target, row), Only(Ones(n, target, col));
    OnesAre(n, target, row);
    OnesAre(n, target, true);
    OnesAre(n, target, false);
    UnitApplied(TargetMatrix(w, g), row);
    ControlsSet(ctrls, target, n, row);
    assert Put(b, target, false) == Ones(n, target, false) && Put(b, target, true) == Ones(n, target, true);
    assert psi(Ones(n, target, col)) == ONE && psi(Ones(n, target, !col)) == ZERO;
  }

  /** Measuring leaves alone a state that has the outcome, and a state that has not is gone. */
  lemma Projected(q: Qubit, v: bool, x: Basis, b: Basis)
    ensures Project(q, v, Only(x))(b) == if Bit(x, q) == v then Only(x)(b) else ZERO
  {
  }

  lemma GateOnNothing(w: Roots, g: Gate, ctrls: seq<Qubit>, target: Qubit, psi: State, b: Basis)
    requires forall x: Basis :: |x| == |b| ==> psi(x) == ZERO
    ensures GateOn(w, g, ctrls, target, psi)(b) == ZERO
  {
    hide TargetMatrix, Matrix.Apply;
    PutBit(b, target, target, false);
    PutBit(b, target, target, true);
    ZeroApplied(TargetMatrix(w, g), Bit(b, target));
  }

  lemma GateOnEqual(w: Roots, g: Gate, ctrls: seq<Qubit>, target: Qubit, psi: State, phi: State, b: Basis)
    requires forall x: Basis :: |x| == |b| ==> psi(x) == phi(x)
    ensures GateOn(w, g, ctrls, target, psi)(b) == GateOn(w, g, ctrls, target, phi)(b)
  {
    hide TargetMatrix, Matrix.Apply;
    PutBit(b, target, target, false);
    PutBit(b, target, target, true);
  }

  // ---------- a gate ----------

  /** For either outcome there is a state that tells a gate across the measured axis from the
      same gate before the measurement. */
  lemma GateTells(w: Roots, g: Gate, ctrls: seq<Qubit>, q: Qubit, n: nat, v: bool) returns (psi: State, b: Basis)
    requires Placed(ctrls, q, n) && !Diagonal(TargetMatrix(w, g))
    ensures |b| == n
    ensures GateOn(w, g, ctrls, q, Project(q, v, psi))(b) != Project(q, v, GateOn(w, g, ctrls, q, psi))(b)
  {
    hide TargetMatrix, GateOn, Ones;
    var col := TargetMatrix(w, g).b != ZERO;
    var x := Ones(n, q, col);
    psi, b := Only(x), Ones(n, q, !col);
    OnesAre(n, q, col);
    OnesAre(n, q, !col);
    GateShows(w, g, ctrls, q, n, !col, col);
    forall y: Basis ensures Project(q, v, psi)(y) == if col == v then psi(y) else ZERO {
      Projected(q, v, x, y);
    }
    if col == v {
      GateOnEqual(w, g, ctrls, q, Project(q, v, psi), psi, b);
    } else {
      GateOnNothing(w, g, ctrls, q, Project(q, v, psi), b);
    }
  }

  /** Measuring q before or after the gate gives the same amplitudes, for every state and
      either outcome. */
  ghost predicate Commutes(w: Roots, g: Gate, ctrls: seq<Qubit>, target: Qubit, q: Qubit, n: nat) {
    forall psi: State, v: bool, b: Basis :: |b| == n ==>
      GateOn(w, g, ctrls, target, Project(q, v, psi))(b) == Project(q, v, GateOn(w, g, ctrls, target, psi))(b)
  }

  /** A measurement moves past a gate precisely when the gate acts on another qubit or only
      along the measured axis; serving as a control is no obstacle. */
  lemma CommutesExactly(w: Roots, g: Gate, ctrls: seq<Qubit>, target: Qubit, q: Qubit, n: nat)
    requires Placed(ctrls, target, n) && q < n
    ensures Commutes(w, g, ctrls, target, q, n) <==> Spares(w, GateLine(g, ctrls, target), q)
  {
    hide TargetMatrix, GateOn;
    if Spares(w, GateLine(g, ctrls, target), q) {
      forall psi: State, v: bool, b: Basis | |b| == n
        ensures GateOn(w, g, ctrls, target, Project(q, v, psi))(b) == Project(q, v, GateOn(w, g, ctrls, target, psi))(b)
      {
        GateCrosses(w, g, ctrls, target, q, v, psi, b);
      }
    } else {
      var psi, b := GateTells(w, g, ctrls, q, n, true);
    }
  }

  // ---------- any line ----------

  predicate LineFits(line: Line, n: nat) {
    if line.GateLine? then Placed(line.ctrls, line.target, n) else line.ResetLine? && line.target < n
  }

  /** What the line does to the amplitudes, for given outcomes of resets. */
  function Acted(w: Roots, line: Line, cleared: seq<bool>, psi: State): State
    requires !line.MeasureLine?
  {
    if line.GateLine? then GateOn(w, line.gate, line.ctrls, line.target, psi)
    else Clear(line.target, Next(cleared), psi)
  }

  lemma DoneIs(w: Roots, line: Line, br: Branch)
    requires !line.MeasureLine?
    ensures DoLine(w, line, br).psi == Acted(w, line, br.cleared, br.psi)
    ensures DoLine(w, line, br).creg == br.creg && DoLine(w, line, br).measured == br.measured
  {
    hide TargetMatrix;
  }

  lemma ActedOnEqual(w: Roots, line: Line, cleared: seq<bool>, psi: State, phi: State, b: Basis)
    requires !line.MeasureLine? && forall x: Basis :: |x| == |b| ==> psi(x) == phi(x)
    ensures Acted(w, line, cleared, psi)(b) == Acted(w, line, cleared, phi)(b)
  {
    if line.GateLine? {
      GateOnEqual(w, line.gate, line.ctrls, line.target, psi, phi, b);
    } else {
      PutBit(b, line.target, line.target, Next(cleared));
    }
  }

  lemma ActedOnNothing(w: Roots, line: Line, cleared: seq<bool>, psi: State, b: Basis)
    requires !line.MeasureLine? && forall x: Basis :: |x| == |b| ==> psi(x) == ZERO
    ensures Acted(w, line, cleared, psi)(b) == ZERO
  {
    if line.GateLine? {
      GateOnNothing(w, line.gate, line.ctrls, line.target, psi, b);
    } else {
      PutBit(b, line.target, line.target, Next(cleared));
    }
  }

  /** A line that does not spare its target takes some state across the measured axis. */
  lemma LineCrossesOver(w: Roots, line: Line, n: nat) returns (x: Basis, b: Basis, cleared: seq<bool>)
    requires LineFits(line, n) && !Spares(w, line, line.target)
    ensures |x| == |b| == n && Bit(x, line.target) != Bit(b, line.target)
    ensures Acted(w, line, cleared, Only(x))(b) != ZERO
  {
    hide TargetMatrix, GateOn, Ones;
    var t := line.target;
    OnesAre(n, t, true);
    OnesAre(n, t, false);
    cleared := [true];
    if line.GateLine? {
      var col := TargetMatrix(w, line.gate).b != ZERO;
      x, b := Ones(n, t, col), Ones(n, t, !col);
      GateShows(w, line.gate, line.ctrls, t, n, !col, col);
    } else {
      x, b := Ones(n, t, true), Ones(n, t, false);
    }
  }

  /** A line that is not idle changes some state. */
  lemma LineActs(w: Roots, line: Line, n: nat) returns (x: Basis, b: Basis, cleared: seq<bool>)
    requires LineFits(line, n) && !Idle(w, line)
    ensures |x| == |b| == n && Acted(w, line, cleared, Only(x))(b) != Only(x)(b)
  {
    hide TargetMatrix, GateOn, Ones;
    cleared := [];
    var t := line.target;
    OnesAre(n, t, true);
    OnesAre(n, t, false);
    if line.GateLine? {
      var row, col := Differing(TargetMatrix(w, line.gate));
      x, b := Ones(n, t, col), Ones(n, t, row);
      GateShows(w, line.gate, line.ctrls, t, n, row, col);
    } else {
      x, b := Ones(n, t, true), Ones(n, t, true);
    }
  }

  // ---------- conditions ----------

  /** One wanted value for each classical bit. */
  predicate Consistent(cbits: seq<nat>, want: seq<bool>) {
    && |cbits| == |want|
    && forall i, j :: 0 <= i < j < |cbits| && cbits[i] == cbits[j] ==> want[i] == want[j]
  }

  function Wanted(cbits: seq<nat>, want: seq<bool>): map<nat, bool> {
    map c | c in cbits :: exists i :: 0 <= i < |cbits| && i < |want| && cbits[i] == c && want[i]
  }

  /** A classical bit that was never written is zero. */
  function Value(creg: map<nat, bool>, c: nat): bool {
    c in creg && creg[c]
  }

  predicate AsWanted(creg: map<nat, bool>, cbits: seq<nat>, want: seq<bool>) {
    forall c :: c in cbits ==> Value(creg, c) == Value(Wanted(cbits, want), c)
  }

  lemma HoldsExactly(cbits: seq<nat>, want: seq<bool>, creg: map<nat, bool>)
    requires Consistent(cbits, want)
    ensures Holds(creg, cbits, want) <==> AsWanted(creg, cbits, want)
  {
    var wanted := Wanted(cbits, want);
    forall i | 0 <= i < |cbits| ensures cbits[i] in wanted && wanted[cbits[i]] == want[i] {
    }
    if Holds(creg, cbits, want) {
      forall c | c in cbits ensures Value(creg, c) == Value(wanted, c) {
        var i :| 0 <= i < |cbits| && cbits[i] == c;
      }
    }
  }

  predicate InstrFits(instr: Instr, n: nat) {
    LineFits(instr.line, n) && (instr.When? ==> Consistent(instr.cbits, instr.want))
  }

  predicate Runs(instr: Instr, creg: map<nat, bool>) {
    instr.Does? || Holds(creg, instr.cbits, instr.want)
  }

  // ---------- measurements of a register ----------

  /** Different qubits into different bits. */
  predicate Register(ms: seq<Instr>, n: nat) {
    && AllRead(ms)
    && (forall i :: 0 <= i < |ms| ==> ms[i].line.target < n)
    && (forall i, j :: 0 <= i < j < |ms| ==>
          ms[i].line.target != ms[j].line.target && ms[i].line.cbit != ms[j].line.cbit)
  }

  /** The outcomes that a bit string stands for. */
  function AsIn(ms: seq<Instr>, y: Basis): seq<bool>
    requires AllRead(ms)
  {
    seq(|ms|, i requires 0 <= i < |ms| => Bit(y, ms[i].line.target))
  }

  predicate Agrees(ms: seq<Instr>, y: Basis, b: Basis)
    requires AllRead(ms)
  {
    forall i :: 0 <= i < |ms| ==> Bit(b, ms[i].line.target) == Bit(y, ms[i].line.target)
  }

  function Selected(ms: seq<Instr>, y: Basis, psi: State): State
    requires AllRead(ms)
  {
    (b: Basis) => if Agrees(ms, y, b) then psi(b) else ZERO
  }

  predicate Writes(ms: seq<Instr>, c: nat)
    requires AllRead(ms)
  {
    exists i :: 0 <= i < |ms| && ms[i].line.cbit == c
  }

  /** Measuring a register with the outcomes of y keeps what agrees with y and writes them down. */
  lemma {:induction false} MeasuredAs(w: Roots, ms: seq<Instr>, y: Basis, n: nat, br: Branch)
    requires Register(ms, n) && br.measured == AsIn(ms, y)
    ensures var r := RunInstrs(w, ms, br);
            r.cleared == br.cleared &&
            (forall b: Basis :: r.psi(b) == Selected(ms, y, br.psi)(b)) &&
            (forall i :: 0 <= i < |ms| ==> Value(r.creg, ms[i].line.cbit) == Bit(y, ms[i].line.target)) &&
            (forall c :: !Writes(ms, c) ==> Value(r.creg, c) == Value(br.creg, c))
    decreases |ms|
  {
    if ms != [] {
      assert Reads(ms[0]);
      var q, cbit, rest := ms[0].line.target, ms[0].line.cbit, ms[1..];
      var next := DoMeasure(q, cbit, br);
      assert br.measured[0] == Bit(y, q) && br.measured[1..] == AsIn(rest, y);
      assert Perform(w, ms[0], br) == next;
      MeasuredAs(w, rest, y, n, next);
      assert !Writes(rest, cbit);
      forall b: Basis ensures Agrees(ms, y, b) <==> Bit(b, q) == Bit(y, q) && Agrees(rest, y, b) {
        AgreesFirst(ms, y, b);
      }
      forall c | !Writes(ms, c) ensures !Writes(rest, c) && c != cbit {
        WritesFirst(ms, c);
      }
    }
  }

  lemma AgreesFirst(ms: seq<Instr>, y: Basis, b: Basis)
    requires AllRead(ms) && ms != []
    ensures Agrees(ms, y, b) <==> Bit(b, ms[0].line.target) == Bit(y, ms[0].line.target) && Agrees(ms[1..], y, b)
  {
    if Agrees(ms[1..], y, b) {
      assert forall i :: 1 <= i < |ms| ==> ms[i] == ms[1..][i - 1];
    }
  }

  lemma WritesFirst(ms: seq<Instr>, c: nat)
    requires AllRead(ms) && ms != []
    ensures Writes(ms, c) <==> ms[0].line.cbit == c || Writes(ms[1..], c)
  {
    if Writes(ms[1..], c) {
      var i :| 0 <= i < |ms[1..]| && ms[1..][i].line.cbit == c;
      assert ms[i + 1].line.cbit == c;
    }
    if Writes(ms, c) && ms[0].line.cbit != c {
      var i :| 0 <= i < |ms| && ms[i].line.cbit == c;
      assert ms[1..][i - 1].line.cbit == c;
    }
  }

  // ---------- telling the two orders apart ----------

  lemma NotSame(n: nat, s: Branch, t: Branch, b: Basis)
    requires |b| == n && s.psi(b) != t.psi(b)
    ensures !Same(n, s, t)
  {
    hide Complex.Times;
    if Same(n, s, t) {
      OneTimes(s.psi(b));
    }
  }

  /** The classical bits after the register has been measured. */
  ghost predicate Written(ms: seq<Instr>, y: Basis, creg: map<nat, bool>, creg': map<nat, bool>)
    requires AllRead(ms)
  {
    && (forall i :: 0 <= i < |ms| ==> Value(creg', ms[i].line.cbit) == Bit(y, ms[i].line.target))
    && (forall c :: !Writes(ms, c) ==> Value(creg', c) == Value(creg, c))
  }

  /** Both orders at one bit string, for the outcomes that y stands for. */
  lemma BothOrders(w: Roots, ms: seq<Instr>, e: Instr, n: nat, y: Basis, br: Branch, b: Basis)
    returns (creg': map<nat, bool>)
    requires Register(ms, n) && !e.line.MeasureLine? && br.measured == AsIn(ms, y)
    ensures Written(ms, y, br.creg, creg')
    ensures RunInstrs(w, [e], RunInstrs(w, ms, br)).psi(b) ==
            if Runs(e, creg') then Acted(w, e.line, br.cleared, Selected(ms, y, br.psi))(b)
            else Selected(ms, y, br.psi)(b)
    ensures RunInstrs(w, ms, RunInstrs(w, [e], br)).psi(b) ==
            if !Agrees(ms, y, b) then ZERO
            else if Runs(e, br.creg) then Acted(w, e.line, br.cleared, br.psi)(b) else br.psi(b)
  {
    hide Acted, DoLine, Holds, Agrees;
    var r := RunInstrs(w, ms, br);
    creg' := r.creg;
    MeasuredAs(w, ms, y, n, br);
    OneInstr(w, e, r);
    OneInstr(w, e, br);
    DoneIs(w, e.line, r);
    DoneIs(w, e.line, br);
    ActedOnEqual(w, e.line, br.cleared, r.psi, Selected(ms, y, br.psi), b);
    MeasuredAs(w, ms, y, n, Perform(w, e, br));
  }

  lemma OneInstr(w: Roots, e: Instr, br: Branch)
    ensures RunInstrs(w, [e], br) == Perform(w, e, br)
  {
    assert [e][1..] == [];
  }

  /** A measured register leaves a state alone that has the outcomes, and removes the others. */
  lemma SelectedOnly(ms: seq<Instr>, y: Basis, x: Basis, b: Basis)
    requires AllRead(ms)
    ensures Selected(ms, y, Only(x))(b) == if Agrees(ms, y, x) then Only(x)(b) else ZERO
  {
  }

  ghost predicate Exchange(w: Roots, ms: seq<Instr>, e: Instr, n: nat, br: Branch) {
    Same(n, RunInstrs(w, [e], RunInstrs(w, ms, br)), RunInstrs(w, ms, RunInstrs(w, [e], br)))
  }

  function StartBits(e: Instr): map<nat, bool> {
    if e.When? then Wanted(e.cbits, e.want) else map[]
  }

  /** The operation changes a measured qubit and hangs on no measured bit. */
  lemma CrossingTells(w: Roots, ms: seq<Instr>, e: Instr, n: nat, k: nat) returns (br: Branch)
    requires Register(ms, n) && InstrFits(e, n) && k < |ms| && !Spares(w, e.line, ms[k].line.target)
    requires e.When? ==> forall i :: 0 <= i < |ms| ==> ms[i].line.cbit !in e.cbits
    ensures !Exchange(w, ms, e, n, br)
  {
    hide Acted, Holds, Wanted, Consistent, Selected, RunInstrs, Same, Idle, Spares, TargetMatrix;
    TargetMeasured(w, e.line, ms[k].line.target);
    var x, b, cleared := LineCrossesOver(w, e.line, n);
    br := Branch(Only(x), StartBits(e), AsIn(ms, x), cleared);
    var creg' := BothOrders(w, ms, e, n, x, br, b);
    if e.When? {
      HoldsExactly(e.cbits, e.want, br.creg);
      HoldsExactly(e.cbits, e.want, creg');
    }
    forall z: Basis ensures Selected(ms, x, Only(x))(z) == Only(x)(z) {
      SelectedOnly(ms, x, x, z);
    }
    ActedOnEqual(w, e.line, cleared, Selected(ms, x, Only(x)), Only(x), b);
    NotSame(n, RunInstrs(w, [e], RunInstrs(w, ms, br)), RunInstrs(w, ms, RunInstrs(w, [e], br)), b);
  }

  lemma TargetMeasured(w: Roots, line: Line, q: Qubit)
    requires !line.MeasureLine? && !Spares(w, line, q)
    ensures line.target == q
  {
  }

  /** What a measured bit was before makes no difference afterwards. */
  lemma WrittenOver(ms: seq<Instr>, y: Basis, creg: map<nat, bool>, c: nat, v: bool,
                    first: map<nat, bool>, second: map<nat, bool>)
    requires AllRead(ms) && Writes(ms, c)
    requires Written(ms, y, creg, first) && Written(ms, y, creg[c := v], second)
    ensures forall d :: Value(first, d) == Value(second, d)
  {
    forall d ensures Value(first, d) == Value(second, d) {
      if Writes(ms, d) {
        var i :| 0 <= i < |ms| && ms[i].line.cbit == d;
      }
    }
  }

  /** The operation does something, but hangs on a measured bit. */
  lemma ConditionTells(w: Roots, ms: seq<Instr>, e: Instr, n: nat, j: nat) returns (br: Branch)
    requires Register(ms, n) && InstrFits(e, n) && !Idle(w, e.line)
    requires e.When? && j < |ms| && ms[j].line.cbit in e.cbits
    ensures !Exchange(w, ms, e, n, br)
  {
    hide Acted, Holds, Wanted, Consistent, Selected, RunInstrs, Same, Idle, TargetMatrix;
    var x, b, cleared := LineActs(w, e.line, n);
    var creg, c := StartBits(e), ms[j].line.cbit;
    br := Branch(Only(x), creg, AsIn(ms, b), cleared);
    var creg' := BothOrders(w, ms, e, n, b, br, b);
    HoldsExactly(e.cbits, e.want, creg);
    HoldsExactly(e.cbits, e.want, creg');
    SelectedOnly(ms, b, x, b);
    if Holds(creg', e.cbits, e.want) && Agrees(ms, b, x) {
      var flipped := creg[c := !Value(creg, c)];
      br := Branch(Only(x), flipped, AsIn(ms, b), cleared);
      var first := creg';
      creg' := BothOrders(w, ms, e, n, b, br, b);
      assert Writes(ms, c) && Value(flipped, c) != Value(creg, c);
      WrittenOver(ms, b, creg, c, !Value(creg, c), first, creg');
      HoldsExactly(e.cbits, e.want, flipped);
      HoldsExactly(e.cbits, e.want, creg');
      forall z: Basis ensures Selected(ms, b, Only(x))(z) == Only(x)(z) {
        SelectedOnly(ms, b, x, z);
      }
      ActedOnEqual(w, e.line, cleared, Selected(ms, b, Only(x)), Only(x), b);
    } else if Holds(creg', e.cbits, e.want) {
      forall z: Basis ensures Selected(ms, b, Only(x))(z) == ZERO {
        SelectedOnly(ms, b, x, z);
      }
      ActedOnNothing(w, e.line, cleared, Selected(ms, b, Only(x)), b);
    }
    NotSame(n, RunInstrs(w, [e], RunInstrs(w, ms, br)), RunInstrs(w, ms, RunInstrs(w, [e], br)), b);
  }

  lemma InstrTells(w: Roots, ms: seq<Instr>, e: Instr, n: nat) returns (br: Branch)
    requires Register(ms, n) && InstrFits(e, n) && !Undisturbing(w, ms, [e])
    ensures !Exchange(w, ms, e, n, br)
  {
    hide Exchange, Idle, Spares, Consistent, LineFits;
    var k: nat :| k < |ms| && !SparesAll(w, e, ms[k].line.target, ms[k].line.cbit);
    IdleSpares(w, e.line, ms[k].line.target);
    SparesAllIs(w, e, ms[k].line.target, ms[k].line.cbit);
    if e.When? && exists j: nat :: j < |ms| && ms[j].line.cbit in e.cbits {
      var j: nat :| j < |ms| && ms[j].line.cbit in e.cbits;
      br := ConditionTells(w, ms, e, n, j);
    } else {
      br := CrossingTells(w, ms, e, n, k);
    }
  }

  lemma SparesAllIs(w: Roots, e: Instr, q: Qubit, cbit: nat)
    ensures SparesAll(w, e, q, cbit) <==>
            Spares(w, e.line, q) && (e.When? && cbit in e.cbits ==> Idle(w, e.line))
  {
    hide Spares, Idle;
  }

  lemma IdleSpares(w: Roots, line: Line, q: Qubit)
    ensures Idle(w, line) ==> Spares(w, line, q)
  {
    hide TargetMatrix;
    assert Diagonal(IDENTITY);
  }

  // ---------- two lines of text ----------

  ghost predicate MovingIsHarmless(w: Roots, read: Reading, lines: seq<string>, n: nat) {
    forall br: Branch :: Same(n, RunText(w, read, lines, br), RunText(w, read, Moved(lines), br))
  }

  /** On a measurement of a qubit or a register, followed by a line of at most one operation
      that is no measurement, a gate, a reset or either of them under a condition, the move is
      harmless exactly when the operation spares what was measured; otherwise the returned text
      means something else. */
  lemma TwoLinesExactly(w: Roots, read: Reading, m: string, g: string, n: nat)
    requires Regular(read, m) && Regular(read, g) && IsMeasure(m) && IsOther(g)
    requires Register(read(m), n) && |read(g)| <= 1 && forall i :: 0 <= i < |read(g)| ==> InstrFits(read(g)[i], n)
    ensures MovingIsHarmless(w, read, [m, g], n) <==> Undisturbing(w, read(m), read(g))
  {
    hide Same, Undisturbing, RunInstrs, RunText, Moved, InstrFits, Register;
    if Undisturbing(w, read(m), read(g)) {
      forall br: Branch ensures Same(n, RunText(w, read, [m, g], br), RunText(w, read, Moved([m, g]), br)) {
        TwoLinesRun(w, read, m, g, br);
        MeasuresCross(w, read(m), read(g), n, br);
      }
    } else {
      if read(g) == [] {
        NothingDisturbs(w, read(m));
      }
      var e := read(g)[0];
      assert read(g) == [e];
      var br := InstrTells(w, read(m), e, n);
      TwoLinesRun(w, read, m, g, br);
    }
  }

  lemma TwoLinesRun(w: Roots, read: Reading, m: string, g: string, br: Branch)
    requires Regular(read, m) && Regular(read, g) && IsMeasure(m) && IsOther(g)
    ensures RunText(w, read, [m, g], br) == RunInstrs(w, read(g), RunInstrs(w, read(m), br))
    ensures RunText(w, read, Moved([m, g]), br) == RunInstrs(w, read(m), RunInstrs(w, read(g), br))
  {
    hide NonBlank, RunInstrs;
    var lines := [m, g];
    assert lines == [m] + [g] && lines[1..] == [g];
    FilterOne(g, IsOther);
    FilterOne(g, IsMeasure);
    FilterOne(g, NonBlank);
    FilterFirst(lines, IsOther);
    FilterFirst(lines, IsMeasure);
    RunTextConcat(w, read, [m], [g], br);
    OneLine(w, read, m, br);
    OneLine(w, read, g, RunInstrs(w, read(m), br));
    if NonBlank(g) {
      assert Moved(lines) == [g] + [m];
      RunTextConcat(w, read, [g], [m], br);
      OneLine(w, read, g, br);
      OneLine(w, read, m, RunInstrs(w, read(g), br));
    } else {
      assert Moved(lines) == [m];
      EmptyRun(w, br);
      EmptyRun(w, RunInstrs(w, read(m), br));
    }
  }

  lemma OneLine(w: Roots, read: Reading, line: string, br: Branch)
    ensures RunText(w, read, [line], br) == RunInstrs(w, read(line), br)
  {
    assert Denoted(read, [line]) == read(line) + Denoted(read, []) == read(line) by {
      assert [line][1..] == [];
    }
  }
}
