/** The QIR to OpenQASM 2.0 converter of processors/CudaQBridge.h: its calls after text
    matching, the lines it emits for each, its main loop, and the meaning of both sides. */
module CudaQBridge {
  import opened Basics
  import opened Complex
  import opened Qasm

  datatype Error = Unsupported | MissingArgument

  datatype Result<+T> = Ok(value: T) | Err(error: Error)

  /** Operation names that can follow __quantum__qis__. */
  datatype Op =
    | OpH | OpX | OpY | OpZ | OpS | OpT | OpSdg | OpTdg
    | OpRx | OpRy | OpRz | OpR1 | OpU3
    | OpCnot | OpCz | OpSwap
    | OpMz | OpReset | OpOther

  /** One call of the QIR text. `Plain` is a __body or __adj call, `Invoke` a
      generalizedInvokeWithRotationsControlsTargets. `Dropped` is a quantum operation under a
      name the main loop does not know, such as a direct __ctl or __ctladj call, and `Runtime`
      a call that is no quantum operation, such as an allocation or an output record. */
  datatype Call =
    | Plain(op: Op, adj: bool, params: seq<Angle>, qubits: seq<Qubit>, results: seq<nat>)
    | Invoke(op: Op, adj: bool, arrays: nat, params: seq<Angle>, ctrls: seq<Qubit>, targets: seq<Qubit>)
    | Dropped(op: Op, adj: bool, params: seq<Angle>, ctrls: seq<Qubit>, targets: seq<Qubit>, cbit: nat)
    | Runtime

  predicate IsRotation(op: Op) {
    op in {OpRx, OpRy, OpRz, OpR1}
  }

  // ---------- the converter ----------

  function Negated(params: seq<Angle>): seq<Angle> {
    seq(|params|, i requires 0 <= i < |params| => params[i].Neg())
  }

  function OnTarget(g: Gate, qubits: seq<Qubit>): Result<seq<Line>> {
    if |qubits| < 1 then Err(MissingArgument) else Ok([GateLine(g, [], qubits[0])])
  }

  function RotationGate(op: Op, a: Angle): Gate
    requires IsRotation(op)
  {
    match op
    case OpRx => Rx(a)
    case OpRy => Ry(a)
    case OpRz => Rz(a)
    case OpR1 => U1(a)
  }

  function LowerPlain(c: Call): Result<seq<Line>>
    requires c.Plain?
  {
    var qs := c.qubits;
    match c.op
    case OpMz =>
      if |qs| < 1 then Err(MissingArgument)
      else Ok([MeasureLine(qs[0], if |c.results| > 0 then c.results[0] else 0)])
    case OpReset => if |qs| < 1 then Err(MissingArgument) else Ok([ResetLine(qs[0])])
    case OpH => OnTarget(H, qs)
    case OpX => OnTarget(X, qs)
    case OpY => OnTarget(Y, qs)
    case OpZ => OnTarget(Z, qs)
    case OpS => OnTarget(if c.adj then Sdg else S, qs)
    case OpT => OnTarget(if c.adj then Tdg else T, qs)
    case OpRx | OpRy | OpRz | OpR1 =>
      if |c.params| < 1 then Err(MissingArgument)
      else OnTarget(RotationGate(c.op, if c.adj then c.params[0].Neg() else c.params[0]), qs)
    case OpU3 =>
      if |c.params| < 3 then Err(MissingArgument)
      else OnTarget(U3(c.params[0], c.params[1], c.params[2]), qs)
    case OpCnot =>
      if |qs| < 2 then Err(MissingArgument) else Ok([GateLine(CX, [qs[0]], qs[1])])
    case OpCz =>
      if |qs| < 2 then Err(MissingArgument) else Ok([GateLine(CZ, [qs[0]], qs[1])])
    case OpSwap =>
      if |qs| < 2 then Err(MissingArgument)
      else Ok([GateLine(CX, [qs[0]], qs[1]), GateLine(CX, [qs[1]], qs[0]), GateLine(CX, [qs[0]], qs[1])])
    case OpSdg | OpTdg | OpOther => Err(Unsupported)
  }

  /** The Python function `controlled`. */
  function LowerControlled(w: Roots, op: Op, params: seq<Angle>, c: seq<Qubit>, t: seq<Qubit>): Result<seq<Line>> {
    if |t| < 1 then
      if (|c| == 1 && op !in {OpCnot, OpCz, OpU3, OpMz, OpReset, OpOther}) || (|c| == 2 && op in {OpX, OpZ}) then
        Err(MissingArgument)
      else Err(Unsupported)
    else if op == OpX && |c| == 1 then Ok([GateLine(CX, c, t[0])])
    else if op == OpX && |c| == 2 then Ok([GateLine(CCX, c, t[0])])
    else if op == OpZ && |c| == 1 then Ok([GateLine(CZ, c, t[0])])
    else if op == OpZ && |c| == 2 then
      Ok([GateLine(H, [], t[0]), GateLine(CCX, c, t[0]), GateLine(H, [], t[0])])
    else if |c| != 1 then Err(Unsupported)
    else if op == OpY then Ok([GateLine(CY, c, t[0])])
    else if op == OpH then Ok([GateLine(CH, c, t[0])])
    else if op == OpS then Ok([GateLine(CU1(w.HalfPi()), c, t[0])])
    else if op == OpT then Ok([GateLine(CU1(w.QuarterPi()), c, t[0])])
    else if op == OpSdg then Ok([GateLine(CU1(w.HalfPi().Neg()), c, t[0])])
    else if op == OpTdg then Ok([GateLine(CU1(w.QuarterPi().Neg()), c, t[0])])
    else if IsRotation(op) then
      if |params| < 1 then Err(MissingArgument)
      else if op == OpRz then Ok([GateLine(CRz(params[0]), c, t[0])])
      else if op == OpR1 then Ok([GateLine(CU1(params[0]), c, t[0])])
      else if op == OpRx then Ok([GateLine(CU3(params[0], w.HalfPi().Neg(), w.HalfPi()), c, t[0])])
      else Ok([GateLine(CU3(params[0], ZERO_ANGLE, ZERO_ANGLE), c, t[0])])
    else if op == OpSwap then
      if |t| < 2 then Err(MissingArgument)
      else Ok([GateLine(CX, [t[1]], t[0]), GateLine(CCX, [c[0], t[0]], t[1]), GateLine(CX, [t[1]], t[0])])
    else Err(Unsupported)
  }

  /** The name after the adjoint of s and t has been resolved. */
  function ResolvedOp(op: Op, adj: bool): Op {
    if adj && op == OpS then OpSdg else if adj && op == OpT then OpTdg else op
  }

  function Lower(w: Roots, c: Call): Result<seq<Line>> {
    match c
    case Runtime => Ok([])
    case Dropped(_, _, _, _, _, _) => Ok([])
    case Plain(_, _, _, _, _) => LowerPlain(c)
    case Invoke(op, adj, arrays, params, ctrls, targets) =>
      if arrays != 0 then Err(Unsupported)
      else
        var angles := if adj && IsRotation(op) then Negated(params) else params;
        LowerControlled(w, ResolvedOp(op, adj), angles, ctrls, targets)
  }

  function LowerAll(w: Roots, calls: seq<Call>): Result<seq<Line>> {
    if calls == [] then Ok([])
    else
      match Lower(w, calls[0])
      case Err(e) => Err(e)
      case Ok(lines) =>
        match LowerAll(w, calls[1..])
        case Err(e) => Err(e)
        case Ok(rest) => Ok(lines + rest)
  }

  // ---------- which calls are accepted ----------

  /** The operations and control counts the converter has a translation for. */
  predicate Supported(c: Call) {
    match c
    case Runtime => true
    case Dropped(_, _, _, _, _, _) => true
    case Plain(op, _, _, _, _) => op !in {OpSdg, OpTdg, OpOther}
    case Invoke(op, _, arrays, _, ctrls, _) =>
      && arrays == 0
      && op !in {OpCnot, OpCz, OpU3, OpMz, OpReset, OpOther}
      && (|ctrls| == 1 || (|ctrls| == 2 && op in {OpX, OpZ}))
  }

  /** The call has at least the arguments its operation takes. */
  predicate Supplied(c: Call) {
    match c
    case Runtime => true
    case Dropped(_, _, _, _, _, _) => true
    case Plain(op, _, params, qs, _) => |params| >= Params(op) && |qs| >= Targets(op)
    case Invoke(op, _, _, params, _, targets) => |params| >= Params(op) && |targets| >= Targets(op)
  }

  predicate AllSupported(calls: seq<Call>) {
    forall i :: 0 <= i < |calls| ==> Supported(calls[i])
  }

  /** A call is translated exactly when it is supported and has its arguments, and it is
      refused as unsupported exactly when it is not supported. */
  lemma AcceptedExactly(w: Roots, c: Call)
    ensures Lower(w, c).Ok? <==> Supported(c) && Supplied(c)
    ensures Lower(w, c) == Err(Unsupported) <==> !Supported(c)
  {
    hide Roots.HalfPi, Roots.QuarterPi, Angle.Neg;
  }

  /** QIR's own argument counts are always enough. */
  lemma WellFormedSupplied(c: Call)
    requires WellFormed(c)
    ensures Supplied(c)
  {
  }

  /** A list is translated exactly when each of its calls is; otherwise the first call that
      is not decides the error. */
  lemma {:induction false} AllAcceptedExactly(w: Roots, calls: seq<Call>)
    ensures LowerAll(w, calls).Ok? <==> forall i :: 0 <= i < |calls| ==> Supported(calls[i]) && Supplied(calls[i])
    ensures LowerAll(w, calls) == Err(Unsupported) <==>
      exists i :: 0 <= i < |calls| && !Supported(calls[i]) && forall j :: 0 <= j < i ==> Supplied(calls[j])
  {
    hide Lower, Supported, Supplied;
    if calls != [] {
      var c, rest := calls[0], calls[1..];
      AcceptedExactly(w, c);
      AllAcceptedExactly(w, rest);
      assert forall i :: 0 <= i < |rest| ==> rest[i] == calls[i + 1];
      if i :| 0 <= i < |rest| && !Supported(rest[i]) && forall j :: 0 <= j < i ==> Supplied(rest[j]) {
        if Supplied(c) {
          assert forall j :: 0 <= j < i + 1 ==> Supplied(calls[j]);
        }
      }
    }
  }

  /** QIR's own calls are all translated exactly when all are supported. */
  lemma SupportedExactly(w: Roots, calls: seq<Call>)
    requires AllWellFormed(calls)
    ensures LowerAll(w, calls).Ok? <==> AllSupported(calls)
  {
    hide Supported, Supplied, WellFormed;
    AllAcceptedExactly(w, calls);
    forall i | 0 <= i < |calls| ensures Supplied(calls[i]) {
      WellFormedSupplied(calls[i]);
    }
  }

  // ---------- what the calls mean ----------

  /** The unitary of each one-qubit operation, written out independently of qelib1.inc. */
  function QirMatrix(w: Roots, op: Op, params: seq<Angle>): Matrix
    requires op !in {OpCnot, OpCz, OpSwap, OpMz, OpReset, OpOther}
    requires |params| == Params(op)
  {
    match op
    case OpH => Matrix(Complex(w.r, 0.0), Complex(w.r, 0.0), Complex(w.r, 0.0), Complex(-w.r, 0.0))
    case OpX => Matrix(ZERO, ONE, ONE, ZERO)
    case OpY => Matrix(ZERO, I.Negate(), I, ZERO)
    case OpZ => Matrix(ONE, ZERO, ZERO, ONE.Negate())
    case OpS => Matrix(ONE, ZERO, ZERO, I)
    case OpT => Matrix(ONE, ZERO, ZERO, Complex(w.r, w.r))
    case OpSdg => Matrix(ONE, ZERO, ZERO, I.Negate())
    case OpTdg => Matrix(ONE, ZERO, ZERO, Complex(w.r, -w.r))
    case OpRx =>
      var a := params[0];
      Matrix(Complex(a.c, 0.0), Complex(0.0, -a.s), Complex(0.0, -a.s), Complex(a.c, 0.0))
    case OpRy =>
      var a := params[0];
      Matrix(Complex(a.c, 0.0), Complex(-a.s, 0.0), Complex(a.s, 0.0), Complex(a.c, 0.0))
    case OpRz => Matrix(params[0].HalfTurn().Conj(), ZERO, ZERO, params[0].HalfTurn())
    case OpR1 => Matrix(ONE, ZERO, ZERO, params[0].Turn())
    case OpU3 => U3Matrix(params[0], params[1], params[2])
  }

  function Params(op: Op): nat {
    if IsRotation(op) then 1 else if op == OpU3 then 3 else 0
  }

  function Targets(op: Op): nat {
    if op in {OpCnot, OpCz, OpSwap} then 2 else 1
  }

  function Exchange(p: Qubit, q: Qubit, psi: State): State {
    (b: Basis) => psi(Put(Put(b, p, Bit(b, q)), q, Bit(b, p)))
  }

  /** The transformation an operation, or its adjoint, applies to its targets. */
  function Unitary(w: Roots, op: Op, adj: bool, params: seq<Angle>, qs: seq<Qubit>, psi: State): State
    requires op !in {OpMz, OpReset, OpOther}
    requires |params| == Params(op) && |qs| == Targets(op)
  {
    if op == OpSwap then Exchange(qs[0], qs[1], psi)
    else if op == OpCnot then Controlled([qs[0]], OnQubit(QirMatrix(w, OpX, []), qs[1], psi), psi)
    else if op == OpCz then Controlled([qs[0]], OnQubit(QirMatrix(w, OpZ, []), qs[1], psi), psi)
    else
      var m := QirMatrix(w, op, params);
      OnQubit(if adj then m.Dagger() else m, qs[0], psi)
  }

  predicate Distinct(qs: seq<Qubit>) {
    forall i, j :: 0 <= i < j < |qs| ==> qs[i] != qs[j]
  }

  /** A call as QIR allows it: the operation's own argument counts, distinct qubits,
      and angles that lie on the unit circle. */
  predicate WellFormed(c: Call) {
    match c
    case Runtime => true
    case Plain(op, _, params, qs, results) =>
      && op != OpOther
      && |params| == Params(op) && |qs| == Targets(op) && |results| <= 1
      && Distinct(qs)
      && forall i :: 0 <= i < |params| ==> params[i].Unit()
    case Invoke(op, _, _, params, ctrls, targets) =>
      && op !in {OpMz, OpReset, OpOther}
      && |params| == Params(op) && |targets| == Targets(op)
      && Distinct(ctrls + targets)
      && forall i :: 0 <= i < |params| ==> params[i].Unit()
    case Dropped(op, _, params, ctrls, targets, _) =>
      && op != OpOther && (op in {OpMz, OpReset} ==> ctrls == [])
      && |params| == Params(op) && |targets| == Targets(op)
      && Distinct(ctrls + targets)
      && forall i :: 0 <= i < |params| ==> params[i].Unit()
  }

  function DoCall(w: Roots, c: Call, br: Branch): Branch
    requires WellFormed(c)
  {
    match c
    case Runtime => br
    case Plain(op, adj, params, qs, results) =>
      if op == OpMz then DoMeasure(qs[0], if results == [] then 0 else results[0], br)
      else if op == OpReset then DoReset(qs[0], br)
      else br.(psi := Unitary(w, op, adj, params, qs, br.psi))
    case Invoke(op, adj, _, params, ctrls, targets) =>
      br.(psi := Controlled(ctrls, Unitary(w, op, adj, params, targets, br.psi), br.psi))
    case Dropped(op, adj, params, ctrls, targets, cbit) =>
      if op == OpMz then DoMeasure(targets[0], cbit, br)
      else if op == OpReset then DoReset(targets[0], br)
      else br.(psi := Controlled(ctrls, Unitary(w, op, adj, params, targets, br.psi), br.psi))
  }

  predicate AllWellFormed(calls: seq<Call>) {
    forall i :: 0 <= i < |calls| ==> WellFormed(calls[i])
  }

  function DoCalls(w: Roots, calls: seq<Call>, br: Branch): Branch
    requires AllWellFormed(calls)
  {
    if calls == [] then br else DoCalls(w, calls[1..], DoCall(w, calls[0], br))
  }

  /** The calls the converter translates faithfully. It drops the adjoint of u3, which is
      harmless only when u3 is its own adjoint up to phase, it turns the controlled adjoint of
      sdg and tdg into the controlled sdg and tdg themselves, and it passes over operations
      whose names it does not know, which is harmless only when they do nothing. */
  predicate Faithful(c: Call)
    requires WellFormed(c)
  {
    match c
    case Runtime => true
    case Plain(op, adj, params, _, _) =>
      op == OpU3 && adj ==> SelfAdjointU3(params[0], params[1].Turn().Times(params[2].Turn()))
    case Invoke(op, adj, _, _, _, _) => !(adj && op in {OpSdg, OpTdg})
    case Dropped(op, _, params, ctrls, _, _) => DoesNothing(op, params, ctrls != [])
  }

  predicate SelfAdjointU3(theta: Angle, e: Complex) {
    theta.c == 0.0 || e == ONE.Negate() || (theta.s == 0.0 && e == ONE)
  }

  /** The operation, controlled or not, is the identity up to a global phase: a rotation by no
      angle, or without controls also by a full turn. */
  predicate DoesNothing(op: Op, params: seq<Angle>, controlled: bool)
    requires |params| == Params(op)
  {
    if op in {OpRx, OpRy, OpRz} then params[0].s == 0.0 && (controlled ==> params[0].c == 1.0)
    else if op == OpR1 then params[0].Turn() == ONE
    else if op == OpU3 then
      params[0].s == 0.0 && (controlled ==> params[0].c == 1.0) && params[1].Turn().Times(params[2].Turn()) == ONE
    else false
  }

  /** The global phase the emitted lines add: rz, which qelib1.inc defines as u1, and the
      adjoint of u3 and an operation passed over where these are harmless. */
  function PhaseOf(c: Call): Complex
    requires WellFormed(c)
  {
    match c
    case Plain(op, adj, params, _, _) =>
      if op == OpRz then (if adj then params[0].Neg() else params[0]).HalfTurn()
      else if op == OpU3 && adj then AdjointPhase(params[0], params[1].Turn().Times(params[2].Turn()))
      else ONE
    case Dropped(op, _, params, ctrls, _, _) =>
      if ctrls == [] && op in {OpRx, OpRy, OpRz, OpU3} then Complex(params[0].c, 0.0) else ONE
    case _ => ONE
  }

  function AdjointPhase(theta: Angle, e: Complex): Complex {
    if theta.c == 0.0 then e.Negate() else ONE
  }

  function Phases(calls: seq<Call>): Complex
    requires AllWellFormed(calls)
  {
    if calls == [] then ONE else Phases(calls[1..]).Times(PhaseOf(calls[0]))
  }

  predicate CoversAll(n: nat, qs: seq<Qubit>) {
    forall i :: 0 <= i < |qs| ==> qs[i] < n
  }

  /** Every qubit of the call lies below n. */
  predicate Covers(n: nat, c: Call) {
    match c
    case Runtime => true
    case Plain(_, _, _, qs, _) => forall i :: 0 <= i < |qs| ==> qs[i] < n
    case Invoke(_, _, _, _, ctrls, targets) => CoversAll(n, ctrls) && CoversAll(n, targets)
    case Dropped(_, _, _, ctrls, targets, _) => CoversAll(n, ctrls) && CoversAll(n, targets)
  }

  // ---------- the main loop and the register sizes ----------

  /** What the emitted file declares and contains; no classical register when `creg` is 0. */
  datatype Program = Program(qreg: nat, creg: nat, lines: seq<Line>)

  /** The qubits a call passes to `q`, which sizes the quantum register. */
  function Touched(c: Call): seq<Qubit> {
    match c
    case Runtime => []
    case Dropped(_, _, _, _, _, _) => []
    case Plain(op, _, _, qs, _) => if |qs| <= Targets(op) then qs else qs[..Targets(op)]
    case Invoke(_, _, _, _, ctrls, targets) => ctrls + targets
  }

  predicate Below(n: nat, qs: seq<nat>) {
    forall i :: 0 <= i < |qs| ==> qs[i] < n
  }

  /** The registers are large enough for the line. */
  predicate Fits(qreg: nat, creg: nat, line: Line) {
    Below(qreg, line.Qubits()) && (line.MeasureLine? ==> line.cbit < creg)
  }

  predicate AllFit(qreg: nat, creg: nat, lines: seq<Line>) {
    forall i :: 0 <= i < |lines| ==> Fits(qreg, creg, lines[i])
  }

  function MeasuredBit(c: Call): nat {
    if c.Plain? && |c.results| > 0 then c.results[0] else 0
  }

  lemma LoweredFits(w: Roots, c: Call, qreg: nat, creg: nat)
    requires Lower(w, c).Ok? && Below(qreg, Touched(c))
    requires c.Plain? && c.op == OpMz ==> MeasuredBit(c) < creg
    ensures AllFit(qreg, creg, Lower(w, c).value)
  {
    hide Roots.HalfPi, Roots.QuarterPi, Angle.Neg;
    match c {
      case Runtime =>
      case Dropped(_, _, _, _, _, _) =>
      case Plain(_, _, _, _, _) => PlainFits(w, c, qreg, creg);
      case Invoke(_, _, _, _, _, _) => InvokeFits(w, c, qreg, creg);
    }
  }

  lemma PlainFits(w: Roots, c: Call, qreg: nat, creg: nat)
    requires c.Plain? && LowerPlain(c).Ok? && Below(qreg, Touched(c))
    requires c.op == OpMz ==> MeasuredBit(c) < creg
    ensures AllFit(qreg, creg, LowerPlain(c).value)
  {
    hide Roots.HalfPi, Roots.QuarterPi, Angle.Neg, RotationGate;
    assert forall i :: 0 <= i < |Touched(c)| ==> Touched(c)[i] == c.qubits[i];
  }

  lemma InvokeFits(w: Roots, c: Call, qreg: nat, creg: nat)
    requires c.Invoke? && Lower(w, c).Ok? && Below(qreg, Touched(c))
    ensures AllFit(qreg, creg, Lower(w, c).value)
  {
    hide LowerControlled, AllFit, ResolvedOp, IsRotation, Negated;
    var ts := Touched(c);
    assert forall i :: 0 <= i < |c.ctrls| ==> ts[i] == c.ctrls[i];
    assert forall i :: 0 <= i < |c.targets| ==> ts[|c.ctrls| + i] == c.targets[i];
    ControlledFits(w, ResolvedOp(c.op, c.adj), if c.adj && IsRotation(c.op) then Negated(c.params) else c.params,
                   c.ctrls, c.targets, qreg, creg);
  }

  lemma ControlledFits(w: Roots, op: Op, params: seq<Angle>, c: seq<Qubit>, t: seq<Qubit>, qreg: nat, creg: nat)
    requires LowerControlled(w, op, params, c, t).Ok? && Below(qreg, c) && Below(qreg, t)
    ensures AllFit(qreg, creg, LowerControlled(w, op, params, c, t).value)
  {
    hide Roots.HalfPi, Roots.QuarterPi, Angle.Neg, AllFit;
    var lines := LowerControlled(w, op, params, c, t).value;
    if op == OpSwap {
      GateFits(CX, [t[1]], t[0], qreg, creg);
      GateFits(CCX, [c[0], t[0]], t[1], qreg, creg);
      ThreeFit(lines[0], lines[1], lines[2], qreg, creg);
    } else {
      GateFits(lines[0].gate, lines[0].ctrls, t[0], qreg, creg);
      GateFits(CCX, c, t[0], qreg, creg);
      if |lines| == 3 {
        ThreeFit(lines[0], lines[1], lines[2], qreg, creg);
      } else {
        OneFits(lines[0], qreg, creg);
      }
    }
  }

  lemma GateFits(g: Gate, ctrls: seq<Qubit>, t: Qubit, qreg: nat, creg: nat)
    requires Below(qreg, ctrls) && t < qreg
    ensures Fits(qreg, creg, GateLine(g, ctrls, t))
  {
  }

  lemma ThreeFit(x: Line, y: Line, z: Line, qreg: nat, creg: nat)
    requires Fits(qreg, creg, x) && Fits(qreg, creg, y) && Fits(qreg, creg, z)
    ensures AllFit(qreg, creg, [x, y, z])
  {
    hide Fits;
  }

  lemma OneFits(x: Line, qreg: nat, creg: nat)
    requires Fits(qreg, creg, x)
    ensures AllFit(qreg, creg, [x])
  {
    hide Fits;
  }

  /** Every qubit passed to `q` occurs in the lines: no register is sized by a stray index. */
  lemma TouchedAreUsed(w: Roots, c: Call, q: Qubit)
    requires WellFormed(c) && Supported(c) && q in Touched(c)
    ensures Lower(w, c).Ok? && exists i :: 0 <= i < |Lower(w, c).value| && q in Lower(w, c).value[i].Qubits()
  {
    hide Roots.HalfPi, Roots.QuarterPi, Angle.Neg, RotationGate;
    WellFormedSupplied(c);
    AcceptedExactly(w, c);
    var lines := Lower(w, c).value;
    if c.Invoke? {
      ControlledUses(w, ResolvedOp(c.op, c.adj), if c.adj && IsRotation(c.op) then Negated(c.params) else c.params,
                     c.ctrls, c.targets, q);
    } else {
      assert q in lines[0].Qubits();
    }
  }

  lemma ControlledUses(w: Roots, op: Op, params: seq<Angle>, c: seq<Qubit>, t: seq<Qubit>, q: Qubit)
    requires LowerControlled(w, op, params, c, t).Ok? && |t| == Targets(op) && q in c + t
    ensures exists i :: 0 <= i < |LowerControlled(w, op, params, c, t).value| &&
              q in LowerControlled(w, op, params, c, t).value[i].Qubits()
  {
    hide Roots.HalfPi, Roots.QuarterPi, Angle.Neg;
    var lines := LowerControlled(w, op, params, c, t).value;
    if |lines| == 3 {
      assert q in lines[1].Qubits();
    } else {
      assert lines[0].Qubits() == c + [t[0]] && c + t == c + [t[0]];
      assert q in lines[0].Qubits();
    }
  }

  lemma LowerAllStep(w: Roots, done: seq<Call>, c: Call)
    requires LowerAll(w, done).Ok?
    ensures LowerAll(w, done + [c]) ==
      if Lower(w, c).Ok? then Ok(LowerAll(w, done).value + Lower(w, c).value) else Err(Lower(w, c).error)
  {
    hide Lower;
    if done == [] {
      assert done + [c] == [c] && [c][0] == c && [c][1..] == [];
      if Lower(w, c).Ok? {
        assert Lower(w, c).value + [] == [] + Lower(w, c).value;
      }
    } else {
      var whole := done + [c];
      assert whole[1..] == done[1..] + [c] && whole[0] == done[0];
      LowerAllStep(w, done[1..], c);
      if Lower(w, c).Ok? {
        Associate(Lower(w, done[0]).value, LowerAll(w, done[1..]).value, Lower(w, c).value);
      }
    }
  }

  lemma Associate<T>(x: seq<T>, y: seq<T>, z: seq<T>)
    ensures x + (y + z) == x + y + z
  {
  }

  lemma LowerAllFails(w: Roots, calls: seq<Call>, i: nat)
    requires i < |calls| && LowerAll(w, calls[..i + 1]).Err?
    ensures LowerAll(w, calls) == LowerAll(w, calls[..i + 1])
  {
    hide Lower;
    if i > 0 && Lower(w, calls[0]).Ok? {
      assert calls[..i + 1][1..] == calls[1..][..i - 1 + 1];
      LowerAllFails(w, calls[1..], i - 1);
    }
  }

  /** The source of a register size: the declared minimum, one, or a qubit in use. */
  predicate Justified(n: nat, required: Option<nat>, calls: seq<Call>) {
    || n == 1
    || required == Some(n)
    || exists i :: 0 <= i < |calls| && Tops(n, Touched(calls[i]))
  }

  predicate Measures(c: Call) {
    c.Plain? && c.op == OpMz
  }

  predicate TopsBits(n: nat, lines: seq<Line>) {
    exists i :: 0 <= i < |lines| && lines[i].MeasureLine? && n == lines[i].cbit + 1
  }

  predicate SomeMeasure(lines: seq<Line>) {
    exists i :: 0 <= i < |lines| && lines[i].MeasureLine?
  }

  /** Only a measurement becomes a measurement, into the bit it names. */
  lemma MeasureLines(w: Roots, c: Call, line: Line)
    requires Lower(w, c).Ok? && line in Lower(w, c).value
    ensures line.MeasureLine? <==> Measures(c)
    ensures Measures(c) ==> Lower(w, c).value == [line] && line == MeasureLine(c.qubits[0], MeasuredBit(c))
  {
    hide Roots.HalfPi, Roots.QuarterPi, Angle.Neg, RotationGate;
  }

  /** The loop's bookkeeping of classical bits matches the lines. */
  lemma BitsStep(w: Roots, lines: seq<Line>, c: Call, n: nat)
    requires Lower(w, c).Ok? && (n > 0 <==> SomeMeasure(lines)) && (n > 0 ==> TopsBits(n, lines))
    ensures var n' := if Measures(c) && MeasuredBit(c) + 1 > n then MeasuredBit(c) + 1 else n;
            var lines' := lines + Lower(w, c).value;
            (n' > 0 <==> SomeMeasure(lines')) && (n' > 0 ==> TopsBits(n', lines'))
  {
    hide Lower, Measures, MeasuredBit;
    var more := Lower(w, c).value;
    var lines' := lines + more;
    assert forall i :: 0 <= i < |lines| ==> lines'[i] == lines[i];
    assert forall i :: 0 <= i < |more| ==> lines'[|lines| + i] == more[i];
    forall i | 0 <= i < |more| ensures more[i].MeasureLine? <==> Measures(c) {
      MeasureLines(w, c, more[i]);
    }
    if Measures(c) {
      MeasuresOne(w, c);
      assert lines'[|lines|] == more[0];
    }
  }

  lemma MeasuresOne(w: Roots, c: Call)
    requires Lower(w, c).Ok? && Measures(c)
    ensures |Lower(w, c).value| == 1 && Lower(w, c).value[0] == MeasureLine(c.qubits[0], MeasuredBit(c))
  {
  }

  predicate Tops(n: nat, qs: seq<Qubit>) {
    exists j :: 0 <= j < |qs| && n == qs[j] + 1
  }

  method Touch(qs: seq<Qubit>, nq: nat) returns (nq': nat)
    ensures nq <= nq' && Below(nq', qs)
    ensures nq' == nq || Tops(nq', qs)
  {
    nq' := nq;
    for i := 0 to |qs|
      invariant nq <= nq' && Below(nq', qs[..i])
      invariant nq' == nq || exists j :: 0 <= j < i && nq' == qs[j] + 1
    {
      if qs[i] + 1 > nq' {
        nq' := qs[i] + 1;
      }
    }
  }

  lemma StillFits(xs: seq<Line>, ys: seq<Line>, q: nat, c: nat, q': nat, c': nat)
    requires AllFit(q, c, xs) && AllFit(q', c', ys) && q <= q' && c <= c'
    ensures AllFit(q', c', xs + ys) && AllFit(q', c', xs)
  {
  }

  /** What the loop has after the first i calls. */
  predicate Progress(w: Roots, calls: seq<Call>, i: nat, lines: seq<Line>, nq: nat, ncl: nat)
    requires i <= |calls|
  {
    && LowerAll(w, calls[..i]) == Ok(lines)
    && AllFit(nq, ncl, lines)
    && (forall k :: 0 <= k < i ==> Below(nq, Touched(calls[k])))
    && (nq == 0 || exists k :: 0 <= k < i && Tops(nq, Touched(calls[k])))
    && (ncl > 0 <==> SomeMeasure(lines)) && (ncl > 0 ==> TopsBits(ncl, lines))
  }

  lemma ProgressStep(w: Roots, calls: seq<Call>, i: nat, lines: seq<Line>, nq: nat, ncl: nat, nq': nat)
    requires i < |calls| && Progress(w, calls, i, lines, nq, ncl) && Lower(w, calls[i]).Ok?
    requires nq <= nq' && Below(nq', Touched(calls[i])) && (nq' == nq || Tops(nq', Touched(calls[i])))
    ensures var c := calls[i];
            Progress(w, calls, i + 1, lines + Lower(w, c).value, nq',
                     if Measures(c) && MeasuredBit(c) + 1 > ncl then MeasuredBit(c) + 1 else ncl)
  {
    hide Lower, LowerAll, Touched, Fits, SomeMeasure, TopsBits, Tops, MeasuredBit;
    var c := calls[i];
    var ncl' := if Measures(c) && MeasuredBit(c) + 1 > ncl then MeasuredBit(c) + 1 else ncl;
    assert calls[..i + 1] == calls[..i] + [c];
    LowerAllStep(w, calls[..i], c);
    LoweredFits(w, c, nq', ncl');
    StillFits(lines, Lower(w, c).value, nq, ncl, nq', ncl');
    BitsStep(w, lines, c, ncl);
  }

  lemma ProgressStops(w: Roots, calls: seq<Call>, i: nat, lines: seq<Line>, nq: nat, ncl: nat)
    requires i < |calls| && Progress(w, calls, i, lines, nq, ncl) && Lower(w, calls[i]).Err?
    ensures LowerAll(w, calls) == Err(Lower(w, calls[i]).error)
  {
    hide Lower;
    assert calls[..i + 1] == calls[..i] + [calls[i]];
    LowerAllStep(w, calls[..i], calls[i]);
    LowerAllFails(w, calls, i);
  }

  lemma ProgressStarts(w: Roots, calls: seq<Call>)
    ensures Progress(w, calls, 0, [], 0, 0)
  {
  }

  /** The loop over the QIR calls and the register declarations after it. It succeeds exactly
      when every call is supported and has its arguments; then it emits the lines of
      `LowerAll`, every index lies inside its register, and neither register is larger than
      needed. */
  method Convert(w: Roots, calls: seq<Call>, requiredQubits: Option<nat>, requiredResults: Option<nat>)
    returns (r: Result<Program>)
    ensures r.Ok? <==> forall i :: 0 <= i < |calls| ==> Supported(calls[i]) && Supplied(calls[i])
    ensures r == Err(Unsupported) <==>
      exists i :: 0 <= i < |calls| && !Supported(calls[i]) && forall j :: 0 <= j < i ==> Supplied(calls[j])
    ensures LowerAll(w, calls).Ok? == r.Ok?
    ensures r.Ok? ==> r.value.lines == LowerAll(w, calls).value
    ensures r.Ok? ==> AllFit(r.value.qreg, r.value.creg, r.value.lines)
    ensures r.Ok? ==> forall i :: 0 <= i < |calls| ==> Below(r.value.qreg, Touched(calls[i]))
    ensures r.Ok? ==> r.value.qreg >= 1 && Justified(r.value.qreg, requiredQubits, calls)
    ensures r.Ok? ==> (r.value.creg > 0 <==> SomeMeasure(r.value.lines))
    ensures r.Ok? && r.value.creg > 0 ==>
      requiredResults == Some(r.value.creg) || TopsBits(r.value.creg, r.value.lines)
    ensures r.Ok? && requiredQubits.Some? ==> r.value.qreg >= requiredQubits.value
    ensures r.Ok? && requiredResults.Some? && r.value.creg > 0 ==> r.value.creg >= requiredResults.value
  {
    AllAcceptedExactly(w, calls);
    ProgressStarts(w, calls);
    hide Lower, LowerAll, Touched, Fits, Supported, Supplied, SomeMeasure, TopsBits, Tops, Progress;
    var lines: seq<Line> := [];
    var nq: nat, ncl: nat := 0, 0;
    for i := 0 to |calls|
      invariant Progress(w, calls, i, lines, nq, ncl)
    {
      var c := calls[i];
      var lowered := Lower(w, c);
      if lowered.Err? {
        ProgressStops(w, calls, i, lines, nq, ncl);
        return Err(lowered.error);
      }
      var nqWas := nq;
      nq := Touch(Touched(c), nq);
      ProgressStep(w, calls, i, lines, nqWas, ncl, nq);
      if c.Plain? && c.op == OpMz && MeasuredBit(c) + 1 > ncl {
        ncl := MeasuredBit(c) + 1;
      }
      lines := lines + lowered.value;
    }
    var qreg := if requiredQubits.Some? && requiredQubits.value > nq then requiredQubits.value else nq;
    var creg := if requiredResults.Some? && ncl > 0 && requiredResults.value > ncl then requiredResults.value else ncl;
    ProgressEnds(w, calls, lines, nq, ncl, if qreg > 1 then qreg else 1, creg);
    r := Ok(Program(if qreg > 1 then qreg else 1, creg, lines));
  }

  /** Larger registers are large enough, too. */
  lemma ProgressEnds(w: Roots, calls: seq<Call>, lines: seq<Line>, nq: nat, ncl: nat, qreg: nat, creg: nat)
    requires Progress(w, calls, |calls|, lines, nq, ncl) && nq <= qreg && ncl <= creg
    ensures LowerAll(w, calls) == Ok(lines) && AllFit(qreg, creg, lines)
    ensures forall i :: 0 <= i < |calls| ==> Below(qreg, Touched(calls[i]))
    ensures nq == 0 || exists i :: 0 <= i < |calls| && Tops(nq, Touched(calls[i]))
    ensures (ncl > 0 <==> SomeMeasure(lines)) && (ncl > 0 ==> TopsBits(ncl, lines))
  {
    hide LowerAll, Touched, Fits, SomeMeasure, TopsBits, Tops;
    assert calls[..|calls|] == calls;
    StillFits(lines, [], nq, ncl, qreg, creg);
    forall i | 0 <= i < |calls| ensures Below(qreg, Touched(calls[i])) {
      assert Below(nq, Touched(calls[i]));
    }
  }
}
