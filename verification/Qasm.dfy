/** The OpenQASM 2.0 lines the converter emits, and what running them does.

    A register of n qubits is a bit string; a state gives every bit string a complex
    amplitude. Measurement and reset are followed along one branch: the outcomes are
    handed in as two streams and the branch keeps its unnormalised state, so a statement
    about all outcome streams is a statement about every branch. */
module Qasm {
  import opened Complex

  type Qubit = nat
  type Basis = seq<bool>
  type State = Basis -> Complex

  /** An angle, given by the cosine and the sine of its half. */
  datatype Angle = Angle(c: real, s: real) {
    predicate Unit() {
      c * c + s * s == 1.0
    }

    function Neg(): Angle {
      Angle(c, -s)
    }

    /** exp(i * angle / 2) */
    function HalfTurn(): Complex {
      Complex(c, s)
    }

    /** exp(i * angle) */
    function Turn(): Complex {
      Complex(c * c - s * s, 2.0 * c * s)
    }
  }

  const ZERO_ANGLE := Angle(1.0, 0.0)
  const PI := Angle(0.0, 1.0)

  /** cos(pi/4), cos(pi/8) and sin(pi/8), known by what they stand for: turning by pi/2
      is multiplying by i, and turning by pi/4 has equal real and imaginary part. */
  datatype Roots = Roots(r: real, k: real, l: real) {
    predicate Valid() {
      && HalfPi().Unit() && HalfPi().Turn() == I
      && QuarterPi().Unit() && QuarterPi().Turn() == Complex(r, r)
    }

    function HalfPi(): Angle {
      Angle(r, r)
    }

    function QuarterPi(): Angle {
      Angle(k, l)
    }
  }

  /** A two by two matrix, row by row. */
  datatype Matrix = Matrix(a: Complex, b: Complex, c: Complex, d: Complex) {
    function Dagger(): Matrix {
      Matrix(a.Conj(), c.Conj(), b.Conj(), d.Conj())
    }

    function Apply(bit: bool, x0: Complex, x1: Complex): Complex {
      if bit then c.Times(x0).Plus(d.Times(x1)) else a.Times(x0).Plus(b.Times(x1))
    }
  }

  // ---------- acting on amplitudes ----------

  predicate Bit(b: Basis, q: Qubit) {
    q < |b| && b[q]
  }

  function Put(b: Basis, q: Qubit, v: bool): Basis {
    if q < |b| then b[q := v] else b
  }

  predicate AllSet(b: Basis, qs: seq<Qubit>) {
    forall i :: 0 <= i < |qs| ==> Bit(b, qs[i])
  }

  function OnQubit(m: Matrix, q: Qubit, psi: State): State {
    (b: Basis) => m.Apply(Bit(b, q), psi(Put(b, q, false)), psi(Put(b, q, true)))
  }

  /** The controlled form of any transformation: it acts where every control is one. */
  function Controlled(ctrls: seq<Qubit>, acted: State, psi: State): State {
    (b: Basis) => if AllSet(b, ctrls) then acted(b) else psi(b)
  }

  function Project(q: Qubit, v: bool, psi: State): State {
    (b: Basis) => if Bit(b, q) == v then psi(b) else ZERO
  }

  /** Keep the part where q is v and move it to where q is zero. */
  function Clear(q: Qubit, v: bool, psi: State): State {
    (b: Basis) => if Bit(b, q) then ZERO else psi(Put(b, q, v))
  }

  // ---------- lines ----------

  /** Gates of qelib1.inc with one target; the angles are the gate's parameters. */
  datatype Gate =
    | H | X | Y | Z | S | Sdg | T | Tdg
    | Rx(theta: Angle) | Ry(theta: Angle) | Rz(theta: Angle)
    | U1(lambda: Angle) | U3(theta: Angle, phi: Angle, lambda: Angle)
    | CX | CCX | CZ | CY | CH
    | CU1(lambda: Angle) | CRz(theta: Angle) | CU3(theta: Angle, phi: Angle, lambda: Angle)
  {
    /** How many controls the gate takes. */
    function Arity(): nat {
      match this
      case CCX => 2
      case CX | CZ | CY | CH | CU1(_) | CRz(_) | CU3(_, _, _) => 1
      case _ => 0
    }
  }

  datatype Line =
    | GateLine(gate: Gate, ctrls: seq<Qubit>, target: Qubit)
    | MeasureLine(target: Qubit, cbit: nat)
    | ResetLine(target: Qubit)
  {
    /** The shape OpenQASM accepts: right number of arguments, all different. */
    predicate WellFormed() {
      GateLine? ==>
        && |ctrls| == gate.Arity()
        && target !in ctrls
        && (|ctrls| == 2 ==> ctrls[0] != ctrls[1])
    }

    function Qubits(): seq<Qubit> {
      if GateLine? then ctrls + [target] else [target]
    }
  }

  /** U(theta, phi, lambda) of the OpenQASM 2.0 specification, with the upper left entry real. */
  function U3Matrix(theta: Angle, phi: Angle, lambda: Angle): Matrix {
    Matrix(
      Complex(theta.c, 0.0),
      lambda.Turn().Scale(-theta.s),
      phi.Turn().Scale(theta.s),
      phi.Turn().Times(lambda.Turn()).Scale(theta.c))
  }

  /** u1(lambda), which qelib1.inc defines as U(0, 0, lambda); see U1IsU3. */
  function U1Matrix(lambda: Angle): Matrix {
    Matrix(ONE, ZERO, ZERO, lambda.Turn())
  }

  lemma U1IsU3(lambda: Angle)
    ensures U1Matrix(lambda) == U3Matrix(ZERO_ANGLE, ZERO_ANGLE, lambda)
  {
    assert ZERO_ANGLE.Turn() == ONE;
    assert ONE.Times(lambda.Turn()) == lambda.Turn();
  }

  /** qelib1.inc: every one-qubit gate is a U3; a controlled gate is named for the matrix
      it applies to its target. crz is the controlled exp(-i theta Z / 2), while the
      uncontrolled rz is defined there as u1. */
  function TargetMatrix(w: Roots, g: Gate): Matrix {
    match g
    case H | CH => U3Matrix(w.HalfPi(), ZERO_ANGLE, PI)
    case X | CX | CCX => U3Matrix(PI, ZERO_ANGLE, PI)
    case Y | CY => U3Matrix(PI, w.HalfPi(), w.HalfPi())
    case Z | CZ => U1Matrix(PI)
    case S => U1Matrix(w.HalfPi())
    case Sdg => U1Matrix(w.HalfPi().Neg())
    case T => U1Matrix(w.QuarterPi())
    case Tdg => U1Matrix(w.QuarterPi().Neg())
    case Rx(a) => U3Matrix(a, w.HalfPi().Neg(), w.HalfPi())
    case Ry(a) => U3Matrix(a, ZERO_ANGLE, ZERO_ANGLE)
    case Rz(a) => U1Matrix(a)
    case U1(a) => U1Matrix(a)
    case CU1(a) => U1Matrix(a)
    case U3(a, p, l) => U3Matrix(a, p, l)
    case CU3(a, p, l) => U3Matrix(a, p, l)
    case CRz(a) => Matrix(a.HalfTurn().Conj(), ZERO, ZERO, a.HalfTurn())
  }

  /** One branch of a run: amplitudes, classical bits, and the outcomes still to come. */
  datatype Branch = Branch(psi: State, creg: map<nat, bool>, measured: seq<bool>, cleared: seq<bool>)

  function Next(outcomes: seq<bool>): bool {
    outcomes != [] && outcomes[0]
  }

  function Drop(outcomes: seq<bool>): seq<bool> {
    if outcomes == [] then [] else outcomes[1..]
  }

  function DoMeasure(q: Qubit, cbit: nat, br: Branch): Branch {
    var v := Next(br.measured);
    br.(psi := Project(q, v, br.psi), creg := br.creg[cbit := v], measured := Drop(br.measured))
  }

  function DoReset(q: Qubit, br: Branch): Branch {
    br.(psi := Clear(q, Next(br.cleared), br.psi), cleared := Drop(br.cleared))
  }

  function DoLine(w: Roots, line: Line, br: Branch): Branch {
    match line
    case GateLine(g, ctrls, q) =>
      br.(psi := Controlled(ctrls, OnQubit(TargetMatrix(w, g), q, br.psi), br.psi))
    case MeasureLine(q, cbit) => DoMeasure(q, cbit, br)
    case ResetLine(q) => DoReset(q, br)
  }

  function Run(w: Roots, lines: seq<Line>, br: Branch): Branch {
    if lines == [] then br else Run(w, lines[1..], DoLine(w, lines[0], br))
  }

  // ---------- equality of branches up to a global phase ----------

  ghost predicate PhaseApart(n: nat, u: Complex, psi: State, phi: State) {
    forall b: Basis :: |b| == n ==> phi(b) == u.Times(psi(b))
  }

  ghost predicate SameUpToPhase(n: nat, u: Complex, s: Branch, t: Branch) {
    && s.creg == t.creg
    && s.measured == t.measured
    && s.cleared == t.cleared
    && PhaseApart(n, u, s.psi, t.psi)
  }

  lemma RunConcat(w: Roots, xs: seq<Line>, ys: seq<Line>, br: Branch)
    ensures Run(w, xs + ys, br) == Run(w, ys, Run(w, xs, br))
  {
    if xs == [] {
      assert xs + ys == ys;
    } else {
      assert (xs + ys)[1..] == xs[1..] + ys;
      RunConcat(w, xs[1..], ys, DoLine(w, xs[0], br));
    }
  }

  lemma ApplyIsLinear(m: Matrix, bit: bool, u: Complex, x0: Complex, x1: Complex)
    ensures m.Apply(bit, u.Times(x0), u.Times(x1)) == u.Times(m.Apply(bit, x0, x1))
  {
    var p, q := if bit then m.c else m.a, if bit then m.d else m.b;
    assert p.Times(u.Times(x0)) == u.Times(p.Times(x0)) by { Swap3(p, u, x0); }
    assert q.Times(u.Times(x1)) == u.Times(q.Times(x1)) by { Swap3(q, u, x1); }
    TimesDistributes(u, p.Times(x0), q.Times(x1));
  }

  lemma Swap3(x: Complex, y: Complex, z: Complex)
    ensures x.Times(y.Times(z)) == y.Times(x.Times(z))
  {
    TimesAssociative(x, y, z);
    TimesCommutes(x, y);
    TimesAssociative(y, x, z);
  }

  /** Running a line keeps two branches the same phase apart. */
  lemma LineKeepsPhase(w: Roots, line: Line, n: nat, u: Complex, s: Branch, t: Branch)
    requires SameUpToPhase(n, u, s, t)
    ensures SameUpToPhase(n, u, DoLine(w, line, s), DoLine(w, line, t))
  {
    var s', t' := DoLine(w, line, s), DoLine(w, line, t);
    forall b: Basis | |b| == n ensures t'.psi(b) == u.Times(s'.psi(b)) {
      match line
      case GateLine(g, ctrls, q) =>
        var b0, b1 := Put(b, q, false), Put(b, q, true);
        assert t.psi(b0) == u.Times(s.psi(b0)) && t.psi(b1) == u.Times(s.psi(b1));
        ApplyIsLinear(TargetMatrix(w, g), Bit(b, q), u, s.psi(b0), s.psi(b1));
      case MeasureLine(_, _) =>
      case ResetLine(q) =>
        assert |Put(b, q, Next(s.cleared))| == n;
    }
  }

  lemma RunKeepsPhase(w: Roots, lines: seq<Line>, n: nat, u: Complex, s: Branch, t: Branch)
    requires SameUpToPhase(n, u, s, t)
    ensures SameUpToPhase(n, u, Run(w, lines, s), Run(w, lines, t))
  {
    if lines != [] {
      LineKeepsPhase(w, lines[0], n, u, s, t);
      RunKeepsPhase(w, lines[1..], n, u, DoLine(w, lines[0], s), DoLine(w, lines[0], t));
    }
  }

  lemma PhasesCompose(n: nat, u: Complex, v: Complex, r: Branch, s: Branch, t: Branch)
    requires SameUpToPhase(n, u, r, s) && SameUpToPhase(n, v, s, t)
    ensures SameUpToPhase(n, v.Times(u), r, t)
  {
    forall b: Basis | |b| == n ensures t.psi(b) == v.Times(u).Times(r.psi(b)) {
      assert s.psi(b) == u.Times(r.psi(b));
      TimesAssociative(v, u, r.psi(b));
    }
  }
}
