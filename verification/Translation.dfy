/** The emitted OpenQASM lines do what the QIR calls do, up to a global phase. */
module Translation {
  import opened Complex
  import opened Qasm
  import opened CudaQBridge

  // ---------- arithmetic with the units ----------

  lemma OneTimes(x: Complex)
    ensures ONE.Times(x) == x
    ensures ONE.Negate().Times(x) == x.Negate()
  {
  }

  lemma ITimes(x: Complex)
    ensures I.Times(x) == Complex(-x.im, x.re)
    ensures I.Negate().Times(x) == Complex(x.im, -x.re)
  {
  }

  lemma ZeroProducts(u: Complex)
    ensures u.Times(ZERO) == ZERO && u.Scale(0.0) == ZERO && ZERO.Conj() == ZERO
  {
  }

  lemma UnitScale(s: real)
    ensures ONE.Scale(s) == Complex(s, 0.0) && ONE.Negate().Scale(s) == Complex(-s, 0.0)
    ensures I.Scale(s) == Complex(0.0, s) && I.Negate().Scale(s) == Complex(0.0, -s)
  {
  }

  lemma UnitProducts()
    ensures ONE.Times(ONE) == ONE && ONE.Times(ONE.Negate()) == ONE.Negate()
    ensures I.Times(I) == ONE.Negate() && I.Negate().Times(I) == ONE
  {
    hide Complex.Times;
    OneTimes(ONE);
    OneTimes(ONE.Negate());
    ITimes(I);
  }

  lemma FixedTurns()
    ensures ZERO_ANGLE.Turn() == ONE && PI.Turn() == ONE.Negate()
  {
  }

  lemma NegTurn(a: Angle)
    ensures a.Neg().Turn() == a.Turn().Conj()
  {
  }

  lemma TurnOfRoots(w: Roots)
    requires w.Valid()
    ensures w.HalfPi().Turn() == I && w.HalfPi().Neg().Turn() == I.Negate()
    ensures w.QuarterPi().Turn() == Complex(w.r, w.r) && w.QuarterPi().Neg().Turn() == Complex(w.r, -w.r)
    ensures PI.Turn() == ONE.Negate()
  {
    hide Angle.Turn;
    FixedTurns();
    NegTurn(w.HalfPi());
    NegTurn(w.QuarterPi());
  }

  // ---------- one-qubit matrices ----------

  /** The matrix of the gate a plain one-qubit operation is lowered to, against the QIR
      matrix or its adjoint: equal, except that rz picks up a phase. */
  function LoweredGate(op: Op, adj: bool, params: seq<Angle>): Gate
    requires op !in {OpCnot, OpCz, OpSwap, OpMz, OpReset, OpOther, OpSdg, OpTdg}
    requires |params| == Params(op)
  {
    match op
    case OpH => H
    case OpX => X
    case OpY => Y
    case OpZ => Z
    case OpS => if adj then Sdg else S
    case OpT => if adj then Tdg else T
    case OpRx | OpRy | OpRz | OpR1 => RotationGate(op, if adj then params[0].Neg() else params[0])
    case OpU3 => U3(params[0], params[1], params[2])
  }

  function ScaleMatrix(u: Complex, m: Matrix): Matrix {
    Matrix(u.Times(m.a), u.Times(m.b), u.Times(m.c), u.Times(m.d))
  }

  lemma ScaledApply(u: Complex, m: Matrix, bit: bool, x0: Complex, x1: Complex)
    ensures ScaleMatrix(u, m).Apply(bit, x0, x1) == u.Times(m.Apply(bit, x0, x1))
  {
    var p, q := if bit then m.c else m.a, if bit then m.d else m.b;
    TimesAssociative(u, p, x0);
    TimesAssociative(u, q, x1);
    TimesDistributes(u, p.Times(x0), q.Times(x1));
  }

  lemma DiagonalMatrix(w: Roots, op: Op, adj: bool)
    requires w.Valid() && op in {OpZ, OpS, OpT}
    ensures
      var m := QirMatrix(w, op, []);
      TargetMatrix(w, LoweredGate(op, adj, [])) == if adj then m.Dagger() else m
  {
    TurnOfRoots(w);
  }

  lemma HadamardMatrix(w: Roots)
    ensures TargetMatrix(w, H) == QirMatrix(w, OpH, [])
  {
    hide Complex.Times, Complex.Scale, Angle.Turn;
    FixedTurns();
    UnitProducts();
    UnitScale(w.r);
    UnitScale(-w.r);
  }

  lemma PauliX(w: Roots)
    ensures TargetMatrix(w, X) == QirMatrix(w, OpX, [])
  {
    hide Complex.Times, Complex.Scale, Angle.Turn;
    FixedTurns();
    UnitProducts();
    UnitScale(1.0);
    UnitScale(-1.0);
    UnitScale(0.0);
  }

  lemma PauliY(w: Roots)
    requires w.HalfPi().Turn() == I
    ensures TargetMatrix(w, Y) == QirMatrix(w, OpY, [])
  {
    hide Complex.Times, Complex.Scale, Angle.Turn;
    UnitProducts();
    UnitScale(1.0);
    UnitScale(-1.0);
    UnitScale(0.0);
  }

  lemma SelfAdjointMatrix(w: Roots, op: Op)
    requires op in {OpX, OpY, OpH, OpZ}
    ensures QirMatrix(w, op, []).Dagger() == QirMatrix(w, op, [])
  {
  }

  lemma FixedMatrix(w: Roots, op: Op, adj: bool)
    requires w.Valid() && op in {OpH, OpX, OpY, OpZ, OpS, OpT}
    ensures
      var m := QirMatrix(w, op, []);
      TargetMatrix(w, LoweredGate(op, adj, [])) == if adj then m.Dagger() else m
  {
    match op {
      case OpH => HadamardMatrix(w); SelfAdjointMatrix(w, op);
      case OpX => PauliX(w); SelfAdjointMatrix(w, op);
      case OpY => PauliY(w); SelfAdjointMatrix(w, op);
      case _ => DiagonalMatrix(w, op, adj);
    }
  }

  lemma RzMatrix(w: Roots, adj: bool, a: Angle)
    requires a.Unit()
    ensures
      var m := QirMatrix(w, OpRz, [a]);
      var b := if adj then a.Neg() else a;
      TargetMatrix(w, Rz(b)) == ScaleMatrix(b.HalfTurn(), if adj then m.Dagger() else m)
  {
  }

  lemma R1Matrix(w: Roots, adj: bool, a: Angle)
    ensures
      var m := QirMatrix(w, OpR1, [a]);
      TargetMatrix(w, U1(if adj then a.Neg() else a)) == if adj then m.Dagger() else m
  {
    NegTurn(a);
  }

  lemma RxMatrix(w: Roots, a: Angle)
    requires w.HalfPi().Turn() == I && w.HalfPi().Neg().Turn() == I.Negate()
    ensures U3Matrix(a, w.HalfPi().Neg(), w.HalfPi()) == QirMatrix(w, OpRx, [a])
  {
    hide Complex.Times, Complex.Scale, Angle.Turn;
    UnitProducts();
    UnitScale(a.c);
    UnitScale(a.s);
    UnitScale(-a.s);
  }

  lemma RxAdjoint(w: Roots, a: Angle)
    ensures QirMatrix(w, OpRx, [a]).Dagger() == QirMatrix(w, OpRx, [a.Neg()])
  {
  }

  lemma RyMatrix(w: Roots, a: Angle)
    ensures U3Matrix(a, ZERO_ANGLE, ZERO_ANGLE) == QirMatrix(w, OpRy, [a])
  {
    hide Complex.Times, Complex.Scale, Angle.Turn;
    FixedTurns();
    UnitProducts();
    UnitScale(a.c);
    UnitScale(a.s);
    UnitScale(-a.s);
  }

  lemma RyAdjoint(w: Roots, a: Angle)
    ensures QirMatrix(w, OpRy, [a]).Dagger() == QirMatrix(w, OpRy, [a.Neg()])
  {
  }

  lemma TurnIsUnit(a: Angle)
    requires a.Unit()
    ensures a.Turn().Norm2() == 1.0
  {
    assert a.Turn().Norm2() == (a.c * a.c + a.s * a.s) * (a.c * a.c + a.s * a.s);
  }

  lemma CancelConj(p: Complex, l: Complex)
    requires p.Norm2() == 1.0
    ensures p.Times(l).Times(p.Conj()) == l
  {
    assert p.Times(l).Times(p.Conj()) == l.Scale(p.Norm2());
    assert l.Scale(1.0) == l;
  }

  lemma ScaleTimes(u: Complex, x: Complex, s: real)
    ensures u.Times(x.Scale(s)) == u.Times(x).Scale(s)
  {
  }

  lemma NegateTimes(u: Complex, x: Complex)
    ensures u.Negate().Times(x) == u.Times(x).Negate()
  {
  }

  /** Dropping the adjoint of u3 is exact up to phase when u3 is its own adjoint. */
  lemma U3AdjointMatrix(theta: Angle, p: Complex, l: Complex, e: Complex, m: Matrix)
    requires p.Norm2() == 1.0 && l.Norm2() == 1.0 && e == p.Times(l)
    requires m == Matrix(Complex(theta.c, 0.0), l.Scale(-theta.s), p.Scale(theta.s), e.Scale(theta.c))
    requires SelfAdjointU3(theta, e)
    ensures m == ScaleMatrix(AdjointPhase(theta, e), m.Dagger())
  {
    assert l == e.Times(p.Conj()) by { CancelConj(p, l); }
    assert p == e.Times(l.Conj()) by { CancelConj(l, p); TimesCommutes(p, l); }
    U3AdjointEntries(theta, p, l, e);
  }

  lemma U3AdjointEntries(theta: Angle, p: Complex, l: Complex, e: Complex)
    requires l == e.Times(p.Conj()) && p == e.Times(l.Conj())
    requires SelfAdjointU3(theta, e)
    ensures
      var u := AdjointPhase(theta, e);
      && Complex(theta.c, 0.0) == u.Times(Complex(theta.c, 0.0).Conj())
      && l.Scale(-theta.s) == u.Times(p.Scale(theta.s).Conj())
      && p.Scale(theta.s) == u.Times(l.Scale(-theta.s).Conj())
      && e.Scale(theta.c) == u.Times(e.Scale(theta.c).Conj())
  {
    hide Complex.Times, Complex.Scale, Complex.Conj, Complex.Negate;
    if theta.c == 0.0 {
      ZeroProducts(e.Negate());
      ZeroProducts(e);
      FlippedEntry(theta.s, p, l, e);
      FlippedEntry(-theta.s, l, p, e);
    } else if e == ONE.Negate() {
      SelfConjEntries(theta, p, l, e);
    } else {
      FlatEntries(theta, p, l, e);
    }
  }

  lemma SelfConjEntries(theta: Angle, p: Complex, l: Complex, e: Complex)
    requires l == e.Times(p.Conj()) && p == e.Times(l.Conj()) && e == ONE.Negate()
    ensures Complex(theta.c, 0.0) == ONE.Times(Complex(theta.c, 0.0).Conj())
    ensures l.Scale(-theta.s) == ONE.Times(p.Scale(theta.s).Conj())
    ensures p.Scale(theta.s) == ONE.Times(l.Scale(-theta.s).Conj())
    ensures e.Scale(theta.c) == ONE.Times(e.Scale(theta.c).Conj())
  {
    OneTimes(p.Conj());
    OneTimes(l.Conj());
    OneTimes(Complex(theta.c, 0.0));
    OneTimes(p.Scale(theta.s).Conj());
    OneTimes(l.Scale(-theta.s).Conj());
    OneTimes(e.Scale(theta.c).Conj());
    UnitScale(theta.c);
  }

  lemma FlatEntries(theta: Angle, p: Complex, l: Complex, e: Complex)
    requires e == ONE && theta.s == 0.0
    ensures Complex(theta.c, 0.0) == ONE.Times(Complex(theta.c, 0.0).Conj())
    ensures l.Scale(-theta.s) == ONE.Times(p.Scale(theta.s).Conj())
    ensures p.Scale(theta.s) == ONE.Times(l.Scale(-theta.s).Conj())
    ensures e.Scale(theta.c) == ONE.Times(e.Scale(theta.c).Conj())
  {
    OneTimes(Complex(theta.c, 0.0));
    OneTimes(e.Scale(theta.c).Conj());
    UnitScale(theta.c);
    OneTimes(ZERO);
    assert p.Scale(0.0) == ZERO && l.Scale(0.0) == ZERO && l.Scale(-0.0) == ZERO;
  }

  lemma FlippedEntry(s: real, p: Complex, l: Complex, e: Complex)
    requires l == e.Times(p.Conj())
    ensures l.Scale(-s) == e.Negate().Times(p.Scale(s).Conj())
  {
    assert p.Scale(s).Conj() == p.Conj().Scale(s);
    ScaleTimes(e.Negate(), p.Conj(), s);
    NegateTimes(e, p.Conj());
    assert l.Negate().Scale(s) == l.Scale(-s);
  }

  // ---------- lines acting on amplitudes ----------

  function Flip(b: Basis, on: bool, t: Qubit): Basis {
    if on then Put(b, t, !Bit(b, t)) else b
  }

  lemma FlipActs(ctrls: seq<Qubit>, t: Qubit, psi: State, b: Basis)
    requires t < |b|
    ensures Controlled(ctrls, OnQubit(Matrix(ZERO, ONE, ONE, ZERO), t, psi), psi)(b)
         == psi(Flip(b, AllSet(b, ctrls), t))
  {
    var x0, x1 := psi(Put(b, t, false)), psi(Put(b, t, true));
    AddZero(x0, x1);
    hide Complex.Times, Complex.Plus;
  }

  lemma AddZero(x: Complex, y: Complex)
    ensures ONE.Times(x).Plus(ZERO.Times(y)) == x
    ensures ZERO.Times(x).Plus(ONE.Times(y)) == y
  {
  }

  /** cx and ccx permute basis states. */
  lemma CxLine(w: Roots, line: Line, br: Branch, b: Basis)
    requires line.GateLine? && line.gate in {CX, CCX} && line.target < |b|
    ensures DoLine(w, line, br).psi(b) == br.psi(Flip(b, AllSet(b, line.ctrls), line.target))
  {
    hide Complex.Times, Complex.Plus, Complex.Scale, Angle.Turn, U3Matrix;
    PauliX(w);
    FlipActs(line.ctrls, line.target, br.psi, b);
  }

  lemma RunThree(w: Roots, x: Line, y: Line, z: Line, br: Branch)
    ensures Run(w, [x, y, z], br) == DoLine(w, z, DoLine(w, y, DoLine(w, x, br)))
  {
    assert [x, y, z][1..] == [y, z] && [y, z][1..] == [z] && [z][1..] == [];
    assert Run(w, [z], DoLine(w, y, DoLine(w, x, br))) == Run(w, [], DoLine(w, z, DoLine(w, y, DoLine(w, x, br))));
  }

  lemma RunOne(w: Roots, x: Line, br: Branch)
    ensures Run(w, [x], br) == DoLine(w, x, br)
  {
    assert [x][1..] == [];
  }

  lemma AllSetOne(b: Basis, p: Qubit)
    ensures AllSet(b, [p]) <==> Bit(b, p)
  {
    assert [p][0] == p;
  }

  lemma AllSetTwo(b: Basis, p: Qubit, q: Qubit)
    ensures AllSet(b, [p, q]) <==> Bit(b, p) && Bit(b, q)
  {
    assert [p, q][0] == p && [p, q][1] == q;
  }

  /** swap as three cx. */
  lemma SwapLines(w: Roots, p: Qubit, q: Qubit, br: Branch, b: Basis)
    requires p != q && p < |b| && q < |b|
    ensures Run(w, [GateLine(CX, [p], q), GateLine(CX, [q], p), GateLine(CX, [p], q)], br).psi(b)
         == Exchange(p, q, br.psi)(b)
  {
    hide TargetMatrix, OnQubit, Controlled;
    var x, y := GateLine(CX, [p], q), GateLine(CX, [q], p);
    RunThree(w, x, y, x, br);
    var br1 := DoLine(w, x, br);
    var br2 := DoLine(w, y, br1);
    var b3 := Flip(b, Bit(b, p), q);
    var b2 := Flip(b3, Bit(b3, q), p);
    var b1 := Flip(b2, Bit(b2, p), q);
    CxLine(w, x, br2, b);
    CxLine(w, y, br1, b3);
    CxLine(w, x, br, b2);
    AllSetOne(b, p);
    AllSetOne(b3, q);
    AllSetOne(b2, p);
    assert b1 == Put(Put(b, p, Bit(b, q)), q, Bit(b, p));
  }

  /** Controlled swap as cx, ccx, cx. */
  lemma ControlledSwapLines(w: Roots, c: Qubit, p: Qubit, q: Qubit, br: Branch, b: Basis)
    requires c != p && c != q && p != q && c < |b| && p < |b| && q < |b|
    ensures Run(w, [GateLine(CX, [q], p), GateLine(CCX, [c, p], q), GateLine(CX, [q], p)], br).psi(b)
         == Controlled([c], Exchange(p, q, br.psi), br.psi)(b)
  {
    hide TargetMatrix, OnQubit;
    var x, y := GateLine(CX, [q], p), GateLine(CCX, [c, p], q);
    RunThree(w, x, y, x, br);
    var br1 := DoLine(w, x, br);
    var br2 := DoLine(w, y, br1);
    var b3 := Flip(b, Bit(b, q), p);
    var b2 := Flip(b3, Bit(b3, c) && Bit(b3, p), q);
    var b1 := Flip(b2, Bit(b2, q), p);
    CxLine(w, x, br2, b);
    CxLine(w, y, br1, b3);
    CxLine(w, x, br, b2);
    AllSetOne(b, q);
    AllSetTwo(b3, c, p);
    AllSetOne(b2, q);
    AllSetOne(b, c);
    assert b1 == if Bit(b, c) then Put(Put(b, p, Bit(b, q)), q, Bit(b, p)) else b;
  }

  function Hadamard(r: real): Matrix {
    Matrix(Complex(r, 0.0), Complex(r, 0.0), Complex(r, 0.0), Complex(-r, 0.0))
  }

  lemma HalfSquare(w: Roots)
    requires w.Valid()
    ensures 2.0 * w.r * w.r == 1.0
  {
    assert w.HalfPi().Turn().im == 2.0 * w.r * w.r;
  }

  lemma HadamardApply(r: real, x0: Complex, x1: Complex)
    ensures Hadamard(r).Apply(false, x0, x1) == x0.Plus(x1).Scale(r)
    ensures Hadamard(r).Apply(true, x0, x1) == x0.Plus(x1.Negate()).Scale(r)
  {
  }

  lemma ScaleTwice(r: real, x: Complex, y: Complex)
    requires 2.0 * r * r == 1.0
    ensures x.Plus(y).Scale(r).Plus(x.Plus(y.Negate()).Scale(r)).Scale(r) == x
    ensures x.Plus(y).Scale(r).Plus(x.Plus(y.Negate()).Scale(r).Negate()).Scale(r) == y
    ensures x.Plus(y.Negate()).Scale(r).Plus(x.Plus(y).Scale(r)).Scale(r) == x
    ensures x.Plus(y.Negate()).Scale(r).Plus(x.Plus(y).Scale(r).Negate()).Scale(r) == y.Negate()
  {
    HalfOf(r, x.re, y.re);
    HalfOf(r, x.im, y.im);
  }

  lemma HalfOf(r: real, p: real, q: real)
    requires 2.0 * r * r == 1.0
    ensures ((p + q) * r + (p - q) * r) * r == p
    ensures ((p + q) * r - (p - q) * r) * r == q
  {
    assert ((p + q) * r + (p - q) * r) * r == p * (2.0 * r * r);
    assert ((p + q) * r - (p - q) * r) * r == q * (2.0 * r * r);
  }

  /** Conjugating by h: h h is the identity, and h x h is z. */
  lemma HadamardSandwich(r: real, x0: Complex, x1: Complex)
    requires 2.0 * r * r == 1.0
    ensures
      var y0, y1 := Hadamard(r).Apply(false, x0, x1), Hadamard(r).Apply(true, x0, x1);
      && Hadamard(r).Apply(false, y0, y1) == x0 && Hadamard(r).Apply(true, y0, y1) == x1
      && Hadamard(r).Apply(false, y1, y0) == x0 && Hadamard(r).Apply(true, y1, y0) == x1.Negate()
  {
    hide Matrix.Apply, Complex.Scale, Complex.Plus, Complex.Negate;
    var y0, y1 := Hadamard(r).Apply(false, x0, x1), Hadamard(r).Apply(true, x0, x1);
    HadamardApply(r, x0, x1);
    HadamardApply(r, y0, y1);
    HadamardApply(r, y1, y0);
    ScaleTwice(r, x0, x1);
  }

  lemma ZApply(bit: bool, x0: Complex, x1: Complex)
    ensures Matrix(ONE, ZERO, ZERO, ONE.Negate()).Apply(bit, x0, x1) == if bit then x1.Negate() else x0
  {
  }

  /** ccz as h, ccx, h on the target. */
  lemma ControlledZLines(w: Roots, ctrls: seq<Qubit>, t: Qubit, br: Branch, b: Basis)
    requires w.Valid() && t !in ctrls && t < |b|
    ensures Run(w, [GateLine(H, [], t), GateLine(CCX, ctrls, t), GateLine(H, [], t)], br).psi(b)
         == Controlled(ctrls, OnQubit(QirMatrix(w, OpZ, []), t, br.psi), br.psi)(b)
  {
    hide TargetMatrix, Matrix.Apply, Roots.Valid, Complex.Times;
    var h, cx := GateLine(H, [], t), GateLine(CCX, ctrls, t);
    RunThree(w, h, cx, h, br);
    var br1 := DoLine(w, h, br);
    var br2 := DoLine(w, cx, br1);
    var b0, b1 := Put(b, t, false), Put(b, t, true);
    var x0, x1 := br.psi(b0), br.psi(b1);
    var on := AllSet(b, ctrls);
    HalfSquare(w);
    HLine(w, t, br, b0);
    HLine(w, t, br, b1);
    HLine(w, t, br2, b);
    CxLine(w, cx, br1, b0);
    CxLine(w, cx, br1, b1);
    assert AllSet(b0, ctrls) == on && AllSet(b1, ctrls) == on;
    hide DoLine;
    HadamardSandwich(w.r, x0, x1);
    ZApply(Bit(b, t), x0, x1);
    assert Put(b0, t, true) == b1 && Put(b1, t, false) == b0 && Put(b0, t, false) == b0 && Put(b1, t, true) == b1;
    assert Bit(b, t) ==> b == b1;
    assert !Bit(b, t) ==> b == b0;
  }

  lemma HLine(w: Roots, t: Qubit, br: Branch, b: Basis)
    ensures DoLine(w, GateLine(H, [], t), br).psi(b)
         == Hadamard(w.r).Apply(Bit(b, t), br.psi(Put(b, t, false)), br.psi(Put(b, t, true)))
  {
    HadamardMatrix(w);
    var m := TargetMatrix(w, H);
    assert m == Hadamard(w.r);
    assert AllSet(b, []);
    hide TargetMatrix, Matrix.Apply, Hadamard;
    assert DoLine(w, GateLine(H, [], t), br).psi(b) == Controlled([], OnQubit(m, t, br.psi), br.psi)(b);
  }

  // ---------- one call ----------

  predicate IsOneQubit(op: Op) {
    op !in {OpCnot, OpCz, OpSwap, OpMz, OpReset, OpOther}
  }

  /** The QIR matrix of a one-qubit operation or of its adjoint. */
  function MeantMatrix(w: Roots, op: Op, adj: bool, params: seq<Angle>): Matrix
    requires IsOneQubit(op) && |params| == Params(op)
  {
    var m := QirMatrix(w, op, params);
    if adj then m.Dagger() else m
  }

  lemma ScaleByOne(m: Matrix)
    ensures ScaleMatrix(ONE, m) == m
  {
    OneTimes(m.a);
    OneTimes(m.b);
    OneTimes(m.c);
    OneTimes(m.d);
    hide Complex.Times;
  }

  lemma RotationMatrix(w: Roots, op: Op, adj: bool, a: Angle)
    requires w.Valid() && op in {OpRx, OpRy, OpR1}
    ensures TargetMatrix(w, RotationGate(op, if adj then a.Neg() else a)) == MeantMatrix(w, op, adj, [a])
  {
    hide QirMatrix, U3Matrix, U1Matrix, Matrix.Dagger, Angle.Turn, Roots.Valid;
    TurnOfRoots(w);
    var b := if adj then a.Neg() else a;
    if op == OpRx {
      RxAdjoint(w, a);
      RxMatrix(w, b);
    } else if op == OpRy {
      RyAdjoint(w, a);
      RyMatrix(w, b);
    } else {
      R1Matrix(w, adj, a);
    }
  }

  lemma PlainMatrix(w: Roots, c: Call)
    requires w.Valid() && c.Plain? && WellFormed(c) && Faithful(c)
    requires IsOneQubit(c.op) && c.op !in {OpSdg, OpTdg}
    ensures TargetMatrix(w, LoweredGate(c.op, c.adj, c.params))
         == ScaleMatrix(PhaseOf(c), MeantMatrix(w, c.op, c.adj, c.params))
  {
    var params := c.params;
    if c.op in {OpH, OpX, OpY, OpZ, OpS, OpT} {
      assert params == [];
      FixedMatrix(w, c.op, c.adj);
      ScaleByOne(MeantMatrix(w, c.op, c.adj, params));
    } else if c.op == OpRz {
      assert params == [params[0]];
      RzMatrix(w, c.adj, params[0]);
    } else if c.op == OpU3 {
      var m := U3Matrix(params[0], params[1], params[2]);
      var p, l := params[1].Turn(), params[2].Turn();
      if c.adj {
        TurnIsUnit(params[1]);
        TurnIsUnit(params[2]);
        U3AdjointMatrix(params[0], p, l, p.Times(l), m);
      } else {
        ScaleByOne(m);
      }
    } else {
      assert params == [params[0]];
      RotationMatrix(w, c.op, c.adj, params[0]);
      ScaleByOne(MeantMatrix(w, c.op, c.adj, params));
    }
  }

  /** A line whose matrix is a phase times m applies m, then the phase. */
  lemma PlainLine(w: Roots, g: Gate, q: Qubit, u: Complex, m: Matrix, br: Branch, b: Basis)
    requires TargetMatrix(w, g) == ScaleMatrix(u, m)
    ensures DoLine(w, GateLine(g, [], q), br).psi(b) == u.Times(OnQubit(m, q, br.psi)(b))
  {
    hide TargetMatrix, Matrix.Apply, ScaleMatrix;
    assert AllSet(b, []);
    ScaledApply(u, m, Bit(b, q), br.psi(Put(b, q, false)), br.psi(Put(b, q, true)));
  }

  ghost predicate Agrees(w: Roots, n: nat, c: Call, br: Branch)
    requires WellFormed(c) && Lower(w, c).Ok?
  {
    SameUpToPhase(n, PhaseOf(c), DoCall(w, c, br), Run(w, Lower(w, c).value, br))
  }

  lemma PlainSwapSound(w: Roots, n: nat, c: Call, br: Branch)
    requires c.Plain? && WellFormed(c) && Covers(n, c) && c.op == OpSwap
    ensures Agrees(w, n, c, br)
  {
    var lines, p, q := Lower(w, c).value, c.qubits[0], c.qubits[1];
    assert DoCall(w, c, br) == br.(psi := Exchange(p, q, br.psi));
    RunThree(w, lines[0], lines[1], lines[2], br);
    hide TargetMatrix, OnQubit, Controlled, Exchange, WellFormed, Unitary, DoCall;
    forall b: Basis | |b| == n ensures Run(w, lines, br).psi(b) == ONE.Times(Exchange(p, q, br.psi)(b)) {
      SwapLines(w, p, q, br, b);
      OneTimes(Exchange(p, q, br.psi)(b));
    }
  }

  /** cnot and cz. */
  lemma PlainPairSound(w: Roots, n: nat, c: Call, br: Branch)
    requires w.Valid() && c.Plain? && WellFormed(c) && c.op in {OpCnot, OpCz}
    ensures Agrees(w, n, c, br)
  {
    hide U3Matrix, U1Matrix, QirMatrix, OnQubit, Controlled, Roots.Valid, TargetMatrix;
    PauliX(w);
    FixedMatrix(w, OpZ, false);
    SameTarget(w);
    RunOne(w, Lower(w, c).value[0], br);
    PhaseOne(n, DoCall(w, c, br));
  }

  lemma PlainEffectSound(w: Roots, n: nat, c: Call, br: Branch)
    requires c.Plain? && WellFormed(c) && c.op in {OpMz, OpReset}
    ensures Agrees(w, n, c, br)
  {
    hide TargetMatrix, Project, Clear, Complex.Times, OnQubit, Controlled, Unitary, Next, Drop;
    RunOne(w, Lower(w, c).value[0], br);
    PhaseOne(n, DoCall(w, c, br));
  }

  lemma PlainSound(w: Roots, n: nat, c: Call, br: Branch)
    requires w.Valid() && c.Plain? && WellFormed(c) && Faithful(c) && Lower(w, c).Ok? && Covers(n, c)
    ensures Agrees(w, n, c, br)
  {
    hide Roots.Valid, WellFormed, Faithful, Lower, Covers, Agrees;
    if c.op == OpSwap {
      PlainSwapSound(w, n, c, br);
    } else if c.op in {OpCnot, OpCz} {
      PlainPairSound(w, n, c, br);
    } else if c.op in {OpMz, OpReset} {
      PlainEffectSound(w, n, c, br);
    } else {
      KnownOp(c);
      PlainOneQubitSound(w, n, c, br);
    }
  }

  lemma KnownOp(c: Call)
    requires c.Plain? && WellFormed(c)
    ensures c.op != OpOther
  {
  }

  lemma SameTarget(w: Roots)
    ensures TargetMatrix(w, CX) == TargetMatrix(w, X) && TargetMatrix(w, CCX) == TargetMatrix(w, X)
    ensures TargetMatrix(w, CZ) == TargetMatrix(w, Z) && TargetMatrix(w, CY) == TargetMatrix(w, Y)
    ensures TargetMatrix(w, CH) == TargetMatrix(w, H)
  {
    hide U3Matrix, U1Matrix;
  }

  lemma PhaseOne(n: nat, br: Branch)
    ensures SameUpToPhase(n, ONE, br, br)
  {
    forall b: Basis | |b| == n ensures br.psi(b) == ONE.Times(br.psi(b)) {
      OneTimes(br.psi(b));
    }
  }

  lemma PlainOneQubitSound(w: Roots, n: nat, c: Call, br: Branch)
    requires w.Valid() && c.Plain? && WellFormed(c) && Faithful(c) && Lower(w, c).Ok? && Covers(n, c)
    requires IsOneQubit(c.op)
    ensures Agrees(w, n, c, br)
  {
    PlainMatrix(w, c);
    var g, q, u := LoweredGate(c.op, c.adj, c.params), c.qubits[0], PhaseOf(c);
    var m := MeantMatrix(w, c.op, c.adj, c.params);
    assert Lower(w, c).value == [GateLine(g, [], q)];
    RunOne(w, GateLine(g, [], q), br);
    assert DoCall(w, c, br) == br.(psi := OnQubit(m, q, br.psi));
    hide TargetMatrix, QirMatrix, Matrix.Apply, LoweredGate, ScaleMatrix, MeantMatrix, PhaseOf, Lower, DoCall;
    forall b: Basis | |b| == n
      ensures DoLine(w, GateLine(g, [], q), br).psi(b) == u.Times(OnQubit(m, q, br.psi)(b))
    {
      PlainLine(w, g, q, u, m, br, b);
    }
  }

  lemma RotationShape(w: Roots, c: Call, g: Gate, a: Angle)
    requires c.Invoke? && WellFormed(c) && Lower(w, c).Ok? && IsRotation(c.op)
    requires g == Lower(w, c).value[0].gate && |c.params| == 1
    requires a == if c.adj then c.params[0].Neg() else c.params[0]
    ensures c.op == OpRz ==> g == CRz(a)
    ensures c.op == OpR1 ==> g == CU1(a)
    ensures c.op == OpRx ==> g == CU3(a, w.HalfPi().Neg(), w.HalfPi())
    ensures c.op == OpRy ==> g == CU3(a, ZERO_ANGLE, ZERO_ANGLE)
  {
    hide Roots.HalfPi, Roots.QuarterPi, Angle.Neg;
    assert c.adj ==> Negated(c.params)[0] == a;
  }

  lemma SameRotationTarget(w: Roots, op: Op, a: Angle)
    requires op in {OpRx, OpRy, OpR1}
    ensures TargetMatrix(w, RotationGate(op, a)) ==
      match op
      case OpR1 => TargetMatrix(w, CU1(a))
      case OpRx => TargetMatrix(w, CU3(a, w.HalfPi().Neg(), w.HalfPi()))
      case _ => TargetMatrix(w, CU3(a, ZERO_ANGLE, ZERO_ANGLE))
  {
    hide U3Matrix, U1Matrix, Roots.HalfPi, Angle.Neg;
  }

  lemma ControlledRz(w: Roots, adj: bool, a: Angle)
    ensures TargetMatrix(w, CRz(if adj then a.Neg() else a)) == MeantMatrix(w, OpRz, adj, [a])
  {
  }

  lemma InvokeRotation(w: Roots, c: Call, g: Gate)
    requires w.Valid() && c.Invoke? && WellFormed(c) && Lower(w, c).Ok? && IsRotation(c.op)
    requires g == Lower(w, c).value[0].gate && |c.params| == 1
    ensures TargetMatrix(w, g) == MeantMatrix(w, c.op, c.adj, c.params)
  {
    hide TargetMatrix, MeantMatrix, Lower, Roots.Valid, Roots.HalfPi, Angle.Neg, RotationGate;
    var a := c.params[0];
    var b := if c.adj then a.Neg() else a;
    assert c.params == [a];
    RotationShape(w, c, g, b);
    if c.op == OpRz {
      ControlledRz(w, c.adj, a);
    } else {
      RotationMatrix(w, c.op, c.adj, a);
      SameRotationTarget(w, c.op, b);
    }
  }

  /** Every controlled call except cz with two controls and swap becomes one controlled
      gate. */
  lemma InvokeGate(w: Roots, c: Call) returns (g: Gate)
    requires c.Invoke? && WellFormed(c) && Lower(w, c).Ok?
    requires c.op != OpSwap && !(c.op == OpZ && |c.ctrls| == 2)
    ensures IsOneQubit(c.op) && c.op != OpU3
    ensures Lower(w, c).value == [GateLine(g, c.ctrls, c.targets[0])]
  {
    hide Roots.HalfPi, Roots.QuarterPi, Angle.Neg;
    g := Lower(w, c).value[0].gate;
  }

  /** The matrix of that gate is the meant one, exactly. */
  lemma InvokeMatrix(w: Roots, c: Call, g: Gate)
    requires w.Valid() && c.Invoke? && WellFormed(c) && Faithful(c) && Lower(w, c).Ok?
    requires c.op != OpSwap && !(c.op == OpZ && |c.ctrls| == 2) && IsOneQubit(c.op) && c.op != OpU3
    requires Lower(w, c).value == [GateLine(g, c.ctrls, c.targets[0])]
    ensures TargetMatrix(w, g) == MeantMatrix(w, c.op, c.adj, c.params)
  {
    hide U3Matrix, U1Matrix, QirMatrix, Roots.Valid, TargetMatrix, Matrix.Dagger;
    if IsRotation(c.op) {
      InvokeRotation(w, c, g);
    } else {
      assert c.params == [];
      if c.op in {OpX, OpY, OpZ, OpH} {
        SameTarget(w);
        FixedMatrix(w, c.op, c.adj);
      } else {
        InvokePhaseGate(w, c, g);
      }
    }
  }

  /** Controlled s, t, sdg and tdg are cu1 of the angle whose turn is their lower entry. */
  lemma PhaseGateShape(w: Roots, c: Call, g: Gate)
    requires c.Invoke? && WellFormed(c) && Faithful(c) && Lower(w, c).Ok?
    requires c.op in {OpS, OpT, OpSdg, OpTdg}
    requires Lower(w, c).value == [GateLine(g, c.ctrls, c.targets[0])]
    ensures g == CU1(
      if c.op == OpS && !c.adj then w.HalfPi()
      else if c.op == OpT && !c.adj then w.QuarterPi()
      else if c.op in {OpS, OpSdg} then w.HalfPi().Neg()
      else w.QuarterPi().Neg())
  {
    hide Roots.HalfPi, Roots.QuarterPi, Angle.Neg;
  }

  lemma PhaseGateEntries(w: Roots, op: Op, adj: bool)
    requires op in {OpS, OpT, OpSdg, OpTdg} && !(adj && op in {OpSdg, OpTdg})
    ensures MeantMatrix(w, op, adj, []) == Matrix(ONE, ZERO, ZERO,
      if op == OpS && !adj then I
      else if op == OpT && !adj then Complex(w.r, w.r)
      else if op in {OpS, OpSdg} then I.Negate()
      else Complex(w.r, -w.r))
  {
  }

  lemma InvokePhaseGate(w: Roots, c: Call, g: Gate)
    requires w.Valid() && c.Invoke? && WellFormed(c) && Faithful(c) && Lower(w, c).Ok?
    requires c.op in {OpS, OpT, OpSdg, OpTdg} && c.params == []
    requires Lower(w, c).value == [GateLine(g, c.ctrls, c.targets[0])]
    ensures TargetMatrix(w, g) == MeantMatrix(w, c.op, c.adj, c.params)
  {
    hide Angle.Turn, Roots.Valid, Lower, MeantMatrix, Roots.HalfPi, Roots.QuarterPi, Angle.Neg;
    PhaseGateShape(w, c, g);
    PhaseGateEntries(w, c.op, c.adj);
    TurnOfRoots(w);
  }

  lemma InvokeSwapSound(w: Roots, n: nat, c: Call, br: Branch)
    requires c.Invoke? && WellFormed(c) && Lower(w, c).Ok? && Covers(n, c) && c.op == OpSwap
    ensures Agrees(w, n, c, br)
  {
    var lines, cs, ts := Lower(w, c).value, c.ctrls, c.targets;
    SplitDistinct(cs, ts);
    assert cs == [cs[0]];
    var meant := Controlled([cs[0]], Exchange(ts[0], ts[1], br.psi), br.psi);
    assert DoCall(w, c, br) == br.(psi := meant);
    RunThree(w, lines[0], lines[1], lines[2], br);
    hide TargetMatrix, OnQubit, Controlled, Exchange, WellFormed, Unitary, DoCall;
    forall b: Basis | |b| == n ensures Run(w, lines, br).psi(b) == ONE.Times(meant(b)) {
      ControlledSwapLines(w, cs[0], ts[0], ts[1], br, b);
      OneTimes(meant(b));
    }
  }

  lemma InvokeZSound(w: Roots, n: nat, c: Call, br: Branch)
    requires w.Valid() && c.Invoke? && WellFormed(c) && Lower(w, c).Ok? && Covers(n, c)
    requires c.op == OpZ && |c.ctrls| == 2
    ensures Agrees(w, n, c, br)
  {
    hide TargetMatrix, OnQubit, Controlled, QirMatrix, Roots.Valid, Matrix.Dagger, Run;
    var lines, cs, ts := Lower(w, c).value, c.ctrls, c.targets;
    SplitDistinct(cs, ts);
    SelfAdjointMatrix(w, OpZ);
    assert c.params == [];
    var meant := Controlled(cs, OnQubit(QirMatrix(w, OpZ, []), ts[0], br.psi), br.psi);
    assert DoCall(w, c, br) == br.(psi := meant);
    RunThree(w, lines[0], lines[1], lines[2], br);
    forall b: Basis | |b| == n ensures Run(w, lines, br).psi(b) == ONE.Times(meant(b)) {
      ControlledZLines(w, cs, ts[0], br, b);
      OneTimes(meant(b));
    }
  }

  lemma SplitDistinct(cs: seq<Qubit>, ts: seq<Qubit>)
    requires Distinct(cs + ts)
    ensures Distinct(cs) && Distinct(ts)
    ensures forall i, j :: 0 <= i < |cs| && 0 <= j < |ts| ==> cs[i] != ts[j]
  {
    var qs := cs + ts;
    assert forall i :: 0 <= i < |cs| ==> qs[i] == cs[i];
    assert forall j :: 0 <= j < |ts| ==> qs[|cs| + j] == ts[j];
  }

  lemma InvokeSound(w: Roots, n: nat, c: Call, br: Branch)
    requires w.Valid() && c.Invoke? && WellFormed(c) && Faithful(c) && Lower(w, c).Ok? && Covers(n, c)
    ensures Agrees(w, n, c, br)
  {
    if c.op == OpSwap {
      InvokeSwapSound(w, n, c, br);
    } else if c.op == OpZ && |c.ctrls| == 2 {
      InvokeZSound(w, n, c, br);
    } else {
      var g := InvokeGate(w, c);
      InvokeMatrix(w, c, g);
      RunOne(w, GateLine(g, c.ctrls, c.targets[0]), br);
      hide TargetMatrix, QirMatrix, Roots.Valid, Lower, Covers, OnQubit, Controlled;
      PhaseOne(n, DoCall(w, c, br));
    }
  }

  /** An operation that does nothing has a real multiple of the identity as its matrix. */
  lemma NothingMatrix(w: Roots, op: Op, adj: bool, params: seq<Angle>, controlled: bool) returns (k: real)
    requires IsOneQubit(op) && |params| == Params(op) && DoesNothing(op, params, controlled)
    requires forall i :: 0 <= i < |params| ==> params[i].Unit()
    ensures MeantMatrix(w, op, adj, params) == Matrix(Complex(k, 0.0), ZERO, ZERO, Complex(k, 0.0))
    ensures k * k == 1.0 && (controlled ==> k == 1.0) && k == if op == OpR1 then 1.0 else params[0].c
  {
    k := if op == OpR1 then 1.0 else params[0].c;
    if op == OpU3 {
      NothingU3(params[0], params[1].Turn(), params[2].Turn());
      hide Complex.Times, Complex.Scale, Angle.Turn;
    } else {
      hide Complex.Times, Angle.Turn;
    }
  }

  lemma NothingU3(theta: Angle, p: Complex, l: Complex)
    requires theta.s == 0.0 && p.Times(l) == ONE
    ensures l.Scale(-theta.s) == ZERO && p.Scale(theta.s) == ZERO
    ensures p.Times(l).Scale(theta.c) == Complex(theta.c, 0.0)
  {
    hide Complex.Times;
  }

  lemma MultipleApplied(k: real, bit: bool, x0: Complex, x1: Complex)
    ensures Matrix(Complex(k, 0.0), ZERO, ZERO, Complex(k, 0.0)).Apply(bit, x0, x1) == (if bit then x1 else x0).Scale(k)
  {
  }

  lemma ScaledBack(k: real, x: Complex)
    requires k * k == 1.0
    ensures Complex(k, 0.0).Times(x.Scale(k)) == x
  {
    assert k * (x.re * k) == x.re * (k * k) && k * (x.im * k) == x.im * (k * k);
  }

  lemma DroppedSound(w: Roots, n: nat, c: Call, br: Branch)
    requires c.Dropped? && WellFormed(c) && Faithful(c)
    ensures Agrees(w, n, c, br)
  {
    var k := NothingMatrix(w, c.op, c.adj, c.params, c.ctrls != []);
    var s, q := DoCall(w, c, br), c.targets[0];
    hide QirMatrix, Matrix.Apply, Complex.Times, Complex.Scale, Angle.Turn, Matrix.Dagger;
    forall b: Basis | |b| == n ensures br.psi(b) == PhaseOf(c).Times(s.psi(b)) {
      var b0, b1 := Put(b, q, false), Put(b, q, true);
      assert (if Bit(b, q) then b1 else b0) == b;
      MultipleApplied(k, Bit(b, q), br.psi(b0), br.psi(b1));
      ScaledBack(k, br.psi(b));
      OneTimes(br.psi(b));
      UnitScaled(br.psi(b));
    }
  }

  lemma UnitScaled(x: Complex)
    ensures x.Scale(1.0) == x
  {
  }

  lemma CallSound(w: Roots, n: nat, c: Call, br: Branch)
    requires w.Valid() && WellFormed(c) && Faithful(c) && Lower(w, c).Ok? && Covers(n, c)
    ensures Agrees(w, n, c, br)
  {
    hide Roots.Valid;
    match c {
      case Runtime => PhaseOne(n, br);
      case Dropped(_, _, _, _, _, _) => DroppedSound(w, n, c, br);
      case Plain(_, _, _, _, _) => PlainSound(w, n, c, br);
      case Invoke(_, _, _, _, _, _) => InvokeSound(w, n, c, br);
    }
  }

  // ---------- whole programs ----------

  lemma PhaseIsUnit(c: Call)
    requires WellFormed(c) && Faithful(c)
    ensures PhaseOf(c).Norm2() == 1.0
  {
    match c {
      case Plain(op, adj, params, _, _) =>
        if op == OpU3 && adj {
          TurnIsUnit(params[1]);
          TurnIsUnit(params[2]);
          NormOfProduct(params[1].Turn(), params[2].Turn());
          NegateNorm(params[1].Turn().Times(params[2].Turn()));
          hide Angle.Turn, Complex.Times;
        }
      case Dropped(op, _, params, _, _, _) =>
        assert op in {OpRx, OpRy, OpRz, OpU3} ==> params[0].Unit() && params[0].s == 0.0;
      case _ =>
    }
  }

  lemma NegateNorm(x: Complex)
    ensures x.Negate().Norm2() == x.Norm2()
  {
  }

  predicate AllFaithful(n: nat, calls: seq<Call>)
    requires AllWellFormed(calls)
  {
    forall i :: 0 <= i < |calls| ==> Faithful(calls[i]) && Covers(n, calls[i])
  }

  lemma PhasesAreUnit(n: nat, calls: seq<Call>)
    requires AllWellFormed(calls) && AllFaithful(n, calls)
    ensures Phases(calls).Norm2() == 1.0
  {
    if calls != [] {
      hide Complex.Norm2, Complex.Times, PhaseOf;
      PhaseIsUnit(calls[0]);
      PhasesAreUnit(n, calls[1..]);
      UnitTimesUnit(Phases(calls[1..]), PhaseOf(calls[0]));
    }
  }

  lemma UnitTimesUnit(x: Complex, y: Complex)
    requires x.Norm2() == 1.0 && y.Norm2() == 1.0
    ensures x.Times(y).Norm2() == 1.0
  {
    NormOfProduct(x, y);
    hide Complex.Norm2, Complex.Times;
  }

  lemma {:induction false} TranslationTracksPhase(
    w: Roots, n: nat, calls: seq<Call>, u: Complex, br: Branch, start: Branch)
    requires w.Valid() && AllWellFormed(calls) && AllFaithful(n, calls) && LowerAll(w, calls).Ok?
    requires SameUpToPhase(n, u, br, start)
    ensures SameUpToPhase(n, Phases(calls).Times(u), DoCalls(w, calls, br), Run(w, LowerAll(w, calls).value, start))
  {
    if calls == [] {
      OneTimes(u);
    } else {
      hide Roots.Valid, WellFormed, Faithful, Covers, Lower, PhaseOf, DoCall, DoLine;
      hide SameUpToPhase, Complex.Times, Complex.Norm2;
      var c, rest := calls[0], calls[1..];
      var lines := Lower(w, c).value;
      CallAgrees(w, n, c, br);
      RunKeepsPhase(w, lines, n, u, br, start);
      PhasesCompose(n, PhaseOf(c), u, DoCall(w, c, br), Run(w, lines, br), Run(w, lines, start));
      TranslationTracksPhase(w, n, rest, u.Times(PhaseOf(c)), DoCall(w, c, br), Run(w, lines, start));
      RunConcat(w, lines, LowerAll(w, rest).value, start);
      TimesCommutes(u, PhaseOf(c));
      TimesAssociative(Phases(rest), PhaseOf(c), u);
    }
  }

  lemma CallAgrees(w: Roots, n: nat, c: Call, br: Branch)
    requires w.Valid() && WellFormed(c) && Faithful(c) && Lower(w, c).Ok? && Covers(n, c)
    ensures SameUpToPhase(n, PhaseOf(c), DoCall(w, c, br), Run(w, Lower(w, c).value, br))
  {
    hide Roots.Valid, WellFormed, Faithful, Covers, Lower, PhaseOf, DoCall, SameUpToPhase;
    CallSound(w, n, c, br);
  }

  ghost predicate EqualUpToPhase(n: nat, s: Branch, t: Branch) {
    exists u: Complex :: u.Norm2() == 1.0 && SameUpToPhase(n, u, s, t)
  }

  /** For every list of well-formed, faithfully translated QIR calls that the converter
      accepts, every register that covers their qubits, every starting branch and all
      measurement outcomes: running the emitted lines gives the classical bits of the QIR
      run and its state, up to one global phase of modulus one. */
  lemma TranslationPreservesMeaning(w: Roots, n: nat, calls: seq<Call>, br: Branch)
    requires w.Valid() && AllWellFormed(calls) && AllSupported(calls) && AllFaithful(n, calls)
    ensures LowerAll(w, calls).Ok?
    ensures EqualUpToPhase(n, DoCalls(w, calls, br), Run(w, LowerAll(w, calls).value, br))
  {
    SupportedExactly(w, calls);
    hide Roots.Valid, SameUpToPhase, Complex.Times, Complex.Norm2;
    PhaseOne(n, br);
    TranslationTracksPhase(w, n, calls, ONE, br, br);
    PhasesAreUnit(n, calls);
    TimesCommutes(Phases(calls), ONE);
    OneTimes(Phases(calls));
  }
}
