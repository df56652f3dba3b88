/** Where the converter is wrong on straight-line code, and that it is wrong nowhere else: a
    single call keeps its meaning on every state exactly when it is `Faithful`. */
module Unfaithful {
  import opened Complex
  import opened Qasm
  import opened CudaQBridge
  import opened Translation
  import opened Probes

  /** A state whose amplitudes depend on one qubit only. */
  function PerQubit(q: Qubit, x0: Complex, x1: Complex): State {
    (b: Basis) => if Bit(b, q) then x1 else x0
  }

  function Ask(psi: State): Branch {
    Branch(psi, map[], [], [])
  }

  function AllBits(n: nat, v: bool): Basis {
    seq(n, i => v)
  }

  lemma CancelScale(x: Complex, y: Complex, c: real)
    requires c != 0.0 && x.Scale(c) == y.Scale(c)
    ensures x == y
  {
    CancelReal(x.re, y.re, c);
    CancelReal(x.im, y.im, c);
  }

  lemma CancelReal(p: real, q: real, c: real)
    requires c != 0.0 && p * c == q * c
    ensures p == q
  {
    assert p == (p * c) / c;
    assert q == (q * c) / c;
  }

  lemma ApplyToBasis(m: Matrix, bit: bool)
    ensures m.Apply(bit, ONE, ZERO) == if bit then m.c else m.a
    ensures m.Apply(bit, ONE, ONE) == if bit then m.c.Plus(m.d) else m.a.Plus(m.b)
  {
  }

  /** A unitary column (c, s p) against (c, -s conj l), and a diagonal (c, c e) against
      (c, c conj e), cannot agree up to phase unless u3 is its own adjoint. */
  lemma ColumnsDiffer(theta: Angle, p: Complex, l: Complex, u: Complex)
    requires p.Norm2() == 1.0 && l.Norm2() == 1.0 && theta.c != 0.0 && theta.s != 0.0
    requires p.Times(l) != ONE.Negate()
    ensures !(Complex(theta.c, 0.0) == u.Times(Complex(theta.c, 0.0))
              && p.Scale(theta.s) == u.Times(l.Scale(-theta.s).Conj()))
  {
    assert l.Conj().Negate().Times(l) == Complex(-l.Norm2(), 0.0);
    assert l.Scale(-theta.s).Conj() == l.Conj().Negate().Scale(theta.s);
    hide Complex.Times, Complex.Scale, Complex.Conj;
    if Complex(theta.c, 0.0) == u.Times(Complex(theta.c, 0.0))
       && p.Scale(theta.s) == u.Times(l.Scale(-theta.s).Conj()) {
      FixesScale(u, theta.c);
      OneTimes(l.Scale(-theta.s).Conj());
      CancelScale(p, l.Conj().Negate(), theta.s);
    }
  }

  lemma FixesScale(u: Complex, c: real)
    requires c != 0.0 && Complex(c, 0.0) == u.Times(Complex(c, 0.0))
    ensures u == ONE
  {
    assert u.Times(Complex(c, 0.0)) == u.Scale(c);
    assert ONE.Scale(c) == Complex(c, 0.0) by { UnitScale(c); }
    CancelScale(u, ONE, c);
  }

  lemma RootOfOne(x: real, p: real)
    requires p == (x + 1.0) * (x - 1.0) && p == 0.0
    ensures x == 1.0 || x == -1.0
  {
    if x > 1.0 || x < -1.0 {
      ProductPositive(x + 1.0, x - 1.0, p);
    } else if -1.0 < x < 1.0 {
      ProductPositive(x + 1.0, 1.0 - x, -p);
    }
  }

  lemma NormOfReal(x: real)
    ensures Complex(x, 0.0).Norm2() - 1.0 == (x + 1.0) * (x - 1.0)
  {
  }

  lemma RealUnit(e: Complex)
    requires e.Norm2() == 1.0 && e == e.Conj()
    ensures e == ONE || e == ONE.Negate()
  {
    hide Complex.Norm2;
    assert e == Complex(e.re, 0.0);
    NormOfReal(e.re);
    RootOfOne(e.re, e.Norm2() - 1.0);
  }

  lemma DiagonalsDiffer(theta: Angle, e: Complex, u: Complex)
    requires e.Norm2() == 1.0 && theta.c != 0.0 && e != ONE && e != ONE.Negate()
    ensures !(Complex(theta.c, 0.0) == u.Times(Complex(theta.c, 0.0))
              && e.Scale(theta.c) == u.Times(e.Scale(theta.c).Conj()))
  {
    assert e.Scale(theta.c).Conj() == e.Conj().Scale(theta.c);
    hide Complex.Times, Complex.Scale, Complex.Conj;
    if Complex(theta.c, 0.0) == u.Times(Complex(theta.c, 0.0))
       && e.Scale(theta.c) == u.Times(e.Scale(theta.c).Conj()) {
      FixesScale(u, theta.c);
      OneTimes(e.Scale(theta.c).Conj());
      CancelScale(e, e.Conj(), theta.c);
      RealUnit(e);
    }
  }

  // ---------- the failing calls ----------

  lemma AskPerQubit(w: Roots, g: Gate, q: Qubit, x0: Complex, x1: Complex, b: Basis)
    requires q < |b|
    ensures DoLine(w, GateLine(g, [], q), Ask(PerQubit(q, x0, x1))).psi(b)
         == TargetMatrix(w, g).Apply(Bit(b, q), x0, x1)
    ensures forall m: Matrix :: OnQubit(m, q, PerQubit(q, x0, x1))(b) == m.Apply(Bit(b, q), x0, x1)
  {
    hide TargetMatrix, Matrix.Apply;
    var psi := PerQubit(q, x0, x1);
    assert AllSet(b, []);
    assert psi(Put(b, q, false)) == x0 && psi(Put(b, q, true)) == x1;
  }

  lemma AddZeros(x: Complex, r: real)
    ensures x.Plus(ZERO) == x && ZERO.Plus(x) == x && ZERO.Conj() == ZERO
    ensures x.Scale(0.0) == ZERO && Complex(r, 0.0).Conj() == Complex(r, 0.0)
  {
  }

  /** The emitted u3 and the meant adjoint, run on a state of the one qubit. */
  lemma U3Entries(theta: Angle, p: Complex, l: Complex, e: Complex, m: Matrix, bit: bool)
    requires m == Matrix(Complex(theta.c, 0.0), l.Scale(-theta.s), p.Scale(theta.s), e.Scale(theta.c))
    ensures m.Apply(bit, ONE, ZERO) == if bit then p.Scale(theta.s) else Complex(theta.c, 0.0)
    ensures m.Dagger().Apply(bit, ONE, ZERO) == if bit then l.Scale(-theta.s).Conj() else Complex(theta.c, 0.0)
    ensures theta.s == 0.0 ==> m.Apply(bit, ONE, ONE) == if bit then e.Scale(theta.c) else Complex(theta.c, 0.0)
    ensures theta.s == 0.0 ==>
      m.Dagger().Apply(bit, ONE, ONE) == if bit then e.Scale(theta.c).Conj() else Complex(theta.c, 0.0)
  {
    ApplyToBasis(m, bit);
    ApplyToBasis(m.Dagger(), bit);
    hide Matrix.Apply, Complex.Scale, Complex.Conj, Complex.Plus, Complex.Times;
    AddZeros(Complex(theta.c, 0.0), theta.c);
    AddZeros(e.Scale(theta.c), theta.c);
    AddZeros(e.Scale(theta.c).Conj(), theta.c);
    AddZeros(p, theta.c);
    AddZeros(l, theta.c);
    assert -0.0 == 0.0;
  }

  lemma U3Outcome(w: Roots, c: Call, x1: Complex, b: Basis)
    requires c.Plain? && WellFormed(c) && c.op == OpU3 && c.adj && c.qubits[0] < |b|
    ensures
      var m := U3Matrix(c.params[0], c.params[1], c.params[2]);
      var br := Ask(PerQubit(c.qubits[0], ONE, x1));
      var bit := Bit(b, c.qubits[0]);
      && Run(w, Lower(w, c).value, br).psi(b) == m.Apply(bit, ONE, x1)
      && DoCall(w, c, br).psi(b) == m.Dagger().Apply(bit, ONE, x1)
  {
    hide U3Matrix, Matrix.Apply, Matrix.Dagger;
    var g := U3(c.params[0], c.params[1], c.params[2]);
    AskPerQubit(w, g, c.qubits[0], ONE, x1, b);
    RunOne(w, GateLine(g, [], c.qubits[0]), Ask(PerQubit(c.qubits[0], ONE, x1)));
  }

  lemma PhaseAt(n: nat, u: Complex, s: Branch, t: Branch, b: Basis)
    requires SameUpToPhase(n, u, s, t) && |b| == n
    ensures t.psi(b) == u.Times(s.psi(b))
  {
    hide Complex.Times;
  }

  lemma UnfaithfulU3(c: Call)
    requires c.Plain? && WellFormed(c) && c.op == OpU3 && !Faithful(c)
    ensures c.adj && |c.params| == 3 && |c.qubits| == 1
    ensures !SelfAdjointU3(c.params[0], c.params[1].Turn().Times(c.params[2].Turn()))
    ensures c.params[1].Unit() && c.params[2].Unit()
  {
    hide SelfAdjointU3, Angle.Unit, Angle.Turn;
  }

  /** The amplitudes both sides reach: equal where the qubit is zero, and there (c, 0). */
  lemma U3Outcomes(w: Roots, c: Call, x1: Complex, b: Basis, theta: Angle, p: Complex, l: Complex)
    requires c.Plain? && WellFormed(c) && c.op == OpU3 && c.adj && c.qubits[0] < |b|
    requires theta == c.params[0] && p == c.params[1].Turn() && l == c.params[2].Turn()
    requires x1 == if theta.s != 0.0 then ZERO else ONE
    ensures
      var br, bit := Ask(PerQubit(c.qubits[0], ONE, x1)), Bit(b, c.qubits[0]);
      && DoCall(w, c, br).psi(b) == U3Meant(theta, p, l, bit)
      && Run(w, Lower(w, c).value, br).psi(b) == U3Emitted(theta, p, l, bit)
  {
    hide U3Matrix, Matrix.Apply, Matrix.Dagger, DoCall, Run, Lower, Matrix.Dagger;
    hide Complex.Times, Complex.Scale, Complex.Conj, Angle.Turn, Angle.Unit, Ask, PerQubit;
    var m := U3Matrix(theta, c.params[1], c.params[2]);
    U3Outcome(w, c, x1, b);
    U3Shape(theta, c.params[1], c.params[2]);
    U3Sides(theta, p, l, m, Bit(b, c.qubits[0]), x1);
  }

  function U3Emitted(theta: Angle, p: Complex, l: Complex, bit: bool): Complex {
    if !bit then Complex(theta.c, 0.0)
    else if theta.s != 0.0 then p.Scale(theta.s) else p.Times(l).Scale(theta.c)
  }

  function U3Meant(theta: Angle, p: Complex, l: Complex, bit: bool): Complex {
    if !bit then Complex(theta.c, 0.0)
    else if theta.s != 0.0 then l.Scale(-theta.s).Conj() else p.Times(l).Scale(theta.c).Conj()
  }

  lemma U3Sides(theta: Angle, p: Complex, l: Complex, m: Matrix, bit: bool, x1: Complex)
    requires m == Matrix(Complex(theta.c, 0.0), l.Scale(-theta.s), p.Scale(theta.s), p.Times(l).Scale(theta.c))
    requires x1 == if theta.s != 0.0 then ZERO else ONE
    ensures m.Apply(bit, ONE, x1) == U3Emitted(theta, p, l, bit)
    ensures m.Dagger().Apply(bit, ONE, x1) == U3Meant(theta, p, l, bit)
  {
    hide Matrix.Apply, Matrix.Dagger, Complex.Times, Complex.Scale, Complex.Conj;
    U3Entries(theta, p, l, p.Times(l), m, bit);
  }

  lemma U3Clash(theta: Angle, p: Complex, l: Complex, u: Complex)
    requires p.Norm2() == 1.0 && l.Norm2() == 1.0 && p.Times(l).Norm2() == 1.0
    requires !SelfAdjointU3(theta, p.Times(l))
    ensures !(U3Emitted(theta, p, l, false) == u.Times(U3Meant(theta, p, l, false))
              && U3Emitted(theta, p, l, true) == u.Times(U3Meant(theta, p, l, true)))
  {
    hide Complex.Times, Complex.Scale, Complex.Conj, Complex.Norm2;
    if theta.s != 0.0 {
      ColumnsDiffer(theta, p, l, u);
    } else {
      DiagonalsDiffer(theta, p.Times(l), u);
    }
  }

  /** Dropping the adjoint of u3 changes some state whenever u3 is not its own adjoint. */
  lemma U3AdjointFails(w: Roots, n: nat, c: Call) returns (br: Branch)
    requires c.Plain? && WellFormed(c) && Covers(n, c) && c.op == OpU3 && !Faithful(c)
    ensures Lower(w, c).Ok? && !EqualUpToPhase(n, DoCall(w, c, br), Run(w, Lower(w, c).value, br))
  {
    UnfaithfulU3(c);
    var q := c.qubits[0];
    assert Lower(w, c).Ok? && q < n;
    hide Matrix.Apply, DoCall, Run, Faithful, SelfAdjointU3, Lower, WellFormed, Covers, SameUpToPhase;
    hide Complex.Times, Complex.Scale, Complex.Conj, Complex.Norm2, Angle.Turn, Angle.Unit;
    hide Ask, PerQubit, U3Meant, U3Emitted;
    var x1 := if c.params[0].s != 0.0 then ZERO else ONE;
    br := Ask(PerQubit(q, ONE, x1));
    var s, t := DoCall(w, c, br), Run(w, Lower(w, c).value, br);
    var b0 := AllBits(n, false);
    var b1 := b0[q := true];
    U3Outcomes(w, c, x1, b0, c.params[0], c.params[1].Turn(), c.params[2].Turn());
    U3Outcomes(w, c, x1, b1, c.params[0], c.params[1].Turn(), c.params[2].Turn());
    UnitTurns(c.params[1], c.params[2]);
    forall u: Complex ensures !SameUpToPhase(n, u, s, t) {
      U3Clash(c.params[0], c.params[1].Turn(), c.params[2].Turn(), u);
      if SameUpToPhase(n, u, s, t) {
        PhaseAt(n, u, s, t, b0);
        PhaseAt(n, u, s, t, b1);
      }
    }
  }

  lemma U3Shape(theta: Angle, phi: Angle, lambda: Angle)
    ensures U3Matrix(theta, phi, lambda) == Matrix(Complex(theta.c, 0.0), lambda.Turn().Scale(-theta.s),
      phi.Turn().Scale(theta.s), phi.Turn().Times(lambda.Turn()).Scale(theta.c))
  {
    hide Complex.Times, Complex.Scale, Angle.Turn;
  }

  lemma UnitTurns(a: Angle, b: Angle)
    requires a.Unit() && b.Unit()
    ensures a.Turn().Norm2() == 1.0 && b.Turn().Norm2() == 1.0 && a.Turn().Times(b.Turn()).Norm2() == 1.0
  {
    TurnIsUnit(a);
    TurnIsUnit(b);
    hide Angle.Turn, Complex.Norm2, Complex.Times;
    UnitTimesUnit(a.Turn(), b.Turn());
  }

  /** The controlled adjoint of sdg and tdg comes out as the controlled sdg and tdg, which
      is never the same. */
  lemma ControlledAdjointFails(w: Roots, n: nat, c: Call) returns (br: Branch)
    requires w.Valid() && c.Invoke? && WellFormed(c) && Covers(n, c) && Lower(w, c).Ok? && !Faithful(c)
    ensures !EqualUpToPhase(n, DoCall(w, c, br), Run(w, Lower(w, c).value, br))
  {
    hide DoCall, Run, Lower, WellFormed, Complex.Times, Roots.Valid, Covers, SameUpToPhase, Faithful;
    var d := if c.op == OpSdg then I else Complex(w.r, w.r);
    br := Ask((b: Basis) => ONE);
    var b0, b1 := AllBits(n, false), AllBits(n, true);
    var s, t := DoCall(w, c, br), Run(w, Lower(w, c).value, br);
    AdjointOutcome(w, n, c, d, br, b0, b1);
    HalfSquare(w);
    RootNonzero(w.r);
    forall u: Complex ensures !SameUpToPhase(n, u, s, t) {
      if SameUpToPhase(n, u, s, t) {
        PhaseAt(n, u, s, t, b0);
        PhaseAt(n, u, s, t, b1);
        OneTimes(u);
        OneTimes(d);
        TimesCommutes(u, ONE);
      }
    }
  }

  lemma RootNonzero(r: real)
    requires 2.0 * r * r == 1.0
    ensures r != 0.0
  {
  }

  lemma AdjointLine(w: Roots, n: nat, c: Call) returns (g: Gate)
    requires c.Invoke? && WellFormed(c) && Covers(n, c) && Lower(w, c).Ok? && !Faithful(c)
    ensures |c.targets| == 1 && |c.ctrls| == 1 && c.ctrls[0] < n && c.params == []
    ensures g == CU1((if c.op == OpSdg then w.HalfPi() else w.QuarterPi()).Neg())
    ensures Lower(w, c).value == [GateLine(g, c.ctrls, c.targets[0])]
  {
    hide Roots.HalfPi, Roots.QuarterPi, Angle.Neg;
    g := Lower(w, c).value[0].gate;
  }

  lemma AdjointMatrices(w: Roots, op: Op, g: Gate, d: Complex)
    requires w.Valid() && op in {OpSdg, OpTdg}
    requires g == CU1((if op == OpSdg then w.HalfPi() else w.QuarterPi()).Neg())
    requires d == if op == OpSdg then I else Complex(w.r, w.r)
    ensures TargetMatrix(w, g) == Matrix(ONE, ZERO, ZERO, d.Conj())
    ensures QirMatrix(w, op, []).Dagger() == Matrix(ONE, ZERO, ZERO, d)
  {
    hide Angle.Turn, Roots.Valid;
    TurnOfRoots(w);
  }

  lemma AdjointOutcome(w: Roots, n: nat, c: Call, d: Complex, br: Branch, b0: Basis, b1: Basis)
    requires w.Valid() && c.Invoke? && WellFormed(c) && Covers(n, c) && Lower(w, c).Ok? && !Faithful(c)
    requires d == if c.op == OpSdg then I else Complex(w.r, w.r)
    requires br == Ask((b: Basis) => ONE) && b0 == AllBits(n, false) && b1 == AllBits(n, true)
    ensures
      var s, t := DoCall(w, c, br), Run(w, Lower(w, c).value, br);
      s.psi(b0) == ONE && t.psi(b0) == ONE && s.psi(b1) == d && t.psi(b1) == d.Conj()
  {
    hide TargetMatrix, QirMatrix, Matrix.Dagger, Angle.Turn, Roots.Valid;
    hide Matrix.Apply, Lower, Roots.HalfPi, Roots.QuarterPi;
    hide OnQubit, Controlled, Run, Covers, AllSet;
    var g := AdjointLine(w, n, c);
    var t := c.targets[0];
    assert c.adj && c.op in {OpSdg, OpTdg} && t < n by { TargetBelow(n, c); }
    RunOne(w, GateLine(g, c.ctrls, t), br);
    AdjointMatrices(w, c.op, g, d);
    assert c.ctrls == [c.ctrls[0]];
    OnOnes(n, c.ctrls[0], t, d, br.psi);
    OnOnes(n, c.ctrls[0], t, d.Conj(), br.psi);
  }

  lemma TargetBelow(n: nat, c: Call)
    requires c.Invoke? && WellFormed(c) && Covers(n, c)
    ensures c.targets[0] < n
  {
  }

  lemma OnOnes(n: nat, c: Qubit, t: Qubit, d: Complex, psi: State)
    requires c < n && t < n && psi == Ask((b: Basis) => ONE).psi
    ensures
      var acted := OnQubit(Matrix(ONE, ZERO, ZERO, d), t, psi);
      && Controlled([c], acted, psi)(AllBits(n, false)) == ONE
      && Controlled([c], acted, psi)(AllBits(n, true)) == d
  {
    hide Matrix.Apply;
    var ones := AllBits(n, true);
    assert Bit(ones, t) && Bit(ones, c);
    assert OnQubit(Matrix(ONE, ZERO, ZERO, d), t, psi)(ones) == Matrix(ONE, ZERO, ZERO, d).Apply(true, ONE, ONE);
    AllSetOne(AllBits(n, false), c);
    AllSetOne(AllBits(n, true), c);
    DiagonalOnOnes(d);
  }

  lemma DiagonalOnOnes(d: Complex)
    ensures Matrix(ONE, ZERO, ZERO, d).Apply(true, ONE, ONE) == d
  {
  }

  // ---------- operations that are passed over ----------

  lemma ScaleNonzero(p: Complex, s: real)
    requires p.Norm2() == 1.0 && s != 0.0
    ensures p.Scale(s) != ZERO
  {
    if p.Scale(s) == ZERO {
      CancelReal(p.re, 0.0, s);
      CancelReal(p.im, 0.0, s);
    }
  }

  lemma ConjNonzero(x: Complex)
    ensures x.Conj() == ZERO <==> x == ZERO
    ensures x.Conj().Conj() == x
  {
  }

  /** Not the identity, and without controls not a multiple of it. */
  predicate Something(m: Matrix, controlled: bool) {
    m != IDENTITY && (!controlled ==> !Diagonal(m) || m.a != m.d)
  }

  lemma U3Something(theta: Angle, p: Complex, l: Complex, m: Matrix, controlled: bool)
    requires theta.Unit() && p.Norm2() == 1.0
    requires m == Matrix(Complex(theta.c, 0.0), l.Scale(-theta.s), p.Scale(theta.s), p.Times(l).Scale(theta.c))
    requires theta.s != 0.0 || (controlled && theta.c != 1.0) || p.Times(l) != ONE
    ensures Something(m, controlled)
  {
    hide Complex.Times, Complex.Norm2, Complex.Scale;
    if theta.s != 0.0 {
      ScaleNonzero(p, theta.s);
    } else if p.Times(l) != ONE {
      assert theta.c != 0.0;
      if m.a == m.d {
        UnitScale(theta.c);
        CancelScale(p.Times(l), ONE, theta.c);
      }
    }
  }

  lemma U3Differs(w: Roots, params: seq<Angle>, controlled: bool)
    requires |params| == 3 && !DoesNothing(OpU3, params, controlled)
    requires params[0].Unit() && params[1].Unit()
    ensures Something(QirMatrix(w, OpU3, params), controlled)
  {
    TurnIsUnit(params[1]);
    U3Shape(params[0], params[1], params[2]);
    hide Angle.Turn, Complex.Times, Complex.Scale, Complex.Norm2, Angle.Unit, U3Matrix, Something;
    U3Something(params[0], params[1].Turn(), params[2].Turn(), U3Matrix(params[0], params[1], params[2]), controlled);
  }

  lemma FixedSomething(w: Roots, op: Op)
    requires w.Valid() && op in {OpH, OpX, OpY, OpZ, OpS, OpT, OpSdg, OpTdg}
    ensures var m := QirMatrix(w, op, []); m.b != ZERO || m.a != m.d
  {
    hide Angle.Turn, Roots.Valid;
    HalfSquare(w);
    RootNonzero(w.r);
  }

  lemma RotationSomething(w: Roots, op: Op, a: Angle, controlled: bool)
    requires op in {OpRx, OpRy, OpRz, OpR1} && !DoesNothing(op, [a], controlled)
    ensures Something(QirMatrix(w, op, [a]), controlled)
  {
    hide Angle.Turn, U3Matrix, Complex.Times, Complex.Scale, Roots.HalfPi, Roots.QuarterPi;
  }

  lemma DaggerKeeps(m: Matrix)
    ensures Diagonal(m.Dagger()) <==> Diagonal(m)
    ensures m.Dagger().a == m.Dagger().d <==> m.a == m.d
    ensures m.Dagger() == IDENTITY <==> m == IDENTITY
  {
    ConjInjective(m.a, m.d);
    ConjNonzero(m.b);
    ConjNonzero(m.c);
    RealIsOwnConj(1.0);
    ConjInjective(m.a, ONE);
    ConjInjective(m.d, ONE);
    hide Complex.Conj;
  }

  lemma ConjInjective(x: Complex, y: Complex)
    ensures x.Conj() == y.Conj() <==> x == y
  {
  }

  /** So is the matrix of every operation that does something, and of its adjoint. */
  lemma SomethingMatrix(w: Roots, op: Op, adj: bool, params: seq<Angle>, controlled: bool)
    requires w.Valid() && IsOneQubit(op) && |params| == Params(op) && !DoesNothing(op, params, controlled)
    requires forall i :: 0 <= i < |params| ==> params[i].Unit()
    ensures Something(MeantMatrix(w, op, adj, params), controlled)
  {
    hide Angle.Turn, Roots.Valid, Complex.Times, Angle.Unit, QirMatrix, Matrix.Dagger;
    var m := QirMatrix(w, op, params);
    if IsRotation(op) {
      assert params == [params[0]];
      RotationSomething(w, op, params[0], controlled);
    } else if op == OpU3 {
      U3Differs(w, params, controlled);
    } else {
      assert params == [];
      FixedSomething(w, op);
    }
    DaggerKeeps(m);
  }

  lemma RealIsOwnConj(x: real)
    ensures Complex(x, 0.0).Conj() == Complex(x, 0.0)
  {
    assert -0.0 == 0.0;
  }

  lemma PassedOver(w: Roots, n: nat, c: Call, x0: Complex, x1: Complex, b: Basis)
    requires c.Dropped? && WellFormed(c) && Covers(n, c) && IsOneQubit(c.op) && |b| == n
    ensures var q, br := c.targets[0], Ask(PerQubit(c.targets[0], x0, x1));
            DoCall(w, c, br).psi(b) ==
            if AllSet(b, c.ctrls) then MeantMatrix(w, c.op, c.adj, c.params).Apply(Bit(b, q), x0, x1) else br.psi(b)
  {
    hide QirMatrix, Matrix.Apply, Matrix.Dagger;
    var q := c.targets[0];
    var psi := PerQubit(q, x0, x1);
    assert q < |b|;
    assert psi(Put(b, q, false)) == x0 && psi(Put(b, q, true)) == x1;
  }

  lemma UnitKeepsSize(u: Complex, x: Complex, y: Complex)
    requires u.Norm2() == 1.0 && y == u.Times(x)
    ensures y == ZERO <==> x == ZERO
  {
    NormOfProduct(u, x);
    NormSign(x);
    NormSign(y);
    hide Complex.Times;
  }

  lemma UnitCancels(u: Complex, x: Complex, y: Complex)
    requires u.Norm2() == 1.0 && u.Times(x) == u.Times(y)
    ensures x == y
  {
    var z := x.Plus(y.Negate());
    TimesDistributes(u, x, y.Negate());
    assert u.Times(y.Negate()) == u.Times(y).Negate();
    assert u.Times(z) == ZERO;
    UnitKeepsSize(u, z, ZERO);
  }

  lemma FitsCall(n: nat, c: Call)
    requires c.Dropped? && WellFormed(c) && Covers(n, c)
    ensures |c.targets| == 1 ==> Placed(c.ctrls, c.targets[0], n)
  {
    assert forall i :: 0 <= i < |c.ctrls| ==> (c.ctrls + c.targets)[i] == c.ctrls[i];
    assert |c.targets| == 1 ==> (c.ctrls + c.targets)[|c.ctrls|] == c.targets[0];
  }

  function UnitAt(col: bool, row: bool): Complex {
    if row == col then ONE else ZERO
  }

  /** With controls, the part of the state where they are clear pins the phase. */
  lemma ControlledDropFails(w: Roots, n: nat, c: Call) returns (br: Branch)
    requires w.Valid() && c.Dropped? && WellFormed(c) && Covers(n, c) && IsOneQubit(c.op)
    requires c.ctrls != [] && !Faithful(c)
    ensures !EqualUpToPhase(n, DoCall(w, c, br), br)
  {
    hide DoCall, QirMatrix, Complex.Times, Roots.Valid, SameUpToPhase, Matrix.Apply, Matrix.Dagger, Ones;
    var m, q := MeantMatrix(w, c.op, c.adj, c.params), c.targets[0];
    SomethingMatrix(w, c.op, c.adj, c.params, true);
    FitsCall(n, c);
    var row, col := Differing(m);
    br := Ask(PerQubit(q, UnitAt(col, false), UnitAt(col, true)));
    var off, b := Put(AllBits(n, false), q, col), Ones(n, q, row);
    OnesAre(n, q, row);
    ControlsSet(c.ctrls, q, n, row);
    assert c.ctrls[0] in c.ctrls && !Bit(off, c.ctrls[0]) && !AllSet(off, c.ctrls);
    PassedOver(w, n, c, UnitAt(col, false), UnitAt(col, true), off);
    PassedOver(w, n, c, UnitAt(col, false), UnitAt(col, true), b);
    UnitApplied(m, row);
    forall u: Complex ensures !SameUpToPhase(n, u, DoCall(w, c, br), br) {
      if SameUpToPhase(n, u, DoCall(w, c, br), br) {
        PhaseAt(n, u, DoCall(w, c, br), br, off);
        PhaseAt(n, u, DoCall(w, c, br), br, b);
        OneTimes(u);
        TimesCommutes(u, ONE);
        OneTimes(Entry(m, row, col));
      }
    }
  }

  /** Without controls, an entry off the diagonal or two different ones on it show. */
  lemma FreeDropFails(w: Roots, n: nat, c: Call) returns (br: Branch)
    requires w.Valid() && c.Dropped? && WellFormed(c) && Covers(n, c) && IsOneQubit(c.op)
    requires c.ctrls == [] && !Faithful(c)
    ensures !EqualUpToPhase(n, DoCall(w, c, br), br)
  {
    hide DoCall, QirMatrix, Complex.Times, Roots.Valid, SameUpToPhase, Matrix.Apply, Matrix.Dagger, Ones, Complex.Norm2;
    var m, q := MeantMatrix(w, c.op, c.adj, c.params), c.targets[0];
    SomethingMatrix(w, c.op, c.adj, c.params, false);
    FitsCall(n, c);
    var b0, b1 := Ones(n, q, false), Ones(n, q, true);
    OnesAre(n, q, false);
    OnesAre(n, q, true);
    if !Diagonal(m) {
      var col := m.b != ZERO;
      var b := if col then b0 else b1;
      br := Ask(PerQubit(q, UnitAt(col, false), UnitAt(col, true)));
      PassedOver(w, n, c, UnitAt(col, false), UnitAt(col, true), b);
      UnitApplied(m, !col);
      forall u: Complex | u.Norm2() == 1.0 ensures !SameUpToPhase(n, u, DoCall(w, c, br), br) {
        if SameUpToPhase(n, u, DoCall(w, c, br), br) {
          PhaseAt(n, u, DoCall(w, c, br), br, b);
          UnitKeepsSize(u, Entry(m, !col, col), ZERO);
        }
      }
    } else {
      br := Ask(PerQubit(q, ONE, ONE));
      PassedOver(w, n, c, ONE, ONE, b0);
      PassedOver(w, n, c, ONE, ONE, b1);
      DiagonalOnes(m);
      forall u: Complex | u.Norm2() == 1.0 ensures !SameUpToPhase(n, u, DoCall(w, c, br), br) {
        if SameUpToPhase(n, u, DoCall(w, c, br), br) {
          PhaseAt(n, u, DoCall(w, c, br), br, b0);
          PhaseAt(n, u, DoCall(w, c, br), br, b1);
          UnitCancels(u, m.a, m.d);
        }
      }
    }
  }

  lemma DiagonalOnes(m: Matrix)
    requires Diagonal(m)
    ensures m.Apply(false, ONE, ONE) == m.a && m.Apply(true, ONE, ONE) == m.d
  {
  }

  lemma TwoTargets(n: nat, c: Call)
    requires c.Dropped? && WellFormed(c) && Covers(n, c) && |c.targets| == 2
    ensures var p, q := c.targets[0], c.targets[1];
            p != q && p < n && q < n && Placed(c.ctrls, p, n) && Placed(c.ctrls, q, n)
  {
    var all := c.ctrls + c.targets;
    assert all[|c.ctrls|] == c.targets[0] && all[|c.ctrls| + 1] == c.targets[1];
    assert forall i :: 0 <= i < |c.ctrls| ==> all[i] == c.ctrls[i];
  }

  lemma SwapShows(w: Roots, n: nat, c: Call)
    requires c.Dropped? && WellFormed(c) && Covers(n, c) && c.op == OpSwap
    ensures var p := c.targets[0];
            p < n && DoCall(w, c, Ask(PerQubit(p, ZERO, ONE))).psi(Ones(n, p, false)) == ONE
  {
    hide Ones;
    var p, q := c.targets[0], c.targets[1];
    TwoTargets(n, c);
    OnesAre(n, p, false);
    ControlsSet(c.ctrls, p, n, false);
    var psi, b := PerQubit(p, ZERO, ONE), Ones(n, p, false);
    assert Bit(b, q) && q < n && |b| == n;
    var b' := Put(Put(b, p, Bit(b, q)), q, Bit(b, p));
    assert Bit(b', p);
    assert Exchange(p, q, psi)(b) == psi(b') == ONE;
  }

  lemma CnotShows(w: Roots, n: nat, c: Call)
    requires c.Dropped? && WellFormed(c) && Covers(n, c) && c.op == OpCnot
    ensures var q := c.targets[1];
            q < n && DoCall(w, c, Ask(PerQubit(q, ONE, ZERO))).psi(Ones(n, q, true)) == ONE
  {
    hide Ones, QirMatrix, Matrix.Apply;
    var p, q := c.targets[0], c.targets[1];
    var psi, b := PerQubit(q, ONE, ZERO), Ones(n, q, true);
    TwoTargets(n, c);
    OnesAre(n, q, true);
    OnesAre(n, q, false);
    ControlsSet(c.ctrls, q, n, true);
    AllSetOne(b, p);
    XFlips(w);
    assert psi(Put(b, q, false)) == ONE && psi(Put(b, q, true)) == ZERO;
  }

  lemma XFlips(w: Roots)
    ensures QirMatrix(w, OpX, []).Apply(true, ONE, ZERO) == ONE
  {
  }

  lemma CzShows(w: Roots, n: nat, c: Call, v: bool)
    requires c.Dropped? && WellFormed(c) && Covers(n, c) && c.op == OpCz
    ensures var p := c.targets[0];
            p < n && DoCall(w, c, Ask(PerQubit(p, ONE, ONE))).psi(Ones(n, p, v)) == if v then ONE.Negate() else ONE
  {
    hide Ones, QirMatrix, Matrix.Apply, Complex.Negate;
    var p, q := c.targets[0], c.targets[1];
    var psi, b := PerQubit(p, ONE, ONE), Ones(n, p, v);
    TwoTargets(n, c);
    OnesAre(n, p, v);
    ControlsSet(c.ctrls, p, n, v);
    AllSetOne(b, p);
    ZOnes(w);
    assert psi(Put(b, q, false)) == ONE && psi(Put(b, q, true)) == ONE && psi(b) == ONE;
  }

  lemma ZOnes(w: Roots)
    ensures QirMatrix(w, OpZ, []).Apply(true, ONE, ONE) == ONE.Negate()
  {
  }

  lemma PairDropFails(w: Roots, n: nat, c: Call) returns (br: Branch)
    requires c.Dropped? && WellFormed(c) && Covers(n, c) && c.op in {OpSwap, OpCnot}
    ensures !EqualUpToPhase(n, DoCall(w, c, br), br)
  {
    hide Complex.Times, SameUpToPhase, Ones, Complex.Norm2, DoCall;
    var t, v := if c.op == OpSwap then c.targets[0] else c.targets[1], c.op == OpCnot;
    if v {
      CnotShows(w, n, c);
    } else {
      SwapShows(w, n, c);
    }
    var b := Ones(n, t, v);
    OnesAre(n, t, v);
    br := Ask(PerQubit(t, if v then ONE else ZERO, if v then ZERO else ONE));
    forall u: Complex | u.Norm2() == 1.0 ensures !SameUpToPhase(n, u, DoCall(w, c, br), br) {
      if SameUpToPhase(n, u, DoCall(w, c, br), br) {
        PhaseAt(n, u, DoCall(w, c, br), br, b);
        UnitKeepsSize(u, ONE, ZERO);
      }
    }
  }

  lemma CzDropFails(w: Roots, n: nat, c: Call) returns (br: Branch)
    requires c.Dropped? && WellFormed(c) && Covers(n, c) && c.op == OpCz
    ensures !EqualUpToPhase(n, DoCall(w, c, br), br)
  {
    hide Complex.Times, SameUpToPhase, Ones, DoCall, Complex.Norm2;
    var p := c.targets[0];
    CzShows(w, n, c, false);
    CzShows(w, n, c, true);
    OnesAre(n, p, false);
    OnesAre(n, p, true);
    br := Ask(PerQubit(p, ONE, ONE));
    forall u: Complex ensures !SameUpToPhase(n, u, DoCall(w, c, br), br) {
      if SameUpToPhase(n, u, DoCall(w, c, br), br) {
        PhaseAt(n, u, DoCall(w, c, br), br, Ones(n, p, false));
        PhaseAt(n, u, DoCall(w, c, br), br, Ones(n, p, true));
        OneTimes(u);
        TimesCommutes(u, ONE);
        OneTimes(ONE.Negate());
      }
    }
  }

  /** An operation that is passed over although it does something: there is a branch on which
      no global phase makes up for it, be it the outcome that nobody reads. */
  lemma DropFails(w: Roots, n: nat, c: Call) returns (br: Branch)
    requires w.Valid() && c.Dropped? && WellFormed(c) && Covers(n, c) && !Faithful(c)
    ensures Lower(w, c) == Ok([]) && !EqualUpToPhase(n, DoCall(w, c, br), Run(w, [], br))
  {
    if c.op in {OpMz, OpReset} {
      br := Branch((b: Basis) => ONE, map[], [true], [true]);
      assert DoCall(w, c, br).measured != br.measured || DoCall(w, c, br).cleared != br.cleared;
    } else if c.op == OpCz {
      br := CzDropFails(w, n, c);
    } else if c.op in {OpSwap, OpCnot} {
      br := PairDropFails(w, n, c);
    } else if c.ctrls == [] {
      br := FreeDropFails(w, n, c);
    } else {
      br := ControlledDropFails(w, n, c);
    }
  }

  /** A supported call keeps its meaning on every branch exactly when it is faithful. */
  lemma FaithfulExactly(w: Roots, n: nat, c: Call)
    requires w.Valid() && WellFormed(c) && Covers(n, c) && Supported(c)
    ensures Lower(w, c).Ok?
    ensures Faithful(c) <==>
      forall br: Branch :: EqualUpToPhase(n, DoCall(w, c, br), Run(w, Lower(w, c).value, br))
  {
    hide Roots.Valid, Lower, DoCall, Run, Covers, SameUpToPhase;
    WellFormedSupplied(c);
    AcceptedExactly(w, c);
    if Faithful(c) {
      forall br: Branch ensures EqualUpToPhase(n, DoCall(w, c, br), Run(w, Lower(w, c).value, br)) {
        CallAgrees(w, n, c, br);
        PhaseIsUnit(c);
      }
    } else if c.Plain? {
      var br := U3AdjointFails(w, n, c);
    } else if c.Dropped? {
      var br := DropFails(w, n, c);
    } else {
      var br := ControlledAdjointFails(w, n, c);
    }
  }
}
