/** Single-qubit entanglement entropies of a state vector (QSCore.cpp), over exact reals.
    The square root and the base-two logarithm are parameters; the square root is known by
    its defining property, and the logarithm, where its values matter, by its laws. */
module Entanglement {
  import opened Complex

  // ---------- pairs of amplitudes that differ in one qubit ----------

  datatype Pair = Pair(x: Complex, y: Complex)

  function SumX(ps: seq<Pair>): real {
    if ps == [] then 0.0 else SumX(ps[..|ps| - 1]) + ps[|ps| - 1].x.Norm2()
  }

  function SumY(ps: seq<Pair>): real {
    if ps == [] then 0.0 else SumY(ps[..|ps| - 1]) + ps[|ps| - 1].y.Norm2()
  }

  function SumXY(ps: seq<Pair>): Complex {
    if ps == [] then ZERO else SumXY(ps[..|ps| - 1]).Plus(ps[|ps| - 1].x.Times(ps[|ps| - 1].y.Conj()))
  }

  // ---------- the Lagrange identity ----------

  function Minor(p: Pair, q: Pair): Complex {
    p.x.Times(q.y).Plus(q.x.Times(p.y).Negate())
  }

  function MinorsAgainst(ps: seq<Pair>, q: Pair): real {
    if ps == [] then 0.0 else MinorsAgainst(ps[..|ps| - 1], q) + Minor(ps[|ps| - 1], q).Norm2()
  }

  /** The sum of the squared moduli of all two by two minors of the two rows. */
  function Minors(ps: seq<Pair>): real {
    if ps == [] then 0.0 else Minors(ps[..|ps| - 1]) + MinorsAgainst(ps[..|ps| - 1], ps[|ps| - 1])
  }

  lemma NormOfDifference(u: Complex, v: Complex)
    ensures u.Plus(v.Negate()).Norm2() == u.Norm2() + v.Norm2() - 2.0 * u.Times(v.Conj()).re
  {
  }

  lemma NormOfSum(u: Complex, v: Complex)
    ensures u.Plus(v).Norm2() == u.Norm2() + v.Norm2() + 2.0 * u.Times(v.Conj()).re
  {
  }

  lemma ConjOfProduct(u: Complex, v: Complex)
    ensures u.Times(v).Conj() == u.Conj().Times(v.Conj())
    ensures u.Conj().Conj() == u && u.Conj().Norm2() == u.Norm2()
  {
  }

  lemma Regroup(a: Complex, b: Complex, c: Complex, d: Complex)
    ensures a.Times(b).Times(c.Times(d)) == a.Times(d).Times(b.Times(c))
  {
    hide Complex.Times;
    TimesAssociative(a, b, c.Times(d));
    TimesAssociative(b, c, d);
    TimesCommutes(b.Times(c), d);
    TimesAssociative(a, d, b.Times(c));
  }

  /** Multiplication under a name, so that proofs can treat products as atoms. */
  function Mul(a: real, b: real): real {
    a * b
  }

  lemma MulDistributes(s: real, a: real, b: real, c: real)
    requires s == a + b
    ensures Mul(s, c) == Mul(a, c) + Mul(b, c)
    ensures Mul(c, s) == Mul(c, a) + Mul(c, b)
  {
  }

  lemma MulZero(c: real)
    ensures Mul(0.0, c) == 0.0 && Mul(c, 0.0) == 0.0
  {
  }

  /** One minor: |a y - x b|^2 in terms of the entries and of a conj(b). */
  lemma MinorNorm(p: Pair, q: Pair)
    ensures Minor(p, q).Norm2() ==
      Mul(p.x.Norm2(), q.y.Norm2()) + Mul(q.x.Norm2(), p.y.Norm2())
      - 2.0 * p.x.Times(p.y.Conj()).Times(q.y.Times(q.x.Conj())).re
  {
    hide Complex.Times, Complex.Norm2, Complex.Conj, Complex.Plus, Complex.Negate;
    var u, v := p.x.Times(q.y), q.x.Times(p.y);
    NormOfDifference(u, v);
    NormOfProduct(p.x, q.y);
    NormOfProduct(q.x, p.y);
    ConjOfProduct(q.x, p.y);
    Regroup(p.x, q.y, q.x.Conj(), p.y.Conj());
  }

  lemma AgainstSum(ps: seq<Pair>, q: Pair)
    ensures MinorsAgainst(ps, q) ==
      Mul(SumX(ps), q.y.Norm2()) + Mul(q.x.Norm2(), SumY(ps)) - 2.0 * SumXY(ps).Times(q.y.Times(q.x.Conj())).re
  {
    var z := q.y.Times(q.x.Conj());
    if ps == [] {
      MulZero(q.y.Norm2());
      MulZero(q.x.Norm2());
      assert ZERO.Times(z) == ZERO;
    } else {
      hide Complex.Times, Complex.Norm2, Complex.Conj, Complex.Plus, Mul;
      var init, p := ps[..|ps| - 1], ps[|ps| - 1];
      AgainstSum(init, q);
      MinorNorm(p, q);
      RealPartAdds(SumXY(init), p.x.Times(p.y.Conj()), z);
      MulDistributes(SumX(ps), SumX(init), p.x.Norm2(), q.y.Norm2());
      MulDistributes(SumY(ps), SumY(init), p.y.Norm2(), q.x.Norm2());
    }
  }

  lemma RealPartAdds(u: Complex, v: Complex, z: Complex)
    ensures u.Plus(v).Times(z).re == u.Times(z).re + v.Times(z).re
  {
  }

  lemma NormOfTerm(p: Pair, z: Complex)
    ensures
      var w := p.x.Times(p.y.Conj());
      z.Plus(w).Norm2() == z.Norm2() + Mul(p.x.Norm2(), p.y.Norm2()) + 2.0 * z.Times(p.y.Times(p.x.Conj())).re
  {
    hide Complex.Times, Complex.Norm2, Complex.Conj, Complex.Plus;
    var w := p.x.Times(p.y.Conj());
    NormOfSum(z, w);
    NormOfProduct(p.x, p.y.Conj());
    ConjOfProduct(p.x, p.y.Conj());
    ConjOfProduct(p.y, p.x);
    TimesCommutes(p.x.Conj(), p.y);
  }

  /** The complex Lagrange identity. */
  lemma {:induction false} Lagrange(ps: seq<Pair>)
    ensures Mul(SumX(ps), SumY(ps)) - SumXY(ps).Norm2() == Minors(ps)
  {
    if ps == [] {
      MulZero(0.0);
      assert ZERO.Norm2() == 0.0;
    } else {
      hide Complex.Times, Complex.Norm2, Complex.Conj, Complex.Plus, Mul;
      var init, p := ps[..|ps| - 1], ps[|ps| - 1];
      Lagrange(init);
      AgainstSum(init, p);
      NormOfTerm(p, SumXY(init));
      MulDistributes(SumX(ps), SumX(init), p.x.Norm2(), SumY(ps));
      MulDistributes(SumY(ps), SumY(init), p.y.Norm2(), SumX(init));
      MulDistributes(SumY(ps), SumY(init), p.y.Norm2(), p.x.Norm2());
    }
  }

  // ---------- when the determinant vanishes ----------

  predicate VanishAgainst(ps: seq<Pair>, q: Pair) {
    forall i :: 0 <= i < |ps| ==> Minor(ps[i], q) == ZERO
  }

  lemma VanishExtends(ps: seq<Pair>, q: Pair)
    requires ps != []
    ensures VanishAgainst(ps, q) <==> VanishAgainst(ps[..|ps| - 1], q) && Minor(ps[|ps| - 1], q) == ZERO
  {
    hide Minor;
    var n := |ps| - 1;
    assert forall i :: 0 <= i < n ==> ps[..n][i] == ps[i];
  }

  lemma MinorSign(p: Pair, q: Pair)
    ensures Minor(p, q).Norm2() >= 0.0
    ensures Minor(p, q).Norm2() == 0.0 <==> Minor(p, q) == ZERO
  {
    hide Minor, Complex.Norm2;
    NormSign(Minor(p, q));
    ZeroNorm();
  }

  lemma AgainstSign(ps: seq<Pair>, q: Pair)
    ensures MinorsAgainst(ps, q) >= 0.0
    ensures MinorsAgainst(ps, q) == 0.0 <==> VanishAgainst(ps, q)
  {
    hide Minor, Complex.Norm2;
    if ps != [] {
      hide VanishAgainst;
      AgainstSign(ps[..|ps| - 1], q);
      MinorSign(ps[|ps| - 1], q);
      VanishExtends(ps, q);
    }
  }

  lemma ZeroNorm()
    ensures ZERO.Norm2() == 0.0
  {
  }

  predicate MinorsVanish(ps: seq<Pair>) {
    forall i, j :: 0 <= i < j < |ps| ==> Minor(ps[i], ps[j]) == ZERO
  }

  lemma MinorsVanishExtends(ps: seq<Pair>)
    requires ps != []
    ensures MinorsVanish(ps) <==>
      MinorsVanish(ps[..|ps| - 1]) && VanishAgainst(ps[..|ps| - 1], ps[|ps| - 1])
  {
    hide Minor;
    var n := |ps| - 1;
    assert forall i :: 0 <= i < n ==> ps[..n][i] == ps[i];
  }

  lemma MinorsSign(ps: seq<Pair>)
    ensures Minors(ps) >= 0.0
    ensures Minors(ps) == 0.0 <==> MinorsVanish(ps)
  {
    if ps != [] {
      hide Minor, MinorsAgainst, MinorsVanish, VanishAgainst;
      var n := |ps| - 1;
      MinorsSign(ps[..n]);
      AgainstSign(ps[..n], ps[n]);
      MinorsVanishExtends(ps);
    }
  }

  predicate Annihilates(a: Complex, b: Complex, ps: seq<Pair>) {
    forall i :: 0 <= i < |ps| ==> ps[i].x.Times(a).Plus(ps[i].y.Times(b)) == ZERO
  }

  /** The two rows of amplitudes are linearly dependent. */
  ghost predicate Dependent(ps: seq<Pair>) {
    exists a, b :: (a != ZERO || b != ZERO) && Annihilates(a, b, ps)
  }

  lemma MinorFlip(p: Pair, q: Pair)
    ensures Minor(p, q) == p.x.Times(q.y).Plus(p.y.Times(q.x.Negate()))
    ensures Minor(q, p) == Minor(p, q).Negate()
    ensures Minor(p, p) == ZERO
  {
  }

  lemma TimesUnit(x: Complex, y: Complex)
    ensures x.Times(ONE).Plus(y.Times(ZERO)) == x
  {
  }

  lemma VanishingIsDependent(ps: seq<Pair>)
    requires MinorsVanish(ps)
    ensures Dependent(ps)
  {
    hide Complex.Times, Complex.Plus;
    if exists k :: 0 <= k < |ps| && ps[k] != Pair(ZERO, ZERO) {
      var k :| 0 <= k < |ps| && ps[k] != Pair(ZERO, ZERO);
      var a, b := ps[k].y, ps[k].x.Negate();
      NegateZero(ps[k].x);
      NegateZero(ZERO);
      forall i | 0 <= i < |ps| ensures ps[i].x.Times(a).Plus(ps[i].y.Times(b)) == ZERO {
        MinorFlip(ps[i], ps[k]);
        hide Minor;
        assert i < k ==> Minor(ps[i], ps[k]) == ZERO;
        assert k < i ==> Minor(ps[k], ps[i]) == ZERO;
        NegateZero(Minor(ps[i], ps[k]));
      }
      assert Annihilates(a, b, ps);
    } else {
      forall i | 0 <= i < |ps| ensures ps[i].x.Times(ONE).Plus(ps[i].y.Times(ZERO)) == ZERO {
        TimesUnit(ps[i].x, ps[i].y);
      }
      assert Annihilates(ONE, ZERO, ps);
    }
  }

  lemma NegateZero(x: Complex)
    ensures x.Negate() == ZERO <==> x == ZERO
  {
    assert x == Complex(x.re, x.im);
  }

  lemma NoZeroDivisors(a: Complex, m: Complex)
    requires a != ZERO && a.Times(m) == ZERO
    ensures m == ZERO
  {
    hide Complex.Times, Complex.Norm2;
    NormOfProduct(a, m);
    NormSign(a);
    NormSign(m);
    ZeroNorm();
    if m != ZERO {
      ProductPositive(a.Norm2(), m.Norm2(), a.Times(m).Norm2());
    }
  }

  lemma PlusTimes(u: Complex, v: Complex, w: Complex)
    ensures u.Plus(v).Times(w) == u.Times(w).Plus(v.Times(w))
    ensures u.Times(v.Plus(w.Negate())) == u.Times(v).Plus(u.Times(w).Negate())
  {
    hide Complex.Times, Complex.Plus, Complex.Negate;
    TimesDistributes(w, u, v);
    TimesCommutes(w, u.Plus(v));
    TimesCommutes(w, u);
    TimesCommutes(w, v);
    TimesDistributes(u, v, w.Negate());
    TimesNegate(u, w);
  }

  lemma TimesNegate(u: Complex, w: Complex)
    ensures u.Times(w.Negate()) == u.Times(w).Negate()
  {
  }

  lemma Rotate(x: Complex, a: Complex, y: Complex)
    ensures x.Times(a).Times(y) == a.Times(x.Times(y))
    ensures x.Times(a).Times(y) == y.Times(a).Times(x)
  {
    hide Complex.Times;
    TimesCommutes(x, a);
    TimesAssociative(a, x, y);
    TimesCommutes(x, y);
    TimesAssociative(a, y, x);
    TimesCommutes(a, y);
  }

  lemma CancelCommon(u: Complex, v: Complex, c: Complex)
    ensures u.Plus(c).Plus(v.Plus(c).Negate()) == u.Plus(v.Negate())
  {
  }

  lemma MinorTimes(p: Pair, q: Pair, a: Complex, b: Complex)
    ensures a.Times(Minor(p, q)) ==
      p.x.Times(a).Plus(p.y.Times(b)).Times(q.y).Plus(q.x.Times(a).Plus(q.y.Times(b)).Times(p.y).Negate())
  {
    hide Complex.Times, Complex.Plus, Complex.Negate;
    PlusTimes(a, p.x.Times(q.y), q.x.Times(p.y));
    PlusTimes(p.x.Times(a), p.y.Times(b), q.y);
    PlusTimes(q.x.Times(a), q.y.Times(b), p.y);
    Rotate(p.x, a, q.y);
    Rotate(q.x, a, p.y);
    Rotate(p.y, b, q.y);
    CancelCommon(a.Times(p.x.Times(q.y)), a.Times(q.x.Times(p.y)), p.y.Times(b).Times(q.y));
  }

  lemma MinorTimesOther(p: Pair, q: Pair, a: Complex, b: Complex)
    ensures b.Times(Minor(p, q)) ==
      q.x.Times(a).Plus(q.y.Times(b)).Times(p.x).Plus(p.x.Times(a).Plus(p.y.Times(b)).Times(q.x).Negate())
  {
    hide Complex.Times, Complex.Plus, Complex.Negate;
    var p', q' := Pair(p.y, p.x), Pair(q.y, q.x);
    MinorTimes(q', p', b, a);
    PlusCommutes(q.x.Times(a), q.y.Times(b));
    PlusCommutes(p.x.Times(a), p.y.Times(b));
    TimesCommutes(q.y, p.x);
    TimesCommutes(p.y, q.x);
  }

  lemma PlusCommutes(u: Complex, v: Complex)
    ensures u.Plus(v) == v.Plus(u)
  {
  }

  lemma DependentVanishes(ps: seq<Pair>)
    requires Dependent(ps)
    ensures MinorsVanish(ps)
  {
    hide Complex.Times, Complex.Plus, Minor;
    var a, b :| (a != ZERO || b != ZERO) && Annihilates(a, b, ps);
    forall i, j | 0 <= i < j < |ps| ensures Minor(ps[i], ps[j]) == ZERO {
      MinorTimes(ps[i], ps[j], a, b);
      MinorTimesOther(ps[i], ps[j], a, b);
      ZeroTimes(ps[i].x);
      ZeroTimes(ps[i].y);
      ZeroTimes(ps[j].x);
      ZeroTimes(ps[j].y);
      NoZeroDivisors(if a != ZERO then a else b, Minor(ps[i], ps[j]));
    }
  }

  lemma ZeroTimes(x: Complex)
    ensures ZERO.Times(x) == ZERO && ZERO.Plus(ZERO.Negate()) == ZERO
  {
  }

  /** The sum of squared minors is zero exactly when the two rows are dependent. */
  lemma MinorsZeroIffDependent(ps: seq<Pair>)
    ensures Minors(ps) == 0.0 <==> Dependent(ps)
  {
    hide Minors, MinorsVanish, Dependent;
    MinorsSign(ps);
    if MinorsVanish(ps) {
      VanishingIsDependent(ps);
    }
    if Dependent(ps) {
      DependentVanishes(ps);
    }
  }

  // ---------- the spectrum of a density matrix ----------

  /** rho00, rho11 and rho01 as the loops leave them. */
  datatype Rho = Rho(r00: real, r11: real, r01: Complex) {
    function Trace(): real {
      r00 + r11
    }
  }

  function RhoOf(ps: seq<Pair>): Rho {
    Rho(SumX(ps), SumY(ps), SumXY(ps))
  }

  /** The determinant after dividing every entry by the trace. */
  function Det(rho: Rho): real
    requires rho.Trace() != 0.0
  {
    var tr := rho.Trace();
    (rho.r00 / tr) * (rho.r11 / tr) - Complex(rho.r01.re / tr, rho.r01.im / tr).Norm2()
  }

  lemma DetScaled(rho: Rho)
    requires rho.Trace() > 0.0
    ensures Mul(Det(rho), Mul(rho.Trace(), rho.Trace())) == Mul(rho.r00, rho.r11) - rho.r01.Norm2()
  {
    ScaledDet(rho.r00, rho.r11, rho.r01.re, rho.r01.im, rho.Trace());
  }

  /** The normalised determinant is the sum of squared minors over the squared trace. */
  lemma DetAsMinors(ps: seq<Pair>)
    requires RhoOf(ps).Trace() > 0.0
    ensures Mul(Det(RhoOf(ps)), Mul(RhoOf(ps).Trace(), RhoOf(ps).Trace())) == Minors(ps)
  {
    hide Mul, Det, Complex.Norm2, Rho.Trace, SumX, SumY, SumXY, Minors;
    Lagrange(ps);
    DetScaled(RhoOf(ps));
  }

  lemma ScaledDet(a: real, b: real, c: real, d: real, t: real)
    requires t > 0.0
    ensures ((a / t) * (b / t) - ((c / t) * (c / t) + (d / t) * (d / t))) * (t * t) == a * b - (c * c + d * d)
  {
    ScaledTerm(a, b, t);
    ScaledTerm(c, c, t);
    ScaledTerm(d, d, t);
  }

  lemma ScaledTerm(a: real, b: real, t: real)
    requires t > 0.0
    ensures (a / t) * (b / t) * (t * t) == a * b
  {
    var x, y := a / t, b / t;
    assert x * t == a && y * t == b;
    assert x * y * (t * t) == (x * t) * (y * t);
  }

  /** The eigenvalues of a density matrix of trace one with the given determinant. */
  predicate Spectrum(l1: real, l2: real, det: real) {
    l1 + l2 == 1.0 && Mul(l1, l2) == det && 0.0 <= l2 <= l1 <= 1.0
  }

  function Clamp(det: real): real {
    var low := if det < 0.25 then det else 0.25;
    if low > 0.0 then low else 0.0
  }

  lemma NegativeProduct(x: real, y: real, p: real)
    requires p == x * y && x < 0.0 && y > 0.0
    ensures p < 0.0
  {
  }

  lemma AtMostQuarter(x: real, y: real, p: real)
    requires x + y == 1.0 && p == x * y
    ensures p <= 0.25
  {
    SquareSign(x - 0.5);
    assert Square(x - 0.5) == 0.25 - x * (1.0 - x);
    assert y == 1.0 - x;
    assert x * y == x * (1.0 - x);
  }

  lemma DetAtMostQuarter(rho: Rho)
    requires rho.Trace() > 0.0
    ensures Det(rho) <= 0.25
  {
    var tr := rho.Trace();
    var x, y := rho.r00 / tr, rho.r11 / tr;
    SumOfQuotients(rho.r00, rho.r11, tr);
    AtMostQuarter(x, y, Mul(x, y));
    NormSign(Complex(rho.r01.re / tr, rho.r01.im / tr));
    hide Complex.Norm2;
  }

  lemma SumOfQuotients(a: real, b: real, t: real)
    requires t > 0.0 && a + b == t
    ensures a / t + b / t == 1.0
  {
    assert a / t + b / t == (a + b) / t;
  }

  /** For the density matrix of a qubit the determinant lies in [0, 1/4], so clamping does
      not change it; and it is zero exactly when the two amplitude vectors are dependent. */
  lemma DeterminantRange(ps: seq<Pair>)
    requires RhoOf(ps).Trace() > 0.0
    ensures 0.0 <= Det(RhoOf(ps)) <= 0.25
    ensures Clamp(Det(RhoOf(ps))) == Det(RhoOf(ps))
    ensures Det(RhoOf(ps)) == 0.0 <==> Dependent(ps)
  {
    hide Det, Minors, Rho.Trace, Dependent, RhoOf, MinorsVanish;
    var rho := RhoOf(ps);
    var d, tr, t2 := Det(rho), rho.Trace(), Mul(rho.Trace(), rho.Trace());
    DetAsMinors(ps);
    DetAtMostQuarter(rho);
    MinorsSign(ps);
    MinorsZeroIffDependent(ps);
    ProductPositive(tr, tr, t2);
    if d < 0.0 {
      NegativeProduct(d, t2, Mul(d, t2));
    } else if d > 0.0 {
      ProductPositive(d, t2, Mul(d, t2));
    } else {
      MulZero(t2);
    }
  }

  lemma EigenvaluesOf(det: real, s: real)
    requires 0.0 <= det <= 0.25 && s >= 0.0 && Square(s) == 1.0 - 4.0 * det
    ensures Spectrum(0.5 * (1.0 + s), 0.5 * (1.0 - s), det)
  {
    assert Mul(0.5 * (1.0 + s), 0.5 * (1.0 - s)) == 0.25 * (1.0 - Square(s));
    if s > 1.0 {
      ProductPositive(s - 1.0, s + 1.0, Square(s) - 1.0);
    }
  }

  ghost predicate IsSquareRoot(sqrt: real -> real) {
    forall x: real :: x >= 0.0 ==> sqrt(x) >= 0.0 && Square(sqrt(x)) == x
  }

  /** What an eigenvalue contributes to the von Neumann entropy. */
  function Surprise(l: real, log2: real -> real): real {
    if l == 0.0 then 0.0 else -Mul(l, log2(l))
  }

  /** The von Neumann entropy of a spectrum, except that the code takes a smaller eigenvalue
      of at most 1e-15 for zero. */
  predicate EntropyOf(l1: real, l2: real, S: real, log2: real -> real) {
    && (l2 == 0.0 || l2 > 0.000000000000001 ==> S == Surprise(l1, log2) + Surprise(l2, log2))
    && (0.0 < l2 <= 0.000000000000001 ==> S == Surprise(l1, log2))
  }

  /** The von Neumann entropy of a two by two density matrix, which the code normalises by
      its trace first. */
  method EntropyFromRho(rho: Rho, sqrt: real -> real, log2: real -> real) returns (H: real)
    requires IsSquareRoot(sqrt)
    ensures rho.Trace() <= 0.0 ==> H == 0.0
    ensures rho.Trace() > 0.0 ==>
      exists l1, l2 :: Spectrum(l1, l2, Clamp(Det(rho))) && EntropyOf(l1, l2, H, log2)
  {
    var rho00, rho11 := rho.r00, rho.r11;
    var tr := rho00 + rho11;
    if tr <= 0.0 {
      return 0.0;
    }
    hide Spectrum, Complex.Norm2;
    rho00 := rho00 / tr;
    rho11 := rho11 / tr;
    var r01 := Complex(rho.r01.re / tr, rho.r01.im / tr);
    var det := rho00 * rho11 - r01.Norm2();
    det := Max(0.0, Min(0.25, det));
    var disc := Max(0.0, 1.0 - 4.0 * det);
    var s := sqrt(disc);
    EigenvaluesOf(det, s);
    var l1, l2 := 0.5 * (1.0 + s), 0.5 * (1.0 - s);
    H := 0.0;
    if l1 > 0.000000000000001 {
      H := H - l1 * log2(l1);
    }
    if l2 > 0.000000000000001 {
      H := H - l2 * log2(l2);
    }
    SpectrumOrder(l1, l2, Clamp(Det(rho)));
    assert Spectrum(l1, l2, Clamp(Det(rho)));
  }

  lemma SpectrumOrder(l1: real, l2: real, det: real)
    requires Spectrum(l1, l2, det)
    ensures l1 + l2 == 1.0 && 0.0 <= l2 <= 0.5 <= l1 <= 1.0
  {
  }

  /** Where a smaller eigenvalue is cut off, written out. */
  lemma CutWrittenOut(S: real, log2: real -> real)
    ensures EntropyOf(0.999999999999999, 0.000000000000001, S, log2) <==> S == Surprise(0.999999999999999, log2)
    ensures EntropyOf(0.999999999999998, 0.000000000000002, S, log2) <==>
            S == Surprise(0.999999999999998, log2) + Surprise(0.000000000000002, log2)
  {
    hide Surprise;
  }

  // ---------- what the entropy tells ----------

  /** The base-two logarithm, known by its product law, its value at two, and that it stays
      below a line through its zero. */
  ghost predicate IsLog2(log2: real -> real) {
    && log2(2.0) == 1.0
    && (forall x: real, y: real :: x > 0.0 && y > 0.0 ==> log2(Mul(x, y)) == log2(x) + log2(y))
    && exists c: real :: BelowLine(log2, c)
  }

  ghost predicate BelowLine(log2: real -> real, c: real) {
    c > 0.0 && forall x: real :: x > 0.0 && x != 1.0 ==> log2(x) < Mul(c, x - 1.0)
  }

  lemma LogValues(log2: real -> real)
    requires IsLog2(log2)
    ensures log2(1.0) == 0.0 && log2(0.5) == -1.0
  {
    assert Mul(1.0, 1.0) == 1.0 && Mul(2.0, 0.5) == 1.0;
    assert log2(Mul(1.0, 1.0)) == log2(1.0) + log2(1.0);
    assert log2(Mul(2.0, 0.5)) == log2(2.0) + log2(0.5);
  }

  lemma LogProduct(log2: real -> real, x: real, y: real)
    requires IsLog2(log2) && x > 0.0 && y > 0.0
    ensures log2(Mul(x, y)) == log2(x) + log2(y)
  {
  }

  lemma LogBelow(log2: real -> real, c: real, x: real)
    requires BelowLine(log2, c) && x > 0.0
    ensures c > 0.0 && (x != 1.0 ==> log2(x) < Mul(c, x - 1.0))
  {
  }

  /** One half of Gibbs' inequality: an eigenvalue contributes at most what the line allows,
      and that much only at one half. */
  lemma SurpriseBound(l: real, log2: real -> real, c: real)
    requires IsLog2(log2) && BelowLine(log2, c) && 0.0 <= l <= 1.0
    ensures Surprise(l, log2) <= l + Mul(c, 0.5 - l)
    ensures l != 0.5 ==> Surprise(l, log2) < l + Mul(c, 0.5 - l)
  {
    hide IsLog2, BelowLine;
    LogBelow(log2, c, 1.0);
    LogValues(log2);
    if l == 0.0 {
      ProductPositive(c, 0.5, Mul(c, 0.5));
    } else if l == 0.5 {
      MulZero(c);
      assert Mul(0.5, -1.0) == -0.5;
    } else {
      var q := 0.5 / l;
      HalfOver(l, q);
      LogProduct(log2, l, q);
      LogBelow(log2, c, q);
      LineThroughHalf(l, c, q);
      MulMonotone(l, log2(q), Mul(c, q - 1.0));
      MinusOneLess(l, log2(q));
    }
  }

  lemma HalfOver(l: real, q: real)
    requires l > 0.0 && l != 0.5 && q == 0.5 / l
    ensures Mul(l, q) == 0.5 && q > 0.0 && q != 1.0
  {
    assert l * q == 0.5;
    if q <= 0.0 {
      ProductPositive(l, 1.0 - q, Mul(l, 1.0 - q));
      NotNegative(l, q);
    }
  }

  lemma NotNegative(l: real, q: real)
    requires l > 0.0 && q <= 0.0
    ensures l * q <= 0.0
  {
  }

  lemma MinusOneLess(l: real, x: real)
    ensures Mul(l, -1.0 - x) == -l - Mul(l, x)
  {
  }

  lemma LineThroughHalf(l: real, c: real, q: real)
    requires Mul(l, q) == 0.5
    ensures Mul(l, Mul(c, q - 1.0)) == Mul(c, 0.5 - l)
  {
    assert l * (c * (q - 1.0)) == c * (l * q - l);
  }

  lemma MulMonotone(l: real, x: real, y: real)
    requires l > 0.0 && x < y
    ensures Mul(l, x) < Mul(l, y)
  {
    ProductPositive(l, y - x, Mul(l, y - x));
    assert Mul(l, y - x) == Mul(l, y) - Mul(l, x);
  }

  lemma SurpriseSign(l: real, log2: real -> real, c: real)
    requires IsLog2(log2) && BelowLine(log2, c) && 0.0 <= l <= 1.0
    ensures Surprise(l, log2) >= 0.0
    ensures Surprise(l, log2) == 0.0 <==> l == 0.0 || l == 1.0
  {
    hide IsLog2, BelowLine;
    LogValues(log2);
    MulZero(l);
    if 0.0 < l < 1.0 {
      LogBelow(log2, c, l);
      MulMonotone(c, l - 1.0, 0.0);
      MulZero(c);
      MulMonotone(l, log2(l), 0.0);
    }
  }

  lemma HasLine(log2: real -> real) returns (c: real)
    requires IsLog2(log2)
    ensures BelowLine(log2, c)
  {
    c :| BelowLine(log2, c);
  }

  /** The reported entropy lies between zero and one; it is zero exactly for a pure qubit, and
      one exactly when both eigenvalues are one half. Taking a tiny eigenvalue for zero does
      not disturb that. */
  lemma EntropyRange(l1: real, l2: real, det: real, S: real, log2: real -> real)
    requires Spectrum(l1, l2, det) && EntropyOf(l1, l2, S, log2) && IsLog2(log2)
    ensures 0.0 <= S <= 1.0
    ensures S == 0.0 <==> det == 0.0
    ensures S == 1.0 <==> det == 0.25
  {
    hide BelowLine, IsLog2, Surprise, Mul;
    var c := HasLine(log2);
    SpectrumOrder(l1, l2, det);
    hide Spectrum;
    SurpriseBound(l1, log2, c);
    SurpriseBound(l2, log2, c);
    SurpriseSign(l1, log2, c);
    SurpriseSign(l2, log2, c);
    ProductOfSpectrum(l1, l2, det);
    OppositeLines(c, 0.5 - l1);
    assert l2 == 1.0 - l1 && 0.5 - l2 == -(0.5 - l1);
    HalfSurprise(log2);
    AddedUp(l1, l2, Surprise(l1, log2), Surprise(l2, log2), Mul(c, 0.5 - l1), S);
  }

  /** Only sums of the parts are left. */
  lemma AddedUp(l1: real, l2: real, x1: real, x2: real, k: real, S: real)
    requires l1 + l2 == 1.0 && 0.0 <= l2 <= l1
    requires 0.0 <= x1 <= l1 + k && 0.0 <= x2 <= l2 - k
    requires l2 != 0.5 ==> x1 < l1 + k && x2 < l2 - k
    requires (x1 == 0.0 <==> l2 == 0.0) && (x2 == 0.0 <==> l2 == 0.0)
    requires l2 == 0.5 ==> x1 == 0.5 && x2 == 0.5
    requires l2 == 0.0 || l2 > 0.000000000000001 ==> S == x1 + x2
    requires 0.0 < l2 <= 0.000000000000001 ==> S == x1
    ensures 0.0 <= S <= 1.0
    ensures S == 0.0 <==> l2 == 0.0
    ensures S == 1.0 <==> l2 == 0.5
  {
  }

  lemma OppositeLines(c: real, x: real)
    ensures Mul(c, x) == -Mul(c, -x)
  {
  }

  lemma HalfSurprise(log2: real -> real)
    requires IsLog2(log2)
    ensures Surprise(0.5, log2) == 0.5
  {
    LogValues(log2);
    assert Mul(0.5, -1.0) == -0.5;
  }

  lemma ProductOfSpectrum(l1: real, l2: real, det: real)
    requires Spectrum(l1, l2, det)
    ensures det == 0.0 <==> l2 == 0.0
    ensures det == 0.25 <==> l2 == 0.5
  {
    assert det == Square(0.5) - Square(0.5 - l2);
    SquareSign(0.5 - l2);
    if l2 > 0.0 {
      ProductPositive(l1, l2, det);
    }
  }

  /** Nothing distinguishes the two values of the qubit. */
  predicate MaximallyMixed(rho: Rho) {
    rho.r00 == rho.r11 && rho.r01 == ZERO
  }

  lemma DetOfMixed(rho: Rho)
    requires rho.Trace() > 0.0
    ensures Det(rho) == 0.25 <==> MaximallyMixed(rho)
  {
    var tr := rho.Trace();
    var x, y, u, v := rho.r00 / tr, rho.r11 / tr, rho.r01.re / tr, rho.r01.im / tr;
    SumOfQuotients(rho.r00, rho.r11, tr);
    assert Det(rho) == 0.25 - Square(x - 0.5) - Square(u) - Square(v) by { assert y == 1.0 - x; }
    SquareSign(x - 0.5);
    SquareSign(u);
    SquareSign(v);
    assert x * tr == rho.r00 && y * tr == rho.r11 && u * tr == rho.r01.re && v * tr == rho.r01.im;
    if Det(rho) == 0.25 {
      assert x == 0.5 && y == 0.5 && u == 0.0 && v == 0.0;
    }
    if MaximallyMixed(rho) {
      assert x == y && u == 0.0 && v == 0.0;
    }
  }

  function Max(x: real, y: real): real {
    if x < y then y else x
  }

  function Min(x: real, y: real): real {
    if y < x then y else x
  }

  // ---------- the strided walk ----------

  function Pow2(n: nat): (p: nat)
    ensures p > 0
  {
    if n == 0 then 1 else 2 * Pow2(n - 1)
  }

  /** The bit of weight `bit` in i. */
  predicate Set(i: nat, bit: nat)
    requires bit > 0
  {
    (i / bit) % 2 == 1
  }

  /** The amplitudes below n whose bit is clear, each with the one that differs in that bit. */
  function PairsBelow(a: seq<Complex>, bit: nat, n: nat): seq<Pair>
    requires bit > 0
  {
    if n == 0 then []
    else if !Set(n - 1, bit) && n - 1 + bit < |a| then PairsBelow(a, bit, n - 1) + [Pair(a[n - 1], a[n - 1 + bit])]
    else PairsBelow(a, bit, n - 1)
  }

  /** The total weight of the amplitudes below n whose bit has the given value. */
  function BitSum(a: seq<Complex>, bit: nat, v: bool, n: nat): real
    requires bit > 0 && n <= |a|
  {
    if n == 0 then 0.0
    else if Set(n - 1, bit) == v then BitSum(a, bit, v, n - 1) + a[n - 1].Norm2()
    else BitSum(a, bit, v, n - 1)
  }

  function TotalNorm(a: seq<Complex>): real {
    if a == [] then 0.0 else TotalNorm(a[..|a| - 1]) + a[|a| - 1].Norm2()
  }

  /** base starts a block of 2 * bit indices. */
  predicate BlockStart(base: nat, bit: nat)
    requires bit > 0
  {
    base % (2 * bit) == 0
  }

  /** In a block the first half of the indices has the bit clear, the second half set. */
  lemma BlockBits(base: nat, bit: nat, off: nat)
    requires bit > 0 && off < bit && BlockStart(base, bit)
    ensures !Set(base + off, bit) && Set(base + bit + off, bit)
  {
    var m := base / (2 * bit);
    assert base == (2 * bit) * m;
    Regrouped(bit, m);
    Quotient(base + off, bit, 2 * m, off);
    Quotient(base + bit + off, bit, 2 * m + 1, off);
  }

  lemma Regrouped(bit: nat, m: nat)
    ensures (2 * bit) * m == (2 * m) * bit && (2 * m + 1) * bit == (2 * m) * bit + bit
  {
  }

  lemma MulAtLeast(k: int, d: nat)
    requires k >= 1
    ensures k * d >= d
  {
    if k > 1 {
      MulAtLeast(k - 1, d);
      assert k * d == (k - 1) * d + d;
    }
  }

  lemma UniqueQuotient(q: int, r: nat, q': int, r': nat, d: nat)
    requires r < d && r' < d && q * d + r == q' * d + r'
    ensures q == q'
  {
    assert (q' - q) * d == q' * d - q * d && (q - q') * d == q * d - q' * d;
    if q < q' {
      MulAtLeast(q' - q, d);
    } else if q' < q {
      MulAtLeast(q - q', d);
    }
  }

  lemma Quotient(n: nat, d: nat, q: nat, r: nat)
    requires d > 0 && r < d && n == q * d + r
    ensures n / d == q && n % d == r
  {
    var q', r' := n / d, n % d;
    assert n == d * q' + r';
    assert d * q' == q' * d;
    UniqueQuotient(q, r, q', r', d);
  }

  /** No index of the second half of a block starts a pair. */
  lemma SecondHalf(a: seq<Complex>, bit: nat, base: nat, k: nat)
    requires bit > 0 && k <= bit && BlockStart(base, bit)
    ensures PairsBelow(a, bit, base + bit + k) == PairsBelow(a, bit, base + bit)
  {
    if k > 0 {
      hide Set, BlockStart;
      SecondHalf(a, bit, base, k - 1);
      BlockBits(base, bit, k - 1);
    }
  }

  lemma NextBlock(base: nat, bit: nat, dim: nat)
    requires bit > 0 && BlockStart(base, bit) && BlockStart(dim, bit) && base < dim
    ensures base + 2 * bit <= dim && BlockStart(base + 2 * bit, bit)
  {
    NextMultiple(base, dim, 2 * bit);
  }

  lemma NextMultiple(base: nat, dim: nat, d: nat)
    requires d > 0 && base % d == 0 && dim % d == 0 && base < dim
    ensures base + d <= dim && (base + d) % d == 0
  {
    var m, k := base / d, dim / d;
    assert base == d * m && dim == d * k;
    if k <= m {
      MulOrder(d, k, m);
    } else {
      MulOrder(d, m + 1, k);
      MulSuccessor(d, m);
      Quotient(base + d, d, m + 1, 0);
    }
  }

  lemma MulSuccessor(d: nat, m: nat)
    ensures d * (m + 1) == d * m + d && (m + 1) * d == d * m + d
  {
  }

  lemma MulOrder(d: nat, x: nat, y: nat)
    ensures x <= y ==> d * x <= d * y
  {
  }

  lemma FirstHalfStep(a: seq<Complex>, bit: nat, base: nat, off: nat)
    requires bit > 0 && off < bit && BlockStart(base, bit) && base + 2 * bit <= |a|
    ensures PairsBelow(a, bit, base + off + 1) ==
            PairsBelow(a, bit, base + off) + [Pair(a[base + off], a[base + off + bit])]
  {
    hide Set, BlockStart;
    BlockBits(base, bit, off);
  }

  /** The double loop of the source over one qubit: every access is in bounds, and the
      three sums range over exactly the pairs of amplitudes that differ in that qubit. */
  method ReducedDensity(a: seq<Complex>, bit: nat) returns (rho: Rho)
    requires bit > 0 && BlockStart(|a|, bit)
    ensures rho == RhoOf(PairsBelow(a, bit, |a|))
  {
    hide Complex.Norm2, Complex.Times, Complex.Conj, Complex.Plus, Set, BlockStart, SumX, SumY, SumXY, PairsBelow;
    var dim, step := |a|, 2 * bit;
    var rho00, rho11 := 0.0, 0.0;
    var rho01 := ZERO;
    var base := 0;
    StartOfWalk(a, bit);
    while base < dim
      invariant base <= dim && BlockStart(base, bit)
      invariant Rho(rho00, rho11, rho01) == RhoOf(PairsBelow(a, bit, base))
      decreases dim - base
    {
      NextBlock(base, bit, dim);
      for off := 0 to bit
        invariant Rho(rho00, rho11, rho01) == RhoOf(PairsBelow(a, bit, base + off))
      {
        FirstHalfStep(a, bit, base, off);
        var a0, a1 := a[base + off], a[base + off + bit];
        Appended(PairsBelow(a, bit, base + off), Pair(a0, a1));
        rho00 := rho00 + a0.Norm2();
        rho11 := rho11 + a1.Norm2();
        rho01 := rho01.Plus(a0.Times(a1.Conj()));
      }
      SecondHalf(a, bit, base, bit);
      base := base + step;
    }
    rho := Rho(rho00, rho11, rho01);
  }

  lemma StartOfWalk(a: seq<Complex>, bit: nat)
    requires bit > 0
    ensures PairsBelow(a, bit, 0) == [] && BlockStart(0, bit)
    ensures SumX([]) == 0.0 && SumY([]) == 0.0 && SumXY([]) == ZERO
  {
  }

  lemma Appended(ps: seq<Pair>, p: Pair)
    ensures SumX(ps + [p]) == SumX(ps) + p.x.Norm2() && SumY(ps + [p]) == SumY(ps) + p.y.Norm2()
    ensures SumXY(ps + [p]) == SumXY(ps).Plus(p.x.Times(p.y.Conj()))
  {
    assert (ps + [p])[..|ps|] == ps;
  }

  // ---------- the sums as sums over all indices ----------

  lemma HalfBits(a: seq<Complex>, bit: nat, base: nat, k: nat)
    requires bit > 0 && k < bit && BlockStart(base, bit) && base + 2 * bit <= |a|
    ensures BitSum(a, bit, true, base + k + 1) == BitSum(a, bit, true, base + k)
    ensures BitSum(a, bit, false, base + k + 1) == BitSum(a, bit, false, base + k) + a[base + k].Norm2()
    ensures BitSum(a, bit, true, base + bit + k + 1) ==
            BitSum(a, bit, true, base + bit + k) + a[base + k + bit].Norm2()
    ensures BitSum(a, bit, false, base + bit + k + 1) == BitSum(a, bit, false, base + bit + k)
  {
    hide Set, BlockStart, Complex.Norm2;
    BlockBits(base, bit, k);
  }

  lemma {:induction false} HalfSums(a: seq<Complex>, bit: nat, base: nat, k: nat)
    requires bit > 0 && k <= bit && BlockStart(base, bit) && base + 2 * bit <= |a|
    ensures BitSum(a, bit, true, base + k) == BitSum(a, bit, true, base)
    ensures SumX(PairsBelow(a, bit, base + k)) - SumX(PairsBelow(a, bit, base))
         == BitSum(a, bit, false, base + k) - BitSum(a, bit, false, base)
    ensures SumY(PairsBelow(a, bit, base + k)) - SumY(PairsBelow(a, bit, base))
         == BitSum(a, bit, true, base + bit + k) - BitSum(a, bit, true, base + bit)
    ensures BitSum(a, bit, false, base + bit + k) == BitSum(a, bit, false, base + bit)
  {
    hide Set, BlockStart, Complex.Norm2, SumX, SumY, BitSum, PairsBelow;
    if k > 0 {
      HalfSums(a, bit, base, k - 1);
      HalfBits(a, bit, base, k - 1);
      FirstHalfStep(a, bit, base, k - 1);
      Appended(PairsBelow(a, bit, base + k - 1), Pair(a[base + k - 1], a[base + k - 1 + bit]));
    }
  }

  lemma {:induction false} SumsByBit(a: seq<Complex>, bit: nat, base: nat)
    requires bit > 0 && BlockStart(base, bit) && BlockStart(|a|, bit) && base <= |a|
    ensures SumX(PairsBelow(a, bit, |a|)) - SumX(PairsBelow(a, bit, base))
         == BitSum(a, bit, false, |a|) - BitSum(a, bit, false, base)
    ensures SumY(PairsBelow(a, bit, |a|)) - SumY(PairsBelow(a, bit, base))
         == BitSum(a, bit, true, |a|) - BitSum(a, bit, true, base)
    decreases |a| - base
  {
    if base < |a| {
      hide BlockStart, SumX, SumY, PairsBelow, BitSum;
      NextBlock(base, bit, |a|);
      HalfSums(a, bit, base, bit);
      SecondHalf(a, bit, base, bit);
      SumsByBit(a, bit, base + 2 * bit);
    }
  }

  lemma BitSumsAddUp(a: seq<Complex>, bit: nat, n: nat)
    requires bit > 0 && n <= |a|
    ensures BitSum(a, bit, false, n) + BitSum(a, bit, true, n) == TotalNorm(a[..n])
  {
    if n > 0 {
      hide Complex.Norm2, Set;
      BitSumsAddUp(a, bit, n - 1);
      assert a[..n][..n - 1] == a[..n - 1];
    }
  }

  /** The diagonal entries are the weights of the two values of the qubit, and they add up
      to the squared norm of the state. */
  lemma DiagonalByBit(a: seq<Complex>, bit: nat)
    requires bit > 0 && BlockStart(|a|, bit)
    ensures
      var rho := RhoOf(PairsBelow(a, bit, |a|));
      && rho.r00 == BitSum(a, bit, false, |a|)
      && rho.r11 == BitSum(a, bit, true, |a|)
      && rho.Trace() == TotalNorm(a)
  {
    hide Set, BlockStart, SumX, SumY, SumXY, PairsBelow, Complex.Norm2, TotalNorm;
    StartOfWalk(a, bit);
    SumsByBit(a, bit, 0);
    BitSumsAddUp(a, bit, |a|);
    assert a[..|a|] == a;
  }

  // ---------- the whole computation ----------

  datatype Entropy = EntropyOfQubit(qubit: nat, value: real) | Greatest(value: real) | Average(value: real)

  function Scaled(a: seq<Complex>, s: real): seq<Complex> {
    seq(|a|, i requires 0 <= i < |a| => a[i].Scale(s))
  }

  method SquaredNorm(a: seq<Complex>) returns (n2: real)
    ensures n2 == TotalNorm(a)
  {
    n2 := 0.0;
    for i := 0 to |a|
      invariant n2 == TotalNorm(a[..i])
    {
      assert a[..i + 1][..i] == a[..i];
      n2 := n2 + a[i].Norm2();
    }
    assert a[..|a|] == a;
  }

  lemma NormSigns(a: seq<Complex>)
    ensures TotalNorm(a) >= 0.0
  {
    if a != [] {
      hide Complex.Norm2;
      NormSigns(a[..|a| - 1]);
      NormSign(a[|a| - 1]);
    }
  }

  lemma ScaledNorm(a: seq<Complex>, s: real)
    ensures TotalNorm(Scaled(a, s)) == Mul(TotalNorm(a), Square(s))
  {
    if a == [] {
      MulZero(Square(s));
    } else {
      hide Complex.Norm2, Mul, Square, Complex.Scale;
      var n := |a| - 1;
      ScaledNorm(a[..n], s);
      assert Scaled(a, s)[..n] == Scaled(a[..n], s);
      ScaledEntry(a[n], s);
      MulDistributes(TotalNorm(a), TotalNorm(a[..n]), a[n].Norm2(), Square(s));
    }
  }

  lemma ScaledEntry(x: Complex, s: real)
    ensures x.Scale(s).Norm2() == Mul(x.Norm2(), Square(s))
  {
    assert (x.re * s) * (x.re * s) == x.re * x.re * (s * s);
    assert (x.im * s) * (x.im * s) == x.im * x.im * (s * s);
  }

  lemma InverseSquare(n2: real, s: real, inv: real)
    requires n2 > 0.0 && s > 0.0 && Square(s) == n2 && inv == 1.0 / s
    ensures Mul(n2, Square(inv)) == 1.0
  {
    assert inv * s == 1.0;
    assert Mul(n2, Square(inv)) == (inv * s) * (inv * s);
  }

  lemma RootPositive(n2: real, s: real)
    requires n2 > 0.0 && s >= 0.0 && Square(s) == n2
    ensures s > 0.0
  {
    assert Square(0.0) == 0.0;
  }

  // ---------- normalising the state does not change the spectrum ----------

  function ScaledPairs(ps: seq<Pair>, s: real): seq<Pair> {
    seq(|ps|, i requires 0 <= i < |ps| => Pair(ps[i].x.Scale(s), ps[i].y.Scale(s)))
  }

  lemma PairsOfScaled(a: seq<Complex>, s: real, bit: nat, n: nat)
    requires bit > 0 && n <= |a|
    ensures PairsBelow(Scaled(a, s), bit, n) == ScaledPairs(PairsBelow(a, bit, n), s)
  {
    if n > 0 {
      hide Set, Complex.Scale;
      PairsOfScaled(a, s, bit, n - 1);
    }
  }

  lemma ScaledCross(p: Pair, s: real)
    ensures p.x.Scale(s).Times(p.y.Scale(s).Conj()) == p.x.Times(p.y.Conj()).Scale(Square(s))
  {
  }

  lemma ScaleAdds(u: Complex, v: Complex, k: real)
    ensures u.Plus(v).Scale(k) == u.Scale(k).Plus(v.Scale(k)) && ZERO.Scale(k) == ZERO
  {
  }

  lemma ScaledSums(ps: seq<Pair>, s: real)
    ensures SumX(ScaledPairs(ps, s)) == Mul(SumX(ps), Square(s))
    ensures SumY(ScaledPairs(ps, s)) == Mul(SumY(ps), Square(s))
    ensures SumXY(ScaledPairs(ps, s)) == SumXY(ps).Scale(Square(s))
  {
    hide Complex.Norm2, Complex.Times, Complex.Conj, Complex.Plus, Complex.Scale, Mul, Square;
    if ps == [] {
      MulZero(Square(s));
      ScaleAdds(ZERO, ZERO, Square(s));
    } else {
      var init, p := ps[..|ps| - 1], ps[|ps| - 1];
      ScaledSums(init, s);
      assert ScaledPairs(ps, s)[..|ps| - 1] == ScaledPairs(init, s);
      ScaledEntry(p.x, s);
      ScaledEntry(p.y, s);
      ScaledCross(p, s);
      ScaleAdds(SumXY(init), p.x.Times(p.y.Conj()), Square(s));
      MulDistributes(SumX(ps), SumX(init), p.x.Norm2(), Square(s));
      MulDistributes(SumY(ps), SumY(init), p.y.Norm2(), Square(s));
    }
  }

  lemma CancelQuotient(a: real, t: real, k: real, a': real, t': real)
    requires t > 0.0 && k > 0.0 && a' == a * k && t' == t * k
    ensures t' > 0.0 && a' / t' == a / t
  {
    ProductPositive(t, k, t');
    var q := a / t;
    assert a == q * t;
    assert q * t' == a';
  }

  /** The determinant does not depend on the norm of the state. */
  lemma DetIgnoresScale(ps: seq<Pair>, s: real)
    requires RhoOf(ps).Trace() > 0.0 && s != 0.0
    ensures RhoOf(ScaledPairs(ps, s)).Trace() > 0.0
    ensures Det(RhoOf(ScaledPairs(ps, s))) == Det(RhoOf(ps))
  {
    var rho, rho' := RhoOf(ps), RhoOf(ScaledPairs(ps, s));
    ScaledSums(ps, s);
    SquareSign(s);
    DetScales(rho, rho', Square(s));
    hide Det, Rho.Trace;
  }

  lemma DetScales(rho: Rho, rho': Rho, k: real)
    requires k > 0.0 && rho.Trace() > 0.0
    requires rho' == Rho(Mul(rho.r00, k), Mul(rho.r11, k), rho.r01.Scale(k))
    ensures rho'.Trace() > 0.0 && Det(rho') == Det(rho)
  {
    var t, t' := rho.Trace(), rho'.Trace();
    MulDistributes(t, rho.r00, rho.r11, k);
    CancelQuotient(rho.r00, t, k, rho'.r00, t');
    CancelQuotient(rho.r11, t, k, rho'.r11, t');
    CancelQuotient(rho.r01.re, t, k, rho'.r01.re, t');
    CancelQuotient(rho.r01.im, t, k, rho'.r01.im, t');
    hide Complex.Norm2;
  }

  /** S is the entropy of the qubit of weight `bit` in the state a. */
  ghost predicate IsEntropy(a: seq<Complex>, bit: nat, S: real, log2: real -> real)
    requires bit > 0
  {
    var rho := RhoOf(PairsBelow(a, bit, |a|));
    if rho.Trace() <= 0.0 then S == 0.0
    else exists l1, l2 :: Spectrum(l1, l2, Det(rho)) && EntropyOf(l1, l2, S, log2)
  }

  function SumValues(es: seq<Entropy>): real {
    if es == [] then 0.0 else SumValues(es[..|es| - 1]) + es[|es| - 1].value
  }

  predicate IsGreatest(m: real, es: seq<Entropy>) {
    && m >= 0.0
    && (forall i :: 0 <= i < |es| ==> es[i].value <= m)
    && (m == 0.0 || exists i :: 0 <= i < |es| && es[i].value == m)
  }

  /** One entry for each of the first n qubits, in order. */
  ghost predicate EntropiesOf(a: seq<Complex>, es: seq<Entropy>, n: nat, log2: real -> real) {
    && |es| == n
    && forall q :: 0 <= q < n ==> es[q].EntropyOfQubit? && es[q].qubit == q && IsEntropy(a, Pow2(q), es[q].value, log2)
  }

  lemma OneMoreEntropy(a: seq<Complex>, es: seq<Entropy>, n: nat, S: real, log2: real -> real)
    requires EntropiesOf(a, es, n, log2) && IsEntropy(a, Pow2(n), S, log2)
    ensures EntropiesOf(a, es + [EntropyOfQubit(n, S)], n + 1, log2)
    ensures SumValues(es + [EntropyOfQubit(n, S)]) == SumValues(es) + S
  {
    hide IsEntropy;
    assert (es + [EntropyOfQubit(n, S)])[..n] == es;
  }

  method InverseNorm(amps: seq<Complex>, sqrt: real -> real) returns (invNorm: real)
    requires IsSquareRoot(sqrt)
    ensures invNorm != 0.0
    ensures TotalNorm(amps) > 0.0 ==> TotalNorm(Scaled(amps, invNorm)) == 1.0
  {
    var n2 := SquaredNorm(amps);
    hide Scaled, TotalNorm, Mul, Square;
    invNorm := 1.0;
    if n2 > 0.0 {
      RootPositive(n2, sqrt(n2));
      invNorm := 1.0 / sqrt(n2);
      InverseSquare(n2, sqrt(n2), invNorm);
      ScaledNorm(amps, invNorm);
    }
  }

  lemma AverageTimes(sum: real, n: nat)
    requires n > 0
    ensures sum / n as real * n as real == sum
  {
  }

  /** The entropy of every qubit of the state, their maximum and their average; nothing for
      a vector whose length is not two to the number of qubits. */
  method ComputeEntanglement(amps: seq<Complex>, nqubits: int, sqrt: real -> real, log2: real -> real)
    returns (out: seq<Entropy>)
    requires IsSquareRoot(sqrt)
    ensures nqubits <= 0 || |amps| != Pow2(nqubits) ==> out == []
    ensures nqubits > 0 && |amps| == Pow2(nqubits) ==>
      && |out| == nqubits + 2
      && EntropiesOf(amps, out[..nqubits], nqubits, log2)
      && out[nqubits].Greatest? && IsGreatest(out[nqubits].value, out[..nqubits])
      && out[nqubits + 1].Average? && out[nqubits + 1].value * nqubits as real == SumValues(out[..nqubits])
  {
    hide IsSquareRoot, Scaled, TotalNorm, RhoOf, IsEntropy, EntropiesOf, IsGreatest, SumValues, Max, Pow2, BlockStart;
    out := [];
    if nqubits <= 0 || |amps| != Pow2(nqubits) {
      return;
    }
    var invNorm := InverseNorm(amps, sqrt);
    var normal := Scaled(amps, invNorm);
    LengthOfScaled(amps, invNorm);
    var Smax, Ssum := 0.0, 0.0;
    NoEntropies(amps, log2);
    for q := 0 to nqubits
      invariant EntropiesOf(amps, out, q, log2)
      invariant Ssum == SumValues(out) && IsGreatest(Smax, out)
    {
      var bit := Pow2(q);
      PowerDivides(q, nqubits);
      var rho := ReducedDensity(normal, bit);
      var S := EntropyFromRho(rho, sqrt, log2);
      QubitEntropy(amps, invNorm, bit, rho, S, log2);
      GrowGreatest(Smax, out, EntropyOfQubit(q, S));
      OneMoreEntropy(amps, out, q, S, log2);
      Ssum := Ssum + S;
      Smax := Max(Smax, S);
      out := out + [EntropyOfQubit(q, S)];
    }
    var entropies := out;
    EntropyCount(amps, out, nqubits, log2);
    AverageTimes(Ssum, nqubits);
    out := out + [Greatest(Smax)] + [Average(Ssum / nqubits as real)];
    assert out[..nqubits] == entropies;
  }

  lemma NoEntropies(a: seq<Complex>, log2: real -> real)
    ensures EntropiesOf(a, [], 0, log2) && SumValues([]) == 0.0 && IsGreatest(0.0, [])
  {
  }

  lemma EntropyCount(a: seq<Complex>, es: seq<Entropy>, n: nat, log2: real -> real)
    requires EntropiesOf(a, es, n, log2)
    ensures |es| == n
  {
  }

  lemma LengthOfScaled(a: seq<Complex>, s: real)
    ensures |Scaled(a, s)| == |a|
  {
  }

  lemma PowerDivides(q: nat, n: nat)
    requires q < n
    ensures BlockStart(Pow2(n), Pow2(q))
    decreases n
  {
    var d := 2 * Pow2(q);
    if q + 1 == n {
      Quotient(d, d, 1, 0);
    } else {
      PowerDivides(q, n - 1);
      var k := Pow2(n - 1) / d;
      assert Pow2(n - 1) == d * k;
      assert 2 * (d * k) == (2 * k) * d;
      Quotient(Pow2(n), d, 2 * k, 0);
    }
  }

  lemma GrowGreatest(m: real, es: seq<Entropy>, e: Entropy)
    requires IsGreatest(m, es)
    ensures IsGreatest(Max(m, e.value), es + [e])
  {
    var es' := es + [e];
    assert es'[|es|] == e && forall i :: 0 <= i < |es| ==> es'[i] == es[i];
    if m > 0.0 {
      var i :| 0 <= i < |es| && es[i].value == m;
      assert es'[i].value == m;
    }
  }

  lemma QubitEntropy(a: seq<Complex>, inv: real, bit: nat, rho: Rho, S: real, log2: real -> real)
    requires bit > 0 && inv != 0.0 && rho == RhoOf(PairsBelow(Scaled(a, inv), bit, |a|)) && BlockStart(|a|, bit)
    requires rho.Trace() <= 0.0 ==> S == 0.0
    requires rho.Trace() > 0.0 ==>
      exists l1, l2 :: Spectrum(l1, l2, Clamp(Det(rho))) && EntropyOf(l1, l2, S, log2)
    ensures IsEntropy(a, bit, S, log2)
  {
    var ps := PairsBelow(a, bit, |a|);
    PairsOfScaled(a, inv, bit, |a|);
    hide Det, Spectrum, Clamp, PairsBelow, Scaled, ScaledPairs, SumX, SumY, SumXY, BlockStart;
    if RhoOf(ps).Trace() > 0.0 {
      DetIgnoresScale(ps, inv);
      DeterminantRange(ScaledPairs(ps, inv));
    } else {
      DiagonalByBit(a, bit);
      NormSigns(a);
      ScaledSums(ps, inv);
      MulDistributes(RhoOf(ps).Trace(), SumX(ps), SumY(ps), Square(inv));
      MulZero(Square(inv));
    }
  }

  // ---------- what the report tells ----------

  /** The number reported for a qubit lies between zero and one. It is zero exactly when the
      amplitudes with the qubit clear and those with it set are dependent, that is, when the
      qubit is not entangled with the others; it is one exactly when its two values are equally
      likely and there is no coherence between them. */
  lemma EntropyMeans(a: seq<Complex>, bit: nat, S: real, log2: real -> real)
    requires bit > 0 && BlockStart(|a|, bit) && TotalNorm(a) > 0.0
    requires IsEntropy(a, bit, S, log2) && IsLog2(log2)
    ensures 0.0 <= S <= 1.0
    ensures S == 0.0 <==> Dependent(PairsBelow(a, bit, |a|))
    ensures S == 1.0 <==> MaximallyMixed(RhoOf(PairsBelow(a, bit, |a|)))
  {
    hide IsLog2, Spectrum, EntropyOf, Dependent, Det, MaximallyMixed, PairsBelow, TotalNorm;
    var ps := PairsBelow(a, bit, |a|);
    DiagonalByBit(a, bit);
    hide RhoOf;
    var l1, l2 :| Spectrum(l1, l2, Det(RhoOf(ps))) && EntropyOf(l1, l2, S, log2);
    EntropyRange(l1, l2, Det(RhoOf(ps)), S, log2);
    DeterminantRange(ps);
    DetOfMixed(RhoOf(ps));
  }

  /** The amplitudes with the qubit clear and those with it set point in the same direction. */
  ghost predicate Separable(a: seq<Complex>, q: nat) {
    Dependent(PairsBelow(a, Pow2(q), |a|))
  }

  predicate FullyMixed(a: seq<Complex>, q: nat) {
    MaximallyMixed(RhoOf(PairsBelow(a, Pow2(q), |a|)))
  }

  /** The greatest number is zero exactly when no qubit is entangled, and one exactly when some
      qubit is maximally so. */
  lemma ReportMeans(a: seq<Complex>, es: seq<Entropy>, n: nat, m: real, log2: real -> real)
    requires |a| == Pow2(n) && TotalNorm(a) > 0.0 && IsLog2(log2)
    requires EntropiesOf(a, es, n, log2) && IsGreatest(m, es)
    ensures 0.0 <= m <= 1.0
    ensures m == 0.0 <==> forall q :: 0 <= q < n ==> Separable(a, q)
    ensures m == 1.0 <==> exists q :: 0 <= q < n && FullyMixed(a, q)
  {
    hide IsLog2, IsEntropy, Dependent, MaximallyMixed, PairsBelow, TotalNorm, RhoOf, BlockStart, Pow2;
    forall q | 0 <= q < n
      ensures 0.0 <= es[q].value <= 1.0
      ensures es[q].value == 0.0 <==> Separable(a, q)
      ensures es[q].value == 1.0 <==> FullyMixed(a, q)
    {
      PowerDivides(q, n);
      EntropyMeans(a, Pow2(q), es[q].value, log2);
    }
    hide Separable, FullyMixed;
    if m == 0.0 {
      forall q | 0 <= q < n ensures Separable(a, q) {
        assert 0.0 <= es[q].value <= m;
      }
    } else {
      var i :| 0 <= i < n && es[i].value == m;
      assert !Separable(a, i) && (m == 1.0 ==> FullyMixed(a, i));
    }
    if q :| 0 <= q < n && FullyMixed(a, q) {
      assert es[q].value <= m <= 1.0;
    }
  }

  /** Both qubits of a Bell pair are reported as maximally entangled. */
  lemma BellPair(r: real, es: seq<Entropy>, m: real, log2: real -> real)
    requires Square(r) == 0.5 && IsLog2(log2)
    requires EntropiesOf([Complex(r, 0.0), ZERO, ZERO, Complex(r, 0.0)], es, 2, log2) && IsGreatest(m, es)
    ensures es[0].value == 1.0 && es[1].value == 1.0 && m == 1.0
  {
    var a := [Complex(r, 0.0), ZERO, ZERO, Complex(r, 0.0)];
    assert Pow2(0) == 1 && Pow2(1) == 2 && Pow2(2) == 4;
    BellPairs(r, a);
    BellNorm(r, a);
    hide IsLog2, IsEntropy, PairsBelow, TotalNorm, IsGreatest, EntropiesOf;
    FirstTwo(a, es, log2);
    PowerDivides(0, 2);
    PowerDivides(1, 2);
    EntropyMeans(a, 1, es[0].value, log2);
    EntropyMeans(a, 2, es[1].value, log2);
    ReportMeans(a, es, 2, m, log2);
    assert FullyMixed(a, 0);
  }

  lemma FirstTwo(a: seq<Complex>, es: seq<Entropy>, log2: real -> real)
    requires EntropiesOf(a, es, 2, log2)
    ensures |es| == 2 && IsEntropy(a, 1, es[0].value, log2) && IsEntropy(a, 2, es[1].value, log2)
  {
    assert Pow2(0) == 1 && Pow2(1) == 2;
  }

  lemma BellNorm(r: real, a: seq<Complex>)
    requires Square(r) == 0.5 && a == [Complex(r, 0.0), ZERO, ZERO, Complex(r, 0.0)]
    ensures TotalNorm(a) == 1.0
  {
    var x := Complex(r, 0.0);
    assert a == [x, ZERO, ZERO] + [x] && [x, ZERO, ZERO] == [x, ZERO] + [ZERO] && [x, ZERO] == [x] + [ZERO];
    assert TotalNorm([x]) == 0.5 by { assert [x][..0] == []; }
    OneMoreAmplitude([x], ZERO);
    OneMoreAmplitude([x, ZERO], ZERO);
    OneMoreAmplitude([x, ZERO, ZERO], x);
  }

  lemma OneMoreAmplitude(a: seq<Complex>, x: Complex)
    ensures TotalNorm(a + [x]) == TotalNorm(a) + x.Norm2()
  {
    assert (a + [x])[..|a|] == a;
  }

  lemma BellPairs(r: real, a: seq<Complex>)
    requires Square(r) == 0.5 && a == [Complex(r, 0.0), ZERO, ZERO, Complex(r, 0.0)]
    ensures MaximallyMixed(RhoOf(PairsBelow(a, 1, 4))) && MaximallyMixed(RhoOf(PairsBelow(a, 2, 4)))
  {
    hide PairsBelow, MaximallyMixed, RhoOf;
    PairsOfFour(a);
    MixedPair(r);
  }

  /** The pairs of a state of two qubits. */
  lemma PairsOfFour(a: seq<Complex>)
    requires |a| == 4
    ensures PairsBelow(a, 1, 4) == [Pair(a[0], a[1]), Pair(a[2], a[3])]
    ensures PairsBelow(a, 2, 4) == [Pair(a[0], a[2]), Pair(a[1], a[3])]
  {
    assert PairsBelow(a, 1, 0) == [] && PairsBelow(a, 1, 1) == [Pair(a[0], a[1])];
    assert PairsBelow(a, 1, 3) == [Pair(a[0], a[1]), Pair(a[2], a[3])];
    assert PairsBelow(a, 2, 0) == [] && PairsBelow(a, 2, 1) == [Pair(a[0], a[2])];
    assert PairsBelow(a, 2, 2) == [Pair(a[0], a[2]), Pair(a[1], a[3])];
  }

  lemma MixedPair(r: real)
    requires Square(r) == 0.5
    ensures MaximallyMixed(RhoOf([Pair(Complex(r, 0.0), ZERO), Pair(ZERO, Complex(r, 0.0))]))
  {
    var u, v := Pair(Complex(r, 0.0), ZERO), Pair(ZERO, Complex(r, 0.0));
    assert [u, v] == [u] + [v] && [u] == [] + [u];
    Appended([], u);
    Appended([u], v);
  }
}
