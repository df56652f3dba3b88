/** Complex numbers over exact reals (Typedefs.h, `complexNumber`), and the ring
    laws the quantum semantics needs. */
module Complex {

  datatype Complex = Complex(re: real, im: real) {

    function Norm2(): real {
      re * re + im * im
    }

    function Conj(): Complex {
      Complex(re, -im)
    }

    function Times(o: Complex): Complex {
      Complex(re * o.re - im * o.im, re * o.im + im * o.re)
    }

    function Plus(o: Complex): Complex {
      Complex(re + o.re, im + o.im)
    }

    function Scale(s: real): Complex {
      Complex(re * s, im * s)
    }

    function Negate(): Complex {
      Complex(-re, -im)
    }
  }

  const ZERO := Complex(0.0, 0.0)
  const ONE := Complex(1.0, 0.0)
  const I := Complex(0.0, 1.0)

  lemma TimesAssociative(x: Complex, y: Complex, z: Complex)
    ensures x.Times(y).Times(z) == x.Times(y.Times(z))
  {
  }

  lemma TimesCommutes(x: Complex, y: Complex)
    ensures x.Times(y) == y.Times(x)
  {
  }

  lemma TimesDistributes(x: Complex, y: Complex, z: Complex)
    ensures x.Times(y.Plus(z)) == x.Times(y).Plus(x.Times(z))
  {
  }

  lemma NormOfProduct(x: Complex, y: Complex)
    ensures x.Times(y).Norm2() == x.Norm2() * y.Norm2()
  {
    var p, q, r, s := x.re * y.re, x.im * y.im, x.re * y.im, x.im * y.re;
    assert p * q == r * s;
  }

  function Square(x: real): real {
    x * x
  }

  lemma ProductPositive(x: real, y: real, p: real)
    requires p == x * y
    requires (x > 0.0 && y > 0.0) || (x < 0.0 && y < 0.0)
    ensures p > 0.0
  {
  }

  lemma SquareSign(x: real)
    ensures Square(x) >= 0.0
    ensures x != 0.0 ==> Square(x) > 0.0
  {
    if x != 0.0 {
      ProductPositive(x, x, Square(x));
    }
  }

  lemma NormSign(x: Complex)
    ensures x.Norm2() >= 0.0
    ensures x != ZERO ==> x.Norm2() > 0.0
  {
    SquareSign(x.re);
    SquareSign(x.im);
    assert x.Norm2() == Square(x.re) + Square(x.im);
    assert x != ZERO ==> x.re != 0.0 || x.im != 0.0;
  }
}
