/** Products of reals.  The motion model multiplies through `Mul`, so that a proof can hide the
    product and call only the facts below that it needs. */
module Reals {

  function Mul(a: real, b: real): real {
    a * b
  }

  lemma MulBasics(a: real)
    ensures Mul(0.0, a) == 0.0 && Mul(1.0, a) == a
  {
  }

  lemma MulComm(a: real, b: real)
    ensures Mul(a, b) == Mul(b, a)
  {
  }

  lemma MulPos(a: real, b: real)
    requires a > 0.0 && b > 0.0
    ensures Mul(a, b) > 0.0
  {
  }

  lemma MulNonNeg(a: real, b: real)
    requires a >= 0.0 && b >= 0.0
    ensures Mul(a, b) >= 0.0
  {
  }

  lemma MulMono(a: real, b: real, c: real)
    requires a <= b && c >= 0.0
    ensures Mul(a, c) <= Mul(b, c)
  {
  }

  lemma MulStrict(a: real, b: real, c: real)
    requires a < b && c > 0.0
    ensures Mul(a, c) < Mul(b, c)
  {
  }

  lemma MulOpposite(a: real, b: real)
    requires (a <= 0.0 && b >= 0.0) || (a >= 0.0 && b <= 0.0)
    ensures Mul(a, b) <= 0.0
  {
  }

  lemma Neg(a: real, b: real)
    ensures Mul(-a, b) == -Mul(a, b) && Mul(a, -b) == -Mul(a, b)
  {
  }

  lemma Distrib(a: real, b: real, c: real)
    ensures Mul(a + b, c) == Mul(a, c) + Mul(b, c)
  {
  }

  lemma DistribLeft(a: real, b: real, c: real)
    ensures Mul(a, b + c) == Mul(a, b) + Mul(a, c)
  {
  }

  lemma Assoc(a: real, b: real, c: real)
    ensures Mul(a, Mul(b, c)) == Mul(Mul(a, b), c)
  {
    assert a * (b * c) == a * b * c;
  }

  lemma Cross(a: real, b: real, c: real, d: real)
    ensures Mul(Mul(a, b), Mul(c, d)) == Mul(Mul(a, c), Mul(b, d))
  {
    assert a * b * (c * d) == a * c * (b * d);
  }

  lemma SquarePos(a: real)
    ensures Mul(a, a) >= 0.0 && (a != 0.0 ==> Mul(a, a) > 0.0)
  {
    hide Mul;
    if a > 0.0 {
      MulPos(a, a);
    } else if a < 0.0 {
      MulPos(-a, -a);
      Neg(-a, a);
      Neg(a, a);
    } else {
      MulBasics(a);
    }
  }

  lemma SquareMono(a: real, b: real)
    requires 0.0 <= a <= b
    ensures Mul(a, a) <= Mul(b, b)
  {
    hide Mul;
    MulMono(a, b, a);
    MulMono(a, b, b);
    MulComm(a, b);
  }

  /** Scaling a positive `s` by the square of a positive `f` shrinks it exactly when `f < 1`. */
  lemma SquareFactor(f: real, s: real)
    requires f > 0.0 && s > 0.0
    ensures s <= Mul(Mul(f, f), s) <==> f >= 1.0
  {
    hide Mul;
    MulBasics(f);
    MulBasics(s);
    MulBasics(1.0);
    if f >= 1.0 {
      SquareMono(1.0, f);
      MulMono(1.0, Mul(f, f), s);
    } else {
      MulStrict(f, 1.0, f);
      MulStrict(Mul(f, f), 1.0, s);
    }
  }
}
