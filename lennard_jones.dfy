/** The 12-6 Lennard-Jones pair potential: a cut-off energy law of the squared
    distance and the central force derived from it. `BasicComputer` is the
    parameter record the hot loops evaluate; `LennardJones` is the interaction
    object whose setter fills it. */
module LennardJonesPotential {
  import opened Vectors

  /** `x` to the power `n`. */
  function Pow(x: real, n: nat): real
    decreases n
  {
    if n == 0 then 1.0 else x * Pow(x, n - 1)
  }

  /** The cube of a scalar, `r * r * r`. */
  function Cube(r: real): real
  {
    r * r * r
  }

  /** The product of two reals, so that sign facts about it can be stated once. */
  function Mul(a: real, b: real): real
  {
    a * b
  }

  lemma MulNonZero(a: real, b: real)
    requires a != 0.0 && b != 0.0
    ensures Mul(a, b) != 0.0
  {
  }

  lemma MulPositive(a: real, b: real)
    requires (a > 0.0 && b > 0.0) || (a < 0.0 && b < 0.0)
    ensures Mul(a, b) > 0.0
  {
  }

  lemma MulNonNegative(a: real, b: real)
    requires a >= 0.0 && b >= 0.0
    ensures Mul(a, b) >= 0.0
  {
  }

  lemma SquarePositive(r: real)
    requires r != 0.0
    ensures Square(r) > 0.0
  {
    MulPositive(r, r);
    assert Square(r) == Mul(r, r);
  }

  lemma SquareNonNegative(r: real)
    ensures Square(r) >= 0.0
  {
    if r != 0.0 {
      SquarePositive(r);
    }
  }

  lemma SquareZero(r: real)
    requires Square(r) == 0.0
    ensures r == 0.0
  {
    if r != 0.0 {
      SquarePositive(r);
    }
  }

  /** A product with a non-zero factor vanishes only if the other factor does. */
  lemma ProductZero(a: real, b: real)
    requires a != 0.0 && Mul(a, b) == 0.0
    ensures b == 0.0
  {
    if b != 0.0 {
      MulNonZero(a, b);
    }
  }

  lemma QuotientProduct(a: real, b: real, c: real, d: real)
    requires b != 0.0 && d != 0.0
    ensures Mul(b, d) != 0.0 && (a / b) * (c / d) == (a * c) / Mul(b, d)
  {
    MulNonZero(b, d);
  }

  lemma {:induction false} PowNonZero(x: real, n: nat)
    requires x != 0.0
    ensures Pow(x, n) != 0.0
    decreases n
  {
    if n > 0 {
      PowNonZero(x, n - 1);
      MulNonZero(x, Pow(x, n - 1));
    }
  }

  lemma PowSmall(x: real)
    ensures Pow(x, 2) == Square(x) && Pow(x, 3) == Cube(x)
  {
    assert Pow(x, 1) == x;
  }

  lemma {:induction false} PowQuotient(a: real, b: real, n: nat)
    requires b != 0.0
    ensures Pow(b, n) != 0.0 && Pow(a / b, n) == Pow(a, n) / Pow(b, n)
    decreases n
  {
    PowNonZero(b, n);
    if n > 0 {
      PowQuotient(a, b, n - 1);
      QuotientProduct(a, b, Pow(a, n - 1), Pow(b, n - 1));
    }
  }

  lemma {:induction false} PowAdd(x: real, m: nat, n: nat)
    ensures Pow(x, m + n) == Pow(x, m) * Pow(x, n)
    decreases m
  {
    if m > 0 {
      PowAdd(x, m - 1, n);
      assert Pow(x, m + n) == x * Pow(x, m - 1 + n);
    }
  }

  lemma {:induction false} PowSquare(x: real, n: nat)
    ensures Pow(Square(x), n) == Pow(x, 2 * n)
    decreases n
  {
    if n > 0 {
      PowSquare(x, n - 1);
      PowAdd(x, 2, 2 * (n - 1));
      PowSmall(x);
      assert 2 * n == 2 + 2 * (n - 1);
    }
  }

  /** The textbook 12-6 law written in the squared distance s = r*r, with
      u = sigma^2/s: 4 eps ((sigma/r)^12 - (sigma/r)^6) = 4 eps (u^6 - u^3). */
  function TwelveSix(epsilon: real, sigma: real, distSqr: real): real
    requires distSqr != 0.0
  {
    var u := Square(sigma) / distSqr;
    4.0 * epsilon * (Pow(u, 6) - Pow(u, 3))
  }

  /** d TwelveSix / d distSqr: by the chain rule with du/ds = -u/s,
      4 eps (6 u^5 - 3 u^2) (-u/s) = 4 eps (-6 u^6 + 3 u^3) / s. */
  function EnergySlope(epsilon: real, sigma: real, distSqr: real): real
    requires distSqr != 0.0
  {
    var u := Square(sigma) / distSqr;
    4.0 * epsilon * (-6.0 * Pow(u, 6) + 3.0 * Pow(u, 3)) / distSqr
  }

  /** The code's frac6 = frac2^3 and frac6^2 are the third and sixth powers. */
  lemma RatioPowers(u: real)
    ensures Pow(u, 3) == Cube(u) && Pow(u, 6) == Square(Cube(u))
  {
    PowSmall(u);
    PowAdd(u, 3, 3);
  }

  lemma ScaleByInverse(x: real, y: real)
    requires y != 0.0
    ensures x * (1.0 / y) == x / y
  {
  }

  /** The code's frac6, formed from frac2 = sigma^2/s, is sigma^6/s^3. */
  lemma Frac6Quotient(sigma: real, distSqr: real)
    requires distSqr != 0.0
    ensures Pow(distSqr, 3) != 0.0
    ensures Cube(Square(sigma) / distSqr) == Pow(sigma, 6) / Pow(distSqr, 3)
  {
    var frac2 := Square(sigma) / distSqr;
    PowQuotient(Square(sigma), distSqr, 3);
    PowSmall(frac2);
    PowSquare(sigma, 3);
  }

  /** Pair-potential parameters as the force and energy loops see them:
      well depth, length scale and the cached squared cutoff. */
  datatype BasicComputer = BasicComputer(epsilon: real, sigma: real, cutoffSqr: real) {

    /** The energy at squared distance distSqr: exactly zero at and beyond the
        cutoff (the comparison is a strict `<`), the 12-6 law inside it (see
        EnergyIsTwelveSix). Zero separation inside the cutoff divides by zero
        and is excluded. */
    function ComputeEnergySqr(distSqr: real): (e: real)
      requires distSqr < cutoffSqr ==> distSqr != 0.0
      ensures distSqr >= cutoffSqr ==> e == 0.0
    {
      if distSqr < cutoffSqr then
        var frac2 := Square(sigma) / distSqr;
        var frac6 := Cube(frac2);
        4.0 * epsilon * (Square(frac6) - frac6)
      else
        0.0
    }

    /** The scalar `ffactor` of the force loop, as written: frac2 is sigma/distSqr,
        not sigma^2/distSqr as in the energy. */
    function ForceFactor(distSqr: real): real
      requires distSqr != 0.0
    {
      var frac2 := sigma / distSqr;
      var frac6 := Cube(frac2);
      48.0 * epsilon * (Square(frac6) - 0.5 * frac6) * frac2
    }

    /** The force on the first particle of a pair with displacement dist: the
        zero vector at and beyond the cutoff, otherwise dist scaled by the
        factor, so always along the line joining the two particles. */
    function ComputeForce(dist: Real3D): (f: Real3D)
      requires Sqr(dist) < cutoffSqr ==> Sqr(dist) != 0.0
      ensures Sqr(dist) >= cutoffSqr ==> f == Zero
      ensures Sqr(dist) < cutoffSqr ==> f == Scale(dist, ForceFactor(Sqr(dist)))
      ensures Cross(f, dist) == Zero
    {
      var distSqr := Sqr(dist);
      if distSqr < cutoffSqr then
        var ffactor := ForceFactor(distSqr);
        CrossScaleSelf(dist, ffactor);
        Scale(dist, ffactor)
      else
        Zero
    }

    /** The force factor the energy law calls for: frac2 = sigma^2/distSqr and a
        final division by distSqr (see IntendedForceFactorIsSlope). */
    function IntendedForceFactor(distSqr: real): real
      requires distSqr != 0.0
    {
      var frac2 := Square(sigma) / distSqr;
      var frac6 := Cube(frac2);
      48.0 * epsilon * (Square(frac6) - 0.5 * frac6) / distSqr
    }

    /** The force law consistent with ComputeEnergySqr: zero at and beyond the
        cutoff, otherwise dist scaled by the intended factor. */
    function IntendedForce(dist: Real3D): (f: Real3D)
      requires Sqr(dist) < cutoffSqr ==> Sqr(dist) != 0.0
      ensures Sqr(dist) >= cutoffSqr ==> f == Zero
      ensures Sqr(dist) < cutoffSqr ==> f == Scale(dist, IntendedForceFactor(Sqr(dist)))
      ensures Cross(f, dist) == Zero
    {
      var distSqr := Sqr(dist);
      if distSqr < cutoffSqr then
        var ffactor := IntendedForceFactor(distSqr);
        CrossScaleSelf(dist, ffactor);
        Scale(dist, ffactor)
      else
        Zero
    }
  }

  /** A polynomial identity used for the depth of the energy well:
      4 eps (f^2 - f) + eps = eps (2 f - 1)^2. */
  lemma WellIdentity(epsilon: real, f: real)
    ensures 4.0 * epsilon * (Square(f) - f) + epsilon == Mul(epsilon, Square(2.0 * f - 1.0))
  {
  }

  lemma QuotientIsHalf(num: real, den: real)
    requires den != 0.0
    ensures num / den == 0.5 <==> den == 2.0 * num
  {
  }

  lemma DivSelf(s: real)
    requires s != 0.0
    ensures s / s == 1.0
  {
  }

  /** Inside the cutoff the energy as computed is the textbook 12-6 law. */
  lemma EnergyIsTwelveSix(c: BasicComputer, distSqr: real)
    requires distSqr != 0.0 && distSqr < c.cutoffSqr
    ensures c.ComputeEnergySqr(distSqr) == TwelveSix(c.epsilon, c.sigma, distSqr)
  {
    RatioPowers(Square(c.sigma) / distSqr);
  }

  lemma SlopeAlgebra(epsilon: real, a: real, b: real, s: real)
    requires s != 0.0
    ensures 48.0 * epsilon * (a - 0.5 * b) / s == -2.0 * (4.0 * epsilon * (-6.0 * a + 3.0 * b) / s)
  {
  }

  /** The intended factor is minus twice the slope of the energy with respect
      to the squared distance, so IntendedForce is minus the gradient of the
      energy with respect to the displacement. */
  lemma IntendedForceFactorIsSlope(c: BasicComputer, distSqr: real)
    requires distSqr != 0.0
    ensures c.IntendedForceFactor(distSqr) == -2.0 * EnergySlope(c.epsilon, c.sigma, distSqr)
  {
    var u := Square(c.sigma) / distSqr;
    RatioPowers(u);
    SlopeAlgebra(c.epsilon, Square(Cube(u)), Cube(u), distSqr);
  }

  /** The interaction object: the cutoff and the parameter record.
      Before the first call to Set the fields hold arbitrary values. */
  class LennardJones {
    var cutoff: real
    var computer: BasicComputer

    method Set(epsilon: real, sigma: real, cutoff: real)
      modifies this
      ensures GetEpsilon() == epsilon && GetSigma() == sigma
      ensures GetCutoff() == cutoff && GetCutoffSqr() == Square(cutoff)
    {
      this.cutoff := cutoff;
      computer := BasicComputer(epsilon, sigma, Square(this.cutoff));
    }

    function GetCutoff(): real
      reads this
    {
      cutoff
    }

    function GetEpsilon(): real
      reads this
    {
      computer.epsilon
    }

    function GetSigma(): real
      reads this
    {
      computer.sigma
    }

    function GetCutoffSqr(): real
      reads this
    {
      computer.cutoffSqr
    }

    /** Energy for a displacement vector: the squared-distance law at |dist|^2,
        zero at and beyond the cutoff. */
    function ComputeEnergy(dist: Real3D): (e: real)
      reads this
      requires Sqr(dist) < GetCutoffSqr() ==> Sqr(dist) != 0.0
      ensures Sqr(dist) >= GetCutoffSqr() ==> e == 0.0
    {
      computer.ComputeEnergySqr(Sqr(dist))
    }

    /** Energy for a scalar distance: the squared-distance law at dist*dist,
        zero at and beyond the cutoff. */
    function ComputeEnergyAt(dist: real): (e: real)
      reads this
      requires Square(dist) < GetCutoffSqr() ==> Square(dist) != 0.0
      ensures Square(dist) >= GetCutoffSqr() ==> e == 0.0
    {
      computer.ComputeEnergySqr(Square(dist))
    }

    /** Force for a displacement vector: zero at and beyond the cutoff, and
        always along the displacement. */
    function ComputeForce(dist: Real3D): (f: Real3D)
      reads this
      requires Sqr(dist) < GetCutoffSqr() ==> Sqr(dist) != 0.0
      ensures Sqr(dist) >= GetCutoffSqr() ==> f == Zero
      ensures Cross(f, dist) == Zero
    {
      computer.ComputeForce(dist)
    }
  }

  /** The vector and the scalar energy entry points agree whenever they describe
      the same squared distance, and both are the squared-distance law. */
  lemma EnergyOverloadsAgree(lj: LennardJones, dist: Real3D, r: real)
    requires Sqr(dist) == Square(r)
    requires Sqr(dist) < lj.GetCutoffSqr() ==> Sqr(dist) != 0.0
    ensures lj.ComputeEnergy(dist) == lj.ComputeEnergyAt(r) == lj.computer.ComputeEnergySqr(Sqr(dist))
  {
  }

  /** Energy vanishes at the length scale: s = sigma^2 inside the cutoff gives 0. */
  lemma EnergyZeroAtSigma(c: BasicComputer)
    requires c.sigma != 0.0 && Square(c.sigma) < c.cutoffSqr
    ensures Square(c.sigma) != 0.0 && c.ComputeEnergySqr(Square(c.sigma)) == 0.0
  {
    SquarePositive(c.sigma);
    DivSelf(Square(c.sigma));
  }

  /** With a non-negative well depth the energy never drops below -epsilon. */
  lemma EnergyBoundedByWellDepth(c: BasicComputer, distSqr: real)
    requires c.epsilon >= 0.0
    requires distSqr < c.cutoffSqr ==> distSqr != 0.0
    ensures c.ComputeEnergySqr(distSqr) >= -c.epsilon
  {
    if distSqr < c.cutoffSqr {
      var frac6 := Cube(Square(c.sigma) / distSqr);
      var d := 2.0 * frac6 - 1.0;
      WellIdentity(c.epsilon, frac6);
      SquareNonNegative(d);
      MulNonNegative(c.epsilon, Square(d));
    }
  }

  /** With a positive well depth, inside the cutoff the energy reaches -epsilon
      exactly where s^3 = 2 sigma^6, i.e. at r = 2^(1/6) sigma. */
  lemma EnergyAtWellBottom(c: BasicComputer, distSqr: real)
    requires c.epsilon > 0.0
    requires distSqr != 0.0 && distSqr < c.cutoffSqr
    ensures c.ComputeEnergySqr(distSqr) == -c.epsilon <==> Pow(distSqr, 3) == 2.0 * Pow(c.sigma, 6)
  {
    var frac6 := Cube(Square(c.sigma) / distSqr);
    EnergyInside(c, distSqr);
    WellBottomAlgebra(c.epsilon, frac6, c.ComputeEnergySqr(distSqr));
    Frac6Quotient(c.sigma, distSqr);
    QuotientIsHalf(Pow(c.sigma, 6), Pow(distSqr, 3));
  }

  /** Inside the cutoff the energy is 4 eps (frac6^2 - frac6). */
  lemma EnergyInside(c: BasicComputer, distSqr: real)
    requires distSqr != 0.0 && distSqr < c.cutoffSqr
    ensures c.ComputeEnergySqr(distSqr) == 4.0 * c.epsilon * (Square(Cube(Square(c.sigma) / distSqr)) - Cube(Square(c.sigma) / distSqr))
  {
  }

  /** 4 eps (f^2 - f) = -eps, for eps > 0, holds exactly at f = 1/2. */
  lemma WellBottomAlgebra(epsilon: real, f: real, e: real)
    requires epsilon > 0.0 && e == 4.0 * epsilon * (Square(f) - f)
    ensures e == -epsilon <==> f == 0.5
  {
    var d := 2.0 * f - 1.0;
    WellIdentity(epsilon, f);
    if e == -epsilon {
      ProductZero(epsilon, Square(d));
      SquareZero(d);
    }
  }

  /** The force is odd in the displacement: reversing the pair reverses the force. */
  lemma ForceIsOdd(c: BasicComputer, dist: Real3D)
    requires Sqr(dist) < c.cutoffSqr ==> Sqr(dist) != 0.0
    ensures Sqr(Neg(dist)) == Sqr(dist)
    ensures c.ComputeForce(Neg(dist)) == Neg(c.ComputeForce(dist))
  {
    assert Sqr(Neg(dist)) == Sqr(dist);
  }

  /** With unit length scale the force factor as written agrees with the one the
      energy law calls for. */
  lemma ForceFactorAgreesForUnitSigma(c: BasicComputer, distSqr: real)
    requires c.sigma == 1.0 && distSqr != 0.0
    ensures c.ForceFactor(distSqr) == c.IntendedForceFactor(distSqr)
  {
    var frac6 := Cube(1.0 / distSqr);
    assert Square(c.sigma) == 1.0;
    ScaleByInverse(48.0 * c.epsilon * (Square(frac6) - 0.5 * frac6), distSqr);
  }

  /** For sigma = 2 the force factor as written is not minus twice the energy's
      slope: at distSqr = 1 it is 5760 where the energy law calls for 195072. */
  lemma ForceFactorMismatch()
    ensures BasicComputer(1.0, 2.0, 9.0).ForceFactor(1.0) == 5760.0
    ensures BasicComputer(1.0, 2.0, 9.0).IntendedForceFactor(1.0) == 195072.0
    ensures -2.0 * EnergySlope(1.0, 2.0, 1.0) == 195072.0
  {
    IntendedForceFactorIsSlope(BasicComputer(1.0, 2.0, 9.0), 1.0);
  }
}
