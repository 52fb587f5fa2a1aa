/** The spheroid package: an ellipsoid of revolution given by its major axis
    and its inverse flattening, whose zero value behaves like WGS84, and the
    derived terms the projections use. */
module Spheroids {

  const WgsMajorAxis: real := 6378137.0
  const WgsInverseFlattening: real := 298.257223563

  /** `Spheroid{a, fi}`; a zero field falls back to the WGS84 value. */
  datatype Spheroid = Spheroid(a: real, fi: real)
  {
    /** The major axis; the WGS84 one when `a` is zero. */
    function A(): (r: real)
      ensures r != 0.0
    {
      if a == 0.0 then WgsMajorAxis else a
    }

    /** The inverse flattening; the WGS84 one when `fi` is zero. */
    function Fi(): (r: real)
      ensures r != 0.0
    {
      if fi == 0.0 then WgsInverseFlattening else fi
    }

    function A2(): real
    {
      A() * A()
    }

    function Fi2(): real
    {
      Fi() * Fi()
    }

    /** The flattening. */
    function F(): real
    {
      1.0 / Fi()
    }

    function F2(): real
    {
      F() * F()
    }

    /** The minor axis. */
    function B(): real
    {
      A() * (1.0 - F())
    }

    /** The squared first eccentricity. */
    function E2(): real
    {
      2.0 / Fi() - F2()
    }

    function E4(): real
    {
      E2() * E2()
    }

    function E6(): real
    {
      E4() * E2()
    }

    /** `math.Sqrt(1 - E2())`: since 1 - E2 is the square (1 - F)^2, its
        square root is |1 - F|, which keeps Ei exact. */
    function RootOneMinusE2(): (r: real)
      ensures r >= 0.0 && r * r == 1.0 - E2()
    {
      FlatteningIdentities();
      if F() <= 1.0 then 1.0 - F() else F() - 1.0
    }

    /** The third flattening (1 - sqrt(1 - E2)) / (1 + sqrt(1 - E2)). */
    function Ei(): real
    {
      var root := RootOneMinusE2();
      (1.0 - root) / (1.0 + root)
    }

    function Ei2(): real
    {
      Ei() * Ei()
    }

    function Ei3(): real
    {
      Ei2() * Ei()
    }

    function Ei4(): real
    {
      Ei3() * Ei()
    }

    /** The rational identities between the derived terms. */
    lemma FlatteningIdentities()
      ensures F() * Fi() == 1.0
      ensures B() == A() * (1.0 - F())
      ensures A2() == A() * A() && F2() == F() * F()
      ensures E2() == F() * (2.0 - F())
      ensures 1.0 - E2() == (1.0 - F()) * (1.0 - F())
    {
      var f := F();
      assert f * Fi() == 1.0;
      assert 2.0 / Fi() == 2.0 * f;
    }

    /** B^2 = A^2 (1 - E2): the minor axis follows from the eccentricity. */
    lemma MinorAxisSquared()
      ensures B() * B() == A2() * (1.0 - E2())
    {
      FlatteningIdentities();
      var a, f := A(), F();
      calc {
        B() * B();
        (a * (1.0 - f)) * (a * (1.0 - f));
        (a * a) * ((1.0 - f) * (1.0 - f));
        A2() * (1.0 - E2());
      }
    }

    /** E4 and E6 are the second and third powers of E2. */
    lemma EccentricityPowers()
      ensures E4() == E2() * E2()
      ensures E6() == E2() * E2() * E2()
    {
    }

    /** An inverse flattening above one gives a proper ellipse: 0 < E2 < 1. */
    lemma EccentricityBounds()
      requires Fi() > 1.0
      ensures 0.0 < E2() < 1.0
    {
      FlatteningIdentities();
      var f := F();
      assert 0.0 < f < 1.0 by {
        assert f * Fi() == 1.0;
      }
      ProductPositive(f, 2.0 - f, E2());
      ProductPositive(1.0 - f, 1.0 - f, 1.0 - E2());
    }

    /** Ei2, Ei3 and Ei4 are the second, third and fourth powers of Ei. */
    lemma ThirdFlatteningPowers()
      ensures Ei2() == Ei() * Ei()
      ensures Ei3() == Ei() * Ei() * Ei()
      ensures Ei4() == Ei() * Ei() * Ei() * Ei()
    {
    }

    /** For an inverse flattening of at least one, Ei is the third flattening
        (A - B) / (A + B) = F / (2 - F) of the ellipse. */
    lemma ThirdFlatteningIsAxisRatio()
      requires Fi() >= 1.0
      ensures Ei() == F() / (2.0 - F())
      ensures A() + B() != 0.0 && Ei() == (A() - B()) / (A() + B())
    {
      FlatteningIdentities();
      var a, f := A(), F();
      assert 0.0 < f <= 1.0 by {
        assert f * Fi() == 1.0;
      }
      assert RootOneMinusE2() == 1.0 - f;
      assert Ei() == f / (2.0 - f);
      assert a - B() == a * f;
      assert a + B() == a * (2.0 - f);
      assert (a * f) / (a * (2.0 - f)) == f / (2.0 - f);
    }
  }

  /** A product of two positive reals, named `p`, is positive. */
  lemma ProductPositive(a: real, b: real, p: real)
    requires 0.0 < a && 0.0 < b && p == a * b
    ensures 0.0 < p
  {
  }

  /** The zero value of a Spheroid is WGS84 in every derived term. */
  lemma ZeroValueIsWgs84()
    ensures Spheroid(0.0, 0.0).A() == WGS84().A() == 6378137.0
    ensures Spheroid(0.0, 0.0).Fi() == WGS84().Fi() == 298.257223563
    ensures Spheroid(0.0, 0.0).E2() == WGS84().E2()
    ensures Spheroid(0.0, 0.0).Ei() == WGS84().Ei()
  {
  }

  /** A spheroid built by New reports exactly its non-zero parameters. */
  lemma NewKeepsParameters(a: real, fi: real)
    requires a != 0.0 && fi != 0.0
    ensures New(a, fi).A() == a && New(a, fi).Fi() == fi
  {
  }

  /** Every named spheroid is a proper ellipse. */
  lemma NamedSpheroidsAreEllipses(s: Spheroid)
    requires s in {WGS84(), GRS80(), Bessel(), Airy(), Hayford(), Krassowsky()}
    ensures 0.0 < s.E2() < 1.0
  {
    s.EccentricityBounds();
  }

  function WGS84(): Spheroid { Spheroid(WgsMajorAxis, WgsInverseFlattening) }

  function GRS80(): Spheroid { Spheroid(6378137.0, 298.257222101) }

  function Bessel(): Spheroid { Spheroid(6377397.155, 299.1528128) }

  function Airy(): Spheroid { Spheroid(6377563.396, 299.3249646) }

  function Hayford(): Spheroid { Spheroid(6378388.0, 297.0) }

  function Krassowsky(): Spheroid { Spheroid(6378245.0, 298.3) }

  function New(a: real, fi: real): Spheroid { Spheroid(a, fi) }
}
