/** The seven-parameter Helmert transformation of the root package: a
    translation (tx, ty, tz) in metres, small rotations (rx, ry, rz) in arc
    seconds and a scale change ds in parts per million, applied to
    geocentric coordinates. */
module HelmertFormula {
  import opened Geo

  /** math.Pi as a float64 decimal. */
  const Pi: real := 3.141592653589793
  /** One arc second in radians. */
  const Asec: real := Pi / 648000.0
  /** One part per million. */
  const Ppm: real := 0.000001

  /** The cross product r × p. */
  function Cross(r: Triple, p: Triple): Triple
  {
    Triple(r.b * p.c - r.c * p.b, r.c * p.a - r.a * p.c, r.a * p.b - r.b * p.a)
  }

  /** The bracket `x + z*m*asec - y*n*asec` that each output of the formula
      scales; the three outputs rotate (x, y, z) and (rx, ry, rz) through it. */
  function Bracket(x: real, y: real, z: real, m: real, n: real): real
  {
    x + z * m * Asec - y * n * Asec
  }

  /** The three brackets of the formula for the rotation (rx, ry, rz). */
  function Rotated(p: Triple, rx: real, ry: real, rz: real): Triple
  {
    Triple(Bracket(p.a, p.b, p.c, ry, rz),
           Bracket(p.b, p.c, p.a, rz, rx),
           Bracket(p.c, p.a, p.b, rx, ry))
  }

  /** The scale factor 1 + ds ppm. */
  function Factor(ds: real): real
  {
    1.0 + ds * Ppm
  }

  /** calcHelmert: the formula shared by Forward and Inverse,
      x0 = (1 + ds ppm)(x + z ry asec - y rz asec) + tx and so on. */
  function CalcHelmert(p: Triple, tx: real, ty: real, tz: real,
                       rx: real, ry: real, rz: real, ds: real): Triple
  {
    Triple(Factor(ds) * Bracket(p.a, p.b, p.c, ry, rz) + tx,
           Factor(ds) * Bracket(p.b, p.c, p.a, rz, rx) + ty,
           Factor(ds) * Bracket(p.c, p.a, p.b, rx, ry) + tz)
  }

  /** The `helmert` struct. */
  datatype Helmert = Helmert(tx: real, ty: real, tz: real,
                             rx: real, ry: real, rz: real, ds: real)
  {
    function Translation(): Triple { Triple(tx, ty, tz) }

    function Rotation(): Triple { Triple(rx, ry, rz) }

    /** The same transformation with all seven parameters negated. */
    function Negated(): Helmert
    {
      Helmert(-tx, -ty, -tz, -rx, -ry, -rz, -ds)
    }

    function Forward(p: Triple): Triple
    {
      CalcHelmert(p, tx, ty, tz, rx, ry, rz, ds)
    }

    function Inverse(p: Triple): Triple
    {
      CalcHelmert(p, -tx, -ty, -tz, -rx, -ry, -rz, -ds)
    }

    /** Forward is a scaled small rotation plus a translation:
        (1 + ds ppm) (p + asec (r × p)) + t. */
    lemma ForwardIsScaledRotation(p: Triple)
      ensures Forward(p) == Add(Scale(1.0 + ds * Ppm, Add(p, Scale(Asec, Cross(Rotation(), p)))), Translation())
    {
      var s := 1.0 + ds * Ppm;
      var q := Add(p, Scale(Asec, Cross(Rotation(), p)));
      assert q.a == p.a + p.c * ry * Asec - p.b * rz * Asec;
      assert q.b == p.b + p.a * rz * Asec - p.c * rx * Asec;
      assert q.c == p.c + p.b * rx * Asec - p.a * ry * Asec;
    }

    /** Inverse is Forward of the negated parameters, and negating twice
        gives back the original parameters. */
    lemma InverseIsNegatedForward(p: Triple)
      ensures Inverse(p) == Negated().Forward(p)
      ensures Negated().Negated() == this
      ensures Negated().Inverse(p) == Forward(p)
    {
    }

    /** With only a translation, Forward and Inverse undo each other exactly. */
    lemma TranslationRoundTrip(p: Triple)
      requires rx == 0.0 && ry == 0.0 && rz == 0.0 && ds == 0.0
      ensures Forward(p) == Add(p, Translation())
      ensures Inverse(Forward(p)) == p && Forward(Inverse(p)) == p
    {
      NoRotation(p, rx, ry, rz);
      NoRotation(p, -rx, -ry, -rz);
      NoRotation(Forward(p), -rx, -ry, -rz);
      NoRotation(Inverse(p), rx, ry, rz);
    }

    /** Without rotation the formula scales the point and translates it. */
    lemma ScaledTranslation(p: Triple)
      requires rx == 0.0 && ry == 0.0 && rz == 0.0
      ensures Forward(p) == Add(Scale(Factor(ds), p), Translation())
    {
      ForwardLessTranslation(p);
      NoRotation(p, rx, ry, rz);
    }

    /** Forward(p) - t is the scaled brackets. */
    lemma ForwardLessTranslation(p: Triple)
      ensures Sub(Forward(p), Translation()) == Scale(Factor(ds), Rotated(p, rx, ry, rz))
    {
    }

    /** Forward(p) - t is additive in p. */
    lemma ForwardAdditive(p: Triple, q: Triple)
      ensures Sub(Forward(Add(p, q)), Translation())
           == Add(Sub(Forward(p), Translation()), Sub(Forward(q), Translation()))
    {
      var s := Factor(ds);
      ForwardLessTranslation(p);
      ForwardLessTranslation(q);
      ForwardLessTranslation(Add(p, q));
      RotatedAdditive(p, q, rx, ry, rz);
      ScaleDistributes(s, Rotated(p, rx, ry, rz), Rotated(q, rx, ry, rz));
    }

    /** Forward(p) - t is homogeneous in p. */
    lemma ForwardHomogeneous(p: Triple, k: real)
      ensures Sub(Forward(Scale(k, p)), Translation()) == Scale(k, Sub(Forward(p), Translation()))
    {
      var s := Factor(ds);
      ForwardLessTranslation(p);
      ForwardLessTranslation(Scale(k, p));
      RotatedHomogeneous(p, k, rx, ry, rz);
      ScaleCommutes(s, k, Rotated(p, rx, ry, rz));
    }
  }

  /** Without rotation the brackets give back the point. */
  lemma NoRotation(p: Triple, rx: real, ry: real, rz: real)
    requires rx == 0.0 && ry == 0.0 && rz == 0.0
    ensures Rotated(p, rx, ry, rz) == p
  {
    BracketNoRotation(p.a, p.b, p.c, ry, rz);
    BracketNoRotation(p.b, p.c, p.a, rz, rx);
    BracketNoRotation(p.c, p.a, p.b, rx, ry);
  }

  lemma BracketNoRotation(x: real, y: real, z: real, m: real, n: real)
    requires m == 0.0 && n == 0.0
    ensures Bracket(x, y, z, m, n) == x
  {
  }

  /** The brackets are additive in the point. */
  lemma RotatedAdditive(p: Triple, q: Triple, rx: real, ry: real, rz: real)
    ensures Rotated(Add(p, q), rx, ry, rz) == Add(Rotated(p, rx, ry, rz), Rotated(q, rx, ry, rz))
  {
    BracketAdditive(p.a, p.b, p.c, q.a, q.b, q.c, ry, rz);
    BracketAdditive(p.b, p.c, p.a, q.b, q.c, q.a, rz, rx);
    BracketAdditive(p.c, p.a, p.b, q.c, q.a, q.b, rx, ry);
  }

  /** The brackets are homogeneous in the point. */
  lemma RotatedHomogeneous(p: Triple, k: real, rx: real, ry: real, rz: real)
    ensures Rotated(Scale(k, p), rx, ry, rz) == Scale(k, Rotated(p, rx, ry, rz))
  {
    var u, v := Rotated(Scale(k, p), rx, ry, rz), Rotated(p, rx, ry, rz);
    assert u.a == k * v.a by { BracketHomogeneous(p.a, p.b, p.c, k, ry, rz); }
    assert u.b == k * v.b by { BracketHomogeneous(p.b, p.c, p.a, k, rz, rx); }
    assert u.c == k * v.c by { BracketHomogeneous(p.c, p.a, p.b, k, rx, ry); }
  }

  lemma BracketAdditive(x: real, y: real, z: real, x2: real, y2: real, z2: real, m: real, n: real)
    ensures Bracket(x + x2, y + y2, z + z2, m, n) == Bracket(x, y, z, m, n) + Bracket(x2, y2, z2, m, n)
  {
  }

  lemma BracketHomogeneous(x: real, y: real, z: real, k: real, m: real, n: real)
    ensures Bracket(k * x, k * y, k * z, m, n) == k * Bracket(x, y, z, m, n)
  {
  }

  /** Scaling by s distributes over Add. */
  lemma ScaleDistributes(s: real, u: Triple, v: Triple)
    ensures Scale(s, Add(u, v)) == Add(Scale(s, u), Scale(s, v))
  {
  }

  /** Two scalings commute. */
  lemma ScaleCommutes(s: real, k: real, u: Triple)
    ensures Scale(s, Scale(k, u)) == Scale(k, Scale(s, u))
  {
    Commute(s, k, u.a);
    Commute(s, k, u.b);
    Commute(s, k, u.c);
  }

  lemma Commute(s: real, k: real, x: real)
    ensures s * (k * x) == k * (s * x)
  {
  }

  /** All parameters zero: both directions are the identity. */
  lemma ZeroIsIdentity(p: Triple)
    ensures Helmert(0.0, 0.0, 0.0, 0.0, 0.0, 0.0, 0.0).Forward(p) == p
    ensures Helmert(0.0, 0.0, 0.0, 0.0, 0.0, 0.0, 0.0).Inverse(p) == p
  {
  }
}
