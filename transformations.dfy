/** The `transformation` package: datum transformations to and from WGS84
    as pairs of optional coordinate mappings, chained by translations and
    Helmert steps, and the plain `GeocentricTranslation` struct. */
module Transformations {
  import opened Geo
  import HelmertFormula

  /** `Transformation{toWGS84, fromWGS84}`: either mapping may be nil. */
  datatype Transformation = Transformation(toWGS84: Option<Func>, fromWGS84: Option<Func>)
  {
    /** A nil mapping returns its input. */
    function ToWGS84(p: Triple): Triple
    {
      match toWGS84
      case None => p
      case Some(f) => f(p)
    }

    function FromWGS84(p: Triple): Triple
    {
      match fromWGS84
      case None => p
      case Some(f) => f(p)
    }

    /** FromWGS84 undoes ToWGS84 on every point, and the other way round. */
    ghost predicate Inverts()
    {
      (forall p :: FromWGS84(ToWGS84(p)) == p) && (forall p :: ToWGS84(FromWGS84(p)) == p)
    }

    /** Chains a translation by (tx, ty, tz) after this transformation. */
    function GeocentricTranslation(tx: real, ty: real, tz: real): Transformation
    {
      Transformation(Some(p => TranslatedToWGS84(this, Triple(tx, ty, tz), p)),
                     Some(p => TranslatedFromWGS84(this, Triple(tx, ty, tz), p)))
    }

    /** Chains a seven-parameter Helmert step after this transformation; the
        way back applies the negated parameters first. */
    function Helmert(tx: real, ty: real, tz: real, rx: real, ry: real, rz: real, ds: real): Transformation
    {
      var h := HelmertFormula.Helmert(tx, ty, tz, rx, ry, rz, ds);
      Transformation(Some(p => HelmertToWGS84(this, h, p)), Some(p => HelmertFromWGS84(this, h, p)))
    }

    /** Going to WGS84 the translation applies this transformation first
        and then adds (tx, ty, tz). */
    lemma TranslationToWGS84Order(tx: real, ty: real, tz: real, p: Triple)
      ensures GeocentricTranslation(tx, ty, tz).ToWGS84(p) == Add(ToWGS84(p), Triple(tx, ty, tz))
    {
    }

    /** Coming back the translation subtracts (tx, ty, tz) first and then
        applies this transformation's inverse. */
    lemma TranslationFromWGS84Order(tx: real, ty: real, tz: real, p: Triple)
      ensures GeocentricTranslation(tx, ty, tz).FromWGS84(p) == FromWGS84(Sub(p, Triple(tx, ty, tz)))
    {
    }

    /** A translation chained after an exactly invertible transformation is
        exactly invertible. */
    lemma TranslationKeepsInverse(tx: real, ty: real, tz: real)
      requires Inverts()
      ensures GeocentricTranslation(tx, ty, tz).Inverts()
    {
      var g := GeocentricTranslation(tx, ty, tz);
      var t := Triple(tx, ty, tz);
      forall p
        ensures g.FromWGS84(g.ToWGS84(p)) == p
      {
        TranslationToWGS84Order(tx, ty, tz, p);
        TranslationFromWGS84Order(tx, ty, tz, g.ToWGS84(p));
        assert Sub(Add(ToWGS84(p), t), t) == ToWGS84(p);
      }
      forall p
        ensures g.ToWGS84(g.FromWGS84(p)) == p
      {
        TranslationFromWGS84Order(tx, ty, tz, p);
        TranslationToWGS84Order(tx, ty, tz, g.FromWGS84(p));
        assert ToWGS84(FromWGS84(Sub(p, t))) == Sub(p, t);
      }
    }

    /** Going to WGS84 the Helmert step with the parameters as given is
        applied after this transformation. */
    lemma HelmertToWGS84Order(tx: real, ty: real, tz: real, rx: real, ry: real, rz: real, ds: real, p: Triple)
      ensures Helmert(tx, ty, tz, rx, ry, rz, ds).ToWGS84(p)
           == HelmertFormula.Helmert(tx, ty, tz, rx, ry, rz, ds).Forward(ToWGS84(p))
    {
    }

    /** Coming back the step with the negated parameters comes first, then
        this transformation's inverse. */
    lemma HelmertFromWGS84Order(tx: real, ty: real, tz: real, rx: real, ry: real, rz: real, ds: real, p: Triple)
      ensures Helmert(tx, ty, tz, rx, ry, rz, ds).FromWGS84(p)
           == FromWGS84(HelmertFormula.Helmert(tx, ty, tz, rx, ry, rz, ds).Inverse(p))
    {
    }

    /** A pure-translation Helmert step keeps an exact inverse exact. */
    lemma HelmertTranslationKeepsInverse(tx: real, ty: real, tz: real)
      requires Inverts()
      ensures Helmert(tx, ty, tz, 0.0, 0.0, 0.0, 0.0).Inverts()
    {
      var g := Helmert(tx, ty, tz, 0.0, 0.0, 0.0, 0.0);
      var h := HelmertFormula.Helmert(tx, ty, tz, 0.0, 0.0, 0.0, 0.0);
      forall p
        ensures g.FromWGS84(g.ToWGS84(p)) == p
      {
        HelmertToWGS84Order(tx, ty, tz, 0.0, 0.0, 0.0, 0.0, p);
        HelmertFromWGS84Order(tx, ty, tz, 0.0, 0.0, 0.0, 0.0, g.ToWGS84(p));
        h.TranslationRoundTrip(ToWGS84(p));
      }
      forall p
        ensures g.ToWGS84(g.FromWGS84(p)) == p
      {
        HelmertFromWGS84Order(tx, ty, tz, 0.0, 0.0, 0.0, 0.0, p);
        HelmertToWGS84Order(tx, ty, tz, 0.0, 0.0, 0.0, 0.0, g.FromWGS84(p));
        h.TranslationRoundTrip(h.Inverse(p));
        h.TranslationRoundTrip(p);
      }
    }
  }

  /** The closure bodies of GeocentricTranslation. */
  function TranslatedToWGS84(inner: Transformation, t: Triple, p: Triple): Triple
  {
    Add(inner.ToWGS84(p), t)
  }

  function TranslatedFromWGS84(inner: Transformation, t: Triple, p: Triple): Triple
  {
    inner.FromWGS84(Sub(p, t))
  }

  /** The closure bodies of Helmert: the package-local `helmert` with the
      parameters as given, and with all seven negated. That function is the
      same formula as the root package's calcHelmert, so it is the one
      definition HelmertFormula.CalcHelmert here. */
  function HelmertToWGS84(inner: Transformation, h: HelmertFormula.Helmert, p: Triple): Triple
  {
    h.Forward(inner.ToWGS84(p))
  }

  function HelmertFromWGS84(inner: Transformation, h: HelmertFormula.Helmert, p: Triple): Triple
  {
    inner.FromWGS84(h.Inverse(p))
  }

  /** The standard transformation: identity both ways. */
  function WGS84(): Transformation
  {
    Transformation(Some(p => p), Some(p => p))
  }

  /** WGS84() returns every point unchanged, both ways, and so inverts. */
  lemma WGS84IsIdentity(p: Triple)
    ensures WGS84().ToWGS84(p) == p && WGS84().FromWGS84(p) == p
    ensures WGS84().Inverts()
  {
  }

  /** A Transformation whose mappings are nil returns its input and inverts. */
  lemma NilIsIdentity(p: Triple)
    ensures Transformation(None, None).ToWGS84(p) == p
    ensures Transformation(None, None).FromWGS84(p) == p
    ensures Transformation(None, None).Inverts()
  {
  }

  /** `GeocentricTranslation{Tx, Ty, Tz}`. */
  datatype GeocentricTranslation = GeocentricTranslation(tx: real, ty: real, tz: real)
  {
    function Vector(): Triple { Triple(tx, ty, tz) }

    /** Adds (Tx, Ty, Tz) componentwise. */
    function ToWGS84(p: Triple): (r: Triple)
      ensures r.a == p.a + tx && r.b == p.b + ty && r.c == p.c + tz
    {
      Add(p, Vector())
    }

    /** Subtracts (Tx, Ty, Tz) componentwise. */
    function FromWGS84(p: Triple): (r: Triple)
      ensures r.a == p.a - tx && r.b == p.b - ty && r.c == p.c - tz
    {
      Sub(p, Vector())
    }

    /** The two directions undo each other exactly. */
    lemma RoundTrip(p: Triple)
      ensures FromWGS84(ToWGS84(p)) == p && ToWGS84(FromWGS84(p)) == p
    {
    }

    /** The struct behaves like WGS84() chained with the same translation. */
    lemma AgreesWithChainedTranslation(p: Triple)
      ensures ToWGS84(p) == WGS84().GeocentricTranslation(tx, ty, tz).ToWGS84(p)
      ensures FromWGS84(p) == WGS84().GeocentricTranslation(tx, ty, tz).FromWGS84(p)
    {
    }
  }

  /** A zero translation is the identity. */
  lemma ZeroTranslationIsIdentity(p: Triple)
    ensures GeocentricTranslation(0.0, 0.0, 0.0).ToWGS84(p) == p
    ensures GeocentricTranslation(0.0, 0.0, 0.0).FromWGS84(p) == p
  {
  }
}
