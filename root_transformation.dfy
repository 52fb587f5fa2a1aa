/** The root package's `transformation` struct and its two builders, which
    wrap an optional inner `Transformation` interface value with a
    translation or a Helmert step. */
module RootTransformation {
  import opened Geo
  import HelmertFormula

  /** A non-nil value of the `Transformation` interface: its ToWGS84 and
      FromWGS84 methods. */
  datatype Capability = Capability(toWGS84: Func, fromWGS84: Func)
  {
    ghost predicate Inverts()
    {
      (forall p :: fromWGS84(toWGS84(p)) == p) && (forall p :: toWGS84(fromWGS84(p)) == p)
    }
  }

  /** `transformation{toWGS84, fromWGS84}`: either function may be nil. */
  datatype Transformation = Transformation(toWGS84: Option<Func>, fromWGS84: Option<Func>)
  {
    /** A nil function returns its input. */
    function ToWGS84(p: Triple): Triple
    {
      match toWGS84
      case None => p
      case Some(f) => f(p)
    }

    function FromWGS84(p: Triple): Triple
    {
      match fromWGS84
      case None => p
      case Some(f) => f(p)
    }

    ghost predicate Inverts()
    {
      (forall p :: FromWGS84(ToWGS84(p)) == p) && (forall p :: ToWGS84(FromWGS84(p)) == p)
    }
  }

  /** `geocentricTranslation(t, tx, ty, tz)`. */
  function GeocentricTranslation(t: Option<Capability>, tx: real, ty: real, tz: real): Transformation
  {
    var v := Triple(tx, ty, tz);
    Transformation(Some(p => TranslationToWGS84(t, v, p)), Some(p => TranslationFromWGS84(t, v, p)))
  }

  /** Applies t when it is present, then adds v. */
  function TranslationToWGS84(t: Option<Capability>, v: Triple, p: Triple): Triple
  {
    var q := if t.Some? then t.value.toWGS84(p) else p;
    Add(q, v)
  }

  /** Subtracts v, then applies t's inverse when t is present. */
  function TranslationFromWGS84(t: Option<Capability>, v: Triple, p: Triple): Triple
  {
    var q := Sub(p, v);
    if t.None? then q else t.value.fromWGS84(q)
  }

  /** `helmert(t, tx, ty, tz, rx, ry, rz, ds)`; its closure `h` is the same
      formula as calcHelmert. */
  function Helmert(t: Option<Capability>, tx: real, ty: real, tz: real,
                   rx: real, ry: real, rz: real, ds: real): Transformation
  {
    var h := HelmertFormula.Helmert(tx, ty, tz, rx, ry, rz, ds);
    Transformation(Some(p => HelmertToWGS84(t, h, p)), Some(p => HelmertFromWGS84(t, h, p)))
  }

  /** Applies t when it is present, then h with the parameters as given. */
  function HelmertToWGS84(t: Option<Capability>, h: HelmertFormula.Helmert, p: Triple): Triple
  {
    var q := if t.Some? then t.value.toWGS84(p) else p;
    h.Forward(q)
  }

  /** Applies h with the negated parameters, then t's inverse when present. */
  function HelmertFromWGS84(t: Option<Capability>, h: HelmertFormula.Helmert, p: Triple): Triple
  {
    var q := h.Inverse(p);
    if t.None? then q else t.value.fromWGS84(q)
  }

  /** With nil functions both directions return their input. */
  lemma NilIsIdentity(p: Triple)
    ensures Transformation(None, None).ToWGS84(p) == p
    ensures Transformation(None, None).FromWGS84(p) == p
  {
  }

  /** Without an inner transformation the translation is a plain
      translation, and it is exactly invertible. */
  lemma PlainTranslation(tx: real, ty: real, tz: real, p: Triple)
    ensures GeocentricTranslation(None, tx, ty, tz).ToWGS84(p) == Add(p, Triple(tx, ty, tz))
    ensures GeocentricTranslation(None, tx, ty, tz).FromWGS84(p) == Sub(p, Triple(tx, ty, tz))
  {
  }

  /** geocentricTranslation(nil, ...) undoes itself exactly. */
  lemma PlainTranslationInverts(tx: real, ty: real, tz: real)
    ensures GeocentricTranslation(None, tx, ty, tz).Inverts()
  {
    var g := GeocentricTranslation(None, tx, ty, tz);
    forall p
      ensures g.FromWGS84(g.ToWGS84(p)) == p
    {
      PlainTranslation(tx, ty, tz, p);
      PlainTranslation(tx, ty, tz, g.ToWGS84(p));
    }
    forall p
      ensures g.ToWGS84(g.FromWGS84(p)) == p
    {
      PlainTranslation(tx, ty, tz, p);
      PlainTranslation(tx, ty, tz, g.FromWGS84(p));
    }
  }

  /** With t present, going to WGS84 applies t first and then adds. */
  lemma TranslationToWGS84Order(t: Capability, tx: real, ty: real, tz: real, p: Triple)
    ensures GeocentricTranslation(Some(t), tx, ty, tz).ToWGS84(p) == Add(t.toWGS84(p), Triple(tx, ty, tz))
  {
  }

  /** With t present, coming back subtracts first and then applies t. */
  lemma TranslationFromWGS84Order(t: Capability, tx: real, ty: real, tz: real, p: Triple)
    ensures GeocentricTranslation(Some(t), tx, ty, tz).FromWGS84(p) == t.fromWGS84(Sub(p, Triple(tx, ty, tz)))
  {
  }

  /** A translation around an exactly invertible t is exactly invertible. */
  lemma TranslationKeepsInverse(t: Capability, tx: real, ty: real, tz: real)
    requires t.Inverts()
    ensures GeocentricTranslation(Some(t), tx, ty, tz).Inverts()
  {
    var g := GeocentricTranslation(Some(t), tx, ty, tz);
    var v := Triple(tx, ty, tz);
    forall p
      ensures g.FromWGS84(g.ToWGS84(p)) == p
    {
      TranslationToWGS84Order(t, tx, ty, tz, p);
      TranslationFromWGS84Order(t, tx, ty, tz, g.ToWGS84(p));
      assert Sub(Add(t.toWGS84(p), v), v) == t.toWGS84(p);
    }
    forall p
      ensures g.ToWGS84(g.FromWGS84(p)) == p
    {
      TranslationFromWGS84Order(t, tx, ty, tz, p);
      TranslationToWGS84Order(t, tx, ty, tz, g.FromWGS84(p));
      assert t.toWGS84(t.fromWGS84(Sub(p, v))) == Sub(p, v);
    }
  }

  /** Going to WGS84: t (when present), then h with the parameters as given. */
  lemma HelmertToWGS84Order(t: Option<Capability>, tx: real, ty: real, tz: real,
                            rx: real, ry: real, rz: real, ds: real, p: Triple)
    ensures Helmert(t, tx, ty, tz, rx, ry, rz, ds).ToWGS84(p)
         == HelmertFormula.CalcHelmert(if t.Some? then t.value.toWGS84(p) else p,
                                       tx, ty, tz, rx, ry, rz, ds)
  {
  }

  /** Coming back: h with all seven parameters negated, then t (when present). */
  lemma HelmertFromWGS84Order(t: Option<Capability>, tx: real, ty: real, tz: real,
                              rx: real, ry: real, rz: real, ds: real, p: Triple)
    ensures var q := HelmertFormula.CalcHelmert(p, -tx, -ty, -tz, -rx, -ry, -rz, -ds);
            Helmert(t, tx, ty, tz, rx, ry, rz, ds).FromWGS84(p) == if t.None? then q else t.value.fromWGS84(q)
  {
  }

  /** A pure-translation Helmert step without an inner transformation is
      exactly invertible. */
  lemma HelmertTranslationInverts(tx: real, ty: real, tz: real)
    ensures Helmert(None, tx, ty, tz, 0.0, 0.0, 0.0, 0.0).Inverts()
  {
    var g := Helmert(None, tx, ty, tz, 0.0, 0.0, 0.0, 0.0);
    var h := HelmertFormula.Helmert(tx, ty, tz, 0.0, 0.0, 0.0, 0.0);
    forall p
      ensures g.FromWGS84(g.ToWGS84(p)) == p
    {
      HelmertToWGS84Order(None, tx, ty, tz, 0.0, 0.0, 0.0, 0.0, p);
      HelmertFromWGS84Order(None, tx, ty, tz, 0.0, 0.0, 0.0, 0.0, g.ToWGS84(p));
      h.TranslationRoundTrip(p);
    }
    forall p
      ensures g.ToWGS84(g.FromWGS84(p)) == p
    {
      HelmertFromWGS84Order(None, tx, ty, tz, 0.0, 0.0, 0.0, 0.0, p);
      HelmertToWGS84Order(None, tx, ty, tz, 0.0, 0.0, 0.0, 0.0, g.FromWGS84(p));
      h.TranslationRoundTrip(p);
    }
  }
}
