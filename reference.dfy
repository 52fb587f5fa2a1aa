/** The root package's coordinate reference systems (geocentric, geographic
    and projected), the `Transform` and `SafeTransform` pipelines that go
    through geocentric WGS84 coordinates, and the predefined systems. */
module References {
  import opened Geo
  import opened Datums

  /** A pair of plane or angular coordinates. */
  datatype Plane = Plane(x: real, y: real)

  /** The numeric conversions the pipelines call: `lonLatToXYZ` and
      `xyzToLonLat` with a major axis and an inverse flattening, and each
      projection's ToLonLat and FromLonLat with the datum as its spheroid.
      They are parameters of the model. */
  datatype Geodesy = Geodesy(
    lonLatToXYZ: (Triple, real, real) -> Triple,
    xyzToLonLat: (Triple, real, real) -> Triple,
    toLonLat: (Projection, real, real, SpheroidValue) -> Plane,
    fromLonLat: (Projection, real, real, SpheroidValue) -> Plane)
  {
    /** xyzToLonLat undoes lonLatToXYZ for the spheroid (a, fi). */
    ghost predicate GeodeticInverts(a: real, fi: real)
    {
      forall q :: xyzToLonLat(lonLatToXYZ(q, a, fi), a, fi) == q
    }

    /** fromLonLat undoes toLonLat for the projection and spheroid. */
    ghost predicate ProjectionInverts(proj: Projection, s: SpheroidValue)
    {
      forall e, n :: fromLonLat(proj, toLonLat(proj, e, n, s).x, toLonLat(proj, e, n, s).y, s) == Plane(e, n)
    }
  }

  /** The datum as a value of the Spheroid interface. */
  function SpheroidOf(d: Datum): (s: SpheroidValue)
    ensures s.a == d.A() && s.fi == d.Fi()
  {
    SpheroidValue(d.A(), d.Fi())
  }

  /** A non-nil value of the `CoordinateReferenceSystem` interface: one of
      the package's three struct types, or any other implementation given
      by its methods. */
  datatype Crs =
    | Geocentric(geocentric: GeocentricReferenceSystem)
    | Geographic(geographic: GeographicReferenceSystem)
    | Projected(projected: ProjectedReferenceSystem)
    | Custom(toWGS84: Func, fromWGS84: Func, contains: LonLatPredicate)
  {
    /** The geocentric and geographic systems use their datum's area. */
    function Contains(lon: real, lat: real): bool
    {
      match this
      case Geocentric(c) => c.datum.Contains(lon, lat)
      case Geographic(c) => c.datum.Contains(lon, lat)
      case Projected(c) => c.Contains(lon, lat)
      case Custom(_, _, f) => f(lon, lat)
    }
  }

  /** Geographic (lon, lat, h) on the datum to geocentric WGS84. */
  function GeographicToWGS84(g: Geodesy, d: Datum, p: Triple): Triple
  {
    d.Forward(g.lonLatToXYZ(p, d.A(), d.Fi()))
  }

  function GeographicFromWGS84(g: Geodesy, d: Datum, p: Triple): Triple
  {
    g.xyzToLonLat(d.Inverse(p), d.A(), d.Fi())
  }

  /** A projected system with a nil projection converts as its datum's
      WebMercator system does. */
  function ProjectedToWGS84(g: Geodesy, crs: ProjectedReferenceSystem, p: Triple): Triple
    decreases if crs.projection.None? then 1 else 0
  {
    if crs.projection.None? then ProjectedToWGS84(g, crs.datum.WebMercator(), p)
    else
      var d := crs.datum;
      var ll := g.toLonLat(crs.projection.value, p.a, p.b, SpheroidOf(d));
      GeographicToWGS84(g, d, Triple(ll.x, ll.y, p.c))
  }

  function ProjectedFromWGS84(g: Geodesy, crs: ProjectedReferenceSystem, p: Triple): Triple
    decreases if crs.projection.None? then 1 else 0
  {
    if crs.projection.None? then ProjectedFromWGS84(g, crs.datum.WebMercator(), p)
    else
      var d := crs.datum;
      var q := GeographicFromWGS84(g, d, p);
      var en := g.fromLonLat(crs.projection.value, q.a, q.b, SpheroidOf(d));
      Triple(en.x, en.y, q.c)
  }

  /** The ToWGS84 method of each system. */
  function ToWGS84(g: Geodesy, crs: Crs, p: Triple): Triple
  {
    match crs
    case Geocentric(c) => c.datum.Forward(p)
    case Geographic(c) => GeographicToWGS84(g, c.datum, p)
    case Projected(c) => ProjectedToWGS84(g, c, p)
    case Custom(f, _, _) => f(p)
  }

  /** The FromWGS84 method of each system. */
  function FromWGS84(g: Geodesy, crs: Crs, p: Triple): Triple
  {
    match crs
    case Geocentric(c) => c.datum.Inverse(p)
    case Geographic(c) => GeographicFromWGS84(g, c.datum, p)
    case Projected(c) => ProjectedFromWGS84(g, c, p)
    case Custom(_, f, _) => f(p)
  }

  /** A nil projection behaves like the datum's WebMercator system in both
      directions; the system's own area still counts in Contains. */
  lemma NilProjectionIsWebMercator(g: Geodesy, d: Datum, area: Option<Area>, p: Triple, lon: real, lat: real)
    ensures ProjectedToWGS84(g, ProjectedReferenceSystem(d, None, area), p)
         == ProjectedToWGS84(g, ProjectedReferenceSystem(d, Some(WebMercatorProjection), None), p)
    ensures ProjectedFromWGS84(g, ProjectedReferenceSystem(d, None, area), p)
         == ProjectedFromWGS84(g, ProjectedReferenceSystem(d, Some(WebMercatorProjection), None), p)
    ensures ProjectedReferenceSystem(d, None, area).Contains(lon, lat)
        <==> d.Contains(lon, lat) && (area.None? || area.value.Contains(lon, lat))
  {
  }

  /** A geocentric system converts with its datum's transformation only. */
  lemma GeocentricUsesDatumOnly(g: Geodesy, d: Datum, p: Triple)
    ensures ToWGS84(g, Geocentric(d.XYZ()), p) == d.Forward(p)
    ensures FromWGS84(g, Geocentric(d.XYZ()), p) == d.Inverse(p)
    ensures d.transformation.None? ==> ToWGS84(g, Geocentric(d.XYZ()), p) == p
  {
  }

  /** A geographic system on a datum without transformation comes back to
      its starting point whenever xyzToLonLat undoes lonLatToXYZ. */
  lemma GeographicRoundTrip(g: Geodesy, d: Datum, p: Triple)
    requires d.transformation.None?
    requires g.GeodeticInverts(d.A(), d.Fi())
    ensures FromWGS84(g, Geographic(d.LonLat()), ToWGS84(g, Geographic(d.LonLat()), p)) == p
  {
    var q := g.lonLatToXYZ(p, d.A(), d.Fi());
    NilTransformationIsIdentity(d.spheroid, d.area, q);
    assert ToWGS84(g, Geographic(d.LonLat()), p) == q;
  }

  /** A projected system with a projection comes back to its starting
      point when its datum's Inverse undoes Forward, xyzToLonLat undoes
      lonLatToXYZ and the projection's FromLonLat undoes ToLonLat. */
  lemma ProjectedRoundTrip(g: Geodesy, crs: ProjectedReferenceSystem, p: Triple)
    requires crs.projection.Some?
    requires forall q :: crs.datum.Inverse(crs.datum.Forward(q)) == q
    requires g.GeodeticInverts(crs.datum.A(), crs.datum.Fi())
    requires g.ProjectionInverts(crs.projection.value, SpheroidOf(crs.datum))
    ensures ProjectedFromWGS84(g, crs, ProjectedToWGS84(g, crs, p)) == p
  {
    var d := crs.datum;
    var proj := crs.projection.value;
    var s := SpheroidOf(d);
    var ll := g.toLonLat(proj, p.a, p.b, s);
    var geo := Triple(ll.x, ll.y, p.c);
    var w := ProjectedToWGS84(g, crs, p);
    assert w == d.Forward(g.lonLatToXYZ(geo, d.A(), d.Fi()));
    assert d.Inverse(w) == g.lonLatToXYZ(geo, d.A(), d.Fi());
    assert GeographicFromWGS84(g, d, w) == geo;
    assert g.fromLonLat(proj, ll.x, ll.y, s) == Plane(p.a, p.b);
  }

  /** `Transform(from, to)` at one point: from.ToWGS84 when from is not
      nil, then to.FromWGS84 when to is not nil. */
  function TransformAt(g: Geodesy, from: Option<Crs>, to: Option<Crs>, p: Triple): Triple
  {
    var q := if from.Some? then ToWGS84(g, from.value, p) else p;
    if to.Some? then FromWGS84(g, to.value, q) else q
  }

  function Transform(g: Geodesy, from: Option<Crs>, to: Option<Crs>): Func
  {
    p => TransformAt(g, from, to, p)
  }

  /** A nil side is skipped; with both nil the transformation is the
      identity. */
  lemma TransformSkipsNil(g: Geodesy, from: Option<Crs>, to: Option<Crs>, p: Triple)
    ensures Transform(g, None, None)(p) == p
    ensures from.Some? ==> Transform(g, from, None)(p) == ToWGS84(g, from.value, p)
    ensures to.Some? ==> Transform(g, None, to)(p) == FromWGS84(g, to.value, p)
    ensures from.Some? && to.Some? ==>
              Transform(g, from, to)(p) == Transform(g, None, to)(Transform(g, from, None)(p))
  {
  }

  /** Going through an intermediate system on the way changes nothing when
      that system's ToWGS84 undoes its FromWGS84. */
  lemma TransformChains(g: Geodesy, from: Crs, middle: Crs, to: Crs, p: Triple)
    requires forall w :: ToWGS84(g, middle, FromWGS84(g, middle, w)) == w
    ensures Transform(g, Some(middle), Some(to))(Transform(g, Some(from), Some(middle))(p))
         == Transform(g, Some(from), Some(to))(p)
  {
    var w := ToWGS84(g, from, p);
    assert Transform(g, Some(from), Some(middle))(p) == FromWGS84(g, middle, w);
    assert ToWGS84(g, middle, FromWGS84(g, middle, w)) == w;
  }

  /** Transforming there and back returns the point when each side undoes
      its own conversion. */
  lemma TransformRoundTrip(g: Geodesy, from: Crs, to: Crs, p: Triple)
    requires FromWGS84(g, from, ToWGS84(g, from, p)) == p
    requires forall w :: ToWGS84(g, to, FromWGS84(g, to, w)) == w
    ensures Transform(g, Some(to), Some(from))(Transform(g, Some(from), Some(to))(p)) == p
  {
    var w := ToWGS84(g, from, p);
    assert Transform(g, Some(from), Some(to))(p) == FromWGS84(g, to, w);
    assert ToWGS84(g, to, FromWGS84(g, to, w)) == w;
  }

  /** The errors of `SafeTransform`. */
  datatype SafeError = ErrNoCoordinateReferenceSystem | ErrOutOfBounds

  /** A SafeFunc's three values and its error; nil is None. */
  datatype SafeResult = SafeResult(value: Triple, err: Option<SafeError>)

  const Origin: Triple := Triple(0.0, 0.0, 0.0)

  /** The longitude and latitude that SafeTransform checks: the point in
      WGS84 coordinates, read with the WGS84 spheroid constants whatever the
      source datum. */
  function CheckedLonLat(g: Geodesy, from: Crs, p: Triple): Triple
  {
    g.xyzToLonLat(ToWGS84(g, from, p), MajorAxis, InverseFlattening)
  }

  /** Both systems contain the point's WGS84 longitude and latitude. */
  predicate InBounds(g: Geodesy, from: Crs, to: Crs, p: Triple)
  {
    var ll := CheckedLonLat(g, from, p);
    from.Contains(ll.a, ll.b) && to.Contains(ll.a, ll.b)
  }

  /** `SafeTransform(from, to)` at one point: the nil check first, then the
      bounds check of both systems, then the conversion. */
  function SafeTransformAt(g: Geodesy, from: Option<Crs>, to: Option<Crs>, p: Triple): SafeResult
  {
    if from.None? || to.None? then SafeResult(Origin, Some(ErrNoCoordinateReferenceSystem))
    else
      var w := ToWGS84(g, from.value, p);
      var ll := g.xyzToLonLat(w, MajorAxis, InverseFlattening);
      if !from.value.Contains(ll.a, ll.b) || !to.value.Contains(ll.a, ll.b) then
        SafeResult(Origin, Some(ErrOutOfBounds))
      else
        SafeResult(FromWGS84(g, to.value, w), None)
  }

  function SafeTransform(g: Geodesy, from: Option<Crs>, to: Option<Crs>): Triple -> SafeResult
  {
    p => SafeTransformAt(g, from, to, p)
  }

  /** A nil system is reported first, whatever the point. */
  lemma SafeTransformNilCrs(g: Geodesy, from: Option<Crs>, to: Option<Crs>, p: Triple)
    requires from.None? || to.None?
    ensures SafeTransform(g, from, to)(p) == SafeResult(Origin, Some(ErrNoCoordinateReferenceSystem))
  {
  }

  /** With both systems present the result is out of bounds exactly when
      one of them does not contain the point, and then the values are 0. */
  lemma SafeTransformOutOfBounds(g: Geodesy, from: Crs, to: Crs, p: Triple)
    ensures SafeTransform(g, Some(from), Some(to))(p).err == Some(ErrOutOfBounds)
        <==> !InBounds(g, from, to, p)
    ensures !InBounds(g, from, to, p) ==> SafeTransform(g, Some(from), Some(to))(p).value == Origin
  {
  }

  /** SafeTransform succeeds exactly when both systems are present and
      contain the point, and it then returns what Transform returns. */
  lemma SafeTransformAgreesWithTransform(g: Geodesy, from: Option<Crs>, to: Option<Crs>, p: Triple)
    ensures SafeTransform(g, from, to)(p).err.None?
        <==> from.Some? && to.Some? && InBounds(g, from.value, to.value, p)
    ensures SafeTransform(g, from, to)(p).err.None? ==>
              SafeTransform(g, from, to)(p).value == Transform(g, from, to)(p)
    ensures SafeTransform(g, from, to)(p).err.Some? ==> SafeTransform(g, from, to)(p).value == Origin
  {
  }

  /** The bounds check does not depend on the target's FromWGS84: two
      targets with the same areas give the same error. */
  lemma SafeTransformErrorIgnoresTargetConversion(g: Geodesy, from: Crs, to: Crs, f: Func, q: Func, p: Triple)
    ensures SafeTransform(g, Some(from), Some(to))(p).err
         == SafeTransform(g, Some(from), Some(Custom(f, q, (lon: real, lat: real) => to.Contains(lon, lat))))(p).err
  {
  }

  /** The To, From, SafeTo and SafeFrom methods shared by the three system
      types. */
  function CrsTo(g: Geodesy, crs: Crs, to: Option<Crs>): Func
  {
    Transform(g, Some(crs), to)
  }

  function CrsFrom(g: Geodesy, crs: Crs, from: Option<Crs>): Func
  {
    Transform(g, from, Some(crs))
  }

  function CrsSafeTo(g: Geodesy, crs: Crs, to: Option<Crs>): Triple -> SafeResult
  {
    SafeTransform(g, Some(crs), to)
  }

  function CrsSafeFrom(g: Geodesy, crs: Crs, from: Option<Crs>): Triple -> SafeResult
  {
    SafeTransform(g, from, Some(crs))
  }

  /** x.From(y) converts as y.To(x), and likewise for the safe variants. */
  lemma FromIsToSwapped(g: Geodesy, x: Crs, y: Crs, p: Triple)
    ensures CrsFrom(g, x, Some(y))(p) == CrsTo(g, y, Some(x))(p)
    ensures CrsSafeFrom(g, x, Some(y))(p) == CrsSafeTo(g, y, Some(x))(p)
    ensures CrsSafeTo(g, x, None)(p).err == Some(ErrNoCoordinateReferenceSystem)
  {
  }

  /** The WGS84 geocentric, geographic and WebMercator systems. */
  function XYZ(): Crs { Geocentric(WGS84().XYZ()) }

  function LonLat(): Crs { Geographic(WGS84().LonLat()) }

  function WebMercator(): Crs { Projected(WGS84().WebMercator()) }

  /** The package-level `To(to)` and `From(from)`: from and to WGS84
      longitude and latitude. */
  function To(g: Geodesy, to: Option<Crs>): Func
  {
    CrsTo(g, LonLat(), to)
  }

  function From(g: Geodesy, from: Option<Crs>): Func
  {
    CrsFrom(g, LonLat(), from)
  }

  /** Since the WGS84 datum has no transformation, To and From are
      lonLatToXYZ and xyzToLonLat on the WGS84 spheroid joined to the other
      system. */
  lemma PackageToFrom(g: Geodesy, c: Crs, p: Triple)
    ensures To(g, Some(c))(p) == FromWGS84(g, c, g.lonLatToXYZ(p, MajorAxis, InverseFlattening))
    ensures From(g, Some(c))(p) == g.xyzToLonLat(ToWGS84(g, c, p), MajorAxis, InverseFlattening)
    ensures To(g, None)(p) == g.lonLatToXYZ(p, MajorAxis, InverseFlattening)
  {
    UntransformedDatums(g.lonLatToXYZ(p, MajorAxis, InverseFlattening));
    UntransformedDatums(ToWGS84(g, c, p));
  }

  /** The area of a UTM zone: six degrees of longitude, and latitudes 0 to
      84 north or -80 to 0 south. */
  function UtmZoneArea(zone: real, northern: bool, lon: real, lat: real): bool
  {
    if northern then lon >= zone * 6.0 - 186.0 && lon <= zone * 6.0 - 180.0 && lat >= 0.0 && lat <= 84.0
    else lon >= zone * 6.0 - 186.0 && lon <= zone * 6.0 - 180.0 && lat <= 0.0 && lat >= -80.0
  }

  /** An area given by an AreaFunc over a predicate. */
  function FuncArea(f: LonLatPredicate): Area
  {
    AreaOf(Areas.AreaFunc(Some(f)))
  }

  function UTM(zone: real, northern: bool): ProjectedReferenceSystem
  {
    var northf := if northern then 0.0 else 10000000.0;
    WGS84().TransverseMercator(zone * 6.0 - 183.0, 0.0, 0.9996, 500000.0, northf)
      .(area := Some(FuncArea((lon: real, lat: real) => UtmZoneArea(zone, northern, lon, lat))))
  }

  /** A UTM system contains exactly the points of its zone's band. */
  lemma UTMContains(zone: real, northern: bool, lon: real, lat: real)
    ensures UTM(zone, northern).Contains(lon, lat)
        <==> -180.0 <= lon <= 180.0 && zone * 6.0 - 186.0 <= lon <= zone * 6.0 - 180.0
             && (if northern then 0.0 <= lat <= 84.0 else -80.0 <= lat <= 0.0)
  {
    NamedDatumAreas(lon, lat);
    var u := UTM(zone, northern);
    if -90.0 <= lat <= 90.0 {
      u.area.value.f.DefersToFunction(lon, lat);
    }
  }

  /** The transverse Mercator projection of crs with another false
      northing. */
  function WithNorthing(crs: ProjectedReferenceSystem, northf: real): Projection
    requires crs.projection.Some? && crs.projection.value.TransverseMercatorProjection?
  {
    var t := crs.projection.value;
    TransverseMercatorProjection(t.lonf, t.latf, t.scale, t.eastf, northf)
  }

  /** A UTM system's projection is transverse Mercator about the zone's
      central meridian; only the false northing tells the hemispheres
      apart. */
  lemma UTMProjection(zone: real, northern: bool)
    ensures UTM(zone, northern).projection
         == Some(TransverseMercatorProjection(zone * 6.0 - 183.0, 0.0, 0.9996, 500000.0,
                                              if northern then 0.0 else 10000000.0))
    ensures UTM(zone, true).datum == UTM(zone, false).datum
    ensures UTM(zone, true).projection.value == WithNorthing(UTM(zone, false), 0.0)
  {
  }

  /** The zone's central meridian lies in the middle of its area. */
  lemma UTMCentralMeridianInArea(zone: real, northern: bool)
    requires 1.0 <= zone <= 60.0
    ensures UTM(zone, northern).Contains(zone * 6.0 - 183.0, if northern then 0.0 else -1.0)
  {
    UTMContains(zone, northern, zone * 6.0 - 183.0, if northern then 0.0 else -1.0);
  }

  function ETRS89UTM(zone: real): ProjectedReferenceSystem
  {
    ETRS89().TransverseMercator(zone * 6.0 - 183.0, 0.0, 0.9996, 500000.0, 0.0)
      .(area := Some(FuncArea((lon: real, lat: real) => UtmZoneArea(zone, true, lon, lat))))
  }

  /** An ETRS89 UTM system contains the points both of the ETRS89 box and
      of its northern zone band. */
  lemma ETRS89UTMContains(zone: real, lon: real, lat: real)
    ensures ETRS89UTM(zone).Contains(lon, lat)
        <==> -16.1 <= lon <= 40.18 && 32.88 <= lat <= 84.0
             && zone * 6.0 - 186.0 <= lon <= zone * 6.0 - 180.0
  {
    NamedDatumAreas(lon, lat);
    var u := ETRS89UTM(zone);
    if -90.0 <= lat <= 90.0 {
      u.area.value.f.DefersToFunction(lon, lat);
    }
  }

  /** The DHDN2001 Gauss-Krüger band: 1.5 degrees either side of 3 zone. */
  function GkZoneArea(zone: real, lon: real, lat: real): bool
  {
    lon >= zone * 3.0 - 1.5 && lon <= zone * 3.0 + 1.5 && lat >= 0.0 && lat <= 84.0
  }

  function DHDN2001GK(zone: real): ProjectedReferenceSystem
  {
    DHDN2001().TransverseMercator(zone * 3.0, 0.0, 1.0, zone * 1000000.0 + 500000.0, 0.0)
      .(area := Some(FuncArea((lon: real, lat: real) => GkZoneArea(zone, lon, lat))))
  }

  /** A DHDN2001 Gauss-Krüger system contains the points of the DHDN2001
      box within 1.5 degrees of its central meridian. */
  lemma DHDN2001GKContains(zone: real, lon: real, lat: real)
    ensures DHDN2001GK(zone).Contains(lon, lat)
        <==> 5.87 <= lon <= 13.84 && 47.27 <= lat <= 55.09
             && zone * 3.0 - 1.5 <= lon <= zone * 3.0 + 1.5
  {
    NamedDatumAreas(lon, lat);
    var u := DHDN2001GK(zone);
    if -90.0 <= lat <= 90.0 {
      u.area.value.f.DefersToFunction(lon, lat);
    }
  }

  function ETRS89AustriaLambert(): ProjectedReferenceSystem
  {
    ETRS89().LambertConformalConic2SP(13.33333333333333, 47.5, 49.0, 46.0, 400000.0, 400000.0)
  }

  function ETRS89LambertAzimuthalEqualArea(): ProjectedReferenceSystem
  {
    ETRS89().LambertAzimuthalEqualArea(10.0, 52.0, 4321000.0, 3210000.0)
  }

  function MGIAustriaLambert(): ProjectedReferenceSystem
  {
    MGI().LambertConformalConic2SP(13.33333333333333, 47.5, 49.0, 46.0, 400000.0, 400000.0)
  }

  function MGIAustriaM28(): ProjectedReferenceSystem
  {
    MGI().TransverseMercator(10.33333333333333, 0.0, 1.0, 150000.0, 0.0)
  }

  function MGIAustriaM31(): ProjectedReferenceSystem
  {
    MGI().TransverseMercator(13.33333333333333, 0.0, 1.0, 450000.0, 0.0)
  }

  function MGIAustriaM34(): ProjectedReferenceSystem
  {
    MGI().TransverseMercator(16.33333333333333, 0.0, 1.0, 750000.0, 0.0)
  }

  function MGIAustriaGKM28(): ProjectedReferenceSystem
  {
    MGI().TransverseMercator(10.33333333333333, 0.0, 1.0, 150000.0, -5000000.0)
  }

  function MGIAustriaGKM31(): ProjectedReferenceSystem
  {
    MGI().TransverseMercator(13.33333333333333, 0.0, 1.0, 450000.0, -5000000.0)
  }

  function MGIAustriaGKM34(): ProjectedReferenceSystem
  {
    MGI().TransverseMercator(16.33333333333333, 0.0, 1.0, 750000.0, -5000000.0)
  }

  /** The Austrian M and GK systems share datum and meridians, three
      degrees apart; each GK system is its M system shifted 5000 km south. */
  lemma AustrianZones()
    ensures var m28, m31, m34 := MGIAustriaM28().projection.value, MGIAustriaM31().projection.value,
                                 MGIAustriaM34().projection.value;
            m31.lonf == m28.lonf + 3.0 && m34.lonf == m31.lonf + 3.0
            && m31.eastf == m28.eastf + 300000.0 && m34.eastf == m31.eastf + 300000.0
    ensures MGIAustriaGKM28().projection.value == WithNorthing(MGIAustriaM28(), -5000000.0)
    ensures MGIAustriaGKM31().projection.value == WithNorthing(MGIAustriaM31(), -5000000.0)
    ensures MGIAustriaGKM34().projection.value == WithNorthing(MGIAustriaM34(), -5000000.0)
    ensures MGIAustriaGKM28().datum == MGIAustriaM28().datum
    ensures MGIAustriaLambert().projection == ETRS89AustriaLambert().projection
  {
  }

  function OSGB36NationalGrid(): ProjectedReferenceSystem
  {
    OSGB36().TransverseMercator(-2.0, 49.0, 0.9996012717, 400000.0, -100000.0)
  }

  /** The RGF93 conic zone centred on latitude lat, with standard parallels
      0.75 degrees either side. */
  function RGF93CC(lat: real): ProjectedReferenceSystem
  {
    RGF93().LambertConformalConic2SP(3.0, lat, lat - 0.75, lat + 0.75, 1700000.0, 2200000.0 + (lat - 43.0) * 1000000.0)
  }

  /** The zone's parallels are centred on its latitude, and its false
      northing grows by 1000 km per degree from 2200 km at 43 degrees. */
  lemma RGF93CCShape(lat: real, lat2: real)
    ensures var c := RGF93CC(lat).projection.value;
            c.lat1 < c.latf < c.lat2 && c.lat1 + c.lat2 == 2.0 * c.latf && c.lat2 - c.lat1 == 1.5
    ensures RGF93CC(lat2).projection.value.northf - RGF93CC(lat).projection.value.northf
         == (lat2 - lat) * 1000000.0
    ensures RGF93CC(43.0).projection.value.northf == 2200000.0
  {
    var n1 := RGF93CC(lat).projection.value.northf;
    var n2 := RGF93CC(lat2).projection.value.northf;
    assert n2 - n1 == (lat2 - 43.0) * 1000000.0 - (lat - 43.0) * 1000000.0;
  }

  function RGF93FranceLambert(): ProjectedReferenceSystem
  {
    RGF93().LambertConformalConic2SP(3.0, 46.5, 49.0, 44.0, 700000.0, 6600000.0)
  }

  function NAD83AlabamaEast(): ProjectedReferenceSystem
  {
    NAD83().TransverseMercator(-85.83333333333333, 30.5, 0.99996, 200000.0, 0.0)
      .(area := Some(BoxArea(-86.79, -84.89, 30.99, 35.0)))
  }

  function NAD83AlabamaWest(): ProjectedReferenceSystem
  {
    NAD83().TransverseMercator(-87.5, 30.0, 0.999933333, 600000.0, 0.0)
      .(area := Some(BoxArea(-88.48, -86.3, 30.14, 35.02)))
  }

  /** The Alabama systems cover their boxes, which lie inside NAD83's. */
  lemma AlabamaContains(lon: real, lat: real)
    ensures NAD83AlabamaEast().Contains(lon, lat) <==> -86.79 <= lon <= -84.89 && 30.99 <= lat <= 35.0
    ensures NAD83AlabamaWest().Contains(lon, lat) <==> -88.48 <= lon <= -86.3 && 30.14 <= lat <= 35.02
  {
    NamedDatumAreas(lon, lat);
    BoxDatumContains(None, None, -86.79, -84.89, 30.99, 35.0, lon, lat);
    BoxDatumContains(None, None, -88.48, -86.3, 30.14, 35.02, lon, lat);
  }

  /** The California box. */
  function CaliforniaArea(): Area
  {
    BoxArea(-124.45, -114.12, 32.53, 42.01)
  }

  /** NAD83CaliforniaAlbers as the package writes it: the arguments
      (34, 40.5, 0, -120) fill lonf, latf, lat1 and lat2. */
  function NAD83CaliforniaAlbers(): ProjectedReferenceSystem
  {
    NAD83().AlbersEqualAreaConic(34.0, 40.5, 0.0, -120.0, 0.0, -4000000.0).(area := Some(CaliforniaArea()))
  }

  /** As written, the central meridian 34 lies outside the system's own
      longitudes, and the second standard parallel -120 is no latitude. */
  lemma NAD83CaliforniaAlbersMisplaced()
    ensures var c := NAD83CaliforniaAlbers().projection.value;
            !(-124.45 <= c.lonf <= -114.12) && !(-90.0 <= c.lat2 <= 90.0)
    ensures !NAD83CaliforniaAlbers().Contains(NAD83CaliforniaAlbers().projection.value.lonf, 37.0)
  {
  }

  /** The system NAD83CaliforniaAlbers evidently intends, with the
      parameters of EPSG 6414: central meridian -120, latitude of origin 0,
      standard parallels 34 and 40.5. */
  function NAD83CaliforniaAlbersAsEpsg6414(): ProjectedReferenceSystem
  {
    NAD83().AlbersEqualAreaConic(-120.0, 0.0, 34.0, 40.5, 0.0, -4000000.0).(area := Some(CaliforniaArea()))
  }

  /** The corrected system's central meridian runs through its area and its
      standard parallels lie inside the area's latitudes. */
  lemma NAD83CaliforniaAlbersAsEpsg6414InArea()
    ensures var c := NAD83CaliforniaAlbersAsEpsg6414().projection.value;
            -124.45 <= c.lonf <= -114.12 && 32.53 <= c.lat1 < c.lat2 <= 42.01
    ensures NAD83CaliforniaAlbersAsEpsg6414().Contains(-120.0, 37.0)
  {
    NamedDatumAreas(-120.0, 37.0);
    BoxDatumContains(None, None, -124.45, -114.12, 32.53, 42.01, -120.0, 37.0);
  }
}
