/** The root package's `Datum`: an optional spheroid, an optional datum
    transformation and an optional area, each of which falls back to a
    default when nil; the named datums; and the reference-system values that
    a datum builds. */
module Datums {
  import opened Geo
  import Areas
  import HelmertFormula
  import Spheroids

  /** The package constants A and Fi of the WGS84 spheroid. */
  const MajorAxis: real := 6378137.0
  const InverseFlattening: real := 298.257223563

  /** A non-nil value of the `Spheroid` interface, seen through its A() and
      Fi() methods. The unexported `spheroid{a, fi}` struct returns its two
      fields as they are, with no zero default. */
  datatype SpheroidValue = SpheroidValue(a: real, fi: real)

  /** The `GRS80`, `Airy` and `Bessel` spheroid types. */
  const GRS80: SpheroidValue := SpheroidValue(6378137.0, 298.257222101)
  const Airy: SpheroidValue := SpheroidValue(6377563.396, 299.3249646)
  const Bessel: SpheroidValue := SpheroidValue(6377397.155, 299.1528128)

  /** A non-nil value of the `Transformation` interface: the package's
      `helmert` struct, or any other implementation given by its two
      methods. */
  datatype DatumTransformation =
    | HelmertTransformation(h: HelmertFormula.Helmert)
    | CustomTransformation(forward: Func, inverse: Func)
  {
    function Forward(p: Triple): Triple
    {
      match this
      case HelmertTransformation(h) => h.Forward(p)
      case CustomTransformation(f, _) => f(p)
    }

    function Inverse(p: Triple): Triple
    {
      match this
      case HelmertTransformation(h) => h.Inverse(p)
      case CustomTransformation(_, g) => g(p)
    }
  }

  /** A non-nil value of the `Area` interface: an `AreaFunc` (itself
      possibly a nil function) or any other implementation. */
  datatype Area =
    | AreaOf(f: Areas.AreaFunc)
    | CustomArea(contains: LonLatPredicate)
  {
    function Contains(lon: real, lat: real): bool
    {
      match this
      case AreaOf(f) => f.Contains(lon, lat)
      case CustomArea(c) => c(lon, lat)
    }
  }

  /** The map projections the package ships, with their parameters in the
      order of their struct fields. */
  datatype Projection =
    | WebMercatorProjection
    | TransverseMercatorProjection(lonf: real, latf: real, scale: real, eastf: real, northf: real)
    | LambertConformalConic2SPProjection(lonf: real, latf: real, lat1: real, lat2: real, eastf: real, northf: real)
    | AlbersEqualAreaConicProjection(lonf: real, latf: real, lat1: real, lat2: real, eastf: real, northf: real)
    | LambertAzimuthalEqualAreaProjection(latf: real, lonf: real, eastf: real, northf: real)

  /** `GeocentricReferenceSystem{Datum}`. */
  datatype GeocentricReferenceSystem = GeocentricReferenceSystem(datum: Datum)

  /** `GeographicReferenceSystem{Datum}`. */
  datatype GeographicReferenceSystem = GeographicReferenceSystem(datum: Datum)

  /** `ProjectedReferenceSystem{Datum, Projection, Area}`; the projection
      and the area may be nil. */
  datatype ProjectedReferenceSystem =
    ProjectedReferenceSystem(datum: Datum, projection: Option<Projection>, area: Option<Area>)
  {
    /** The datum's area and, when present, the system's own area. */
    function Contains(lon: real, lat: real): (r: bool)
      ensures r ==> datum.Contains(lon, lat)
      ensures area.None? ==> r == datum.Contains(lon, lat)
      ensures area.Some? ==> (r <==> datum.Contains(lon, lat) && area.value.Contains(lon, lat))
    {
      datum.Contains(lon, lat) && (area.None? || area.value.Contains(lon, lat))
    }
  }

  /** `Datum{Spheroid, Transformation, Area}`; the zero value behaves like
      WGS84 except for its area. */
  datatype Datum = Datum(spheroid: Option<SpheroidValue>,
                         transformation: Option<DatumTransformation>,
                         area: Option<Area>)
  {
    /** The spheroid's major axis; the WGS84 one when the spheroid is nil. */
    function A(): (r: real)
      ensures spheroid.None? ==> r == Spheroids.WGS84().A()
      ensures spheroid.Some? ==> r == spheroid.value.a
    {
      if spheroid.None? then MajorAxis else spheroid.value.a
    }

    /** The spheroid's inverse flattening; the WGS84 one when nil. */
    function Fi(): (r: real)
      ensures spheroid.None? ==> r == Spheroids.WGS84().Fi()
      ensures spheroid.Some? ==> r == spheroid.value.fi
    {
      if spheroid.None? then InverseFlattening else spheroid.value.fi
    }

    /** Geocentric coordinates to WGS84; unchanged when there is no
        transformation. */
    function Forward(p: Triple): Triple
    {
      if transformation.None? then p else transformation.value.Forward(p)
    }

    /** Geocentric coordinates from WGS84; unchanged when there is no
        transformation. */
    function Inverse(p: Triple): Triple
    {
      if transformation.None? then p else transformation.value.Inverse(p)
    }

    /** Inside the global bounds and inside the area; false when the area is
        nil. */
    function Contains(lon: real, lat: real): bool
    {
      Abs(lon) <= 180.0 && Abs(lat) <= 90.0 && area.Some? && area.value.Contains(lon, lat)
    }

    function XYZ(): GeocentricReferenceSystem
    {
      GeocentricReferenceSystem(this)
    }

    function LonLat(): GeographicReferenceSystem
    {
      GeographicReferenceSystem(this)
    }

    function WebMercator(): ProjectedReferenceSystem
    {
      ProjectedReferenceSystem(this, Some(WebMercatorProjection), None)
    }

    function TransverseMercator(lonf: real, latf: real, scale: real, eastf: real, northf: real): ProjectedReferenceSystem
    {
      ProjectedReferenceSystem(this, Some(TransverseMercatorProjection(lonf, latf, scale, eastf, northf)), None)
    }

    function LambertConformalConic2SP(lonf: real, latf: real, lat1: real, lat2: real,
                                      eastf: real, northf: real): ProjectedReferenceSystem
    {
      ProjectedReferenceSystem(this, Some(LambertConformalConic2SPProjection(lonf, latf, lat1, lat2, eastf, northf)), None)
    }

    function AlbersEqualAreaConic(lonf: real, latf: real, lat1: real, lat2: real,
                                  eastf: real, northf: real): ProjectedReferenceSystem
    {
      ProjectedReferenceSystem(this, Some(AlbersEqualAreaConicProjection(lonf, latf, lat1, lat2, eastf, northf)), None)
    }

    /** The arguments come as (lonf, latf) and the struct stores them as
        (latf, lonf), by field name. */
    function LambertAzimuthalEqualArea(lonf: real, latf: real, eastf: real, northf: real): ProjectedReferenceSystem
    {
      ProjectedReferenceSystem(this, Some(LambertAzimuthalEqualAreaProjection(latf, lonf, eastf, northf)), None)
    }

    /** Every projected system a datum builds keeps that datum, has no area
        of its own and so covers exactly the datum's area. */
    lemma BuildersKeepDatum(lonf: real, latf: real, lat1: real, lat2: real, scale: real,
                            eastf: real, northf: real, lon: real, lat: real)
      ensures WebMercator().datum == this && WebMercator().area.None?
      ensures TransverseMercator(lonf, latf, scale, eastf, northf).Contains(lon, lat) == Contains(lon, lat)
      ensures LambertConformalConic2SP(lonf, latf, lat1, lat2, eastf, northf).Contains(lon, lat) == Contains(lon, lat)
      ensures AlbersEqualAreaConic(lonf, latf, lat1, lat2, eastf, northf).Contains(lon, lat) == Contains(lon, lat)
      ensures LambertAzimuthalEqualArea(lonf, latf, eastf, northf).Contains(lon, lat) == Contains(lon, lat)
      ensures XYZ().datum == this && LonLat().datum == this
    {
    }

    /** The projection builders store every argument in the field of the
        same name. */
    lemma BuildersCopyArguments(lonf: real, latf: real, lat1: real, lat2: real, scale: real,
                                eastf: real, northf: real)
      ensures var t := TransverseMercator(lonf, latf, scale, eastf, northf).projection.value;
              t.lonf == lonf && t.latf == latf && t.scale == scale && t.eastf == eastf && t.northf == northf
      ensures var l := LambertConformalConic2SP(lonf, latf, lat1, lat2, eastf, northf).projection.value;
              l.lonf == lonf && l.latf == latf && l.lat1 == lat1 && l.lat2 == lat2 && l.eastf == eastf && l.northf == northf
      ensures var c := AlbersEqualAreaConic(lonf, latf, lat1, lat2, eastf, northf).projection.value;
              c.lonf == lonf && c.latf == latf && c.lat1 == lat1 && c.lat2 == lat2 && c.eastf == eastf && c.northf == northf
      ensures var z := LambertAzimuthalEqualArea(lonf, latf, eastf, northf).projection.value;
              z.lonf == lonf && z.latf == latf && z.eastf == eastf && z.northf == northf
    {
    }
  }

  /** A datum with a nil area contains no point at all, although the doc
      comment of Contains says it returns true for nil. */
  lemma NilAreaContainsNothing(s: Option<SpheroidValue>, t: Option<DatumTransformation>, lon: real, lat: real)
    ensures !Datum(s, t, None).Contains(lon, lat)
  {
  }

  /** A datum whose area is a nil AreaFunc contains exactly the points in the
      global bounds. */
  lemma NilAreaFuncContainsBounds(s: Option<SpheroidValue>, t: Option<DatumTransformation>, lon: real, lat: real)
    ensures Datum(s, t, Some(AreaOf(Areas.AreaFunc(None)))).Contains(lon, lat)
        <==> -180.0 <= lon <= 180.0 && -90.0 <= lat <= 90.0
  {
  }

  /** Without a transformation both directions return their input, so they
      are inverse to each other. */
  lemma NilTransformationIsIdentity(s: Option<SpheroidValue>, a: Option<Area>, p: Triple)
    ensures Datum(s, None, a).Forward(p) == p && Datum(s, None, a).Inverse(p) == p
  {
  }

  /** The zero Datum has the WGS84 axis and flattening. */
  lemma ZeroDatumIsWgs84Spheroid()
    ensures Datum(None, None, None).A() == WGS84().A()
    ensures Datum(None, None, None).Fi() == WGS84().Fi()
  {
  }

  /** Unlike the spheroid package, the unexported spheroid struct has no
      zero default: Helmert(0, 0, ...) has a zero major axis. */
  lemma HelmertZeroAxisHasNoDefault()
    ensures Helmert(0.0, 0.0, 0.0, 0.0, 0.0, 0.0, 0.0, 0.0, 0.0).A() == 0.0
    ensures Spheroids.New(0.0, 0.0).A() == MajorAxis
  {
  }

  /** Inside the coordinate bounds: the test of the WGS84 datum's area. */
  function WithinBounds(lon: real, lat: real): bool
  {
    Abs(lon) <= 180.0 && Abs(lat) <= 90.0
  }

  /** The inclusive box test of the named datums' areas. */
  function InBox(lon: real, lat: real, minlon: real, maxlon: real, minlat: real, maxlat: real): bool
  {
    lon >= minlon && lon <= maxlon && lat >= minlat && lat <= maxlat
  }

  /** An area given by an AreaFunc over the box. */
  function BoxArea(minlon: real, maxlon: real, minlat: real, maxlat: real): Area
  {
    AreaOf(Areas.AreaFunc(Some((lon: real, lat: real) => InBox(lon, lat, minlon, maxlon, minlat, maxlat))))
  }

  /** `Helmert(a, fi, tx, ...)`: a datum with spheroid (a, fi) and the seven
      parameters, and no area. */
  function Helmert(a: real, fi: real, tx: real, ty: real, tz: real,
                   rx: real, ry: real, rz: real, ds: real): (d: Datum)
    ensures d.A() == a && d.Fi() == fi && d.area.None?
    ensures forall p :: d.Forward(p) == HelmertFormula.CalcHelmert(p, tx, ty, tz, rx, ry, rz, ds)
    ensures forall p :: d.Inverse(p) == HelmertFormula.CalcHelmert(p, -tx, -ty, -tz, -rx, -ry, -rz, -ds)
  {
    Datum(Some(SpheroidValue(a, fi)),
          Some(HelmertTransformation(HelmertFormula.Helmert(tx, ty, tz, rx, ry, rz, ds))),
          None)
  }

  function WGS84(): Datum
  {
    Datum(Some(SpheroidValue(MajorAxis, InverseFlattening)), None,
          Some(AreaOf(Areas.AreaFunc(Some((lon: real, lat: real) => WithinBounds(lon, lat))))))
  }

  function ETRS89(): Datum
  {
    Datum(Some(GRS80), None, Some(BoxArea(-16.1, 40.18, 32.88, 84.17)))
  }

  function OSGB36(): Datum
  {
    Datum(Some(Airy),
          Some(HelmertTransformation(HelmertFormula.Helmert(446.448, -125.157, 542.06, 0.15, 0.247, 0.842, -20.489))),
          Some(BoxArea(-8.82, 1.92, 49.79, 60.94)))
  }

  function MGI(): Datum
  {
    Datum(Some(Bessel),
          Some(HelmertTransformation(HelmertFormula.Helmert(577.326, 90.129, 463.919, 5.137, 1.474, 5.297, 2.4232))),
          Some(BoxArea(9.53, 17.17, 46.4, 49.02)))
  }

  function DHDN2001(): Datum
  {
    Datum(Some(Bessel),
          Some(HelmertTransformation(HelmertFormula.Helmert(598.1, 73.7, 418.2, 0.202, 0.045, -2.455, 6.7))),
          Some(BoxArea(5.87, 13.84, 47.27, 55.09)))
  }

  function RGF93(): Datum
  {
    Datum(Some(GRS80), None, Some(BoxArea(-9.86, 10.38, 41.15, 51.56)))
  }

  function NAD83(): Datum
  {
    Datum(Some(GRS80), None, Some(BoxArea(-172.54, -47.74, 23.81, 86.46)))
  }

  /** A datum whose area is a box inside the global bounds contains exactly
      the points of that box. */
  lemma BoxDatumContains(s: Option<SpheroidValue>, t: Option<DatumTransformation>,
                         minlon: real, maxlon: real, minlat: real, maxlat: real, lon: real, lat: real)
    requires -180.0 <= minlon && maxlon <= 180.0 && -90.0 <= minlat && maxlat <= 90.0
    ensures Datum(s, t, Some(BoxArea(minlon, maxlon, minlat, maxlat))).Contains(lon, lat)
        <==> minlon <= lon <= maxlon && minlat <= lat <= maxlat
  {
    var d := Datum(s, t, Some(BoxArea(minlon, maxlon, minlat, maxlat)));
    if minlon <= lon <= maxlon && minlat <= lat <= maxlat {
      assert WithinBounds(lon, lat);
      d.area.value.f.DefersToFunction(lon, lat);
    }
  }

  /** The WGS84 datum covers the whole globe; the other named datums cover
      their boxes. */
  lemma NamedDatumAreas(lon: real, lat: real)
    ensures WGS84().Contains(lon, lat) <==> -180.0 <= lon <= 180.0 && -90.0 <= lat <= 90.0
    ensures ETRS89().Contains(lon, lat) <==> -16.1 <= lon <= 40.18 && 32.88 <= lat <= 84.17
    ensures OSGB36().Contains(lon, lat) <==> -8.82 <= lon <= 1.92 && 49.79 <= lat <= 60.94
    ensures MGI().Contains(lon, lat) <==> 9.53 <= lon <= 17.17 && 46.4 <= lat <= 49.02
    ensures DHDN2001().Contains(lon, lat) <==> 5.87 <= lon <= 13.84 && 47.27 <= lat <= 55.09
    ensures RGF93().Contains(lon, lat) <==> -9.86 <= lon <= 10.38 && 41.15 <= lat <= 51.56
    ensures NAD83().Contains(lon, lat) <==> -172.54 <= lon <= -47.74 && 23.81 <= lat <= 86.46
  {
    BoxDatumContains(Some(GRS80), None, -16.1, 40.18, 32.88, 84.17, lon, lat);
    BoxDatumContains(OSGB36().spheroid, OSGB36().transformation, -8.82, 1.92, 49.79, 60.94, lon, lat);
    BoxDatumContains(MGI().spheroid, MGI().transformation, 9.53, 17.17, 46.4, 49.02, lon, lat);
    BoxDatumContains(DHDN2001().spheroid, DHDN2001().transformation, 5.87, 13.84, 47.27, 55.09, lon, lat);
    BoxDatumContains(Some(GRS80), None, -9.86, 10.38, 41.15, 51.56, lon, lat);
    BoxDatumContains(Some(GRS80), None, -172.54, -47.74, 23.81, 86.46, lon, lat);
  }

  /** WGS84, ETRS89, RGF93 and NAD83 carry no transformation: their Forward
      and Inverse return the point. */
  lemma UntransformedDatums(p: Triple)
    ensures WGS84().Forward(p) == p && WGS84().Inverse(p) == p
    ensures ETRS89().Forward(p) == p && ETRS89().Inverse(p) == p
    ensures RGF93().Forward(p) == p && RGF93().Inverse(p) == p
    ensures NAD83().Forward(p) == p && NAD83().Inverse(p) == p
  {
  }

  /** OSGB36, MGI and DHDN2001 are the Helmert datums of their documented
      parameters on the Airy and Bessel spheroids, apart from their areas. */
  lemma HelmertDatums()
    ensures OSGB36().A() == 6377563.396 && OSGB36().Fi() == 299.3249646
    ensures OSGB36().(area := None) == Helmert(6377563.396, 299.3249646, 446.448, -125.157, 542.06, 0.15, 0.247, 0.842, -20.489)
    ensures MGI().A() == 6377397.155 && MGI().Fi() == 299.1528128
    ensures MGI().(area := None) == Helmert(6377397.155, 299.1528128, 577.326, 90.129, 463.919, 5.137, 1.474, 5.297, 2.4232)
    ensures DHDN2001().A() == 6377397.155 && DHDN2001().Fi() == 299.1528128
    ensures DHDN2001().(area := None) == Helmert(6377397.155, 299.1528128, 598.1, 73.7, 418.2, 0.202, 0.045, -2.455, 6.7)
  {
  }

  /** The GRS80 datums share their axis with WGS84 and differ only slightly
      in flattening. */
  lemma Grs80Parameters()
    ensures ETRS89().A() == WGS84().A() && ETRS89().Fi() != WGS84().Fi()
    ensures RGF93().A() == 6378137.0 && NAD83().Fi() == 298.257222101
  {
  }
}
