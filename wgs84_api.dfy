/** The `CoordinateReferenceSystem` struct of the root package's wgs84.go:
    an optional spheroid, datum transformation and coordinate system; the
    `Func` combinators; and the conversions between systems, each of which
    is nil when a part it needs is missing. */
module Wgs84Api {
  import opened Geo
  import Spheroids
  import Transformations
  import TmParams
  import Datums

  /** A non-nil value of the `System` interface: its ToXYZ and FromXYZ
      methods, which receive the CRS's spheroid. */
  datatype System = System(toXYZ: (Triple, Datums.SpheroidValue) -> Triple,
                           fromXYZ: (Triple, Datums.SpheroidValue) -> Triple)
  {
    /** FromXYZ and ToXYZ undo each other on the spheroid s. */
    ghost predicate Inverts(s: Datums.SpheroidValue)
    {
      (forall p :: fromXYZ(toXYZ(p, s), s) == p) && (forall p :: toXYZ(fromXYZ(p, s), s) == p)
    }
  }

  /** The coordinate systems the system package builds; their numeric
      bodies are parameters of the model, except XYZ, which returns its
      input in both directions. */
  datatype SystemKind =
    | XYZSystem
    | LonLatSystem
    | WebMercatorSystem
    | TransverseMercatorSystem(tm: TmParams.TransverseMercator)
    | MercatorSystem(lonf: real, scale: real, eastf: real, northf: real)
    | LambertConformalConic1SPSystem(lonf: real, latf: real, scale: real, eastf: real, northf: real)
    | LambertConformalConic2SPSystem(lonf: real, latf: real, lat1: real, lat2: real, eastf: real, northf: real)
    | EquidistantConicSystem(lonf: real, latf: real, lat1: real, lat2: real, eastf: real, northf: real)
    | AlbersEqualAreaConicSystem(lonf: real, latf: real, lat1: real, lat2: real, eastf: real, northf: real)

  /** The system package's constructors, given the numeric bodies of the
      non-geocentric systems. */
  function SystemOf(impl: SystemKind -> System, kind: SystemKind): (s: System)
    ensures kind.XYZSystem? ==> forall p, sph :: s.toXYZ(p, sph) == p && s.fromXYZ(p, sph) == p
  {
    if kind.XYZSystem? then System((p, sph) => p, (p, sph) => p) else impl(kind)
  }

  /** A non-nil value of the `Transformation` interface: the
      transformation package's two types, or any other implementation. */
  datatype Transformation =
    | Chained(t: Transformations.Transformation)
    | Translated(g: Transformations.GeocentricTranslation)
    | CustomTransformation(toWGS84: Func, fromWGS84: Func)
  {
    function ToWGS84(p: Triple): Triple
    {
      match this
      case Chained(t) => t.ToWGS84(p)
      case Translated(g) => g.ToWGS84(p)
      case CustomTransformation(f, _) => f(p)
    }

    function FromWGS84(p: Triple): Triple
    {
      match this
      case Chained(t) => t.FromWGS84(p)
      case Translated(g) => g.FromWGS84(p)
      case CustomTransformation(_, f) => f(p)
    }
  }

  /** A `Func` value, which may be nil. */
  type OptFunc = Option<Func>

  /** `SwitchIn`: the returned Func takes its first two inputs swapped. */
  function SwitchIn(f: OptFunc): (r: OptFunc)
    ensures r.None? <==> f.None?
  {
    if f.None? then None else Some(p => SwappedIn(f.value, p))
  }

  /** `SwitchOut`: the returned Func swaps its first two outputs. */
  function SwitchOut(f: OptFunc): (r: OptFunc)
    ensures r.None? <==> f.None?
  {
    if f.None? then None else Some(p => SwappedOut(f.value, p))
  }

  /** The first two coordinates exchanged. */
  function Swap(p: Triple): (r: Triple)
    ensures r.a == p.b && r.b == p.a && r.c == p.c
  {
    Triple(p.b, p.a, p.c)
  }

  function SwappedIn(f: Func, p: Triple): Triple { f(Swap(p)) }

  function SwappedOut(f: Func, p: Triple): Triple { Swap(f(p)) }

  /** Switching twice gives back the original Func at every point, and the
      two switches commute. */
  lemma SwitchTwice(f: Func, p: Triple)
    ensures SwitchIn(SwitchIn(Some(f))).value(p) == f(p)
    ensures SwitchOut(SwitchOut(Some(f))).value(p) == f(p)
    ensures SwitchIn(SwitchOut(Some(f))).value(p) == SwitchOut(SwitchIn(Some(f))).value(p)
  {
    assert Swap(Swap(p)) == p;
    assert Swap(Swap(f(p))) == f(p);
  }

  /** SwitchIn reads latitude-first input, SwitchOut writes latitude-first
      output. */
  lemma SwitchOrder(f: Func, lat: real, lon: real, h: real)
    ensures SwitchIn(Some(f)).value(Triple(lat, lon, h)) == f(Triple(lon, lat, h))
    ensures SwitchOut(Some(f)).value(Triple(lon, lat, h)).a == f(Triple(lon, lat, h)).b
    ensures SwitchOut(Some(f)).value(Triple(lon, lat, h)).b == f(Triple(lon, lat, h)).a
  {
  }

  /** `CoordinateReferenceSystem{Spheroid, Transformation, System}`. */
  datatype Crs = Crs(spheroid: Option<Datums.SpheroidValue>,
                     transformation: Option<Transformation>,
                     system: Option<System>)
  {
    /** No part is nil. */
    predicate Complete()
    {
      spheroid.Some? && transformation.Some? && system.Some?
    }

    /** `ToSystem(sys)`: nil unless every part is present; otherwise this
        system's ToXYZ and sys's FromXYZ, both on this CRS's spheroid, with
        no datum transformation. */
    function ToSystem(sys: System): (r: OptFunc)
      ensures r.Some? <==> Complete()
    {
      if !Complete() then None else Some(p => ToSystemAt(this, sys, p))
    }

    /** `FromSystem(sys)`: sys's ToXYZ, then this system's FromXYZ. */
    function FromSystem(sys: System): (r: OptFunc)
      ensures r.Some? <==> Complete()
    {
      if !Complete() then None else Some(p => FromSystemAt(this, sys, p))
    }

    /** `To(to)`: nil unless both CRSs are complete; otherwise this
        system's ToXYZ, this ToWGS84, to's FromWGS84 and to's FromXYZ. */
    function To(to: Crs): (r: OptFunc)
      ensures r.Some? <==> Complete() && to.Complete()
    {
      if !Complete() || !to.Complete() then None else Some(p => ToAt(this, to, p))
    }

    /** `From(from)` is from.To(this). */
    function From(from: Crs): OptFunc
    {
      from.To(this)
    }

    function ToXYZ(impl: SystemKind -> System): OptFunc
    {
      ToSystem(SystemOf(impl, XYZSystem))
    }

    function ToLonLat(impl: SystemKind -> System): OptFunc
    {
      ToSystem(SystemOf(impl, LonLatSystem))
    }

    function ToWebMercator(impl: SystemKind -> System): OptFunc
    {
      ToSystem(SystemOf(impl, WebMercatorSystem))
    }

    function ToTransverseMercator(impl: SystemKind -> System, lonf: real, latf: real, scale: real,
                                  eastf: real, northf: real): OptFunc
    {
      ToSystem(SystemOf(impl, TransverseMercatorSystem(TmParams.TransverseMercator(lonf, latf, scale, eastf, northf))))
    }

    function ToUTM(impl: SystemKind -> System, zone: real, northern: bool): OptFunc
    {
      ToSystem(SystemOf(impl, TransverseMercatorSystem(TmParams.UTM(zone, northern))))
    }

    function ToGK(impl: SystemKind -> System, zone: real): OptFunc
    {
      ToSystem(SystemOf(impl, TransverseMercatorSystem(TmParams.GK(zone))))
    }

    function ToMercator(impl: SystemKind -> System, lonf: real, scale: real, eastf: real, northf: real): OptFunc
    {
      ToSystem(SystemOf(impl, MercatorSystem(lonf, scale, eastf, northf)))
    }

    function ToLambertConformalConic1SP(impl: SystemKind -> System, lonf: real, latf: real, scale: real,
                                        eastf: real, northf: real): OptFunc
    {
      ToSystem(SystemOf(impl, LambertConformalConic1SPSystem(lonf, latf, scale, eastf, northf)))
    }

    function ToLambertConformalConic2SP(impl: SystemKind -> System, lonf: real, latf: real, lat1: real, lat2: real,
                                        eastf: real, northf: real): OptFunc
    {
      ToSystem(SystemOf(impl, LambertConformalConic2SPSystem(lonf, latf, lat1, lat2, eastf, northf)))
    }

    function ToEquidistantConic(impl: SystemKind -> System, lonf: real, latf: real, lat1: real, lat2: real,
                                eastf: real, northf: real): OptFunc
    {
      ToSystem(SystemOf(impl, EquidistantConicSystem(lonf, latf, lat1, lat2, eastf, northf)))
    }

    function ToAlbersEqualAreaConic(impl: SystemKind -> System, lonf: real, latf: real, lat1: real, lat2: real,
                                    eastf: real, northf: real): OptFunc
    {
      ToSystem(SystemOf(impl, AlbersEqualAreaConicSystem(lonf, latf, lat1, lat2, eastf, northf)))
    }

    function FromXYZ(impl: SystemKind -> System): OptFunc
    {
      FromSystem(SystemOf(impl, XYZSystem))
    }

    function FromLonLat(impl: SystemKind -> System): OptFunc
    {
      FromSystem(SystemOf(impl, LonLatSystem))
    }

    function FromWebMercator(impl: SystemKind -> System): OptFunc
    {
      FromSystem(SystemOf(impl, WebMercatorSystem))
    }

    function FromTransverseMercator(impl: SystemKind -> System, lonf: real, latf: real, scale: real,
                                    eastf: real, northf: real): OptFunc
    {
      FromSystem(SystemOf(impl, TransverseMercatorSystem(TmParams.TransverseMercator(lonf, latf, scale, eastf, northf))))
    }

    function FromUTM(impl: SystemKind -> System, zone: real, northern: bool): OptFunc
    {
      FromSystem(SystemOf(impl, TransverseMercatorSystem(TmParams.UTM(zone, northern))))
    }

    function FromGK(impl: SystemKind -> System, zone: real): OptFunc
    {
      FromSystem(SystemOf(impl, TransverseMercatorSystem(TmParams.GK(zone))))
    }

    function FromMercator(impl: SystemKind -> System, lonf: real, scale: real, eastf: real, northf: real): OptFunc
    {
      FromSystem(SystemOf(impl, MercatorSystem(lonf, scale, eastf, northf)))
    }

    function FromLambertConformalConic1SP(impl: SystemKind -> System, lonf: real, latf: real, scale: real,
                                          eastf: real, northf: real): OptFunc
    {
      FromSystem(SystemOf(impl, LambertConformalConic1SPSystem(lonf, latf, scale, eastf, northf)))
    }

    function FromLambertConformalConic2SP(impl: SystemKind -> System, lonf: real, latf: real, lat1: real, lat2: real,
                                          eastf: real, northf: real): OptFunc
    {
      FromSystem(SystemOf(impl, LambertConformalConic2SPSystem(lonf, latf, lat1, lat2, eastf, northf)))
    }

    function FromEquidistantConic(impl: SystemKind -> System, lonf: real, latf: real, lat1: real, lat2: real,
                                  eastf: real, northf: real): OptFunc
    {
      FromSystem(SystemOf(impl, EquidistantConicSystem(lonf, latf, lat1, lat2, eastf, northf)))
    }

    function FromAlbersEqualAreaConic(impl: SystemKind -> System, lonf: real, latf: real, lat1: real, lat2: real,
                                      eastf: real, northf: real): OptFunc
    {
      FromSystem(SystemOf(impl, AlbersEqualAreaConicSystem(lonf, latf, lat1, lat2, eastf, northf)))
    }
  }

  /** The closure of ToSystem. */
  function ToSystemAt(crs: Crs, sys: System, p: Triple): Triple
    requires crs.Complete()
  {
    sys.fromXYZ(crs.system.value.toXYZ(p, crs.spheroid.value), crs.spheroid.value)
  }

  /** The closure of FromSystem. */
  function FromSystemAt(crs: Crs, sys: System, p: Triple): Triple
    requires crs.Complete()
  {
    crs.system.value.fromXYZ(sys.toXYZ(p, crs.spheroid.value), crs.spheroid.value)
  }

  /** The closure of To. */
  function ToAt(crs: Crs, to: Crs, p: Triple): Triple
    requires crs.Complete() && to.Complete()
  {
    var x := crs.system.value.toXYZ(p, crs.spheroid.value);
    var x0 := crs.transformation.value.ToWGS84(x);
    var x2 := to.transformation.value.FromWGS84(x0);
    to.system.value.fromXYZ(x2, to.spheroid.value)
  }

  /** The WGS84 spheroid of the spheroid package as a Spheroid value. */
  function Wgs84Spheroid(): (s: Datums.SpheroidValue)
    ensures s.a == Spheroids.WgsMajorAxis && s.fi == Spheroids.WgsInverseFlattening
  {
    Datums.SpheroidValue(Spheroids.WGS84().A(), Spheroids.WGS84().Fi())
  }

  /** `WithSystem(sys)`: the WGS84 spheroid and the identity
      transformation with the given system. */
  function WithSystem(sys: System): (c: Crs)
    ensures c.Complete() && c.system == Some(sys) && c.spheroid == Some(Wgs84Spheroid())
    ensures forall p :: c.transformation.value.ToWGS84(p) == p && c.transformation.value.FromWGS84(p) == p
  {
    Crs(Some(Wgs84Spheroid()), Some(Chained(Transformations.WGS84())), Some(sys))
  }

  /** To composes four steps in this order: the source system's ToXYZ on
      the source spheroid, the source ToWGS84, the target FromWGS84, and the
      target system's FromXYZ on the target spheroid. */
  lemma ToComposition(crs: Crs, to: Crs, p: Triple)
    requires crs.Complete() && to.Complete()
    ensures crs.To(to).value(p)
         == to.system.value.fromXYZ(
              to.transformation.value.FromWGS84(
                crs.transformation.value.ToWGS84(
                  crs.system.value.toXYZ(p, crs.spheroid.value))),
              to.spheroid.value)
  {
  }

  /** From is To with the roles swapped, nil in the same cases. */
  lemma FromIsToSwapped(crs: Crs, from: Crs, p: Triple)
    ensures crs.From(from).Some? <==> crs.Complete() && from.Complete()
    ensures crs.From(from).Some? ==> crs.From(from).value(p) == ToAt(from, crs, p)
  {
  }

  /** ToSystem on a CRS built by WithSystem converts as To a CRS built by
      WithSystem: both use the WGS84 spheroid and no datum shift. */
  lemma ToSystemIsToWithinWgs84(s1: System, s2: System, p: Triple)
    ensures WithSystem(s1).To(WithSystem(s2)).value(p) == WithSystem(s1).ToSystem(s2).value(p)
  {
    var c := WithSystem(s1);
    var x := s1.toXYZ(p, Wgs84Spheroid());
    assert c.transformation.value.ToWGS84(x) == x;
    assert WithSystem(s2).transformation.value.FromWGS84(x) == x;
  }

  /** FromSystem(sys) is ToSystem with the two systems exchanged, on the
      same spheroid. */
  lemma FromSystemIsSwappedToSystem(crs: Crs, sys: System, p: Triple)
    requires crs.Complete()
    ensures crs.FromSystem(sys).value(p) == crs.(system := Some(sys)).ToSystem(crs.system.value).value(p)
  {
  }

  /** A complete CRS whose transformation inverts and whose system inverts
      on its spheroid comes back to its input. */
  lemma ToAndBack(crs: Crs, to: Crs, p: Triple)
    requires crs.Complete() && to.Complete()
    requires crs.system.value.Inverts(crs.spheroid.value) && to.system.value.Inverts(to.spheroid.value)
    requires forall q :: crs.transformation.value.FromWGS84(crs.transformation.value.ToWGS84(q)) == q
    requires forall q :: to.transformation.value.ToWGS84(to.transformation.value.FromWGS84(q)) == q
    ensures to.To(crs).value(crs.To(to).value(p)) == p
  {
    var x := crs.system.value.toXYZ(p, crs.spheroid.value);
    var x0 := crs.transformation.value.ToWGS84(x);
    var x2 := to.transformation.value.FromWGS84(x0);
    var e := to.system.value.fromXYZ(x2, to.spheroid.value);
    assert crs.To(to).value(p) == e;
    assert to.system.value.toXYZ(e, to.spheroid.value) == x2;
    assert to.transformation.value.ToWGS84(x2) == x0;
    assert crs.transformation.value.FromWGS84(x0) == x;
  }

  /** A missing part anywhere makes every conversion nil, which SwitchIn
      and SwitchOut pass on. */
  lemma NilPropagates(crs: Crs, to: Crs, sys: System)
    requires !crs.Complete()
    ensures crs.ToSystem(sys).None? && crs.FromSystem(sys).None?
    ensures crs.To(to).None? && to.To(crs).None? && to.From(crs).None?
    ensures SwitchIn(crs.To(to)).None? && SwitchOut(crs.ToSystem(sys)).None?
  {
  }

  /** ToUTM and ToGK are ToTransverseMercator with the zone's parameters. */
  lemma ZoneConversions(crs: Crs, impl: SystemKind -> System, zone: real, northern: bool)
    ensures crs.ToUTM(impl, zone, northern)
         == crs.ToTransverseMercator(impl, zone * 6.0 - 183.0, 0.0, 0.9996, 500000.0,
                                     if northern then 0.0 else 10000000.0)
    ensures crs.ToGK(impl, zone)
         == crs.ToTransverseMercator(impl, zone * 3.0, 0.0, 1.0, zone * 1000000.0 + 500000.0, 0.0)
    ensures crs.FromUTM(impl, zone, northern)
         == crs.FromTransverseMercator(impl, zone * 6.0 - 183.0, 0.0, 0.9996, 500000.0,
                                       if northern then 0.0 else 10000000.0)
  {
  }

  function XYZ(impl: SystemKind -> System): Crs { WithSystem(SystemOf(impl, XYZSystem)) }

  function LonLat(impl: SystemKind -> System): Crs { WithSystem(SystemOf(impl, LonLatSystem)) }

  function WebMercator(impl: SystemKind -> System): Crs { WithSystem(SystemOf(impl, WebMercatorSystem)) }

  function UTM(impl: SystemKind -> System, zone: real, northern: bool): Crs
  {
    WithSystem(SystemOf(impl, TransverseMercatorSystem(TmParams.UTM(zone, northern))))
  }

  /** The package-level helpers all start or end in WGS84 longitude and
      latitude. */
  function PackageToXYZ(impl: SystemKind -> System): OptFunc { LonLat(impl).ToXYZ(impl) }

  function PackageToWebMercator(impl: SystemKind -> System): OptFunc { LonLat(impl).ToWebMercator(impl) }

  function PackageToUTM(impl: SystemKind -> System, zone: real, northern: bool): OptFunc
  {
    LonLat(impl).ToUTM(impl, zone, northern)
  }

  function PackageFromXYZ(impl: SystemKind -> System): OptFunc { LonLat(impl).FromXYZ(impl) }

  function PackageFromWebMercator(impl: SystemKind -> System): OptFunc { LonLat(impl).FromWebMercator(impl) }

  function PackageFromUTM(impl: SystemKind -> System, zone: real, northern: bool): OptFunc
  {
    LonLat(impl).FromUTM(impl, zone, northern)
  }

  function PackageTo(impl: SystemKind -> System, to: Crs): OptFunc { LonLat(impl).To(to) }

  function PackageFrom(impl: SystemKind -> System, from: Crs): OptFunc { LonLat(impl).From(from) }

  /** The package-level conversions: ToXYZ is the LonLat system's ToXYZ on
      the WGS84 spheroid, FromXYZ its FromXYZ, and To and From are nil
      exactly when the other CRS is incomplete. */
  lemma PackageHelpers(impl: SystemKind -> System, c: Crs, p: Triple)
    ensures PackageToXYZ(impl).value(p) == impl(LonLatSystem).toXYZ(p, Wgs84Spheroid())
    ensures PackageFromXYZ(impl).value(p) == impl(LonLatSystem).fromXYZ(p, Wgs84Spheroid())
    ensures PackageTo(impl, c).Some? <==> c.Complete()
    ensures PackageFrom(impl, c).Some? <==> c.Complete()
  {
  }

  /** Converting between two WGS84 geocentric systems changes nothing. */
  lemma XYZToXYZIsIdentity(impl: SystemKind -> System, p: Triple)
    ensures XYZ(impl).To(XYZ(impl)).value(p) == p
    ensures XYZ(impl).ToXYZ(impl).value(p) == p
  {
    ToComposition(XYZ(impl), XYZ(impl), p);
  }
}
