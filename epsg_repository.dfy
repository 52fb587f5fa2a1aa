/** The EPSG registry of the epsg package: bounding boxes that wrap their
    query point before testing it, and a repository mapping codes to a
    coordinate reference system of wgs84.go and its box. */
module EpsgRepository {
  import opened Geo
  import Wgs84Api
  import TmParams

  /** x after `for x < lo { x += step }`. */
  function WrapUp(x: real, lo: real, step: real): real
    requires step >= 1.0
    decreases (lo - x).Floor
  {
    if x < lo then WrapUp(x + step, lo, step) else x
  }

  /** x after `for x > hi { x -= step }`. */
  function WrapDown(x: real, hi: real, step: real): real
    requires step >= 1.0
    decreases (x - hi).Floor
  {
    if x > hi then WrapDown(x - step, hi, step) else x
  }

  /** How many steps WrapUp takes. */
  function WrapUpCount(x: real, lo: real, step: real): nat
    requires step >= 1.0
    decreases (lo - x).Floor
  {
    if x < lo then 1 + WrapUpCount(x + step, lo, step) else 0
  }

  /** How many steps WrapDown takes. */
  function WrapDownCount(x: real, hi: real, step: real): nat
    requires step >= 1.0
    decreases (x - hi).Floor
  {
    if x > hi then 1 + WrapDownCount(x - step, hi, step) else 0
  }

  /** WrapUp lands in [lo, lo + step) when it starts below lo, leaves any
      other value alone, and moves by a whole number of steps. */
  lemma {:induction false} WrapUpBounds(x: real, lo: real, step: real)
    requires step >= 1.0
    ensures WrapUp(x, lo, step) >= lo
    ensures x < lo ==> WrapUp(x, lo, step) < lo + step
    ensures x >= lo ==> WrapUp(x, lo, step) == x
    ensures WrapUp(x, lo, step) == x + WrapUpCount(x, lo, step) as real * step
    decreases (lo - x).Floor
  {
    if x < lo {
      WrapUpBounds(x + step, lo, step);
    }
  }

  /** WrapDown lands in (hi - step, hi] when it starts above hi, leaves
      any other value alone, and moves by a whole number of steps. */
  lemma {:induction false} WrapDownBounds(x: real, hi: real, step: real)
    requires step >= 1.0
    ensures WrapDown(x, hi, step) <= hi
    ensures x > hi ==> WrapDown(x, hi, step) > hi - step
    ensures x <= hi ==> WrapDown(x, hi, step) == x
    ensures WrapDown(x, hi, step) == x - WrapDownCount(x, hi, step) as real * step
    decreases (x - hi).Floor
  {
    if x > hi {
      WrapDownBounds(x - step, hi, step);
    }
  }

  /** The longitude and latitude `contains` tests, after its four loops. */
  function WrapLon(lon: real): real { WrapDown(WrapUp(lon, -180.0, 360.0), 180.0, 360.0) }

  function WrapLat(lat: real): real { WrapDown(WrapUp(lat, -90.0, 180.0), 90.0, 180.0) }

  /** The wrapped longitude lies in [-180, 180], a whole number of turns
      from the input, and equals the input when that is already in range. */
  lemma WrapLonBounds(lon: real)
    ensures -180.0 <= WrapLon(lon) <= 180.0
    ensures -180.0 <= lon <= 180.0 ==> WrapLon(lon) == lon
    ensures var up := WrapUp(lon, -180.0, 360.0);
            WrapLon(lon) == lon + (WrapUpCount(lon, -180.0, 360.0) - WrapDownCount(up, 180.0, 360.0)) as real * 360.0
  {
    WrapUpBounds(lon, -180.0, 360.0);
    WrapDownBounds(WrapUp(lon, -180.0, 360.0), 180.0, 360.0);
  }

  /** The wrapped latitude lies in [-90, 90], a whole number of half turns
      from the input, and equals the input when that is already in range. */
  lemma WrapLatBounds(lat: real)
    ensures -90.0 <= WrapLat(lat) <= 90.0
    ensures -90.0 <= lat <= 90.0 ==> WrapLat(lat) == lat
    ensures var up := WrapUp(lat, -90.0, 180.0);
            WrapLat(lat) == lat + (WrapUpCount(lat, -90.0, 180.0) - WrapDownCount(up, 90.0, 180.0)) as real * 180.0
  {
    WrapUpBounds(lat, -90.0, 180.0);
    WrapDownBounds(WrapUp(lat, -90.0, 180.0), 90.0, 180.0);
  }

  /** `boundingBox{minlon, minlat, maxlon, maxlat}`. */
  datatype BoundingBox = BoundingBox(minlon: real, minlat: real, maxlon: real, maxlat: real)
  {
    /** A box whose minlon exceeds its maxlon crosses the antimeridian and
        holds the longitudes from minlon eastward and up to maxlon;
        otherwise it holds [minlon, maxlon]. */
    predicate HoldsLon(lon: real)
    {
      if minlon > maxlon then lon >= minlon || lon <= maxlon else minlon <= lon && lon <= maxlon
    }

    predicate HoldsLat(lat: real)
    {
      minlat <= lat && lat <= maxlat
    }

    /** What `contains` decides: the wrapped point lies in the box. */
    predicate Covers(lon: real, lat: real)
    {
      HoldsLon(WrapLon(lon)) && HoldsLat(WrapLat(lat))
    }

    /** `contains`: wrap the point into range, then test the box. */
    method Contains(lon0: real, lat0: real) returns (r: bool)
      ensures r == Covers(lon0, lat0)
    {
      var lon, lat := lon0, lat0;
      while lon < -180.0
        invariant WrapUp(lon, -180.0, 360.0) == WrapUp(lon0, -180.0, 360.0)
        decreases (-180.0 - lon).Floor
      {
        lon := lon + 360.0;
      }
      while lon > 180.0
        invariant WrapDown(lon, 180.0, 360.0) == WrapLon(lon0)
        decreases (lon - 180.0).Floor
      {
        lon := lon - 360.0;
      }
      while lat < -90.0
        invariant WrapUp(lat, -90.0, 180.0) == WrapUp(lat0, -90.0, 180.0)
        decreases (-90.0 - lat).Floor
      {
        lat := lat + 180.0;
      }
      while lat > 90.0
        invariant WrapDown(lat, 90.0, 180.0) == WrapLat(lat0)
        decreases (lat - 90.0).Floor
      {
        lat := lat - 180.0;
      }
      if minlon > maxlon {
        if lon < minlon && lon > maxlon {
          return false;
        }
      } else {
        if lon < minlon || lon > maxlon {
          return false;
        }
      }
      if lat < minlat || lat > maxlat {
        return false;
      }
      return true;
    }

    /** The box `normalize` produces once its maxlon loop lowers maxlon,
        as its other three loops do their bound. */
    function Normalized(): BoundingBox
    {
      BoundingBox(WrapUp(minlon, -180.0, 360.0), WrapUp(minlat, -90.0, 180.0),
                  WrapDown(maxlon, 180.0, 360.0), WrapDown(maxlat, 90.0, 180.0))
    }

    /** `normalize`, with the maxlon loop lowering maxlon by 360. */
    method Normalize() returns (b: BoundingBox)
      ensures b == Normalized()
    {
      var lo, la, hi, ha := minlon, minlat, maxlon, maxlat;
      while lo < -180.0
        invariant WrapUp(lo, -180.0, 360.0) == WrapUp(minlon, -180.0, 360.0)
        decreases (-180.0 - lo).Floor
      {
        lo := lo + 360.0;
      }
      while hi > 180.0
        invariant WrapDown(hi, 180.0, 360.0) == WrapDown(maxlon, 180.0, 360.0)
        decreases (hi - 180.0).Floor
      {
        hi := hi - 360.0;
      }
      while la < -90.0
        invariant WrapUp(la, -90.0, 180.0) == WrapUp(minlat, -90.0, 180.0)
        decreases (-90.0 - la).Floor
      {
        la := la + 180.0;
      }
      while ha > 90.0
        invariant WrapDown(ha, 90.0, 180.0) == WrapDown(maxlat, 90.0, 180.0)
        decreases (ha - 90.0).Floor
      {
        ha := ha - 180.0;
      }
      b := BoundingBox(lo, la, hi, ha);
    }
  }

  /** A normalized box has minlon at least -180, maxlon at most 180,
      minlat at least -90 and maxlat at most 90, and a box already within
      those bounds is left as it is. */
  lemma NormalizedBounds(b: BoundingBox)
    ensures b.Normalized().minlon >= -180.0 && b.Normalized().maxlon <= 180.0
    ensures b.Normalized().minlat >= -90.0 && b.Normalized().maxlat <= 90.0
    ensures b.minlon >= -180.0 && b.maxlon <= 180.0 && b.minlat >= -90.0 && b.maxlat <= 90.0
            ==> b.Normalized() == b
  {
    WrapUpBounds(b.minlon, -180.0, 360.0);
    WrapDownBounds(b.maxlon, 180.0, 360.0);
    WrapUpBounds(b.minlat, -90.0, 180.0);
    WrapDownBounds(b.maxlat, 90.0, 180.0);
  }

  /** For a point already within [-180, 180] by [-90, 90], Covers is the
      plain box test. */
  lemma CoversInRange(b: BoundingBox, lon: real, lat: real)
    requires -180.0 <= lon <= 180.0 && -90.0 <= lat <= 90.0
    ensures b.Covers(lon, lat) <==> b.HoldsLon(lon) && b.minlat <= lat <= b.maxlat
  {
    WrapLonBounds(lon);
    WrapLatBounds(lat);
  }

  /** The body of normalize's maxlon loop as written: it lowers minlon and
      leaves maxlon, the value its condition tests, as it was. */
  function MaxlonLoopBodyAsWritten(b: BoundingBox): BoundingBox
  {
    BoundingBox(b.minlon - 360.0, b.minlat, b.maxlon, b.maxlat)
  }

  /** The box after n turns of that loop. */
  function MaxlonLoopAsWritten(b: BoundingBox, n: nat): BoundingBox
  {
    if n == 0 then b else MaxlonLoopBodyAsWritten(MaxlonLoopAsWritten(b, n - 1))
  }

  /** After any number of turns the loop condition still holds for a box
      whose maxlon exceeds 180, so normalize as written never returns for
      one, while minlon falls by 360 every turn. */
  lemma {:induction false} MaxlonLoopNeverExits(b: BoundingBox, n: nat)
    ensures MaxlonLoopAsWritten(b, n).maxlon == b.maxlon
    ensures b.maxlon > 180.0 ==> MaxlonLoopAsWritten(b, n).maxlon > 180.0
    ensures MaxlonLoopAsWritten(b, n).minlon == b.minlon - n as real * 360.0
  {
    if n > 0 {
      MaxlonLoopNeverExits(b, n - 1);
    }
  }

  /** For a box whose maxlon is at most 180 the loop as written does not
      run, and normalize gives the box Normalized describes. */
  lemma NormalizedAgreesWhenMaxlonInRange(b: BoundingBox)
    requires b.maxlon <= 180.0
    ensures b.Normalized().maxlon == b.maxlon
    ensures b.Normalized() == BoundingBox(WrapUp(b.minlon, -180.0, 360.0), WrapUp(b.minlat, -90.0, 180.0),
                                          b.maxlon, WrapDown(b.maxlat, 90.0, 180.0))
  {
    WrapDownBounds(b.maxlon, 180.0, 360.0);
  }

  /** An `epsg` entry: a reference system and its box. */
  datatype Entry = Entry(crs: Wgs84Api.Crs, bbox: BoundingBox)

  /** The zero value of CoordinateReferenceSystem, which Code returns for
      a missing code. */
  function ZeroCrs(): (c: Wgs84Api.Crs)
    ensures !c.Complete()
  {
    Wgs84Api.Crs(None, None, None)
  }

  /** A set is empty or has an element: a helper that lets the verifier
      pick an element with `:|` once the set is known to be non-empty. */
  lemma EmptyOrHasElement(s: set<int>)
    ensures s == {} || exists c :: c in s
  {
    if forall c :: c !in s {
      assert s == {};
    }
  }

  /** No value occurs twice in s. */
  predicate NoDuplicates(s: seq<int>)
  {
    forall i, j :: 0 <= i < j < |s| ==> s[i] != s[j]
  }

  /** `Repository`: codes and their entries. A nil map reads as empty. */
  class Repository {
    var codes: map<int, Entry>

    constructor ()
      ensures codes == map[]
    {
      codes := map[];
    }

    /** `Add(c, crs, minlon, minlat, maxlon, maxlat)`: stores crs with the
        normalized box under c, replacing an earlier entry, and changes no
        other code. The box goes through the corrected normalize, which also
        ends for maxlon > 180. */
    method Add(c: int, crs: Wgs84Api.Crs, minlon: real, minlat: real, maxlon: real, maxlat: real)
      modifies this
      ensures codes == old(codes)[c := Entry(crs, BoundingBox(minlon, minlat, maxlon, maxlat).Normalized())]
    {
      var b := BoundingBox(minlon, minlat, maxlon, maxlat).Normalize();
      codes := codes[c := Entry(crs, b)];
    }

    /** `Code(c)`: the entry's system and true when c is registered, and
        the zero value and false otherwise. */
    function Code(c: int): (r: (Wgs84Api.Crs, bool))
      reads this
      ensures r.1 <==> c in codes
      ensures r.1 ==> r.0 == codes[c].crs
      ensures !r.1 ==> r.0 == ZeroCrs()
    {
      if c in codes then (codes[c].crs, true) else (ZeroCrs(), false)
    }

    /** `AllCodes()`: every registered code, once each, in some order. */
    method AllCodes() returns (cc: seq<int>)
      ensures forall c :: c in cc <==> c in codes
      ensures NoDuplicates(cc)
      ensures |cc| == |codes|
    {
      cc := [];
      var rest := codes.Keys;
      while rest != {}
        invariant rest <= codes.Keys
        invariant forall c :: c in cc <==> c in codes && c !in rest
        invariant NoDuplicates(cc)
        invariant |cc| + |rest| == |codes.Keys|
        decreases |rest|
      {
        EmptyOrHasElement(rest);
        var c :| c in rest;
        cc := cc + [c];
        rest := rest - {c};
      }
    }

    /** `Codes(lon, lat)`: exactly the registered codes whose box contains
        the point, once each. */
    method Codes(lon: real, lat: real) returns (cc: seq<int>)
      ensures forall c :: c in cc <==> c in codes && codes[c].bbox.Covers(lon, lat)
      ensures NoDuplicates(cc)
    {
      cc := [];
      var rest := codes.Keys;
      while rest != {}
        invariant rest <= codes.Keys
        invariant forall c :: c in cc <==> c in codes && c !in rest && codes[c].bbox.Covers(lon, lat)
        invariant NoDuplicates(cc)
        decreases |rest|
      {
        EmptyOrHasElement(rest);
        var c :| c in rest;
        var inside := codes[c].bbox.Contains(lon, lat);
        if inside {
          cc := cc + [c];
        }
        rest := rest - {c};
      }
    }

    /** `Transform(from, to)`: nil unless both codes are registered, and
        then the first system's To the second. */
    function Transform(from: int, to: int): (r: Wgs84Api.OptFunc)
      reads this
      ensures (from !in codes || to !in codes) ==> r.None?
      ensures r.Some? <==> from in codes && to in codes && codes[from].crs.Complete() && codes[to].crs.Complete()
      ensures from in codes && to in codes ==> r == codes[from].crs.To(codes[to].crs)
    {
      var (f, ok) := Code(from);
      if !ok then None
      else
        var (t, ok2) := Code(to);
        if !ok2 then None else f.To(t)
    }
  }

  /** The systems of the regional packages the default repository
      registers; their parameter tables are not part of this model. */
  datatype Preset =
    | FranceLambert | NationalGrid | OSGB36LonLat | Austin | Vermont | Tennessee | Nebraska
    | Montana | Maryland | Delaware | Connecticut
    | RGF93CC(latitude: real) | DHDN2001GK(zone: real) | ETRS89UTM(zone: real)

  /** The box every continental-US state system is registered with. */
  const NorthAmerica: BoundingBox := BoundingBox(-172.54, 23.81, -47.74, 86.46)

  /** The box of the RGF93 systems. */
  const France: BoundingBox := BoundingBox(-9.86, 41.15, 10.38, 51.56)

  /** The box of the OSGB36 systems. */
  const GreatBritain: BoundingBox := BoundingBox(-8.82, 49.79, 1.92, 60.94)

  /** The Austin box as written: longitudes and latitudes exchanged. */
  const AustinBoxAsWritten: BoundingBox := BoundingBox(30.519581, -97.5634, 30.060181, -97.935928)

  /** The Austin box with longitude and latitude in their places, as the
      entry evidently intends. */
  const AustinBox: BoundingBox := BoundingBox(-97.935928, 30.060181, -97.5634, 30.519581)

  /** As written, the Austin box holds no point at all: its latitudes lie
      below -90, where no wrapped latitude can be. */
  lemma AustinBoxAsWrittenIsEmpty(lon: real, lat: real)
    ensures !AustinBoxAsWritten.Covers(lon, lat)
  {
    WrapLatBounds(lat);
  }

  /** The corrected Austin box holds the city (97.74 W, 30.27 N). */
  lemma AustinBoxHoldsAustin()
    ensures AustinBox.Covers(-97.7431, 30.2672)
    ensures !AustinBoxAsWritten.Covers(-97.7431, 30.2672)
  {
    CoversInRange(AustinBox, -97.7431, 30.2672);
    AustinBoxAsWrittenIsEmpty(-97.7431, 30.2672);
  }

  /** The keys of the map literal. */
  const InitialKeys: set<int> :=
    {4326, 3857, 900913, 4978, 2154, 27700, 4277, 100002, 32145, 32136, 32104, 32100, 26985, 26957, 26956}

  /** The entry the default repository's map literal gives a code. */
  function InitialEntry(impl: Wgs84Api.SystemKind -> Wgs84Api.System, presets: Preset -> Wgs84Api.Crs,
                        c: int): (e: Option<Entry>)
    ensures e.Some? <==> c in InitialKeys
  {
    match c
    case 4326 => Some(Entry(Wgs84Api.LonLat(impl), BoundingBox(-180.0, -90.0, 180.0, 90.0)))
    case 3857 => Some(Entry(Wgs84Api.WebMercator(impl), BoundingBox(-180.0, -85.06, 180.0, 85.06)))
    case 900913 => Some(Entry(Wgs84Api.WebMercator(impl), BoundingBox(-180.0, -85.06, 180.0, 85.06)))
    case 4978 => Some(Entry(Wgs84Api.XYZ(impl), BoundingBox(-180.0, -90.0, 180.0, 90.0)))
    case 2154 => Some(Entry(presets(FranceLambert), France))
    case 27700 => Some(Entry(presets(NationalGrid), GreatBritain))
    case 4277 => Some(Entry(presets(OSGB36LonLat), GreatBritain))
    case 100002 => Some(Entry(presets(Austin), AustinBoxAsWritten))
    case 32145 => Some(Entry(presets(Vermont), NorthAmerica))
    case 32136 => Some(Entry(presets(Tennessee), NorthAmerica))
    case 32104 => Some(Entry(presets(Nebraska), NorthAmerica))
    case 32100 => Some(Entry(presets(Montana), NorthAmerica))
    case 26985 => Some(Entry(presets(Maryland), NorthAmerica))
    case 26957 => Some(Entry(presets(Delaware), NorthAmerica))
    case 26956 => Some(Entry(presets(Connecticut), NorthAmerica))
    case _ => None
  }

  /** The default repository's map literal. */
  function InitialCodes(impl: Wgs84Api.SystemKind -> Wgs84Api.System, presets: Preset -> Wgs84Api.Crs): map<int, Entry>
  {
    map c | c in InitialKeys :: InitialEntry(impl, presets, c).value
  }

  /** The box a UTM zone is registered with: six degrees wide, latitudes
      0 to 84 in the north and -80 to 0 in the south. */
  function UtmBox(zone: int, northern: bool): BoundingBox
  {
    if northern then BoundingBox(zone as real * 6.0 - 186.0, 0.0, zone as real * 6.0 - 180.0, 84.0)
    else BoundingBox(zone as real * 6.0 - 186.0, -80.0, zone as real * 6.0 - 180.0, 0.0)
  }

  /** The box a DHDN2001 Gauss-Krüger zone is registered with. */
  function GkBox(zone: int): BoundingBox
  {
    BoundingBox(zone as real * 3.0 - 1.5, 47.27, zone as real * 3.0 + 1.5, 55.09)
  }

  /** The box an ETRS89 UTM zone is registered with. */
  function Etrs89UtmBox(zone: int): BoundingBox
  {
    BoundingBox(zone as real * 6.0 - 186.0, 32.88, zone as real * 6.0 - 180.0, 84.17)
  }

  /** The codes the default repository registers, when its four loops have
      run up to (but not including) utm, cc, gk and etrs. */
  predicate Registered(c: int, utm: int, cc: int, gk: int, etrs: int)
  {
    c in InitialKeys || 32601 <= c < 32600 + utm || 32701 <= c < 32700 + utm
    || 3942 <= c < 3900 + cc || 31466 <= c < 31464 + gk || 25828 <= c < 25800 + etrs
  }

  /** The entry the default repository holds for a code, if any. */
  function DefaultEntry(impl: Wgs84Api.SystemKind -> Wgs84Api.System, presets: Preset -> Wgs84Api.Crs,
                        c: int): (e: Option<Entry>)
    ensures e.Some? <==> Registered(c, 61, 51, 6, 39)
  {
    if 32601 <= c <= 32660 then
      Some(Entry(Wgs84Api.UTM(impl, (c - 32600) as real, true), UtmBox(c - 32600, true).Normalized()))
    else if 32701 <= c <= 32760 then
      Some(Entry(Wgs84Api.UTM(impl, (c - 32700) as real, false), UtmBox(c - 32700, false).Normalized()))
    else if 3942 <= c <= 3950 then
      Some(Entry(presets(RGF93CC((c - 3900) as real)), France.Normalized()))
    else if 31466 <= c <= 31469 then
      Some(Entry(presets(DHDN2001GK((c - 31464) as real)), GkBox(c - 31464).Normalized()))
    else if 25828 <= c <= 25838 then
      Some(Entry(presets(ETRS89UTM((c - 25800) as real)), Etrs89UtmBox(c - 25800).Normalized()))
    else InitialEntry(impl, presets, c)
  }

  /** The default repository registers 100002 with the Austin box as
      written, so that entry covers no point and no lookup returns it. */
  lemma DefaultAustinCoversNothing(impl: Wgs84Api.SystemKind -> Wgs84Api.System,
                                   presets: Preset -> Wgs84Api.Crs, lon: real, lat: real)
    ensures DefaultEntry(impl, presets, 100002).Some?
    ensures !DefaultEntry(impl, presets, 100002).value.bbox.Covers(lon, lat)
  {
    AustinBoxAsWrittenIsEmpty(lon, lat);
  }

  /** codes holds exactly the default repository's entries for the codes
      its loops have registered up to utm, cc, gk and etrs. */
  ghost predicate Agrees(codes: map<int, Entry>, impl: Wgs84Api.SystemKind -> Wgs84Api.System,
                   presets: Preset -> Wgs84Api.Crs, utm: int, cc: int, gk: int, etrs: int)
  {
    (forall c :: c in codes <==> Registered(c, utm, cc, gk, etrs))
    && (forall c :: c in codes ==> DefaultEntry(impl, presets, c) == Some(codes[c]))
  }

  /** The map literal holds the default entries of its keys. */
  lemma InitialAgrees(impl: Wgs84Api.SystemKind -> Wgs84Api.System, presets: Preset -> Wgs84Api.Crs)
    ensures Agrees(InitialCodes(impl, presets), impl, presets, 1, 42, 2, 28)
  {
    var m := InitialCodes(impl, presets);
    forall c | c in m
      ensures DefaultEntry(impl, presets, c) == Some(m[c])
    {
      assert InitialEntry(impl, presets, c).Some?;
    }
  }

  /** `DefaultRepository()`: the map literal, then the registration loops
      for the UTM zones 1-60 north and south, the RGF93 conic zones 42-50,
      the DHDN2001 Gauss-Krüger zones 2-5 and the ETRS89 UTM zones 28-38. */
  method DefaultRepository(impl: Wgs84Api.SystemKind -> Wgs84Api.System, presets: Preset -> Wgs84Api.Crs)
    returns (r: Repository)
    ensures fresh(r)
    ensures Agrees(r.codes, impl, presets, 61, 51, 6, 39)
  {
    r := new Repository();
    r.codes := InitialCodes(impl, presets);
    InitialAgrees(impl, presets);
    RegisterUtmZones(r, impl, presets);
    RegisterRgf93Zones(r, impl, presets);
    RegisterGkZones(r, impl, presets);
    RegisterEtrs89Zones(r, impl, presets);
  }

  /** The UTM loop: zones 1-60, north under 32600 + zone and south under
      32700 + zone. */
  method RegisterUtmZones(r: Repository, impl: Wgs84Api.SystemKind -> Wgs84Api.System, presets: Preset -> Wgs84Api.Crs)
    modifies r
    requires Agrees(r.codes, impl, presets, 1, 42, 2, 28)
    ensures Agrees(r.codes, impl, presets, 61, 42, 2, 28)
  {
    var i := 1;
    while i < 61
      invariant 1 <= i <= 61
      invariant Agrees(r.codes, impl, presets, i, 42, 2, 28)
    {
      r.Add(32600 + i, Wgs84Api.UTM(impl, i as real, true), i as real * 6.0 - 186.0, 0.0, i as real * 6.0 - 180.0, 84.0);
      r.Add(32700 + i, Wgs84Api.UTM(impl, i as real, false), i as real * 6.0 - 186.0, -80.0, i as real * 6.0 - 180.0, 0.0);
      i := i + 1;
    }
  }

  /** The RGF93 loop: conic zones 42-50 under 3900 + zone. */
  method RegisterRgf93Zones(r: Repository, impl: Wgs84Api.SystemKind -> Wgs84Api.System, presets: Preset -> Wgs84Api.Crs)
    modifies r
    requires Agrees(r.codes, impl, presets, 61, 42, 2, 28)
    ensures Agrees(r.codes, impl, presets, 61, 51, 2, 28)
  {
    var i := 42;
    while i < 51
      invariant 42 <= i <= 51
      invariant Agrees(r.codes, impl, presets, 61, i, 2, 28)
    {
      r.Add(3900 + i, presets(RGF93CC(i as real)), -9.86, 41.15, 10.38, 51.56);
      i := i + 1;
    }
  }

  /** The DHDN2001 loop: Gauss-Krüger zones 2-5 under 31464 + zone. */
  method RegisterGkZones(r: Repository, impl: Wgs84Api.SystemKind -> Wgs84Api.System, presets: Preset -> Wgs84Api.Crs)
    modifies r
    requires Agrees(r.codes, impl, presets, 61, 51, 2, 28)
    ensures Agrees(r.codes, impl, presets, 61, 51, 6, 28)
  {
    var i := 2;
    while i < 6
      invariant 2 <= i <= 6
      invariant Agrees(r.codes, impl, presets, 61, 51, i, 28)
    {
      r.Add(31464 + i, presets(DHDN2001GK(i as real)), i as real * 3.0 - 1.5, 47.27, i as real * 3.0 + 1.5, 55.09);
      i := i + 1;
    }
  }

  /** The ETRS89 loop: UTM zones 28-38 under 25800 + zone. */
  method RegisterEtrs89Zones(r: Repository, impl: Wgs84Api.SystemKind -> Wgs84Api.System, presets: Preset -> Wgs84Api.Crs)
    modifies r
    requires Agrees(r.codes, impl, presets, 61, 51, 6, 28)
    ensures Agrees(r.codes, impl, presets, 61, 51, 6, 39)
  {
    var i := 28;
    while i < 39
      invariant 28 <= i <= 39
      invariant Agrees(r.codes, impl, presets, 61, 51, 6, i)
    {
      r.Add(25800 + i, presets(ETRS89UTM(i as real)), i as real * 6.0 - 186.0, 32.88, i as real * 6.0 - 180.0, 84.17);
      i := i + 1;
    }
  }

  /** Normalize leaves every box the default repository registers as it
      was given: UTM zone z is stored with the box [6z - 186, 6z - 180] by
      [0, 84] in the north and [-80, 0] in the south. */
  lemma DefaultUtmEntries(impl: Wgs84Api.SystemKind -> Wgs84Api.System, presets: Preset -> Wgs84Api.Crs, zone: int)
    requires 1 <= zone <= 60
    ensures DefaultEntry(impl, presets, 32600 + zone) == Some(Entry(Wgs84Api.UTM(impl, zone as real, true), UtmBox(zone, true)))
    ensures DefaultEntry(impl, presets, 32700 + zone) == Some(Entry(Wgs84Api.UTM(impl, zone as real, false), UtmBox(zone, false)))
  {
    NormalizedBounds(UtmBox(zone, true));
    NormalizedBounds(UtmBox(zone, false));
  }

  /** A point of a UTM zone's six degrees, with a latitude of 0 to 84, lies
      in the box of that zone's northern code. */
  lemma DefaultUtmCovers(impl: Wgs84Api.SystemKind -> Wgs84Api.System, presets: Preset -> Wgs84Api.Crs,
                         zone: int, lon: real, lat: real)
    requires 1 <= zone <= 60
    requires zone as real * 6.0 - 186.0 <= lon <= zone as real * 6.0 - 180.0 && 0.0 <= lat <= 84.0
    ensures DefaultEntry(impl, presets, 32600 + zone).value.bbox.Covers(lon, lat)
  {
    DefaultUtmEntries(impl, presets, zone);
    CoversInRange(UtmBox(zone, true), lon, lat);
  }

  /** 4326 and 4978 hold every point, and 3857 and 900913 are the same
      entry. */
  lemma DefaultWorldEntries(impl: Wgs84Api.SystemKind -> Wgs84Api.System, presets: Preset -> Wgs84Api.Crs,
                            lon: real, lat: real)
    ensures DefaultEntry(impl, presets, 4326).value.bbox.Covers(lon, lat)
    ensures DefaultEntry(impl, presets, 4978).value.bbox.Covers(lon, lat)
    ensures DefaultEntry(impl, presets, 3857) == DefaultEntry(impl, presets, 900913)
  {
    WrapLonBounds(lon);
    WrapLatBounds(lat);
  }

  /** Transform(4326, 32600 + zone) of the default repository converts as
      the package's ToUTM(zone, true). */
  lemma DefaultLonLatToUtm(impl: Wgs84Api.SystemKind -> Wgs84Api.System, presets: Preset -> Wgs84Api.Crs,
                           zone: int, p: Triple)
    requires 1 <= zone <= 60
    ensures DefaultEntry(impl, presets, 4326).value.crs.To(DefaultEntry(impl, presets, 32600 + zone).value.crs).value(p)
         == Wgs84Api.PackageToUTM(impl, zone as real, true).value(p)
  {
    DefaultUtmEntries(impl, presets, zone);
    Wgs84Api.ToSystemIsToWithinWgs84(Wgs84Api.SystemOf(impl, Wgs84Api.LonLatSystem),
                                     Wgs84Api.SystemOf(impl, Wgs84Api.TransverseMercatorSystem(TmParams.UTM(zone as real, true))), p);
  }

  /** The package-level `AllCodes()`: every code of the default repository,
      once each. */
  method PackageAllCodes(impl: Wgs84Api.SystemKind -> Wgs84Api.System, presets: Preset -> Wgs84Api.Crs)
    returns (cc: seq<int>)
    ensures forall c :: c in cc <==> DefaultEntry(impl, presets, c).Some?
    ensures NoDuplicates(cc)
  {
    var r := DefaultRepository(impl, presets);
    cc := r.AllCodes();
  }

  /** The package-level `Codes(lon, lat)`: the default codes whose box
      holds the point. */
  method PackageCodes(impl: Wgs84Api.SystemKind -> Wgs84Api.System, presets: Preset -> Wgs84Api.Crs, lon: real, lat: real)
    returns (cc: seq<int>)
    ensures forall c :: c in cc <==> DefaultEntry(impl, presets, c).Some? && DefaultEntry(impl, presets, c).value.bbox.Covers(lon, lat)
    ensures NoDuplicates(cc)
  {
    var r := DefaultRepository(impl, presets);
    cc := r.Codes(lon, lat);
  }

  /** The package-level `Code(c)`. */
  method PackageCode(impl: Wgs84Api.SystemKind -> Wgs84Api.System, presets: Preset -> Wgs84Api.Crs, c: int)
    returns (crs: Wgs84Api.Crs, ok: bool)
    ensures ok <==> DefaultEntry(impl, presets, c).Some?
    ensures ok ==> crs == DefaultEntry(impl, presets, c).value.crs
    ensures !ok ==> crs == ZeroCrs()
  {
    var r := DefaultRepository(impl, presets);
    var res := r.Code(c);
    crs, ok := res.0, res.1;
  }

  /** The package-level `Transform(from, to)`: nil unless both codes are
      default codes, and then the first system's To the second. */
  method PackageTransform(impl: Wgs84Api.SystemKind -> Wgs84Api.System, presets: Preset -> Wgs84Api.Crs,
                          from: int, to: int)
    returns (f: Wgs84Api.OptFunc)
    ensures DefaultEntry(impl, presets, from).None? || DefaultEntry(impl, presets, to).None? ==> f.None?
    ensures DefaultEntry(impl, presets, from).Some? && DefaultEntry(impl, presets, to).Some?
            ==> f == DefaultEntry(impl, presets, from).value.crs.To(DefaultEntry(impl, presets, to).value.crs)
  {
    var r := DefaultRepository(impl, presets);
    f := r.Transform(from, to);
  }
}
