/** The `EPSG(code)` dispatch of the root package's epsg.go: an explicit
    table of codes, five integer ranges of zone systems, and the
    `ErrCodeNotFound` sentinel, which converts nothing. */
module EpsgCodes {
  import opened Geo
  import TmParams
  import Datums
  import References

  /** The datum values epsg.go builds on. */
  datatype DatumName =
    | WGS84 | ETRS89 | RGF93 | NAD83 | IRENET95 | SJTSK | OSNI1952 | ED50
    | OSGB36 | TM65 | TM75 | MGI | DHDN2001

  /** What a code stands for: a datum's geographic system, the geocentric
      WGS84 system, one of the projected systems of a datum, or the
      not-found sentinel carrying its code. */
  datatype Crs =
    | Geographic(datum: DatumName)
    | Geocentric
    | WebMercator(datum: DatumName)
    | TransverseMercator(datum: DatumName, lonf: real, latf: real, scale: real, eastf: real, northf: real)
    | LambertConformalConic2SP(datum: DatumName, lonf: real, latf: real, lat1: real, lat2: real,
                               eastf: real, northf: real)
    | LambertAzimuthalEqualArea(datum: DatumName, lonf: real, latf: real, eastf: real, northf: real)
    | AlbersConicEqualArea(datum: DatumName, lonf: real, latf: real, lat1: real, lat2: real,
                           eastf: real, northf: real)
    | Krovak(datum: DatumName, lonf: real, latf: real, azimuth: real, pseudoParallel: real,
             scale: real, eastf: real, northf: real)
    | ErrCodeNotFound(code: int)
  {
    /** The sentinel returns its input; every other descriptor converts with
        `toWGS84`, the forward conversion of the system it names. */
    function ToWGS84(toWGS84: Crs -> Func, p: Triple): Triple
    {
      if ErrCodeNotFound? then p else toWGS84(this)(p)
    }

    /** The sentinel returns its input; every other descriptor converts with
        `fromWGS84`, the inverse conversion of the system it names. */
    function FromWGS84(fromWGS84: Crs -> Func, p: Triple): Triple
    {
      if ErrCodeNotFound? then p else fromWGS84(this)(p)
    }
  }

  /** The codes of the explicit table. */
  const TableCodes: set<int> :=
    {2154, 2157, 2158, 3035, 3161, 3416, 3875, 4156, 4171, 4188, 4230, 4258, 4269, 4277, 4299, 4300,
     4312, 4314, 4326, 4978, 5514, 6355, 6356, 6414, 23090, 27700, 29901, 29902, 29903, 31257, 31258,
     31259, 31284, 31285, 31286, 31287, 900913}

  /** The codes EPSG recognises: the table and the five zone ranges. */
  predicate IsKnownCode(code: int)
  {
    code in TableCodes || 3942 <= code <= 3950 || 25828 <= code <= 25838 || 31466 <= code <= 31469
    || 32601 <= code <= 32660 || 32701 <= code <= 32760
  }

  /** The explicit table. */
  function Table(code: int): Option<Crs>
  {
    if code !in TableCodes then None else
    match code
    case 2154 => Some(LambertConformalConic2SP(RGF93, 3.0, 46.5, 49.0, 44.0, 700000.0, 6600000.0))
    case 2157 => Some(TransverseMercator(IRENET95, -8.0, 53.5, 0.99982, 600000.0, 750000.0))
    case 2158 => Some(TransverseMercator(IRENET95, -9.0, 0.0, 0.9996, 500000.0, 0.0))
    case 3035 => Some(LambertAzimuthalEqualArea(ETRS89, 10.0, 52.0, 4321000.0, 3210000.0))
    case 3161 => Some(LambertConformalConic2SP(NAD83, -85.0, 0.0, 44.5, 53.5, 930000.0, 6430000.0))
    case 3416 => Some(LambertConformalConic2SP(ETRS89, 13.33333333333333, 47.5, 49.0, 46.0, 400000.0, 400000.0))
    case 3875 => Some(WebMercator(WGS84))
    case 4156 => Some(Geographic(SJTSK))
    case 4171 => Some(Geographic(RGF93))
    case 4188 => Some(Geographic(OSNI1952))
    case 4230 => Some(Geographic(ED50))
    case 4258 => Some(Geographic(ETRS89))
    case 4269 => Some(Geographic(NAD83))
    case 4277 => Some(Geographic(OSGB36))
    case 4299 => Some(Geographic(TM65))
    case 4300 => Some(Geographic(TM75))
    case 4312 => Some(Geographic(MGI))
    case 4314 => Some(Geographic(DHDN2001))
    case 4326 => Some(Geographic(WGS84))
    case 4978 => Some(Geocentric)
    case 5514 => Some(Krovak(SJTSK, 24.8333333333333, 49.5, 30.2881397527778, 78.5, 0.9999, 0.0, 0.0))
    case 6355 => Some(TransverseMercator(NAD83, -85.8333333333333, 30.5, 0.99996, 200000.0, 0.0))
    case 6356 => Some(TransverseMercator(NAD83, -87.5, 30.0, 0.999933333, 600000.0, 0.0))
    case 6414 => Some(AlbersConicEqualArea(NAD83, -120.0, 0.0, 34.0, 40.5, 0.0, -4000000.0))
    case 23090 => Some(TransverseMercator(ED50, 0.0, 0.0, 0.9996, 500000.0, 0.0))
    case 27700 => Some(TransverseMercator(OSGB36, -2.0, 49.0, 0.9996012717, 400000.0, -100000.0))
    case 29901 => Some(TransverseMercator(OSNI1952, -8.0, 53.5, 1.0, 200000.0, 250000.0))
    case 29902 => Some(TransverseMercator(TM65, -8.0, 53.5, 1.000035, 200000.0, 250000.0))
    case 29903 => Some(TransverseMercator(TM75, -8.0, 53.5, 1.000035, 200000.0, 250000.0))
    case 31257 => Some(TransverseMercator(MGI, 10.33333333333333, 0.0, 1.0, 150000.0, -5000000.0))
    case 31258 => Some(TransverseMercator(MGI, 13.33333333333333, 0.0, 1.0, 450000.0, -5000000.0))
    case 31259 => Some(TransverseMercator(MGI, 16.33333333333333, 0.0, 1.0, 750000.0, -5000000.0))
    case 31284 => Some(TransverseMercator(MGI, 10.33333333333333, 0.0, 1.0, 150000.0, 0.0))
    case 31285 => Some(TransverseMercator(MGI, 13.33333333333333, 0.0, 1.0, 450000.0, 0.0))
    case 31286 => Some(TransverseMercator(MGI, 16.33333333333333, 0.0, 1.0, 750000.0, 0.0))
    case 31287 => Some(LambertConformalConic2SP(MGI, 13.33333333333333, 47.5, 49.0, 46.0, 400000.0, 400000.0))
    case 900913 => Some(WebMercator(WGS84))
    case _ => None
  }

  /** `EPSG(code)`: the table first, then the ranges, each bound strict as
      written, then the sentinel. */
  function EPSG(code: int): Crs
  {
    var t := Table(code);
    if t.Some? then t.value
    else if code > 3941 && code < 3951 then
      var lat := (code - 3900) as real;
      LambertConformalConic2SP(RGF93, 3.0, lat, lat - 0.75, lat + 0.75, 1700000.0, 2200000.0 + (lat - 43.0) * 1000000.0)
    else if code > 25827 && code < 25839 then
      var zone := (code - 25800) as real;
      TransverseMercator(ETRS89, zone * 6.0 - 183.0, 0.0, 0.9996, 500000.0, 0.0)
    else if code > 31465 && code < 31470 then
      var zone := (code - 31464) as real;
      TransverseMercator(DHDN2001, zone * 3.0, 0.0, 1.0, zone * 1000000.0 + 500000.0, 0.0)
    else if code > 32600 && code < 32661 then
      var zone := (code - 32600) as real;
      TransverseMercator(WGS84, zone * 6.0 - 183.0, 0.0, 0.9996, 500000.0, 0.0)
    else if code > 32700 && code < 32761 then
      var zone := code - 32700;
      TransverseMercator(WGS84, zone as real * 6.0 - 183.0, 0.0, 0.9996, 500000.0, 10000000.0)
    else ErrCodeNotFound(code)
  }

  /** The table's codes lie outside all five ranges, so the order of the
      tests does not matter. */
  lemma TableIsOutsideRanges(code: int)
    requires Table(code).Some?
    ensures code in TableCodes
    ensures !(3942 <= code <= 3950 || 25828 <= code <= 25838 || 31466 <= code <= 31469
              || 32601 <= code <= 32660 || 32701 <= code <= 32760)
  {
  }

  /** A code is found exactly when it is in the table or one of the ranges;
      otherwise the sentinel carries the code. */
  lemma NotFoundIff(code: int)
    ensures EPSG(code).ErrCodeNotFound? <==> !IsKnownCode(code)
    ensures EPSG(code).ErrCodeNotFound? ==> EPSG(code).code == code
  {
    if code in TableCodes {
      assert Table(code).Some?;
    }
  }

  /** The sentinel's ToWGS84 and FromWGS84 return their input. */
  lemma NotFoundIsIdentity(toWGS84: Crs -> Func, fromWGS84: Crs -> Func, code: int, p: Triple)
    requires !IsKnownCode(code)
    ensures EPSG(code).ToWGS84(toWGS84, p) == p && EPSG(code).FromWGS84(fromWGS84, p) == p
  {
    NotFoundIff(code);
  }

  /** A code outside the table set has no table entry. */
  lemma NotInTable(code: int)
    requires code !in TableCodes
    ensures Table(code).None?
  {
  }

  /** The range bounds are strict: the codes just outside fall through to
      the sentinel; here the RGF93 conic range. */
  lemma RangeBoundsAreStrict()
    ensures EPSG(3941).ErrCodeNotFound? && EPSG(3951).ErrCodeNotFound?
  {
    NotInTable(3941);
    NotInTable(3951);
  }

  /** The same for the ETRS89 UTM range. */
  lemma ETRS89BoundsAreStrict()
    ensures EPSG(25827).ErrCodeNotFound? && EPSG(25839).ErrCodeNotFound?
  {
    NotInTable(25827);
    NotInTable(25839);
  }

  /** The same for the DHDN2001 Gauss-Krüger range. */
  lemma DHDN2001BoundsAreStrict()
    ensures EPSG(31465).ErrCodeNotFound? && EPSG(31470).ErrCodeNotFound?
  {
    NotInTable(31465);
    NotInTable(31470);
  }

  /** The same for the two UTM ranges. */
  lemma UtmBoundsAreStrict()
    ensures EPSG(32600).ErrCodeNotFound? && EPSG(32661).ErrCodeNotFound?
    ensures EPSG(32700).ErrCodeNotFound? && EPSG(32761).ErrCodeNotFound?
  {
    NotInTable(32600);
    NotInTable(32661);
    NotInTable(32700);
    NotInTable(32761);
  }

  /** 3875 and 900913 are both the WGS84 WebMercator system. */
  lemma WebMercatorAliases()
    ensures EPSG(3875) == EPSG(900913) == WebMercator(WGS84)
  {
  }

  /** The transverse Mercator descriptor of a UTM zone. */
  function UtmDescriptor(zone: int, northern: bool): Crs
  {
    var t := TmParams.UTM(zone as real, northern);
    TransverseMercator(WGS84, t.lonf, t.latf, t.scale, t.eastf, t.northf)
  }

  /** 32601-32660 are the northern and 32701-32760 the southern WGS84 UTM
      zones 1-60. */
  lemma UtmCodes(code: int)
    ensures 32601 <= code <= 32660 ==>
              EPSG(code) == UtmDescriptor(code - 32600, true)
              && EPSG(code) == TransverseMercator(WGS84, (code - 32600) as real * 6.0 - 183.0, 0.0, 0.9996, 500000.0, 0.0)
    ensures 32701 <= code <= 32760 ==>
              EPSG(code) == UtmDescriptor(code - 32700, false)
              && EPSG(code).northf == 10000000.0
  {
    if 32601 <= code <= 32660 || 32701 <= code <= 32760 {
      TableIsOutsideRangesContrapositive(code);
    }
  }

  /** A code in one of the ranges is not in the table. */
  lemma TableIsOutsideRangesContrapositive(code: int)
    requires 3942 <= code <= 3950 || 25828 <= code <= 25838 || 31466 <= code <= 31469
             || 32601 <= code <= 32660 || 32701 <= code <= 32760
    ensures Table(code).None?
  {
    if Table(code).Some? {
      TableIsOutsideRanges(code);
    }
  }

  /** 3942-3950 are the RGF93 conic zones CC42-CC50 of reference.go. */
  lemma RGF93ConicCodes(code: int)
    requires 3942 <= code <= 3950
    ensures var lat := (code - 3900) as real;
            EPSG(code) == LambertConformalConic2SP(RGF93, 3.0, lat, lat - 0.75, lat + 0.75, 1700000.0,
                                                   2200000.0 + (lat - 43.0) * 1000000.0)
    ensures ProjectionOf(EPSG(code)) == References.RGF93CC((code - 3900) as real).projection
  {
    TableIsOutsideRangesContrapositive(code);
  }

  /** 25828-25838 are the ETRS89 UTM zones 28-38 of reference.go. */
  lemma ETRS89UtmCodes(code: int)
    requires 25828 <= code <= 25838
    ensures EPSG(code).datum == ETRS89
    ensures ProjectionOf(EPSG(code)) == References.ETRS89UTM((code - 25800) as real).projection
  {
    TableIsOutsideRangesContrapositive(code);
  }

  /** 31466-31469 are the DHDN2001 Gauss-Krüger zones 2-5: zone code -
      31464, central meridian 3 zone, false easting zone million plus 500
      km, the system package's GK zone and reference.go's DHDN2001GK. */
  lemma DHDN2001GkCodes(code: int)
    requires 31466 <= code <= 31469
    ensures var zone := (code - 31464) as real;
            EPSG(code) == TransverseMercator(DHDN2001, zone * 3.0, 0.0, 1.0, zone * 1000000.0 + 500000.0, 0.0)
    ensures var t := TmParams.GK((code - 31464) as real);
            EPSG(code) == TransverseMercator(DHDN2001, t.lonf, t.latf, t.scale, t.eastf, t.northf)
    ensures ProjectionOf(EPSG(code)) == References.DHDN2001GK((code - 31464) as real).projection
  {
    TableIsOutsideRangesContrapositive(code);
  }

  /** The projection of a descriptor in the terms of datum.go, when that
      file has one. */
  function ProjectionOf(c: Crs): Option<Datums.Projection>
  {
    match c
    case WebMercator(_) => Some(Datums.WebMercatorProjection)
    case TransverseMercator(_, lonf, latf, scale, eastf, northf) =>
      Some(Datums.TransverseMercatorProjection(lonf, latf, scale, eastf, northf))
    case LambertConformalConic2SP(_, lonf, latf, lat1, lat2, eastf, northf) =>
      Some(Datums.LambertConformalConic2SPProjection(lonf, latf, lat1, lat2, eastf, northf))
    case LambertAzimuthalEqualArea(_, lonf, latf, eastf, northf) =>
      Some(Datums.LambertAzimuthalEqualAreaProjection(latf, lonf, eastf, northf))
    case AlbersConicEqualArea(_, lonf, latf, lat1, lat2, eastf, northf) =>
      Some(Datums.AlbersEqualAreaConicProjection(lonf, latf, lat1, lat2, eastf, northf))
    case _ => None
  }

  /** The table and reference.go's predefined systems agree on every
      projection they share, with the Albers parameters in the corrected
      order; only the Alabama East central meridian is written to one
      digit less here. */
  lemma TableAgreesWithPresets()
    ensures ProjectionOf(EPSG(2154)) == References.RGF93FranceLambert().projection
    ensures ProjectionOf(EPSG(3035)) == References.ETRS89LambertAzimuthalEqualArea().projection
    ensures ProjectionOf(EPSG(3416)) == References.ETRS89AustriaLambert().projection
    ensures ProjectionOf(EPSG(27700)) == References.OSGB36NationalGrid().projection
    ensures ProjectionOf(EPSG(31287)) == References.MGIAustriaLambert().projection
    ensures ProjectionOf(EPSG(3875)) == Datums.WGS84().WebMercator().projection
  {
  }

  /** The MGI Gauss-Krüger and M zones of the table are reference.go's. */
  lemma TableAgreesWithAustrianZones()
    ensures ProjectionOf(EPSG(31257)) == References.MGIAustriaGKM28().projection
    ensures ProjectionOf(EPSG(31258)) == References.MGIAustriaGKM31().projection
    ensures ProjectionOf(EPSG(31259)) == References.MGIAustriaGKM34().projection
    ensures ProjectionOf(EPSG(31284)) == References.MGIAustriaM28().projection
    ensures ProjectionOf(EPSG(31285)) == References.MGIAustriaM31().projection
    ensures ProjectionOf(EPSG(31286)) == References.MGIAustriaM34().projection
  {
  }

  /** The NAD83 entries: Alabama West and the California Albers system
      agree with the corrected parameter order, not with reference.go's as
      written; Alabama East's central meridian is written with one digit
      less here than there. */
  lemma TableAgreesWithNad83Presets()
    ensures ProjectionOf(EPSG(6356)) == References.NAD83AlabamaWest().projection
    ensures ProjectionOf(EPSG(6414)) == References.NAD83CaliforniaAlbersAsEpsg6414().projection
    ensures ProjectionOf(EPSG(6414)) != References.NAD83CaliforniaAlbers().projection
    ensures ProjectionOf(EPSG(6355)) != References.NAD83AlabamaEast().projection
  {
  }
}
