/** The transverse Mercator parameter set of the system package and its UTM
    and Gauss-Krüger zone constructors. */
module TmParams {
  /** `TransverseMercator{Lonf, Latf, Scale, Eastf, Northf}`: central
      meridian and latitude of origin in degrees, scale factor on the
      central meridian, false easting and false northing in metres. */
  datatype TransverseMercator = TransverseMercator(lonf: real, latf: real, scale: real, eastf: real, northf: real)

  /** A UTM zone: central meridian 6 zone - 183, scale 0.9996, false
      easting 500 km, and a false northing of 10000 km in the south. */
  function UTM(zone: real, northern: bool): (t: TransverseMercator)
    ensures t.latf == 0.0 && t.scale == 0.9996 && t.eastf == 500000.0
    ensures t.northf == if northern then 0.0 else 10000000.0
  {
    if northern then TransverseMercator(zone * 6.0 - 183.0, 0.0, 0.9996, 500000.0, 0.0)
    else TransverseMercator(zone * 6.0 - 183.0, 0.0, 0.9996, 500000.0, 10000000.0)
  }

  /** A Gauss-Krüger zone: central meridian 3 zone, scale 1, false easting
      zone million plus 500 km. */
  function GK(zone: real): (t: TransverseMercator)
    ensures t.latf == 0.0 && t.scale == 1.0 && t.northf == 0.0
  {
    TransverseMercator(zone * 3.0, 0.0, 1.0, zone * 1000000.0 + 500000.0, 0.0)
  }

  /** The two hemispheres of a zone differ only in the false northing. */
  lemma UTMHemispheres(zone: real)
    ensures UTM(zone, false) == UTM(zone, true).(northf := 10000000.0)
    ensures UTM(zone, true).northf == 0.0
  {
  }

  /** UTM zones are six degrees apart and zone 1 is centred on -177, zone 60
      on 177; every zone's central meridian is a longitude within [-180,
      180] and lies in the middle of the zone's six degrees. */
  lemma UTMCentralMeridians(zone: real, northern: bool)
    ensures UTM(zone + 1.0, northern).lonf == UTM(zone, northern).lonf + 6.0
    ensures UTM(1.0, northern).lonf == -177.0 && UTM(60.0, northern).lonf == 177.0
    ensures 1.0 <= zone <= 60.0 ==> -180.0 < UTM(zone, northern).lonf < 180.0
    ensures UTM(zone, northern).lonf - 3.0 == zone * 6.0 - 186.0
    ensures UTM(zone, northern).lonf + 3.0 == zone * 6.0 - 180.0
  {
  }

  /** Gauss-Krüger zones are three degrees apart and the zone number is the
      false easting's million digit. */
  lemma GKZones(zone: real)
    ensures GK(zone + 1.0).lonf == GK(zone).lonf + 3.0
    ensures GK(zone + 1.0).eastf == GK(zone).eastf + 1000000.0
    ensures GK(zone).eastf == GK(zone).lonf / 3.0 * 1000000.0 + 500000.0
  {
  }
}
