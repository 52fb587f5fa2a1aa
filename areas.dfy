/** `AreaFunc`: an optional predicate on a longitude and a latitude, guarded
    by a latitude range check. */
module Areas {
  import opened Geo

  /** `AreaFunc func(lon, lat float64) bool`; the function may be nil. */
  datatype AreaFunc = AreaFunc(fn: Option<LonLatPredicate>)
  {
    /** False when |lat| > 180 or |lat| > 90; true for a nil function;
        otherwise the function's own answer. */
    function Contains(lon: real, lat: real): bool
    {
      if Abs(lat) > 180.0 || Abs(lat) > 90.0 then false
      else if fn.None? then true
      else fn.value(lon, lat)
    }

    /** Contains holds exactly when |lat| <= 90 and the function, if any,
        accepts the point: the `> 180` test adds nothing. */
    lemma ContainsIff(lon: real, lat: real)
      ensures Contains(lon, lat) <==> -90.0 <= lat <= 90.0 && (fn.None? || fn.value(lon, lat))
    {
    }

    /** A present function decides every point whose |lat| is at most 90. */
    lemma DefersToFunction(lon: real, lat: real)
      requires fn.Some? && -90.0 <= lat <= 90.0
      ensures Contains(lon, lat) == fn.value(lon, lat)
    {
    }
  }

  /** A nil AreaFunc accepts exactly the points with |lat| <= 90. */
  lemma NilContainsIff(lon: real, lat: real)
    ensures AreaFunc(None).Contains(lon, lat) <==> -90.0 <= lat <= 90.0
  {
  }

  /** Any point beyond the poles is rejected, whatever the function says. */
  lemma RejectsBeyondPoles(a: AreaFunc, lon: real, lat: real)
    requires lat < -90.0 || 90.0 < lat
    ensures !a.Contains(lon, lat)
  {
  }

  /** The longitude is never range-checked: a nil AreaFunc accepts a point
      with longitude 1000. */
  lemma LongitudeUnchecked()
    ensures AreaFunc(None).Contains(1000.0, 0.0)
    ensures AreaFunc(Some((lon: real, lat: real) => true)).Contains(-1000.0, 45.0)
  {
  }
}
