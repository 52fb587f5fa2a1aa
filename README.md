# wgs84 in Dafny

This project models the exact, non-numeric core of the Go library
`github.com/wroge/wgs84` and proves properties of that model. The library
converts coordinates between coordinate reference systems (CRS). The core
modelled here has six parts:

- **EPSG dispatch** (`epsg.go`): the `EPSG(code)` switch with its integer
  ranges, and the `ErrCodeNotFound` sentinel, which converts as the identity.
- **The EPSG repository** (`epsg/epsg.go`):
  - a `Repository` class whose `codes` map is changed by `Add`;
  - the looping methods `AllCodes`, `Codes`, `boundingBox.contains` and
    `boundingBox.normalize`;
  - the registration loops of `DefaultRepository`, and the read-only
    `Code` and `Transform`.
- **Datum transformations over the reals**:
  - the seven-parameter Helmert formula (`helmert.go`);
  - the `Transformation` struct with its chained translation and Helmert
    steps (`transformation/transformation.go`);
  - `GeocentricTranslation` (`transformation/geocentrictranslation.go`);
  - the root package's `transformation` helpers (`transformation.go`).
- **Datums and reference systems**:
  - `Datum` with its nil defaults and named datums (`datum.go`);
  - the geocentric, geographic and projected systems, `Transform` and
    `SafeTransform` (`reference.go`);
  - `AreaFunc` (`area.go`);
  - the `CoordinateReferenceSystem` struct, `WithSystem` and the `Func`
    combinators `SwitchIn`/`SwitchOut` (`wgs84.go`).
- **Spheroids** (`spheroid/spheroid.go`): zero-value defaults to WGS84, and
  the rational identities between the derived terms.
- **Zone parameters** (`system/transversemercator.go`): the UTM and
  Gauss-Krüger constructors.

Go values that may be nil (functions and interface values) are `Option`s.

The projection and geodesy series cannot be written in Dafny, which has no
sin, atan, log or pow. They enter the model as function-valued parameters:
- `Geodesy` in `References`;
- `impl: SystemKind -> System` in `Wgs84Api`;
- `toWGS84` and `fromWGS84: Crs -> Func` in `EpsgCodes`.

Every property is proved for all choices of these functions. A property
that needs an inverse says so in its `requires`.

The library holds several API generations side by side:
- `interface.go`-style values (`datum.go`, `reference.go`);
- the `CoordinateReferenceSystem` struct (`wgs84.go`, used by `epsg/epsg.go`);
- the values `epsg.go` builds, whose types are not part of this model.

Each generation is modelled against its own code, in its own module. The
values `epsg.go` builds become descriptors: a datum name, a projection kind
and the parameters, in the datatype `EpsgCodes.Crs`.

Modules:

| module | file | source |
|---|---|---|
| `Geo` | geo.dfy | shared `Option`, `Triple` and `Func` |
| `Spheroids` | spheroid.dfy | spheroid/spheroid.go |
| `HelmertFormula` | helmert.dfy | helmert.go |
| `Transformations` | transformations.dfy | transformation/transformation.go, transformation/geocentrictranslation.go |
| `RootTransformation` | root_transformation.dfy | transformation.go |
| `Areas` | areas.dfy | area.go |
| `Datums` | datum.dfy | datum.go, spheroid.go |
| `References` | reference.dfy | reference.go |
| `TmParams` | tm_params.dfy | system/transversemercator.go |
| `Wgs84Api` | wgs84_api.dfy | wgs84.go |
| `EpsgCodes` | epsg_codes.dfy | epsg.go |
| `EpsgRepository` | epsg_repository.dfy | epsg/epsg.go |

Where the code and its documentation disagree, the model follows the code.
The one place it does not is `boundingBox.normalize` (see Findings): its
maxlon loop never ends, and `Repository.Add` uses the corrected loop.


- `Datum.Contains` is false for a datum whose `Area` is nil, although the
  doc comment says "true if nil" (`Datums.NilAreaContainsNothing`).
- `AreaFunc.Contains` never checks the longitude. Its `> 180` test is made
  on the latitude a second time (`Areas.LongitudeUnchecked`).
- DHDN2001 codes use zone = code - 31464, as the code computes it.
- Two preset systems disagree with the EPSG parameters they cite, so the
  model shows the difference rather than papering over it:
  - `reference.go`'s `NAD83AlabamaEast` writes the central meridian as
    -85.83333333333333, while `epsg.go`'s 6355 writes -85.8333333333333.
  - `NAD83CaliforniaAlbers`: see Findings.

## Model

| member | source | states |
|---|---|---|
| Spheroids.Spheroid.A | spheroid/spheroid.go:49-54 | the major axis is never zero: a zero `a` falls back to the WGS84 axis |
| Spheroids.Spheroid.Fi | spheroid/spheroid.go:57-62 | the inverse flattening is never zero, so `F = 1/Fi` is always defined |
| Spheroids.Spheroid.RootOneMinusE2 | spheroid/spheroid.go:110-112 | the square root that `Ei` takes is the non-negative root of `1 - E2` |
| Spheroids.Spheroid.FlatteningIdentities | spheroid/spheroid.go:65-92 | F·Fi = 1, B = A(1 - F), A2 = A², F2 = F², E2 = F(2 - F) and 1 - E2 = (1 - F)² |
| Spheroids.Spheroid.MinorAxisSquared | spheroid/spheroid.go:85-92 | B² = A²(1 - E2) |
| Spheroids.Spheroid.EccentricityPowers | spheroid/spheroid.go:100-107 | E4 = E2² and E6 = E2³ |
| Spheroids.Spheroid.EccentricityBounds | spheroid/spheroid.go:90-92 | an inverse flattening above 1 gives 0 < E2 < 1 |
| Spheroids.Spheroid.ThirdFlatteningPowers | spheroid/spheroid.go:115-127 | Ei2, Ei3 and Ei4 are the second, third and fourth powers of Ei |
| Spheroids.Spheroid.ThirdFlatteningIsAxisRatio | spheroid/spheroid.go:110-112 | for Fi ≥ 1, Ei is the third flattening F/(2 - F) = (A - B)/(A + B) |
| Spheroids.ZeroValueIsWgs84 | spheroid/spheroid.go:49-62 | the zero Spheroid has WGS84's A, Fi, E2 and Ei |
| Spheroids.NewKeepsParameters | spheroid/spheroid.go:39-41 | New(a, fi) with non-zero parameters reports exactly a and fi |
| Spheroids.NamedSpheroidsAreEllipses | spheroid/spheroid.go:8-36 | each of the six named spheroids has 0 < E2 < 1 |
| HelmertFormula.Helmert.ForwardIsScaledRotation | helmert.go:15-29 | Forward is (1 + ds ppm)(p + asec·(r × p)) + t: a scaled small rotation followed by the translation |
| HelmertFormula.Helmert.InverseIsNegatedForward | helmert.go:19-21 | Inverse is Forward with all seven parameters negated; negating twice gives back the same helmert |
| HelmertFormula.Helmert.TranslationRoundTrip | helmert.go:15-29 | with no rotation and no scale, Forward adds t, and Inverse undoes Forward in both orders exactly |
| HelmertFormula.Helmert.ScaledTranslation | helmert.go:23-29 | without rotation, Forward scales the point by 1 + ds ppm and then translates |
| HelmertFormula.Helmert.ForwardLessTranslation | helmert.go:23-29 | Forward(p) - t is the rotated brackets scaled by 1 + ds ppm |
| HelmertFormula.Helmert.ForwardAdditive | helmert.go:23-29 | Forward(p) - t is additive in p |
| HelmertFormula.Helmert.ForwardHomogeneous | helmert.go:23-29 | Forward(p) - t is homogeneous in p |
| HelmertFormula.ZeroIsIdentity | helmert.go:15-29 | with all parameters zero, Forward and Inverse return their input |
| Transformations.Transformation.TranslationToWGS84Order | transformation/transformation.go:43-54 | the chained translation applies the inner ToWGS84 first, then adds (tx, ty, tz) |
| Transformations.Transformation.TranslationFromWGS84Order | transformation/transformation.go:43-54 | coming back it subtracts (tx, ty, tz) first, then applies the inner FromWGS84 |
| Transformations.Transformation.TranslationKeepsInverse | transformation/transformation.go:43-54 | a translation chained after an exactly inverting transformation inverts exactly |
| Transformations.Transformation.HelmertToWGS84Order | transformation/transformation.go:59-79 | the chained Helmert applies the inner ToWGS84, then the `helmert` formula with the parameters as given, which is calcHelmert's Forward |
| Transformations.Transformation.HelmertFromWGS84Order | transformation/transformation.go:59-79 | coming back it applies the formula with negated parameters (calcHelmert's Inverse), then the inner FromWGS84 |
| Transformations.Transformation.HelmertTranslationKeepsInverse | transformation/transformation.go:59-79 | a Helmert step without rotation and scale keeps an exact inverse exact |
| Transformations.WGS84IsIdentity | transformation/transformation.go:7-16 | WGS84() returns every point unchanged both ways, and inverts |
| Transformations.NilIsIdentity | transformation/transformation.go:26-39 | a Transformation with nil functions returns its input both ways |
| Transformations.GeocentricTranslation.ToWGS84 | transformation/geocentrictranslation.go:7-9 | adds (Tx, Ty, Tz) componentwise |
| Transformations.GeocentricTranslation.FromWGS84 | transformation/geocentrictranslation.go:11-13 | subtracts (Tx, Ty, Tz) componentwise |
| Transformations.GeocentricTranslation.RoundTrip | transformation/geocentrictranslation.go:7-13 | FromWGS84 and ToWGS84 undo each other exactly, in both orders |
| Transformations.GeocentricTranslation.AgreesWithChainedTranslation | transformation/geocentrictranslation.go:7-13 | the struct converts as WGS84().GeocentricTranslation with the same vector |
| Transformations.ZeroTranslationIsIdentity | transformation/geocentrictranslation.go:7-13 | a zero translation is the identity both ways |
| RootTransformation.NilIsIdentity | transformation.go:10-22 | nil function fields return their input both ways |
| RootTransformation.PlainTranslation | transformation.go:24-40 | with t nil the translation adds going to WGS84 and subtracts coming back |
| RootTransformation.PlainTranslationInverts | transformation.go:24-40 | geocentricTranslation(nil, ...) undoes itself exactly in both orders |
| RootTransformation.TranslationToWGS84Order | transformation.go:24-31 | with t present, toWGS84 applies t.ToWGS84 first, then adds |
| RootTransformation.TranslationFromWGS84Order | transformation.go:32-38 | with t present, fromWGS84 subtracts first, then applies t.FromWGS84 |
| RootTransformation.TranslationKeepsInverse | transformation.go:24-40 | a translation around an exactly invertible t inverts exactly |
| RootTransformation.HelmertToWGS84Order | transformation.go:42-57 | toWGS84 applies t when present, then h with the parameters as given |
| RootTransformation.HelmertFromWGS84Order | transformation.go:58-64 | fromWGS84 applies h with all seven parameters negated, then t when present |
| RootTransformation.HelmertTranslationInverts | transformation.go:42-66 | a pure-translation helmert without t inverts exactly |
| Areas.AreaFunc.ContainsIff | area.go:15-23 | Contains holds exactly when abs(lat) <= 90 and the function is nil or accepts the point |
| Areas.AreaFunc.DefersToFunction | area.go:15-23 | for abs(lat) <= 90 a non-nil function's own answer is returned |
| Areas.NilContainsIff | area.go:15-21 | a nil AreaFunc accepts exactly the points with abs(lat) <= 90 |
| Areas.RejectsBeyondPoles | area.go:16-18 | every point with abs(lat) > 90 is rejected, whatever the function |
| Areas.LongitudeUnchecked | area.go:13-18 | longitudes beyond ±180 are accepted, despite the doc comment |
| Datums.ProjectedReferenceSystem.Contains | reference.go:280-282 | a projected system contains a point exactly when its datum does and, if it has an area of its own, that area does too |
| Datums.Datum.A | datum.go:187-193 | the WGS84 major axis when Spheroid is nil, otherwise the spheroid's own |
| Datums.Datum.Fi | datum.go:198-204 | the WGS84 inverse flattening when Spheroid is nil, otherwise the spheroid's own |
| Datums.Datum.BuildersKeepDatum | datum.go:229-304 | every system a datum builds keeps that datum and has no area of its own, so it contains what the datum contains |
| Datums.Datum.BuildersCopyArguments | datum.go:251-304 | the projection builders store each argument in its field; LambertAzimuthalEqualArea's (lonf, latf) go in that order |
| Datums.NilAreaContainsNothing | datum.go:175-182 | a datum with a nil Area contains no point, contrary to its doc comment |
| Datums.NilAreaFuncContainsBounds | datum.go:180-182 | a datum whose area is a nil AreaFunc contains exactly the points within ±180 by ±90 |
| Datums.NilTransformationIsIdentity | datum.go:209-226 | with a nil Transformation, Forward and Inverse return their input |
| Datums.ZeroDatumIsWgs84Spheroid | datum.go:187-204 | the zero Datum has the WGS84 axis and flattening |
| Datums.HelmertZeroAxisHasNoDefault | spheroid.go:6-16 | the unexported spheroid struct has no zero default, unlike spheroid.New |
| Datums.Helmert | datum.go:11-24 | the datum stores spheroid (a, fi) and no area; Forward is calcHelmert with the seven parameters, Inverse with all of them negated |
| Datums.BoxDatumContains | datum.go:175-182 | a datum whose area is a box inside the global bounds contains exactly the box |
| Datums.NamedDatumAreas | datum.go:31-162 | WGS84 covers the globe; ETRS89, OSGB36, MGI, DHDN2001, RGF93 and NAD83 contain exactly their documented boxes |
| Datums.UntransformedDatums | datum.go:31-162 | WGS84, ETRS89, RGF93 and NAD83 have identity Forward and Inverse |
| Datums.HelmertDatums | datum.go:66-134 | OSGB36, MGI and DHDN2001 carry exactly the spheroid and Helmert parameters of their doc comments |
| Datums.Grs80Parameters | spheroid.go:66-85 | the GRS80 datums share WGS84's axis but not its flattening |
| References.NilProjectionIsWebMercator | reference.go:285-307 | a projected system with a nil projection converts and contains as its datum's WebMercator system |
| References.GeocentricUsesDatumOnly | reference.go:195-203 | a geocentric system converts with its datum's Forward and Inverse only |
| References.GeographicRoundTrip | reference.go:237-248 | on an untransformed datum, FromWGS84(ToWGS84(p)) = p whenever the geodesy inverts |
| References.ProjectedRoundTrip | reference.go:285-307 | a projected system comes back to its starting point when datum, geodesy and projection each invert |
| References.TransformSkipsNil | reference.go:332-344 | Transform applies from.ToWGS84, then to.FromWGS84, skipping a nil side; with both nil it is the identity |
| References.TransformChains | reference.go:332-344 | going through an intermediate system that inverts changes nothing |
| References.TransformRoundTrip | reference.go:332-344 | Transform(to, from) undoes Transform(from, to) when each side inverts |
| References.SafeTransformNilCrs | reference.go:357-359 | a nil system gives (0, 0, 0, ErrNoCoordinateReferenceSystem), whatever the point |
| References.SafeTransformOutOfBounds | reference.go:361-366 | with both present the error is ErrOutOfBounds exactly when the WGS84 lon/lat is not contained in both, and the value is then (0, 0, 0) |
| References.SafeTransformAgreesWithTransform | reference.go:355-372 | success exactly when both are present and in bounds, and then the value is Transform's; on error the value is (0, 0, 0) |
| References.SafeTransformErrorIgnoresTargetConversion | reference.go:361-366 | the error does not depend on the target's FromWGS84 |
| References.FromIsToSwapped | reference.go:205-224 | x.From(y) is y.To(x), SafeFrom is SafeTo swapped, and SafeTo(nil) reports the missing system |
| References.PackageToFrom | reference.go:10-20 | the package To and From go through lonLatToXYZ and xyzToLonLat on the WGS84 constants |
| References.UTMContains | reference.go:40-57 | UTM(zone, northern) contains exactly lon in [6z - 186, 6z - 180] with lat in [0, 84] north or [-80, 0] south |
| References.UTMProjection | reference.go:40-57 | UTM is transverse Mercator about 6z - 183, scale 0.9996, false easting 500 km; the hemispheres differ only in northf 0 or 10000 km |
| References.UTMCentralMeridianInArea | reference.go:40-57 | each zone 1-60 contains its own central meridian |
| References.ETRS89UTMContains | reference.go:61-68 | an ETRS89 UTM system contains exactly the points of both the ETRS89 box and its northern zone band |
| References.DHDN2001GKContains | reference.go:130-137 | a DHDN2001 GK zone contains exactly the DHDN2001 box within 1.5 degrees of 3·zone |
| References.AustrianZones | reference.go:72-120 | the M zones are 3 degrees and 300 km apart, each GKM zone is its M zone 5000 km south, and the two Austria Lambert systems share one projection |
| References.RGF93CCShape | reference.go:141-143 | a conic zone's parallels lie 0.75 degrees either side of its latitude; northf grows 1000 km a degree from 2200 km at 43 |
| References.AlabamaContains | reference.go:153-171 | the Alabama East and West systems contain exactly their boxes |
| References.NAD83CaliforniaAlbersMisplaced | reference.go:175-182 | as written, the central meridian 34 lies outside the system's area and lat2 = -120 is no latitude |
| References.NAD83CaliforniaAlbersAsEpsg6414InArea | reference.go:175-182 | with EPSG 6414's arguments, the meridian and both parallels lie inside the area |
| TmParams.UTM | system/transversemercator.go:9-14 | latf 0, scale 0.9996, false easting 500 km, and false northing 0 north or 10000 km south |
| TmParams.GK | system/transversemercator.go:16-18 | latf 0, scale 1 and false northing 0 |
| TmParams.UTMHemispheres | system/transversemercator.go:9-14 | the two hemispheres differ only in Northf |
| TmParams.UTMCentralMeridians | system/transversemercator.go:9-14 | zones are 6 degrees apart, zone 1 at -177 and 60 at 177, each within ±180 and in the middle of its band |
| TmParams.GKZones | system/transversemercator.go:16-18 | zones are 3 degrees apart and the zone number is the million digit of the false easting |
| Wgs84Api.SystemOf | system/system.go:40-50 | the XYZ system is the identity both ways, for every spheroid |
| Wgs84Api.SwitchIn | wgs84.go:116-123 | nil exactly when the input Func is nil |
| Wgs84Api.SwitchOut | wgs84.go:130-138 | nil exactly when the input Func is nil |
| Wgs84Api.SwitchTwice | wgs84.go:116-138 | switching twice gives back the Func, and SwitchIn and SwitchOut commute |
| Wgs84Api.SwitchOrder | wgs84.go:116-138 | SwitchIn(f)(a, b, c) = f(b, a, c), and SwitchOut swaps the first two outputs of f |
| Wgs84Api.Crs.ToSystem | wgs84.go:142-150 | non-nil exactly when spheroid, transformation and system are all present |
| Wgs84Api.Crs.FromSystem | wgs84.go:154-162 | non-nil exactly when spheroid, transformation and system are all present |
| Wgs84Api.Crs.To | wgs84.go:297-310 | non-nil exactly when both CRSs are complete |
| Wgs84Api.WithSystem | wgs84.go:76-82 | a complete CRS with the WGS84 spheroid, the given system and an identity transformation |
| Wgs84Api.ToComposition | wgs84.go:297-310 | To is the source's ToXYZ, then ToWGS84, then the target's FromWGS84, then the target's FromXYZ, each system on its own spheroid |
| Wgs84Api.FromIsToSwapped | wgs84.go:313-315 | crs.From(x) is x.To(crs), and nil in the same cases |
| Wgs84Api.ToSystemIsToWithinWgs84 | wgs84.go:142-150 | ToSystem converts like To between two WithSystem CRSs: no datum transformation and one spheroid on both legs |
| Wgs84Api.FromSystemIsSwappedToSystem | wgs84.go:154-162 | FromSystem(sys) is ToSystem with the two systems exchanged |
| Wgs84Api.ToAndBack | wgs84.go:297-310 | to.To(crs) undoes crs.To(to) when both systems and both transformations invert |
| Wgs84Api.NilPropagates | wgs84.go:116-162 | one missing part makes ToSystem, FromSystem, To and From nil both ways, and SwitchIn/SwitchOut keep it nil |
| Wgs84Api.ZoneConversions | wgs84.go:190-200 | ToUTM, ToGK and FromUTM are the transverse Mercator conversions with the zone's parameters |
| Wgs84Api.PackageHelpers | wgs84.go:321-377 | the package ToXYZ/FromXYZ are the LonLat system on the WGS84 spheroid; package To/From are nil exactly for an incomplete CRS |
| Wgs84Api.XYZToXYZIsIdentity | wgs84.go:49-51 | converting between two WGS84 geocentric CRSs changes nothing |
| EpsgCodes.NotFoundIff | epsg.go:132-134 | EPSG(code) is ErrCodeNotFound exactly for the codes neither the switch nor a range knows, and it then carries the code |
| EpsgCodes.NotFoundIsIdentity | epsg.go:16-22 | for an unknown code both conversions return their input |
| EpsgCodes.TableIsOutsideRanges | epsg.go:25-100 | no switch case lies in one of the five ranges |
| EpsgCodes.RangeBoundsAreStrict | epsg.go:102-106 | 3941 and 3951 are not found |
| EpsgCodes.ETRS89BoundsAreStrict | epsg.go:108-112 | 25827 and 25839 are not found |
| EpsgCodes.DHDN2001BoundsAreStrict | epsg.go:114-118 | 31465 and 31470 are not found |
| EpsgCodes.UtmBoundsAreStrict | epsg.go:120-130 | 32600, 32661, 32700 and 32761 are not found |
| EpsgCodes.WebMercatorAliases | epsg.go:38-99 | 3875 and 900913 are the same WGS84 WebMercator |
| EpsgCodes.UtmCodes | epsg.go:120-130 | 32601-32660 are WGS84 TM at (code - 32600)·6 - 183, scale 0.9996, easting 500 km, northf 0; 32701-32760 are the same with northf 10000 km |
| EpsgCodes.RGF93ConicCodes | epsg.go:102-106 | 3942-3950 are RGF93 LCC2SP at latf = code - 3900 with parallels ±0.75 and northf 2200 km + (latf - 43)·1000 km, as reference.go's RGF93CC |
| EpsgCodes.ETRS89UtmCodes | epsg.go:108-112 | 25828-25838 are ETRS89 TM with zone = code - 25800, the projection of reference.go's ETRS89UTM |
| EpsgCodes.DHDN2001GkCodes | epsg.go:114-118 | 31466-31469 are DHDN2001 TM with zone = code - 31464, lonf 3·zone, easting zone million + 500 km; the system package's GK zone |
| EpsgCodes.TableAgreesWithPresets | epsg.go:26-97 | 2154, 3035, 3416, 27700, 31287 and 3875 project as reference.go's presets for the same systems |
| EpsgCodes.TableAgreesWithAustrianZones | epsg.go:84-95 | 31257-31259 are the GKM zones and 31284-31286 the M zones of reference.go |
| EpsgCodes.TableAgreesWithNad83Presets | epsg.go:68-73 | 6356 is Alabama West and 6414 the corrected California Albers, not the written one; 6355 differs from Alabama East in the meridian's digits |
| EpsgRepository.WrapUpBounds | epsg/epsg.go:26-28 | the loop `for x < lo { x += step }` ends in [lo, lo + step), a whole number of steps up, and leaves x >= lo alone |
| EpsgRepository.WrapDownBounds | epsg/epsg.go:29-31 | the loop `for x > hi { x -= step }` ends in (hi - step, hi], a whole number of steps down, and leaves x <= hi alone |
| EpsgRepository.WrapLonBounds | epsg/epsg.go:26-31 | the wrapped longitude lies in [-180, 180], a whole number of turns from the input, and equals an input already in range |
| EpsgRepository.WrapLatBounds | epsg/epsg.go:32-37 | the wrapped latitude lies in [-90, 90], a whole number of half turns from the input, and equals an input already in range |
| EpsgRepository.BoundingBox.Contains | epsg/epsg.go:25-51 | the four loops and three tests decide Covers: the wrapped point lies in the box, across the antimeridian when minlon > maxlon |
| EpsgRepository.BoundingBox.Normalize | epsg/epsg.go:53-67 | the four loops produce Normalized, the corrected normalize |
| EpsgRepository.NormalizedBounds | epsg/epsg.go:53-67 | a normalized box has minlon >= -180, maxlon <= 180, minlat >= -90 and maxlat <= 90, and a box already inside is unchanged |
| EpsgRepository.CoversInRange | epsg/epsg.go:38-49 | for an in-range point, Covers is the inclusive box test, with the antimeridian case |
| EpsgRepository.MaxlonLoopNeverExits | epsg/epsg.go:57-59 | as written, the maxlon loop never changes maxlon, so for maxlon > 180 its condition holds after any number of rounds while minlon falls by 360 each round |
| EpsgRepository.NormalizedAgreesWhenMaxlonInRange | epsg/epsg.go:53-67 | for maxlon <= 180 the corrected normalize is what the written loops compute |
| EpsgRepository.Repository.constructor | epsg/epsg.go:71-74 | a new repository has no codes |
| EpsgRepository.Repository.Add | epsg/epsg.go:78-86 | stores the CRS with its normalized box under c, replacing any entry for c and leaving every other code alone |
| EpsgRepository.Repository.Code | epsg/epsg.go:134-139 | ok exactly when c is a key; its CRS then, the zero CRS (incomplete) otherwise |
| EpsgRepository.Repository.AllCodes | epsg/epsg.go:94-102 | returns every key exactly once |
| EpsgRepository.Repository.Codes | epsg/epsg.go:112-122 | returns exactly the keys whose box contains the point, once each |
| EpsgRepository.Repository.Transform | epsg/epsg.go:179-189 | nil if either code is missing; otherwise the first CRS's To the second, non-nil exactly when both are complete |
| EpsgRepository.AustinBoxAsWrittenIsEmpty | epsg/epsg.go:152 | the written Austin box contains no point at all |
| EpsgRepository.AustinBoxHoldsAustin | epsg/epsg.go:152 | the corrected box contains Austin, Texas, and the written one does not |
| EpsgRepository.InitialEntry | epsg/epsg.go:144-160 | an entry exactly for the fifteen codes of the map literal, each box as written and not normalized |
| EpsgRepository.DefaultEntry | epsg/epsg.go:142-175 | an entry exactly for the literal's codes and the codes of the four registration loops |
| EpsgRepository.InitialAgrees | epsg/epsg.go:144-160 | the map literal is the default repository before any loop has run |
| EpsgRepository.DefaultAustinCoversNothing | epsg/epsg.go:152 | the default repository holds 100002, and its written box covers no point, so no lookup by point returns it |
| EpsgRepository.DefaultRepository | epsg/epsg.go:142-175 | a fresh repository whose map agrees with DefaultEntry at every code |
| EpsgRepository.RegisterUtmZones | epsg/epsg.go:161-164 | adds the 120 UTM zones 32601-32660 and 32701-32760 with their bands |
| EpsgRepository.RegisterRgf93Zones | epsg/epsg.go:165-167 | adds 3942-3950 with the France box |
| EpsgRepository.RegisterGkZones | epsg/epsg.go:168-170 | adds 31466-31469 with their 3-degree bands |
| EpsgRepository.RegisterEtrs89Zones | epsg/epsg.go:171-173 | adds 25828-25838 with their ETRS89 bands |
| EpsgRepository.DefaultUtmEntries | epsg/epsg.go:161-164 | 32600 + zone and 32700 + zone are the package's UTM CRSs, with their bands stored unchanged |
| EpsgRepository.DefaultUtmCovers | epsg/epsg.go:161-164 | every point of a northern UTM band lies in that zone's box |
| EpsgRepository.DefaultWorldEntries | epsg/epsg.go:145-148 | 4326 and 4978 cover every point, and 3857 and 900913 are the same entry |
| EpsgRepository.DefaultLonLatToUtm | epsg/epsg.go:179-195 | Transform(4326, 32600 + zone) converts as the package's ToUTM(zone, true) |
| EpsgRepository.PackageAllCodes | epsg/epsg.go:89-91 | exactly the default codes, once each |
| EpsgRepository.PackageCodes | epsg/epsg.go:106-108 | exactly the default codes whose box contains the point, once each |
| EpsgRepository.PackageCode | epsg/epsg.go:127-129 | ok exactly for a default code, with its CRS; the zero CRS otherwise |
| EpsgRepository.PackageTransform | epsg/epsg.go:193-195 | nil unless both are default codes; then the first CRS's To the second |

## Left out

- Projection and geodesy math:
  - the `ToXYZ`/`FromXYZ` bodies in `system/*.go`, `system/system.go` and `system.go`;
  - `lonLatToXYZ`/`xyzToLonLat` in `utils.go`.
  
  These are transcendental floating-point series. They are parameters of
  the model (`Geodesy`, `impl`, `toWGS84`, `fromWGS84`), so every property holds for any
  implementation.
- Floating point: all arithmetic is on mathematical reals. `asec` uses a
  decimal value of π that no proof evaluates.
- `Func.Round` and the `func.go` rounding depend on IEEE rounding and
  string formatting.
- `Spheroids.Spheroid.E` is not defined: it is `math.Sqrt(E2())`, and no
  property here needs it. `Ei`'s square root of 1 - E2 = (1 - F)² is
  modelled as the exact root |1 - F|.
- The mutex in `Repository` exists for concurrency only. The repository is
  modelled single-threaded.
- `AllCodes` and `Codes` iterate over a Go map, whose order is
  unspecified. The model fixes no order: the contracts state which codes
  are returned, once each, and not their order.
- Code: the Go version returns the zero `CoordinateReferenceSystem` for a
  missing key. The model returns `ZeroCrs()`, whose three nil parts make
  every conversion nil.
- The nil-map check in `Add` is not modelled, because the model's map
  always exists. A nil Go map reads as empty, which is the constructor's
  `map[]`.
- `ToSystem`/`FromSystem` take a `System` interface. A nil `sys` argument
  would panic in Go; the model's `System` is always present.
- The regional preset packages (nad83, osgb36, rgf93, dhdn2001, etrs89,
  gda94) are parameter tables. `DefaultRepository` receives them as the
  parameter `presets`, and reference.go's own presets are modelled in full.
- The values `epsg.go` builds (`Datum`, `SJTSK`, `Krovak`, ...) are not
  part of this model. EPSG codes yield descriptors, and their forward and
  inverse conversions are the two independent parameters `toWGS84` and
  `fromWGS84`.
- Krovak, grid-shift logic and `interface.go`/`interfaces.go` are not
  modelled, because no behaviour of theirs is shown.
- `cmd/main.go` and the numeric fixed-point tests are not modelled: they
  assert float outputs of the projections.
- EpsgRepository.Repository.Add: uses the corrected normalize. For a box
  with maxlon > 180 the source's `Add` never returns (epsg/epsg.go:57-59);
  the model stores the box with maxlon wrapped into range, for example
  `Add(7, crs, 0, 0, 190, 10)` stores maxlon -170. For maxlon <= 180, which
  every call in `DefaultRepository` meets, both agree
  (`NormalizedAgreesWhenMaxlonInRange`).
- `EpsgCodes.TableAgreesWithNad83Presets`: 6355 and AlabamaEast differ only
  in the last digits of -85.8333…. The model keeps both values as written
  and states that they differ; it does not decide which is intended.

## Findings

| source | as written | input that shows it | evidently intended | confidence | as-written member | corrected member |
|---|---|---|---|---|---|---|
| reference.go:175-182 | `NAD83CaliforniaAlbers` calls `AlbersEqualAreaConic(34, 40.5, 0, -120, 0, -4000000)`, filling (lonf, latf, lat1, lat2) with 34, 40.5, 0 and -120 | the system itself: its central meridian 34 lies outside its own area (lon -124.45 to -114.12), and lat2 = -120 is no latitude | (-120, 0, 34, 40.5, ...), the parameters `epsg.go` gives for 6414 | not executed | References.NAD83CaliforniaAlbersMisplaced | References.NAD83CaliforniaAlbersAsEpsg6414InArea |
| epsg/epsg.go:152 | the Austin entry (code 100002) has the box `{30.519581, -97.5634, 30.060181, -97.935928}`, with longitude and latitude swapped; the model's map literal keeps it so (`EpsgRepository.DefaultAustinCoversNothing`) | any point, e.g. Austin at (-97.7431, 30.2672): minlat -97.56 > maxlat -97.94, so no latitude passes | `{-97.935928, 30.060181, -97.5634, 30.519581}` | not executed | EpsgRepository.AustinBoxAsWrittenIsEmpty | EpsgRepository.AustinBoxHoldsAustin |
| epsg/epsg.go:57-59 | the `normalize` loop `for b.maxlon > 180 { b.minlon -= 360 }` changes minlon, not maxlon | any box with maxlon > 180, e.g. `Add(c, crs, 0, 0, 190, 10)`: the loop never exits | `b.maxlon -= 360`, as the other three loops treat their own bound | not executed | EpsgRepository.MaxlonLoopNeverExits | EpsgRepository.BoundingBox.Normalize |
