/** Shared vocabulary: nil-able values, coordinate triples and the
    coordinate-mapping function type `Func` that every conversion returns. */
module Geo {

  /** A Go value that may be nil (a nil func, a nil interface). */
  datatype Option<T> = None | Some(value: T)

  /** The three components (a, b, c) that every conversion takes and returns:
      x, y, z for geocentric, lon, lat, h for geographic, east, north, h for
      projected coordinates. */
  datatype Triple = Triple(a: real, b: real, c: real)

  /** A coordinate mapping `func(a, b, c float64) (a2, b2, c2 float64)`. */
  type Func = Triple -> Triple

  /** A predicate on a longitude and a latitude (an area test). */
  type LonLatPredicate = (real, real) -> bool

  function Add(p: Triple, q: Triple): Triple
  {
    Triple(p.a + q.a, p.b + q.b, p.c + q.c)
  }

  function Sub(p: Triple, q: Triple): Triple
  {
    Triple(p.a - q.a, p.b - q.b, p.c - q.c)
  }

  function Scale(k: real, p: Triple): Triple
  {
    Triple(k * p.a, k * p.b, k * p.c)
  }

  function Abs(x: real): real
  {
    if x < 0.0 then -x else x
  }

  /** The identity mapping. */
  function Identity(): Func
  {
    p => p
  }
}
