/**
 The configuration of the wandering agent: two integer ranges and two speeds,
 and the randomised queries that draw phase durations and the turning
 direction from those ranges.

 The engine's generator is not modelled. A query's result is an input
 (a "draw"), and `CanReturn` says which draws a query can produce under the
 contract of the engine's integer `Random.Range(minimum, maximum)`.
 */
module MovementParameters {

  /** A minimum/maximum pair (`MovementValueParameters`). */
  datatype ValueRange = ValueRange(minimum: int, maximum: int) {

    /** The values `Random.Range(minimum, maximum)` can return: `minimum` is
        inclusive and `maximum` exclusive, and the single value `minimum`
        when the two bounds are equal. */
    predicate Admits(d: int) {
      if minimum == maximum then d == minimum else minimum <= d < maximum
    }
  }

  /** The defaults of both ranges (1 and 3). */
  const DefaultRange := ValueRange(1, 3)

  /** `RotationLeftOrRight` always draws from `Random.Range(0, 3)`. */
  const DirectionRange := ValueRange(0, 3)

  /** The five randomised queries of the configuration. */
  datatype Query = RotationLeftOrRight | RotationTime | RotationWait | WalkTime | WalkWait

  /** `MovementConfig`. The speeds are kept as reals: their float arithmetic is
      not modelled, only which speed is applied and with which sign. */
  datatype MovementConfig = MovementConfig(rotation: ValueRange, walk: ValueRange,
                                           moveSpeed: real, rotateSpeed: real)
  {
    /** The range each query draws from. */
    function RangeOf(q: Query): ValueRange {
      match q
      case RotationLeftOrRight => DirectionRange
      case RotationTime => rotation
      case RotationWait => rotation
      case WalkTime => walk
      case WalkWait => walk
    }

    /** `d` is a value the query `q` can return. */
    predicate CanReturn(q: Query, d: int) {
      RangeOf(q).Admits(d)
    }
  }

  /** The configuration with every field at its declared default. */
  const DefaultConfig := MovementConfig(DefaultRange, DefaultRange, 3.0, 100.0)

  /** The direction query returns exactly 0, 1 or 2. */
  lemma DirectionValues(c: MovementConfig, d: int)
    ensures c.CanReturn(RotationLeftOrRight, d) <==> d == 0 || d == 1 || d == 2
  {
  }

  /** A duration query returns a value of its own range, minimum inclusive and
      maximum exclusive: the rotation range for `RotationTime` and
      `RotationWait`, the walk range for `WalkTime` and `WalkWait`; and every
      such value can be returned. */
  lemma DurationBounds(c: MovementConfig, q: Query, d: int)
    requires q != RotationLeftOrRight
    requires c.RangeOf(q).minimum < c.RangeOf(q).maximum
    ensures q == RotationTime || q == RotationWait ==>
              (c.CanReturn(q, d) <==> c.rotation.minimum <= d < c.rotation.maximum)
    ensures q == WalkTime || q == WalkWait ==>
              (c.CanReturn(q, d) <==> c.walk.minimum <= d < c.walk.maximum)
  {
  }

  /** A range whose bounds are equal returns its minimum and nothing else;
      a range whose minimum exceeds its maximum returns nothing. */
  lemma DegenerateRange(r: ValueRange, d: int)
    requires r.minimum >= r.maximum
    ensures r.Admits(d) <==> r.minimum == r.maximum && d == r.minimum
  {
  }

  /** With the default configuration every duration is 1 or 2 seconds. */
  lemma DefaultDurations(q: Query, d: int)
    requires q != RotationLeftOrRight
    ensures DefaultConfig.CanReturn(q, d) <==> d == 1 || d == 2
  {
  }
}
