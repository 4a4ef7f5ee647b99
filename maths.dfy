/**
 * Maths: Clamp, which narrows a value in place to a range. The lower-bound
 * test comes first, so it decides which bound wins when the range is
 * inverted. The template is taken at `int`.
 */
module Maths {

  /** The value Clamp leaves behind, given the value it finds. */
  function ClampValue(value: int, min: int, max: int): (r: int)
    ensures value < min ==> r == min
    ensures min <= value && value > max ==> r == max
    ensures min <= value <= max ==> r == value
  {
    if value < min then min
    else if value > max then max
    else value
  }

  /** `Clamp(T& value, min, max)`: the in-out reference becomes an in parameter and an out parameter. */
  method Clamp(value: int, min: int, max: int) returns (clamped: int)
    ensures clamped == ClampValue(value, min, max)
    ensures min <= max ==> min <= clamped <= max
    ensures clamped == value || clamped == min || clamped == max
  {
    clamped := value;
    if clamped < min {
      clamped := min;
    } else if clamped > max {
      clamped := max;
    }
  }

  /** Over a proper range the result lies within it, and a value already inside is kept. */
  lemma ClampWithinRange(value: int, min: int, max: int)
    requires min <= max
    ensures min <= ClampValue(value, min, max) <= max
    ensures ClampValue(value, min, max) == value <==> min <= value <= max
  {
  }

  /** Clamping twice to the same proper range changes nothing the second time. */
  lemma ClampIdempotent(value: int, min: int, max: int)
    requires min <= max
    ensures ClampValue(ClampValue(value, min, max), min, max) == ClampValue(value, min, max)
  {
  }

  /**
   * With the bounds inverted, a value below `min` becomes `min` and every
   * other value becomes `max`: the result is never the value itself unless
   * it equals a bound.
   */
  lemma ClampInvertedBounds(value: int, min: int, max: int)
    requires min > max
    ensures ClampValue(value, min, max) == if value < min then min else max
    ensures ClampValue(min - 1, min, max) == min && ClampValue(min, min, max) == max
  {
  }
}
