/**
 The touch-to-value mapping of the slider: a touch at horizontal position
 `x` inside a view of width `width` selects `x * maxValue / width`, clamped
 to `[minValue, maxValue]`. The scale factor is `maxValue`, not
 `maxValue - minValue`, exactly as in the widget; `Double`/`CGFloat` are
 abstracted as `real`.
 */
module ValueMapper {

  function Min(a: real, b: real): (r: real)
    ensures r <= a && r <= b && (r == a || r == b)
  {
    if b < a then b else a
  }

  function Max(a: real, b: real): (r: real)
    ensures a <= r && b <= r && (r == a || r == b)
  {
    if b > a then b else a
  }

  /** The unclamped value a touch at `x` selects. */
  function RawValue(x: real, width: real, maxValue: real): (raw: real)
    requires width > 0.0
    ensures raw * width == x * maxValue
    ensures x == 0.0 ==> raw == 0.0
    ensures x == width ==> raw == maxValue
  {
    x * maxValue / width
  }

  /** The value `handle` sends for a touch at `x`: the raw value, lowered
      to `maxValue` and raised to `minValue`, the upper bound winning when
      the bounds are inverted. */
  function TouchValue(x: real, width: real, minValue: real, maxValue: real): (r: real)
    requires width > 0.0
    ensures r <= maxValue
    ensures minValue <= maxValue ==> minValue <= r
    ensures minValue <= RawValue(x, width, maxValue) <= maxValue ==> r == RawValue(x, width, maxValue)
    ensures maxValue <= RawValue(x, width, maxValue) ==> r == maxValue
    ensures RawValue(x, width, maxValue) <= minValue <= maxValue ==> r == minValue
    ensures maxValue < minValue ==> r == maxValue
  {
    Min(maxValue, Max(minValue, RawValue(x, width, maxValue)))
  }

  /** A touch at the right edge of the view selects exactly `maxValue`,
      whatever `minValue` is, since the upper bound is applied last. */
  lemma TouchAtRightEdge(width: real, minValue: real, maxValue: real)
    requires width > 0.0
    ensures TouchValue(width, width, minValue, maxValue) == maxValue
  {
    assert RawValue(width, width, maxValue) == maxValue;
  }

  /** For a well-ordered range with `maxValue >= 0`, a touch at the left
      edge selects 0 clamped into the range: it is `minValue` only when
      `minValue` is not negative. Because the scale
      is `maxValue`, not `maxValue - minValue`, a negative `minValue` is
      not reached from the left edge. */
  lemma TouchAtLeftEdge(width: real, minValue: real, maxValue: real)
    requires width > 0.0 && minValue <= maxValue && 0.0 <= maxValue
    ensures TouchValue(0.0, width, minValue, maxValue) == (if minValue >= 0.0 then minValue else 0.0)
    ensures TouchValue(0.0, width, minValue, maxValue) == minValue <==> 0.0 <= minValue
  {
    assert RawValue(0.0, width, maxValue) == 0.0;
  }

  /** For a non-negative `maxValue` the raw value grows with `x`. */
  lemma RawValueMonotone(x1: real, x2: real, width: real, maxValue: real)
    requires width > 0.0 && 0.0 <= maxValue && x1 <= x2
    ensures RawValue(x1, width, maxValue) <= RawValue(x2, width, maxValue)
  {
    var k := maxValue / width;
    ProductNonNegative(maxValue, 1.0 / width);
    assert k == maxValue * (1.0 / width);
    ScaledByFactor(x1, maxValue, width);
    ScaledByFactor(x2, maxValue, width);
    ProductNonNegative(x2 - x1, k);
    assert (x2 - x1) * k == x2 * k - x1 * k;
  }

  lemma ScaledByFactor(x: real, m: real, w: real)
    requires w > 0.0
    ensures x * m / w == x * (m / w)
  {
  }

  lemma ProductNonNegative(a: real, b: real)
    requires 0.0 <= a && 0.0 <= b
    ensures 0.0 <= a * b
  {
  }

  /** For a non-negative `maxValue`, moving the touch right never lowers
      the selected value. */
  lemma TouchValueMonotone(x1: real, x2: real, width: real, minValue: real, maxValue: real)
    requires width > 0.0 && 0.0 <= maxValue && x1 <= x2
    ensures TouchValue(x1, width, minValue, maxValue) <= TouchValue(x2, width, minValue, maxValue)
  {
    RawValueMonotone(x1, x2, width, maxValue);
  }

  /** Touches inside the view, `0 <= x <= width`, only ever select values
      in `[Max(minValue, 0), maxValue]`: with a negative `minValue` the
      part of the range below zero is reachable only by dragging past the
      left edge. */
  lemma TouchInsideViewNotBelowZero(x: real, width: real, minValue: real, maxValue: real)
    requires width > 0.0 && minValue <= maxValue && 0.0 <= maxValue
    requires 0.0 <= x <= width
    ensures Max(minValue, 0.0) <= TouchValue(x, width, minValue, maxValue) <= maxValue
  {
    RawValueMonotone(0.0, x, width, maxValue);
    RawValueMonotone(x, width, width, maxValue);
    assert RawValue(0.0, width, maxValue) == 0.0;
    assert RawValue(width, width, maxValue) == maxValue;
  }
}
