/**
 The magnifier of the slider: whenever the current value changes, every
 line is reset to scale 1 and the lines around a centre index derived
 from the value are enlarged. Lines are represented by their scale
 factors; indices outside the line list are skipped, as the `[safe:]`
 subscript of the widget does.
 */
module Magnifier {
  import opened Truncation

  /** The magnifier divides by `Int(maxValue)`; it is only defined when
      that integer is non-zero (otherwise the division traps). */
  predicate Defined(maxValue: real) {
    TruncInt(maxValue) != 0
  }

  /** `Int(v) * numberOfLines / Int(maxValue)` evaluated as Swift does:
      the product first, then division truncating toward zero. */
  function Center(v: real, numberOfLines: int, maxValue: real): (c: int)
    requires Defined(maxValue)
    ensures var a, m := TruncInt(v) * numberOfLines, TruncInt(maxValue);
      && (0 <= a ==> 0 <= a - c * m < Abs(m))
      && (a < 0 ==> 0 <= c * m - a < Abs(m))
  {
    TruncDiv(TruncInt(v) * numberOfLines, TruncInt(maxValue))
  }

  /** The scale the magnifier gives a line at offset `d` from the centre:
      the peak sits one line before the centre. Independent of how the
      widget assigns the scales. */
  function Profile(d: int): (p: real)
    ensures 1.0 <= p <= 1.6
    ensures 1.0 < p <==> -3 <= d <= 1
    ensures p == 1.6 <==> d == -1
  {
    if d == -1 then 1.6
    else if d == -2 || d == 0 then 1.35
    else if d == -3 || d == 1 then 1.2
    else 1.0
  }

  /** `lines[safe: i]?.transform = x`: update index `i` when it exists,
      otherwise leave the lines as they are. */
  function SafeSet(lines: seq<real>, i: int, x: real): (r: seq<real>)
    ensures |r| == |lines|
    ensures forall j :: 0 <= j < |r| ==> r[j] == (if j == i then x else lines[j])
    ensures !(0 <= i < |lines|) ==> r == lines
  {
    if 0 <= i < |lines| then lines[i := x] else lines
  }

  /** The scales of `count` lines after the magnifier has handled value
      `v`: all lines reset to 1, then the five updates in the order the
      widget performs them. */
  function Scales(v: real, numberOfLines: int, maxValue: real, count: nat): (r: seq<real>)
    requires Defined(maxValue)
    ensures |r| == count
    ensures forall i :: 0 <= i < count ==> r[i] == Profile(i - Center(v, numberOfLines, maxValue))
  {
    var c := Center(v, numberOfLines, maxValue);
    var reset := seq(count, _ => 1.0);
    var peak := SafeSet(reset, c - 1, 1.6);
    var inner := SafeSet(SafeSet(peak, c - 2, 1.35), c, 1.35);
    SafeSet(SafeSet(inner, c - 3, 1.2), c + 1, 1.2)
  }

  /** Every line outside the window `c-3 .. c+1` has scale 1. */
  lemma ScalesOutsideWindow(v: real, numberOfLines: int, maxValue: real, count: nat, i: int)
    requires Defined(maxValue)
    requires 0 <= i < count
    requires var c := Center(v, numberOfLines, maxValue); i < c - 3 || c + 1 < i
    ensures Scales(v, numberOfLines, maxValue, count)[i] == 1.0
  {
  }

  /** The enlarged lines: 1.6 at `c-1`, 1.35 at `c-2` and `c`, 1.2 at
      `c-3` and `c+1`, wherever those indices exist. */
  lemma ScalesInsideWindow(v: real, numberOfLines: int, maxValue: real, count: nat)
    requires Defined(maxValue)
    ensures var c, r := Center(v, numberOfLines, maxValue), Scales(v, numberOfLines, maxValue, count);
      && (0 <= c - 1 < count ==> r[c - 1] == 1.6)
      && (0 <= c - 2 < count ==> r[c - 2] == 1.35)
      && (0 <= c < count ==> r[c] == 1.35)
      && (0 <= c - 3 < count ==> r[c - 3] == 1.2)
      && (0 <= c + 1 < count ==> r[c + 1] == 1.2)
  {
  }

  /** The profile is symmetric about the peak line `c-1`. */
  lemma ScalesSymmetric(v: real, numberOfLines: int, maxValue: real, count: nat, i: int, j: int)
    requires Defined(maxValue)
    requires 0 <= i < count && 0 <= j < count
    requires i + j == 2 * (Center(v, numberOfLines, maxValue) - 1)
    ensures Scales(v, numberOfLines, maxValue, count)[i] == Scales(v, numberOfLines, maxValue, count)[j]
  {
  }

  /** When the whole window lies outside the lines, no line is enlarged
      and nothing fails. */
  lemma ScalesWindowOffView(v: real, numberOfLines: int, maxValue: real, count: nat)
    requires Defined(maxValue)
    requires var c := Center(v, numberOfLines, maxValue); c + 1 < 0 || count <= c - 3
    ensures Scales(v, numberOfLines, maxValue, count) == seq(count, _ => 1.0)
  {
  }

  /** For a value inside `[0, maxValue]` with `maxValue >= 1` the centre
      lies in `[0, numberOfLines]`, so the peak line `c-1` is never past
      the last line, and the window reaches the lines at either end. */
  lemma CenterInRange(v: real, numberOfLines: int, maxValue: real)
    requires 1.0 <= maxValue && 0.0 <= v <= maxValue && 0 <= numberOfLines
    ensures Defined(maxValue)
    ensures 0 <= Center(v, numberOfLines, maxValue) <= numberOfLines
  {
    TruncIntMonotone(v, maxValue);
    ScaledQuotientBounds(TruncInt(v), numberOfLines, TruncInt(maxValue));
  }
}
