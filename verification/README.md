# LineStackSlider in Dafny

A model of the interaction core of `LineStackSliderView`, a slider drawn as
a row of thin vertical lines. A touch at horizontal position `x` selects a
value. The lines near that value are enlarged, like a magnifier. Every new
value goes to an optional `onValueChanged` callback.

Modules:

- `Truncation` (`truncation.dfy`): Swift's `Int(Double)` and `Int` division.
  Both round toward zero. Dafny's `int` division is Euclidean, so both are
  defined here and characterised independently of their bodies.
- `ValueMapper` (`value_mapper.dfy`): the value `handle(_:)` sends. It is
  `x * maxValue / width`, clamped as `min(maxValue, max(minValue, raw))`.
  `Double`/`CGFloat` are modelled as `real`.
- `Magnifier` (`magnifier.dfy`): the scales of the lines after the
  magnifier sink has run. Every line is reset to scale 1. Then, with
  `c = (Int(v) * numberOfLines) / Int(maxValue)`, index `c-1` gets 1.6,
  `c-2` and `c` get 1.35, and `c-3` and `c+1` get 1.2. Missing indices are
  skipped. `Scales` performs the five writes in the widget's order.
  Its contract equates the result with an independent per-offset table,
  `Profile`.
- `LineStackSlider` (`line_stack_slider.dfy`): the controller as an
  immutable record. It holds the configuration, the subject's current
  value, the line scales, the attached sinks in order, and the values the
  callback received. `Send` stores a value and delivers it to each
  attached sink. `Attach` appends a sink and replays the current value to
  it. `SetupUI` appends `numberOfLines` lines at scale 1. `Construct`
  follows the initializer's order: send `initialValue` unclamped before any
  sink exists, create the lines, then attach the callback sink and the
  magnifier sink. `Handle` and `TouchEvent` model the touch handlers.
  `Consistent` is the invariant a constructed slider keeps under every
  touch.

Notes on the code's behaviour:

- The clamp applies `maxValue` last. So with `minValue > maxValue` the
  sent value is `maxValue`.
- The magnifier centre is `(Int(v) * numberOfLines) / Int(maxValue)`,
  product first. The largest scale goes to line `c-1`.
- For `minValue <= maxValue` and `maxValue >= 0`, a touch at `x == 0`
  sends `max(minValue, 0)`. That is `minValue` exactly when
  `minValue >= 0` (`TouchAtLeftEdge`). When `maxValue < 0` the same touch
  sends `maxValue`.

External input becomes a parameter. The view width (`bounds.width`) and the
touch location are arguments of `Handle`. The first touch of an event is an
`Option`.

## Model

| member | source | states |
|---|---|---|
| Truncation.TruncInt | Sources/LineStackSlider/LineStackSliderView.swift:76 | `Int(v)` is the integer of the same sign within distance 1 of `v`, on the zero side |
| Truncation.TruncIntUnique | Sources/LineStackSlider/LineStackSliderView.swift:76 | any integer meeting that characterisation is `TruncInt(v)` |
| Truncation.TruncIntMonotone | Sources/LineStackSlider/LineStackSliderView.swift:76 | a larger value never has a smaller integer part |
| Truncation.TruncDiv | Sources/LineStackSlider/LineStackSliderView.swift:76 | Swift `Int` division: the remainder has the dividend's sign and is smaller in magnitude than the divisor |
| Truncation.TruncDivOfNaturals | Sources/LineStackSlider/LineStackSliderView.swift:76 | for a non-negative dividend and positive divisor it agrees with Euclidean division |
| Truncation.TruncDivNegate | Sources/LineStackSlider/LineStackSliderView.swift:76 | negating the dividend or the divisor negates the quotient |
| ValueMapper.RawValue | Sources/LineStackSlider/LineStackSliderView.swift:139 | the unclamped value times the width is `x * maxValue`; it is 0 at `x == 0` and `maxValue` at `x == width` |
| ValueMapper.TouchValue | Sources/LineStackSlider/LineStackSliderView.swift:139 | the sent value is never above `maxValue`; it is at least `minValue` when `minValue <= maxValue`; an in-range raw value passes unchanged; a raw value past either bound becomes that bound; inverted bounds give `maxValue` |
| ValueMapper.TouchAtRightEdge | Sources/LineStackSlider/LineStackSliderView.swift:139 | a touch at `x == width` sends exactly `maxValue`, for any `minValue` |
| ValueMapper.TouchAtLeftEdge | Sources/LineStackSlider/LineStackSliderView.swift:139 | for `minValue <= maxValue` and `maxValue >= 0`, a touch at `x == 0` sends `max(minValue, 0)`, which is `minValue` if and only if `minValue >= 0` |
| ValueMapper.RawValueMonotone | Sources/LineStackSlider/LineStackSliderView.swift:139 | for `maxValue >= 0` the unclamped value `x * maxValue / width` is non-decreasing in `x` |
| ValueMapper.TouchValueMonotone | Sources/LineStackSlider/LineStackSliderView.swift:139 | for `maxValue >= 0` the sent value is non-decreasing in `x` |
| ValueMapper.TouchInsideViewNotBelowZero | Sources/LineStackSlider/LineStackSliderView.swift:139 | a touch inside the view sends a value in `[max(minValue, 0), maxValue]`, because the scale is `maxValue` and not `maxValue - minValue` |
| Magnifier.Center | Sources/LineStackSlider/LineStackSliderView.swift:76 | the centre is the truncating quotient of `Int(v) * numberOfLines` by `Int(maxValue)`: the remainder has the dividend's sign and is smaller than the divisor |
| Magnifier.Profile | Sources/LineStackSlider/LineStackSliderView.swift:76-82 | the reference scale table: scales lie in `[1, 1.6]`, exceed 1 exactly at offsets `-3 .. 1`, and reach 1.6 only at offset -1 |
| Magnifier.SafeSet | Sources/LineStackSlider/LineStackSliderView.swift:76 | a `[safe:]` write changes only the addressed line when it exists, and does nothing otherwise |
| Magnifier.Scales | Sources/LineStackSlider/LineStackSliderView.swift:74-82 | after the reset and the five writes there is one scale per line, and line `i` has the profile value for offset `i - c` |
| Magnifier.ScalesOutsideWindow | Sources/LineStackSlider/LineStackSliderView.swift:74 | every line outside `c-3 .. c+1` has scale 1 |
| Magnifier.ScalesInsideWindow | Sources/LineStackSlider/LineStackSliderView.swift:76-82 | existing lines get 1.6 at `c-1`, 1.35 at `c-2` and `c`, and 1.2 at `c-3` and `c+1` |
| Magnifier.ScalesSymmetric | Sources/LineStackSlider/LineStackSliderView.swift:76-82 | lines equally far from `c-1` on either side have equal scales |
| Magnifier.ScalesWindowOffView | Sources/LineStackSlider/LineStackSliderView.swift:76-82 | when the whole window is outside the lines, every scale is 1 and nothing fails |
| Magnifier.CenterInRange | Sources/LineStackSlider/LineStackSliderView.swift:76 | for `0 <= v <= maxValue` and `maxValue >= 1`, the centre `c` lies in `[0, numberOfLines]` |
| LineStackSlider.CurrentValue | Sources/LineStackSlider/LineStackSliderView.swift:15-17 | on a consistent slider with a callback, `currentValue` is the value `onValueChanged` last received |
| LineStackSlider.Deliver | Sources/LineStackSlider/LineStackSliderView.swift:64-85 | the callback sink records the value only when `onValueChanged` is set, and leaves the lines alone; the magnifier sink sets every line to the profile for the value and calls nothing |
| LineStackSlider.DeliverAll | Sources/LineStackSlider/LineStackSliderView.swift:64-85 | delivering to a list of sinks records the value once per callback sink, and leaves the magnifier's scales whenever a magnifier is attached |
| LineStackSlider.Send | Sources/LineStackSlider/LineStackSliderView.swift:15-17 | after `send(v)`, `currentValue` is `v`; with nothing subscribed nothing else changes; on a wired slider the callback gets `v` exactly once more and the lines show the magnifier for `v` |
| LineStackSlider.Attach | Sources/LineStackSlider/LineStackSliderView.swift:65-69 | a newly attached sink at once receives the current value, and only it does |
| LineStackSlider.SetupUI | Sources/LineStackSlider/LineStackSliderView.swift:100-111 | `numberOfLines` lines at scale 1 are appended, and the existing lines are untouched |
| LineStackSlider.Construct | Sources/LineStackSlider/LineStackSliderView.swift:34-45 | after construction `currentValue` is the unclamped `initialValue`; the callback has received it exactly once; there are `numberOfLines` lines showing its magnifier |
| LineStackSlider.Handle | Sources/LineStackSlider/LineStackSliderView.swift:136-141 | a touch sets `currentValue` to the clamped value, which lies in `[minValue, maxValue]` for a well-ordered range, calls the callback once with it, and the lines show the magnifier for it |
| LineStackSlider.TouchEvent | Sources/LineStackSlider/LineStackSliderView.swift:118-134 | an event without a touch changes nothing; otherwise the first touch is handled exactly as `Handle` does: the clamped value becomes current and a wired slider's callback receives it once |
| LineStackSlider.ConstructConsistent | Sources/LineStackSlider/LineStackSliderView.swift:34-45 | a constructed slider is wired, has `numberOfLines` lines showing the current value's magnifier, and its callback last saw the current value |
| LineStackSlider.HandlePreservesConsistent | Sources/LineStackSlider/LineStackSliderView.swift:136-141 | every touch preserves that invariant |
| LineStackSlider.HandleAll | Sources/LineStackSlider/LineStackSliderView.swift:127-141 | a drag of repeated touches leaves configuration, sinks and line count unchanged, an empty drag changes nothing, and afterwards `currentValue` is the clamped value of the last touch |
| LineStackSlider.TouchValues | Sources/LineStackSlider/LineStackSliderView.swift:139 | the values a drag sends: one per touch, the `i`-th being the clamped value of touch `i` |
| LineStackSlider.TouchValuesInRange | Sources/LineStackSlider/LineStackSliderView.swift:139 | for a well-ordered range every value a drag sends lies in `[minValue, maxValue]` |
| LineStackSlider.HandleAllPreservesConsistent | Sources/LineStackSlider/LineStackSliderView.swift:136-141 | a whole drag, touch after touch, preserves that invariant |
| LineStackSlider.HandleAllValueChanges | Sources/LineStackSlider/LineStackSliderView.swift:65-67 | over a drag, the callback receives exactly the clamped value of each touch, in order |
| LineStackSlider.ConstructThenDrag | Sources/LineStackSlider/LineStackSliderView.swift:39 | from construction through a drag, the callback sees `initialValue`, then one in-range value per touch, and the last value it saw is `currentValue` |

## Left out

- Layout: the stack view, constraints, spacing and `layoutSubviews` (lines 20-26, 59-62, 88-98, 113-115). These are geometry for the rendering engine. Only the list of lines and its length are modelled.
- Animation: the `UIView.animate` duration and easing (line 73). A line's `CGAffineTransform` is reduced to its scalar scale, with 1 for `.identity`.
- Touch delivery: `UITouch.location` and the `super.touchesBegan` forwarding of an empty event (lines 118-134). An event is the optional x of its first touch. Forwarding leaves the slider unchanged.
- Combine internals: `AnyCancellable` storage, `[weak self]` and scheduling. The subject is a value with synchronous, in-order sinks. External subscribers to `currentValuePublisher` (line 13) are not modelled. They would receive values like the sinks do.
- Reassigning the public `onValueChanged` after construction (line 18). The model fixes at construction whether a callback is present.
- Floating point: IEEE rounding, NaN and infinities are not modelled. `Int(Double)` and `Int` overflow traps are not modelled either. Values are `real` and integers are unbounded. Two traps of the source become preconditions: `Int(maxValue) != 0` when the magnifier runs, and `numberOfLines >= 0` for the range in `setupUI`.
- A zero view width (line 139) is not modelled. `CGFloat` division by 0 gives an infinity or NaN, and the clamp then sends `minValue` or `maxValue`. `width > 0` is assumed so that this path is excluded.
- `init?(coder:)` and `awakeFromNib` (lines 48-57), which build the view from a nib, are not modelled. They send `initialValue` and re-run `setupUI` and the subscriptions in the same order as `Construct`. `lineColor` (line 9) is not modelled; it only sets a colour.
- `Package.swift` is not part of this model; it is a build manifest.
