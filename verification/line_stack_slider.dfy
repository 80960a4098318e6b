/**
 The slider controller. The `CurrentValueSubject` is abstracted as its
 current value plus the ordered list of sinks attached to it; each sink
 is delivered values synchronously, in attachment order. The widget
 attaches two sinks: one forwarding every value to the optional
 `onValueChanged` callback, and the magnifier. What the callback
 received is recorded in `valueChanges`; the lines are represented by
 their scale factors.
 */
module LineStackSlider {
  import opened ValueMapper
  import opened Magnifier

  datatype Option<T> = None | Some(value: T)

  /** The configuration fixed at construction. `hasCallback` records
      whether `onValueChanged` was supplied. */
  datatype Config = Config(
    minValue: real,
    maxValue: real,
    numberOfLines: int,
    initialValue: real,
    hasCallback: bool)

  /** The two subscriptions `setupSubscriptions` attaches. */
  datatype Sink = ValueChangedSink | MagnifierSink

  datatype Slider = Slider(
    config: Config,
    value: real,
    lines: seq<real>,
    sinks: seq<Sink>,
    valueChanges: seq<real>)

  /** The magnifier can run whenever it is attached. */
  predicate CanDeliver(s: Slider) {
    MagnifierSink in s.sinks ==> Defined(s.config.maxValue)
  }

  /** The subscriptions exactly as the widget sets them up. */
  predicate Wired(s: Slider) {
    s.sinks == [ValueChangedSink, MagnifierSink]
  }

  /** The read-only `currentValue` property. On a consistent slider with a
      callback it is the value `onValueChanged` last received. */
  function CurrentValue(s: Slider): (v: real)
    ensures Consistent(s) && s.config.hasCallback ==>
      |s.valueChanges| > 0 && v == s.valueChanges[|s.valueChanges| - 1]
  {
    s.value
  }

  /** One sink receiving value `v`. */
  function Deliver(s: Slider, sink: Sink, v: real): (r: Slider)
    requires sink == MagnifierSink ==> Defined(s.config.maxValue)
    ensures r.config == s.config && r.value == s.value && r.sinks == s.sinks
    ensures |r.lines| == |s.lines|
    ensures sink == ValueChangedSink ==> r.lines == s.lines
    ensures sink == ValueChangedSink ==>
      r.valueChanges == s.valueChanges + (if s.config.hasCallback then [v] else [])
    ensures sink == MagnifierSink ==> r.valueChanges == s.valueChanges
    ensures sink == MagnifierSink ==>
      forall i :: 0 <= i < |r.lines| ==>
        r.lines[i] == Profile(i - Center(v, s.config.numberOfLines, s.config.maxValue))
  {
    match sink
    case ValueChangedSink =>
      if s.config.hasCallback then s.(valueChanges := s.valueChanges + [v]) else s
    case MagnifierSink =>
      s.(lines := Scales(v, s.config.numberOfLines, s.config.maxValue, |s.lines|))
  }

  /** The sinks `sinks`, in order, receiving value `v`. Every callback
      sink records `v` once; the lines end up as the magnifier computes
      them for `v` when a magnifier is among the sinks. */
  function DeliverAll(s: Slider, sinks: seq<Sink>, v: real): (r: Slider)
    requires MagnifierSink in sinks ==> Defined(s.config.maxValue)
    ensures r.config == s.config && r.value == s.value && r.sinks == s.sinks
    ensures |r.lines| == |s.lines|
    ensures MagnifierSink !in sinks ==> r.lines == s.lines
    ensures MagnifierSink in sinks ==>
      r.lines == Scales(v, s.config.numberOfLines, s.config.maxValue, |s.lines|)
    ensures r.valueChanges == s.valueChanges +
      seq(if s.config.hasCallback then multiset(sinks)[ValueChangedSink] else 0, _ => v)
    decreases |sinks|
  {
    if sinks == [] then s
    else
      assert sinks == [sinks[0]] + sinks[1..];
      var t := Deliver(s, sinks[0], v);
      var r := DeliverAll(t, sinks[1..], v);
      assert sinks[0] == MagnifierSink ==>
        t.lines == Scales(v, s.config.numberOfLines, s.config.maxValue, |s.lines|);
      var k := if s.config.hasCallback then multiset(sinks[1..])[ValueChangedSink] else 0;
      assert t.valueChanges + seq(k, _ => v) ==
        s.valueChanges + seq(if s.config.hasCallback then multiset(sinks)[ValueChangedSink] else 0, _ => v);
      r
  }

  /** `currentValueSubject.send(v)`: store `v` unconditionally, then
      deliver it to every attached sink. */
  function Send(s: Slider, v: real): (r: Slider)
    requires CanDeliver(s)
    ensures CurrentValue(r) == v
    ensures r.config == s.config && r.sinks == s.sinks && |r.lines| == |s.lines|
    ensures s.sinks == [] ==> r.lines == s.lines && r.valueChanges == s.valueChanges
    ensures Wired(s) ==>
      r.valueChanges == s.valueChanges + (if s.config.hasCallback then [v] else [])
    ensures Wired(s) ==>
      r.lines == Scales(v, s.config.numberOfLines, s.config.maxValue, |s.lines|)
  {
    assert Wired(s) ==> multiset(s.sinks)[ValueChangedSink] == 1;
    DeliverAll(s.(value := v), s.sinks, v)
  }

  /** `sink` on the subject: the new sink is appended and at once receives
      the current value; sinks attached earlier receive nothing. */
  function Attach(s: Slider, sink: Sink): (r: Slider)
    requires sink == MagnifierSink ==> Defined(s.config.maxValue)
    ensures r.sinks == s.sinks + [sink]
    ensures r.config == s.config && r.value == s.value && |r.lines| == |s.lines|
    ensures sink == ValueChangedSink ==> r.lines == s.lines
    ensures sink == ValueChangedSink ==>
      r.valueChanges == s.valueChanges + (if s.config.hasCallback then [s.value] else [])
    ensures sink == MagnifierSink ==> r.valueChanges == s.valueChanges
    ensures sink == MagnifierSink ==>
      r.lines == Scales(s.value, s.config.numberOfLines, s.config.maxValue, |s.lines|)
  {
    Deliver(s.(sinks := s.sinks + [sink]), sink, s.value)
  }

  /** The line-creating part of `setupUI`: `numberOfLines` new lines at
      the identity transform (scale 1) are appended after the existing
      ones. A negative count traps in the source's range `0..<n`. */
  function SetupUI(s: Slider): (r: Slider)
    requires s.config.numberOfLines >= 0
    ensures |r.lines| == |s.lines| + s.config.numberOfLines
    ensures r.lines[..|s.lines|] == s.lines
    ensures forall i :: |s.lines| <= i < |r.lines| ==> r.lines[i] == 1.0
    ensures r.config == s.config && r.value == s.value && r.sinks == s.sinks
    ensures r.valueChanges == s.valueChanges
  {
    s.(lines := s.lines + seq(s.config.numberOfLines, _ => 1.0))
  }

  /** What construction demands of the configuration: the line count
      range must exist and the magnifier's division must not trap. */
  predicate ValidConfig(c: Config) {
    c.numberOfLines >= 0 && Defined(c.maxValue)
  }

  /** `init(onValueChanged:minValue:maxValue:initialValue:numberOfLines:lineColor:)`:
      the subject starts at 0, `initialValue` is sent before anything is
      subscribed, then the lines are created and the two sinks attached,
      each receiving the current value on attach. */
  function Construct(c: Config): (r: Slider)
    requires ValidConfig(c)
    ensures r.config == c && Wired(r)
    ensures CurrentValue(r) == c.initialValue
    ensures r.valueChanges == (if c.hasCallback then [c.initialValue] else [])
    ensures r.lines == Scales(c.initialValue, c.numberOfLines, c.maxValue, c.numberOfLines)
  {
    var subject := Slider(c, 0.0, [], [], []);
    var sent := Send(subject, c.initialValue);
    var withLines := SetupUI(sent);
    Attach(Attach(withLines, ValueChangedSink), MagnifierSink)
  }

  /** `handle(_:)`: map the touch position to a clamped value and send it. */
  function Handle(s: Slider, x: real, width: real): (r: Slider)
    requires width > 0.0 && CanDeliver(s)
    ensures CurrentValue(r) == TouchValue(x, width, s.config.minValue, s.config.maxValue)
    ensures s.config.minValue <= s.config.maxValue ==>
      s.config.minValue <= CurrentValue(r) <= s.config.maxValue
    ensures r.config == s.config && r.sinks == s.sinks && |r.lines| == |s.lines|
    ensures Wired(s) ==>
      r.valueChanges == s.valueChanges + (if s.config.hasCallback then [CurrentValue(r)] else [])
    ensures Wired(s) ==>
      r.lines == Scales(CurrentValue(r), s.config.numberOfLines, s.config.maxValue, |s.lines|)
  {
    Send(s, TouchValue(x, width, s.config.minValue, s.config.maxValue))
  }

  /** `touchesBegan` and `touchesMoved`: an event without a touch is passed
      up the responder chain and leaves the slider unchanged; otherwise
      the first touch is handled. */
  function TouchEvent(s: Slider, firstTouch: Option<real>, width: real): (r: Slider)
    requires width > 0.0 && CanDeliver(s)
    ensures firstTouch.None? ==> r == s
    ensures firstTouch.Some? ==> r == Handle(s, firstTouch.value, width)
    ensures firstTouch.Some? ==>
      CurrentValue(r) == TouchValue(firstTouch.value, width, s.config.minValue, s.config.maxValue)
    ensures r.config == s.config && r.sinks == s.sinks && |r.lines| == |s.lines|
    ensures firstTouch.Some? && Wired(s) ==>
      r.valueChanges == s.valueChanges + (if s.config.hasCallback then [CurrentValue(r)] else [])
  {
    match firstTouch
    case None => s
    case Some(x) => Handle(s, x, width)
  }

  /** The invariant of a constructed slider: the sinks are as wired at
      construction, the line list has `numberOfLines` entries showing the
      magnifier for the current value, and the last value the callback
      received is the current value. */
  predicate Consistent(s: Slider) {
    && ValidConfig(s.config)
    && Wired(s)
    && |s.lines| == s.config.numberOfLines
    && s.lines == Scales(s.value, s.config.numberOfLines, s.config.maxValue, |s.lines|)
    && (s.config.hasCallback ==> |s.valueChanges| > 0 && s.valueChanges[|s.valueChanges| - 1] == s.value)
  }

  lemma ConstructConsistent(c: Config)
    requires ValidConfig(c)
    ensures Consistent(Construct(c))
  {
  }

  lemma HandlePreservesConsistent(s: Slider, x: real, width: real)
    requires Consistent(s) && width > 0.0
    ensures Consistent(Handle(s, x, width))
  {
  }

  /** A drag: the touches `xs` handled one after another. The current
      value afterwards is the clamped value of the last touch. */
  function HandleAll(s: Slider, xs: seq<real>, width: real): (r: Slider)
    requires width > 0.0 && CanDeliver(s)
    ensures r.config == s.config && r.sinks == s.sinks && |r.lines| == |s.lines|
    ensures xs == [] ==> r == s
    ensures xs != [] ==>
      CurrentValue(r) == TouchValue(xs[|xs| - 1], width, s.config.minValue, s.config.maxValue)
    decreases |xs|
  {
    if xs == [] then s else HandleAll(Handle(s, xs[0], width), xs[1..], width)
  }

  /** The values a drag sends, in order. */
  function TouchValues(xs: seq<real>, width: real, minValue: real, maxValue: real): (vs: seq<real>)
    requires width > 0.0
    ensures |vs| == |xs|
    ensures forall i :: 0 <= i < |xs| ==> vs[i] == TouchValue(xs[i], width, minValue, maxValue)
    decreases |xs|
  {
    if xs == [] then []
    else [TouchValue(xs[0], width, minValue, maxValue)] + TouchValues(xs[1..], width, minValue, maxValue)
  }

  /** A drag keeps a constructed slider consistent. */
  lemma {:induction false} HandleAllPreservesConsistent(s: Slider, xs: seq<real>, width: real)
    requires width > 0.0 && Consistent(s)
    ensures Consistent(HandleAll(s, xs, width))
    decreases |xs|
  {
    if xs != [] {
      HandlePreservesConsistent(s, xs[0], width);
      HandleAllPreservesConsistent(Handle(s, xs[0], width), xs[1..], width);
    }
  }

  /** Callback parity over a drag: each touch calls `onValueChanged` exactly
      once, with the clamped value of that touch, in order. */
  lemma {:induction false} HandleAllValueChanges(s: Slider, xs: seq<real>, width: real)
    requires width > 0.0 && Wired(s) && Defined(s.config.maxValue) && s.config.hasCallback
    ensures HandleAll(s, xs, width).valueChanges ==
      s.valueChanges + TouchValues(xs, width, s.config.minValue, s.config.maxValue)
    decreases |xs|
  {
    if xs != [] {
      var c := s.config;
      var t := Handle(s, xs[0], width);
      assert t.valueChanges == s.valueChanges + [TouchValue(xs[0], width, c.minValue, c.maxValue)];
      HandleAllValueChanges(t, xs[1..], width);
    }
  }

  /** Every value a drag sends lies in a well-ordered range. */
  lemma {:induction false} TouchValuesInRange(xs: seq<real>, width: real, minValue: real, maxValue: real)
    requires width > 0.0 && minValue <= maxValue
    ensures forall i :: 0 <= i < |xs| ==>
      minValue <= TouchValues(xs, width, minValue, maxValue)[i] <= maxValue
  {
  }

  /** From construction through any drag, the callback has seen the
      unclamped `initialValue` first and then one clamped value per touch,
      each inside `[minValue, maxValue]` when the range is well-ordered. */
  lemma ConstructThenDrag(c: Config, xs: seq<real>, width: real)
    requires ValidConfig(c) && c.hasCallback && width > 0.0
    ensures var r := HandleAll(Construct(c), xs, width);
      && r.valueChanges == [c.initialValue] + TouchValues(xs, width, c.minValue, c.maxValue)
      && r.valueChanges[|r.valueChanges| - 1] == CurrentValue(r)
      && (c.minValue <= c.maxValue ==>
            forall i :: 1 <= i < |r.valueChanges| ==> c.minValue <= r.valueChanges[i] <= c.maxValue)
  {
    var s := Construct(c);
    var r := HandleAll(s, xs, width);
    ConstructConsistent(c);
    HandleAllPreservesConsistent(s, xs, width);
    assert r.valueChanges[|r.valueChanges| - 1] == CurrentValue(r);
    HandleAllValueChanges(s, xs, width);
    if c.minValue <= c.maxValue {
      TouchValuesInRange(xs, width, c.minValue, c.maxValue);
    }
  }
}
