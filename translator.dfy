/** Translation of inbound input into calls on the virtual devices: the EIS
    event switch of `Portal::handle_eis_event`, the direct Notify* methods of
    the portal interface, and the drain of the EIS event queue. */
module Translator {
  import opened Base
  import opened Modifiers
  import opened Sink

  /** The fixed size of the pointer's region and of absolute motion. */
  const REGION_WIDTH: u32 := 1920
  const REGION_HEIGHT: u32 := 1080

  /** The factor applied to the horizontal delta of continuous EIS scrolling. */
  const SCROLL_SCALE: real := 15.0

  /** One event taken from the EIS queue. Absolute coordinates are the values
      after the source's conversion of the doubles to `uint32_t`. */
  datatype EisEvent =
    | ClientConnect
    | ClientDisconnect
    | SeatBind
    | DeviceStartEmulating
    | DeviceStopEmulating
    | PointerMotion(dx: real, dy: real)
    | PointerMotionAbsolute(x: u32, y: u32)
    | ButtonButton(button: u32, isPress: bool)
    | ScrollDelta(dx: real, dy: real)
    | ScrollDiscrete(steps_dx: i32, steps_dy: i32)
    | KeyboardKey(keycode: u32, isPress: bool)
    | FrameEvent
    | Unhandled(eventType: int)

  /** The events forwarded to the virtual pointer. */
  predicate IsPointerEvent(e: EisEvent)
  {
    e.PointerMotion? || e.PointerMotionAbsolute? || e.ButtonButton? || e.ScrollDelta? || e.ScrollDiscrete?
  }

  /** The new modifier state and the calls sent, in order. */
  datatype Translation = Translation(state: ModState, ops: seq<SinkOp>)

  /** A wheel-sourced scroll: the axis source, then an axis call and an axis
      stop for each nonzero delta (horizontal first), then a frame. The
      horizontal axis call carries `hValue` as its value, the vertical one
      `vValue`, and both carry `dy` as their other argument. */
  function WheelScroll(time: u32, dx: real, dy: real, hValue: real, vValue: real): (ops: seq<SinkOp>)
    ensures forall op | op in ops :: !IsKeyboardOp(op) && (TimeOf(op).Some? ==> TimeOf(op).value == time)
  {
    [AxisSource(Wheel)]
    + (if dx != 0.0 then [Axis(time, HorizontalScroll, hValue, dy), AxisStop(time, HorizontalScroll)] else [])
    + (if dy != 0.0 then [Axis(time, VerticalScroll, vValue, dy), AxisStop(time, VerticalScroll)] else [])
    + [Frame]
  }

  /** The calls the pointer cases of the EIS event switch send; the other
      cases send none here. Everything goes to the pointer, stamped with the
      event's time, and nothing is sent when there is no pointer. */
  function PointerOps(d: Devices, e: EisEvent, time: u32): (ops: seq<SinkOp>)
    ensures !d.pointer || !IsPointerEvent(e) ==> ops == []
    ensures forall op | op in ops :: !IsKeyboardOp(op) && (TimeOf(op).Some? ==> TimeOf(op).value == time)
  {
    match e
    case PointerMotion(dx, dy) =>
      if d.pointer then [Motion(time, dx, dy), Frame] else []
    case PointerMotionAbsolute(x, y) =>
      if d.pointer then [MotionAbsolute(time, x, y, REGION_WIDTH, REGION_HEIGHT), Frame] else []
    case ButtonButton(button, isPress) =>
      if d.pointer then [Button(time, button, PressState(isPress)), Frame] else []
    case ScrollDelta(dx, dy) =>
      if d.pointer then WheelScroll(time, dx, dy, dx * SCROLL_SCALE, dx * SCROLL_SCALE) else []
    case ScrollDiscrete(dx, dy) =>
      if dx == 0 && dy == 0 then []
      else if d.pointer && (dx != 0 || dy != 0) then [AxisSource(Wheel), AxisDiscrete(time, dx, dy), Frame]
      else []
    case _ => []
  }

  /** The calls the keyboard-key case sends once the state has become `s'`:
      the modifiers, the key with its raw code, and the modifiers again. */
  function KeyOps(s': ModState, keycode: u32, isPress: bool, time: u32): (ops: seq<SinkOp>)
    ensures forall op | op in ops :: IsKeyboardOp(op) && (op.Modifiers? ==> op == ModifiersOf(s'))
    ensures forall op | op in ops :: TimeOf(op).Some? ==> TimeOf(op).value == time
  {
    [ModifiersOf(s'), Key(time, keycode, PressState(isPress)), ModifiersOf(s')]
  }

  /** One EIS event handled: the new modifier state and the calls sent. A key
      event updates the state before anything is sent, and only when a
      keyboard is present. */
  function Translate(d: Devices, s: ModState, e: EisEvent, time: u32): Translation
  {
    if e.KeyboardKey? then
      if d.keyboard then
        var s' := Step(s, e.keycode, e.isPress);
        Translation(s', KeyOps(s', e.keycode, e.isPress, time))
      else Translation(s, [])
    else Translation(s, PointerOps(d, e, time))
  }

  /** Only a key event with a keyboard present changes the modifier state,
      and then by one step of the state machine. Nothing is sent to a missing
      device, nor for connection, emulation, frame and unknown events. */
  lemma TranslateGuards(d: Devices, s: ModState, e: EisEvent, time: u32)
    ensures var r := Translate(d, s, e, time);
      (r.state != s ==> e.KeyboardKey? && d.keyboard) &&
      (e.KeyboardKey? && d.keyboard ==> r.state == Step(s, e.keycode, e.isPress)) &&
      (IsPointerEvent(e) && !d.pointer ==> r.ops == []) &&
      (e.KeyboardKey? && !d.keyboard ==> r.ops == []) &&
      (!IsPointerEvent(e) && !e.KeyboardKey? ==> r.ops == [])
  {
  }

  /** Whatever the event: key events are sent to the keyboard and pointer
      events to the pointer, every modifiers call reports the updated state,
      and every timestamped call carries the event's time. */
  lemma TranslateOpsWellFormed(d: Devices, s: ModState, e: EisEvent, time: u32)
    ensures var r := Translate(d, s, e, time);
      (forall op | op in r.ops :: IsKeyboardOp(op) <==> e.KeyboardKey?) &&
      (forall op | op in r.ops :: op.Modifiers? ==> op == ModifiersOf(r.state)) &&
      (forall op | op in r.ops :: TimeOf(op).Some? ==> TimeOf(op).value == time)
  {
    var r := Translate(d, s, e, time);
    if e.KeyboardKey? {
      if d.keyboard {
        var s' := Step(s, e.keycode, e.isPress);
        assert r.state == s' && r.ops == KeyOps(s', e.keycode, e.isPress, time);
      }
    } else {
      assert r.ops == PointerOps(d, e, time);
    }
  }

  /** A key event with a keyboard present: the state is updated first, then
      the updated modifiers, the key with its raw code, and the modifiers
      again are sent. Without a keyboard nothing is sent and the state stays. */
  lemma KeyboardKeyTrace(d: Devices, s: ModState, keycode: u32, isPress: bool, time: u32)
    ensures var r, s' := Translate(d, s, KeyboardKey(keycode, isPress), time), Step(s, keycode, isPress);
      if d.keyboard then
        r.state == s' &&
        r.ops == [ModifiersOf(s'), Key(time, keycode, if isPress then 1 else 0), ModifiersOf(s')]
      else r.state == s && r.ops == []
  {
  }

  /** Discrete scrolling: zero steps on both axes send nothing; otherwise,
      with a pointer, the axis source, one discrete-axis call with the raw
      steps and a frame, and never an axis stop. */
  lemma ScrollDiscreteTrace(d: Devices, s: ModState, dx: i32, dy: i32, time: u32)
    ensures var r := Translate(d, s, ScrollDiscrete(dx, dy), time);
      r.state == s &&
      (dx == 0 && dy == 0 ==> r.ops == []) &&
      (d.pointer && (dx != 0 || dy != 0) ==> r.ops == [AxisSource(Wheel), AxisDiscrete(time, dx, dy), Frame]) &&
      (forall op | op in r.ops :: !op.AxisStop?)
  {
  }

  /** Shape of a wheel scroll: it starts with the axis source and ends with a
      frame; the horizontal pair is present exactly when dx is nonzero, the
      vertical pair exactly when dy is nonzero; its length is 2, 4 or 6. */
  lemma WheelScrollShape(time: u32, dx: real, dy: real, hValue: real, vValue: real)
    ensures var ops := WheelScroll(time, dx, dy, hValue, vValue);
      |ops| == 2 + (if dx != 0.0 then 2 else 0) + (if dy != 0.0 then 2 else 0) &&
      ops[0] == AxisSource(Wheel) && ops[|ops| - 1] == Frame &&
      (Axis(time, HorizontalScroll, hValue, dy) in ops <==> dx != 0.0) &&
      (AxisStop(time, HorizontalScroll) in ops <==> dx != 0.0) &&
      (Axis(time, VerticalScroll, vValue, dy) in ops <==> dy != 0.0) &&
      (AxisStop(time, VerticalScroll) in ops <==> dy != 0.0) &&
      (forall op | op in ops && op.Axis? ::
         op.value == (if op.axis == HorizontalScroll then hValue else vValue) && op.other == dy) &&
      (forall op | op in ops :: !op.AxisDiscrete?)
  {
    var src, h, hs, v, vs := AxisSource(Wheel), Axis(time, HorizontalScroll, hValue, dy),
      AxisStop(time, HorizontalScroll), Axis(time, VerticalScroll, vValue, dy), AxisStop(time, VerticalScroll);
    var ops := WheelScroll(time, dx, dy, hValue, vValue);
    if dx != 0.0 && dy != 0.0 {
      assert ops == [src, h, hs, v, vs, Frame];
    } else if dx != 0.0 {
      assert ops == [src, h, hs, Frame];
    } else if dy != 0.0 {
      assert ops == [src, v, vs, Frame];
    } else {
      assert ops == [src, Frame];
    }
  }

  /** A continuous EIS scroll with a pointer is a wheel scroll whose axis
      calls carry dx * 15 as their value (the vertical one too, as written). */
  lemma ScrollDeltaTrace(d: Devices, s: ModState, dx: real, dy: real, time: u32)
    ensures var r := Translate(d, s, ScrollDelta(dx, dy), time);
      r.state == s &&
      r.ops == (if d.pointer then WheelScroll(time, dx, dy, dx * 15.0, dx * 15.0) else [])
  {
  }

  /** Motion, absolute motion and buttons: one call and a frame, with a pointer. */
  lemma PointerTraces(d: Devices, s: ModState, time: u32, dx: real, dy: real, x: u32, y: u32, button: u32, isPress: bool)
    requires d.pointer
    ensures Translate(d, s, PointerMotion(dx, dy), time).ops == [Motion(time, dx, dy), Frame]
    ensures Translate(d, s, PointerMotionAbsolute(x, y), time).ops
         == [MotionAbsolute(time, x, y, 1920, 1080), Frame]
    ensures Translate(d, s, ButtonButton(button, isPress), time).ops
         == [Button(time, button, if isPress then 1 else 0), Frame]
  {
  }

  // ---------------------------------------------------------------------
  // The direct Notify* methods of the portal interface.

  /** NotifyPointerMotion. */
  function NotifyMotionOps(d: Devices, time: u32, dx: real, dy: real): seq<SinkOp>
  {
    if d.pointer then [Motion(time, dx, dy), Frame] else []
  }

  /** NotifyPointerButton: the `int32` button is cast to `uint32`; the state is passed through. */
  function NotifyButtonOps(d: Devices, time: u32, button: i32, state: u32): seq<SinkOp>
  {
    if d.pointer then [Button(time, Wrap32(button), state), Frame] else []
  }

  /** NotifyKeyboardKeycode: a bare key call, no modifier handling. */
  function NotifyKeycodeOps(d: Devices, time: u32, keycode: i32, state: u32): seq<SinkOp>
  {
    if d.keyboard then [Key(time, Wrap32(keycode), state)] else []
  }

  /** NotifyPointerAxis: a wheel scroll with unscaled deltas. */
  function NotifyAxisOps(d: Devices, time: u32, dx: real, dy: real): seq<SinkOp>
  {
    if d.pointer then WheelScroll(time, dx, dy, dx, dx) else []
  }

  /** The notify and EIS motion paths send the same calls. */
  lemma NotifyMotionMatchesEis(d: Devices, s: ModState, time: u32, dx: real, dy: real)
    ensures NotifyMotionOps(d, time, dx, dy) == Translate(d, s, PointerMotion(dx, dy), time).ops
  {
  }

  /** The notify and EIS button paths send the same calls for a state of 1
      (press) or 0 (release), the EIS button being the notify button cast to
      `uint32`. */
  lemma NotifyButtonMatchesEis(d: Devices, s: ModState, time: u32, button: i32, isPress: bool)
    ensures NotifyButtonOps(d, time, button, if isPress then 1 else 0)
         == Translate(d, s, ButtonButton(Wrap32(button), isPress), time).ops
  {
  }

  /** The notify axis path is the EIS scroll path without the scaling: a
      notify with a horizontal delta of 15 * dx sends exactly what an EIS
      scroll of dx sends. */
  lemma NotifyAxisIsUnscaledScroll(d: Devices, s: ModState, time: u32, dx: real, dy: real)
    ensures NotifyAxisOps(d, time, dx * 15.0, dy) == Translate(d, s, ScrollDelta(dx, dy), time).ops
  {
    assert (dx * 15.0 != 0.0) == (dx != 0.0);
  }

  /** The notify keycode path sends, for any state, at most one call: the
      key call with the cast key code and the state as given, never a
      modifiers call. For a state of 1 (press) or 0 (release) that call is
      the one the EIS path sends between its two modifiers calls. */
  lemma NotifyKeycodeIsBareKey(d: Devices, s: ModState, time: u32, keycode: i32, state: u32, isPress: bool)
    ensures var ops := NotifyKeycodeOps(d, time, keycode, state);
      |ops| <= 1 && (forall op | op in ops :: !op.Modifiers?) &&
      (d.keyboard ==> ops == [Key(time, Wrap32(keycode), state)]) &&
      (!d.keyboard ==> ops == [])
    ensures d.keyboard && state == PressState(isPress) ==>
      NotifyKeycodeOps(d, time, keycode, state) == [Translate(d, s, KeyboardKey(Wrap32(keycode), isPress), time).ops[1]]
  {
  }

  // ---------------------------------------------------------------------
  // The value of the vertical axis call of a continuous EIS scroll.

  /** The continuous EIS scroll as the log line before each axis call
      describes it: each axis call carries its own delta times 15. */
  function IntendedScrollDeltaOps(d: Devices, time: u32, dx: real, dy: real): (ops: seq<SinkOp>)
    ensures !d.pointer ==> ops == []
    ensures forall op | op in ops && op.Axis? ::
      op.value == (if op.axis == HorizontalScroll then dx else dy) * SCROLL_SCALE
  {
    if d.pointer then WheelScroll(time, dx, dy, dx * SCROLL_SCALE, dy * SCROLL_SCALE) else []
  }

  /** The intended scroll sends a vertical axis call of value dy * 15 exactly
      when dy is nonzero, and a horizontal one of value dx * 15 exactly when
      dx is nonzero. */
  lemma IntendedScrollCarriesEachDelta(d: Devices, time: u32, dx: real, dy: real)
    requires d.pointer
    ensures Axis(time, VerticalScroll, dy * 15.0, dy) in IntendedScrollDeltaOps(d, time, dx, dy) <==> dy != 0.0
    ensures Axis(time, HorizontalScroll, dx * 15.0, dy) in IntendedScrollDeltaOps(d, time, dx, dy) <==> dx != 0.0
  {
    WheelScrollShape(time, dx, dy, dx * 15.0, dy * 15.0);
  }

  /** As written, the vertical axis call carries dx * 15, so the EIS scroll
      agrees with the intended one, for a pointer and a nonzero dy, exactly
      when dx == dy. */
  lemma ScrollDeltaVerticalCarriesDx(d: Devices, s: ModState, time: u32, dx: real, dy: real)
    requires d.pointer && dy != 0.0
    ensures Axis(time, VerticalScroll, dx * 15.0, dy) in Translate(d, s, ScrollDelta(dx, dy), time).ops
    ensures Translate(d, s, ScrollDelta(dx, dy), time).ops == IntendedScrollDeltaOps(d, time, dx, dy) <==> dx == dy
  {
    var v := Axis(time, VerticalScroll, dx * 15.0, dy);
    ScrollDeltaTrace(d, s, dx, dy, time);
    WheelScrollShape(time, dx, dy, dx * 15.0, dx * 15.0);
    if Translate(d, s, ScrollDelta(dx, dy), time).ops == IntendedScrollDeltaOps(d, time, dx, dy) {
      assert v in IntendedScrollDeltaOps(d, time, dx, dy);
      assert v.value == dy * 15.0;
    }
  }

  /** A purely vertical EIS scroll of one unit sends a vertical axis call of
      value 0, where the intended scroll sends 15. */
  lemma PureVerticalScrollSendsZero(d: Devices, s: ModState, time: u32)
    requires d.pointer
    ensures Translate(d, s, ScrollDelta(0.0, 1.0), time).ops
         == [AxisSource(Wheel), Axis(time, VerticalScroll, 0.0, 1.0), AxisStop(time, VerticalScroll), Frame]
    ensures IntendedScrollDeltaOps(d, time, 0.0, 1.0)
         == [AxisSource(Wheel), Axis(time, VerticalScroll, 15.0, 1.0), AxisStop(time, VerticalScroll), Frame]
  {
  }

  // ---------------------------------------------------------------------
  // The drain of the EIS event queue.

  /** How one event is handled: from a modifier state, an event and its
      time, the new state and the calls sent. */
  type Handler = (ModState, EisEvent, u32) -> Translation

  /** Every queued event handled by `handle` in arrival order, each with the
      time it was read at. */
  function DrainWith(handle: Handler, s: ModState, events: seq<EisEvent>, times: seq<u32>): Translation
    requires |times| == |events|
    decreases |events|
  {
    if events == [] then Translation(s, [])
    else
      var first := handle(s, events[0], times[0]);
      var rest := DrainWith(handle, first.state, events[1..], times[1..]);
      Translation(rest.state, first.ops + rest.ops)
  }

  /** The EIS event switch as a handler, with the devices present fixed. */
  function EisHandler(d: Devices): Handler
  {
    (s: ModState, e: EisEvent, t: u32) => Translate(d, s, e, t)
  }

  /** The drain of the EIS queue. */
  function Drain(d: Devices, s: ModState, events: seq<EisEvent>, times: seq<u32>): Translation
    requires |times| == |events|
  {
    DrainWith(EisHandler(d), s, events, times)
  }

  /** Draining two batches one after the other is draining them as one:
      nothing is dropped and nothing is reordered, whatever the handler. */
  lemma {:induction false} DrainWithAppend(handle: Handler, s: ModState, a: seq<EisEvent>, ta: seq<u32>, b: seq<EisEvent>, tb: seq<u32>)
    requires |ta| == |a| && |tb| == |b|
    ensures var first := DrainWith(handle, s, a, ta);
      var second := DrainWith(handle, first.state, b, tb);
      DrainWith(handle, s, a + b, ta + tb) == Translation(second.state, first.ops + second.ops)
    decreases |a|
  {
    if a == [] {
      assert a + b == b && ta + tb == tb;
    } else {
      assert (a + b)[0] == a[0] && (ta + tb)[0] == ta[0];
      assert (a + b)[1..] == a[1..] + b && (ta + tb)[1..] == ta[1..] + tb;
      var head := handle(s, a[0], ta[0]);
      DrainWithAppend(handle, head.state, a[1..], ta[1..], b, tb);
      var tail := DrainWith(handle, head.state, a[1..], ta[1..]);
      var second := DrainWith(handle, tail.state, b, tb);
      assert head.ops + (tail.ops + second.ops) == (head.ops + tail.ops) + second.ops;
    }
  }

  /** The same for the drain of the EIS queue. */
  lemma DrainAppend(d: Devices, s: ModState, a: seq<EisEvent>, ta: seq<u32>, b: seq<EisEvent>, tb: seq<u32>)
    requires |ta| == |a| && |tb| == |b|
    ensures var first := Drain(d, s, a, ta);
      var second := Drain(d, first.state, b, tb);
      Drain(d, s, a + b, ta + tb) == Translation(second.state, first.ops + second.ops)
  {
    DrainWithAppend(EisHandler(d), s, a, ta, b, tb);
  }

  /** Draining one more event appends what that event sends. */
  lemma DrainSnoc(d: Devices, s: ModState, events: seq<EisEvent>, times: seq<u32>, e: EisEvent, t: u32)
    requires |times| == |events|
    ensures var before := Drain(d, s, events, times);
      var last := Translate(d, before.state, e, t);
      Drain(d, s, events + [e], times + [t]) == Translation(last.state, before.ops + last.ops)
  {
    DrainWithAppend(EisHandler(d), s, events, times, [e], [t]);
    var before := Drain(d, s, events, times);
    var last := Translate(d, before.state, e, t);
    assert [e][1..] == [] && [t][1..] == [];
    assert DrainWith(EisHandler(d), before.state, [e], [t]) == Translation(last.state, last.ops + []);
    assert last.ops + [] == last.ops;
  }

  /** Draining one more event of a queue from the prefix already drained. */
  lemma DrainPrefixStep(d: Devices, s: ModState, events: seq<EisEvent>, times: seq<u32>, i: nat)
    requires |times| == |events| && i < |events|
    ensures var before := Drain(d, s, events[..i], times[..i]);
      var last := Translate(d, before.state, events[i], times[i]);
      Drain(d, s, events[..i + 1], times[..i + 1]) == Translation(last.state, before.ops + last.ops)
  {
    assert events[..i + 1] == events[..i] + [events[i]];
    assert times[..i + 1] == times[..i] + [times[i]];
    DrainSnoc(d, s, events[..i], times[..i], events[i], times[i]);
  }

  /** The key events among a batch, in order. */
  function KeyEventsOf(events: seq<EisEvent>): seq<KeyEvent>
    decreases |events|
  {
    if events == [] then []
    else
      (if events[0].KeyboardKey? then [KeyEvent(events[0].keycode, events[0].isPress)] else []) +
      KeyEventsOf(events[1..])
  }

  /** The modifier state after a drain is the state machine run over the
      batch's key events when a keyboard is present, and unchanged otherwise. */
  lemma {:induction false} DrainRunsKeyEvents(d: Devices, s: ModState, events: seq<EisEvent>, times: seq<u32>)
    requires |times| == |events|
    ensures Drain(d, s, events, times).state == if d.keyboard then Run(s, KeyEventsOf(events)) else s
    decreases |events|
  {
    if events != [] {
      var e := events[0];
      var first := Translate(d, s, e, times[0]);
      TranslateGuards(d, s, e, times[0]);
      DrainRunsKeyEvents(d, first.state, events[1..], times[1..]);
      if d.keyboard {
        var ks := KeyEventsOf(events[1..]);
        if e.KeyboardKey? {
          var k := KeyEvent(e.keycode, e.isPress);
          RunAppend(s, [k], ks);
          RunSingle(s, k);
        } else {
          assert KeyEventsOf(events) == [] + ks;
          assert [] + ks == ks;
        }
      }
    }
  }

  /** From a valid state, draining keeps the state valid, and every
      modifiers call sent reports latched and group as zero and only modifier
      masks in depressed and locked. */
  lemma {:induction false} DrainReportsValidModifiers(d: Devices, s: ModState, events: seq<EisEvent>, times: seq<u32>)
    requires |times| == |events|
    requires Valid(s)
    ensures var r := Drain(d, s, events, times);
      Valid(r.state) &&
      forall op | op in r.ops && op.Modifiers? ::
        op.latched == {} && op.group == {} && op.depressed <= LEVEL_MASKS && op.locked <= LOCK_MASKS
    decreases |events|
  {
    if events != [] {
      var first := Translate(d, s, events[0], times[0]);
      TranslateGuards(d, s, events[0], times[0]);
      TranslateOpsWellFormed(d, s, events[0], times[0]);
      if events[0].KeyboardKey? && d.keyboard {
        StepPreservesValid(s, events[0].keycode, events[0].isPress);
      }
      DrainReportsValidModifiers(d, first.state, events[1..], times[1..]);
    }
  }

  /** From the portal's initial state, every modifiers call ever sent carries
      latched = 0 and group = 0. */
  lemma DrainFromInitialReportsZeroLatchedAndGroup(d: Devices, events: seq<EisEvent>, times: seq<u32>)
    requires |times| == |events|
    ensures forall op | op in Drain(d, INITIAL, events, times).ops && op.Modifiers? ::
      op.latched == {} && op.group == {}
  {
    InitialIsValid();
    DrainReportsValidModifiers(d, INITIAL, events, times);
  }
}
