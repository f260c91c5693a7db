/** The `Portal` object: the devices of the input handler it was given, its
    four modifier-state fields, and the calls it has made on the virtual
    devices so far. Each method is proved against the pure definition of
    what it does. */
module PortalService {
  import opened Base
  import opened Modifiers
  import opened Sink
  import opened Keysym
  import opened Translator

  class Portal {
    /** Which virtual devices the input handler provides. */
    var devices: Devices
    /** `modifier_state_depressed`, `_latched`, `_locked` and `_group`. */
    var depressed: Mask
    var latched: Mask
    var locked: Mask
    var group: Mask
    /** Every call made on the virtual devices, in order. */
    var sent: seq<SinkOp>

    /** The four modifier fields as one state. */
    function ModifierState(): ModState
      reads this
    {
      ModState(depressed, latched, locked, group)
    }

    /** The object invariant: latched and group zero, only the lock masks in
        locked and only the level masks in depressed. */
    ghost predicate Valid()
      reads this
    {
      Modifiers.Valid(ModifierState())
    }

    /** A new portal has no input handler and all modifier fields zero. */
    constructor()
      ensures devices == Devices(false, false)
      ensures ModifierState() == INITIAL
      ensures sent == []
      ensures Valid()
    {
      devices := Devices(false, false);
      depressed, latched, locked, group := {}, {}, {}, {};
      sent := [];
      InitialIsValid();
    }

    /** Installing the input handler. */
    method SetHandler(d: Devices)
      modifies this`devices
      ensures devices == d
    {
      devices := d;
    }

    /** `update_modifier_state`: the switch over the key code, with the lock
        keys returning early and the level keys updating `depressed` after it. */
    method UpdateModifierState(keycode: u32, isPress: bool)
      modifies this`depressed, this`locked
      ensures ModifierState() == Step(old(ModifierState()), keycode, isPress)
    {
      var isModifier := false;
      var modifierMask: Mask := {};
      if keycode == 42 || keycode == 54 {
        isModifier, modifierMask := true, MOD_SHIFT;
      } else if keycode == 29 || keycode == 97 {
        isModifier, modifierMask := true, MOD_CTRL;
      } else if keycode == 56 || keycode == 100 {
        isModifier, modifierMask := true, MOD_ALT;
      } else if keycode == 125 || keycode == 126 {
        isModifier, modifierMask := true, MOD_META;
      } else if keycode == 58 {
        if isPress {
          locked := Xor(locked, MOD_CAPS);
        }
        return;
      } else if keycode == 69 {
        if isPress {
          locked := Xor(locked, MOD_NUM);
        }
        return;
      }
      if isModifier {
        if isPress {
          depressed := depressed + modifierMask;
        } else {
          depressed := depressed - modifierMask;
        }
      }
    }

    /** `handle_eis_event`: the modifier state and the calls sent are those
        of the translation of the event. */
    method HandleEisEvent(e: EisEvent, time: u32)
      requires Valid()
      modifies this`depressed, this`locked, this`sent
      ensures ModifierState() == Translate(devices, old(ModifierState()), e, time).state
      ensures sent == old(sent) + Translate(devices, old(ModifierState()), e, time).ops
      ensures Valid()
    {
      match e
      case PointerMotion(dx, dy) =>
        if devices.pointer {
          sent := sent + [Motion(time, dx, dy), Frame];
        }
      case PointerMotionAbsolute(x, y) =>
        if devices.pointer {
          sent := sent + [MotionAbsolute(time, x, y, REGION_WIDTH, REGION_HEIGHT), Frame];
        }
      case ButtonButton(button, isPress) =>
        if devices.pointer {
          sent := sent + [Button(time, button, if isPress then 1 else 0), Frame];
        }
      case ScrollDelta(dx, dy) =>
        if devices.pointer {
          SendWheelScroll(time, dx, dy, dx * SCROLL_SCALE, dx * SCROLL_SCALE);
        }
      case ScrollDiscrete(dx, dy) =>
        if dx == 0 && dy == 0 {
          return;
        }
        if devices.pointer && (dx != 0 || dy != 0) {
          sent := sent + [AxisSource(Wheel), AxisDiscrete(time, dx, dy), Frame];
        }
      case KeyboardKey(keycode, isPress) =>
        if devices.keyboard {
          HandleKeyboardKey(keycode, isPress, time);
        }
      case _ =>
    }

    /** The keyboard-key case of `handle_eis_event` with a keyboard present:
        the modifier state is updated before anything is sent, and the key
        is sent between two reports of the updated state. */
    method HandleKeyboardKey(keycode: u32, isPress: bool, time: u32)
      requires Valid()
      modifies this`depressed, this`locked, this`sent
      ensures ModifierState() == Step(old(ModifierState()), keycode, isPress)
      ensures sent == old(sent) + [ModifiersOf(ModifierState()), Key(time, keycode, if isPress then 1 else 0), ModifiersOf(ModifierState())]
      ensures Valid()
    {
      StepPreservesValid(ModifierState(), keycode, isPress);
      UpdateModifierState(keycode, isPress);
      var modifiers := ModifiersOf(ModifierState());
      sent := sent + [modifiers, Key(time, keycode, if isPress then 1 else 0), modifiers];
    }

    /** The axis source, the axis calls and stops for the nonzero deltas,
        and the frame of a wheel scroll, one call after another. */
    method SendWheelScroll(time: u32, dx: real, dy: real, hValue: real, vValue: real)
      modifies this`sent
      ensures sent == old(sent) + WheelScroll(time, dx, dy, hValue, vValue)
    {
      sent := sent + [AxisSource(Wheel)];
      if dx != 0.0 {
        sent := sent + [Axis(time, HorizontalScroll, hValue, dy)];
        sent := sent + [AxisStop(time, HorizontalScroll)];
      }
      if dy != 0.0 {
        sent := sent + [Axis(time, VerticalScroll, vValue, dy)];
        sent := sent + [AxisStop(time, VerticalScroll)];
      }
      sent := sent + [Frame];
    }

    /** NotifyPointerMotion. */
    method NotifyPointerMotion(dx: real, dy: real, time: u32)
      modifies this`sent
      ensures sent == old(sent) + NotifyMotionOps(devices, time, dx, dy)
    {
      if devices.pointer {
        sent := sent + [Motion(time, dx, dy)];
        sent := sent + [Frame];
      }
    }

    /** NotifyPointerButton. */
    method NotifyPointerButton(button: i32, state: u32, time: u32)
      modifies this`sent
      ensures sent == old(sent) + NotifyButtonOps(devices, time, button, state)
    {
      if devices.pointer {
        sent := sent + [Button(time, Wrap32(button), state)];
        sent := sent + [Frame];
      }
    }

    /** NotifyKeyboardKeycode: the modifier fields are not touched. */
    method NotifyKeyboardKeycode(keycode: i32, state: u32, time: u32)
      modifies this`sent
      ensures sent == old(sent) + NotifyKeycodeOps(devices, time, keycode, state)
    {
      if devices.keyboard {
        sent := sent + [Key(time, Wrap32(keycode), state)];
      }
    }

    /** NotifyKeyboardKeysym, given the default keymap (None when it could
        not be compiled): the scan for the key code, then at most one key call. */
    method NotifyKeyboardKeysym(keysym: i32, state: u32, time: u32, keymap: Option<Keymap>)
      modifies this`sent
      ensures sent == old(sent) + KeysymOps(devices, keymap, time, keysym, state)
    {
      if devices.keyboard {
        if keymap.Some? {
          var keycode := ResolveKeycode(keymap.value, Wrap32(keysym));
          if keycode > 0 {
            sent := sent + [Key(time, Wrap32(keycode as int - 8), state)];
          }
        }
      }
    }

    /** NotifyPointerAxis. */
    method NotifyPointerAxis(dx: real, dy: real, time: u32)
      modifies this`sent
      ensures sent == old(sent) + NotifyAxisOps(devices, time, dx, dy)
    {
      if devices.pointer {
        SendWheelScroll(time, dx, dy, dx, dx);
      }
    }

    /** The drain of the EIS queue: every event taken from the queue, in
        order, is handled at the time it was read. */
    method DrainEvents(queue: seq<EisEvent>, clock: seq<u32>)
      requires |clock| == |queue|
      requires Valid()
      modifies this`depressed, this`locked, this`sent
      ensures ModifierState() == Drain(devices, old(ModifierState()), queue, clock).state
      ensures sent == old(sent) + Drain(devices, old(ModifierState()), queue, clock).ops
      ensures Valid()
    {
      ghost var s0, log0 := ModifierState(), sent;
      var i := 0;
      while i < |queue|
        invariant 0 <= i <= |queue|
        invariant devices == old(devices)
        invariant Valid()
        invariant ModifierState() == Drain(devices, s0, queue[..i], clock[..i]).state
        invariant sent == log0 + Drain(devices, s0, queue[..i], clock[..i]).ops
      {
        ghost var before := Drain(devices, s0, queue[..i], clock[..i]);
        ghost var step := Translate(devices, before.state, queue[i], clock[i]);
        DrainPrefixStep(devices, s0, queue, clock, i);
        HandleEisEvent(queue[i], clock[i]);
        assert log0 + before.ops + step.ops == log0 + (before.ops + step.ops);
        i := i + 1;
      }
      assert queue[..i] == queue && clock[..i] == clock;
    }
  }

  /** A fresh portal given a handler reports latched = 0 and group = 0 in
      every modifiers call it makes while draining EIS events. */
  method DrainFromFreshPortal(d: Devices, queue: seq<EisEvent>, clock: seq<u32>) returns (p: Portal)
    requires |clock| == |queue|
    ensures forall op | op in p.sent && op.Modifiers? :: op.latched == {} && op.group == {}
    ensures Valid(p.ModifierState())
  {
    p := new Portal();
    p.SetHandler(d);
    p.DrainEvents(queue, clock);
    DrainReportsValidModifiers(d, INITIAL, queue, clock);
  }
}
