/** The calls the portal makes on the virtual pointer and virtual keyboard. */
module Sink {
  import opened Base
  import opened Modifiers

  /** Which virtual devices the input handler provides: a device counts as
      absent when the handler itself or that device is missing. */
  datatype Devices = Devices(pointer: bool, keyboard: bool)

  /** Scroll axes of the Wayland pointer protocol. */
  datatype ScrollAxis = VerticalScroll | HorizontalScroll

  /** Scroll sources of the Wayland pointer protocol; the portal only uses the wheel. */
  datatype AxisSourceKind = Wheel

  /** One call on a virtual device. Pointer values are the protocol's
      fixed-point numbers, modelled as reals; modifier masks as sets of bits. */
  datatype SinkOp =
    | Motion(time: u32, dx: real, dy: real)
    | MotionAbsolute(time: u32, x: u32, y: u32, width: u32, height: u32)
    | Button(time: u32, button: u32, state: u32)
    | Key(time: u32, key: u32, state: u32)
    | Modifiers(depressed: Mask, latched: Mask, locked: Mask, group: Mask)
    | AxisSource(source: AxisSourceKind)
    | Axis(time: u32, axis: ScrollAxis, value: real, other: real)
    | AxisStop(time: u32, axis: ScrollAxis)
    | AxisDiscrete(time: u32, steps_dx: i32, steps_dy: i32)
    | Frame

  /** The calls that go to the virtual keyboard; all others go to the pointer. */
  predicate IsKeyboardOp(op: SinkOp)
  {
    op.Key? || op.Modifiers?
  }

  /** The timestamp a call carries, if it carries one. */
  function TimeOf(op: SinkOp): Option<u32>
  {
    match op
    case Motion(t, _, _) => Some(t)
    case MotionAbsolute(t, _, _, _, _) => Some(t)
    case Button(t, _, _) => Some(t)
    case Key(t, _, _) => Some(t)
    case Axis(t, _, _, _) => Some(t)
    case AxisStop(t, _) => Some(t)
    case AxisDiscrete(t, _, _) => Some(t)
    case _ => None
  }

  /** The modifiers call that forwards a modifier state unchanged. */
  function ModifiersOf(s: ModState): (op: SinkOp)
  {
    Modifiers(s.depressed, s.latched, s.locked, s.group)
  }

  /** `state` argument of a button or key call built from a press flag. */
  function PressState(isPress: bool): (r: u32)
  {
    if isPress then 1 else 0
  }
}
