# Input translation core of the RemoteDesktop portal

This project models, in Dafny, the part of the `Portal` class (src/portal.cpp, src/portal.h) that turns inbound input into calls on the virtual pointer and the virtual keyboard. It also proves properties of that model. There are five parts:

- **Modifier state machine** (`modifiers.dfy`, `Portal.UpdateModifierState` in `portal.dfy`).
  - `update_modifier_state` keeps four 32-bit masks: depressed, latched, locked and group.
  - Shift, Ctrl, Alt and Meta are level-triggered. Caps Lock and Num Lock toggle on press. Every other key code does nothing.
  - A mask is modelled as the set of its one bits: `|=` is `+`, `&= ~` is `-`, and `^=` is `Xor`.
  - The pure `Modifiers.Step` is the specification. The class method is the imperative switch, proved equal to it.
- **EIS event translator** (`translator.dfy`, `Portal.HandleEisEvent`).
  - `handle_eis_event` is a switch over the events of the emulated-input server. Each event yields an exact sequence of `SinkOp` calls, guarded by the presence of the pointer or the keyboard.
  - A key event updates the modifier state first, and only when a keyboard is present.
  - A call's time is a parameter.
- **Direct notify paths** (`Translator.Notify*Ops`, `Portal.Notify*`).
  - These are the D-Bus methods NotifyPointerMotion, NotifyPointerButton, NotifyKeyboardKeycode, NotifyKeyboardKeysym and NotifyPointerAxis.
  - The keycode path sends a bare key. The axis path sends unscaled deltas.
- **Keysym resolver** (`keysym.dfy`).
  - A linear first-match scan of key codes in `[min, max)` of the default keymap. On success it sends `keycode - 8`.
  - The keymap is abstracted as a total function from key code to keysym, plus its two bounds.
  - `keycode - 8` is unsigned arithmetic, modelled as reduction modulo 2^32, so a match below 8 wraps exactly as the code does.
- **Session surface** (`session.dfy`).
  - The fixed replies of CreateSession, SelectDevices and Start, and the `version` property.
  - The checks ConnectToEIS makes before it hands out a socket.

The drain loop of the EIS server thread is modelled as `Portal.DrainEvents`, a `while` loop over the event queue proved against the fold `Translator.Drain`.

The integer conversions to `uint32_t` go through `Base.Wrap32`, which reduces modulo 2^32. These are the casts of the button (src/portal.cpp:143) and the key code (src/portal.cpp:158), the implicit conversion in the keysym comparison (src/portal.cpp:183), and the unsigned `keycode - 8` (src/portal.cpp:190). The casts of the clock count are not modelled, because the time is a parameter. The casts of the absolute coordinates are left out with floating point.

The ConnectToEIS error paths follow the code, `src/portal.cpp:314-324`:
- A missing handler, keyboard or pointer fails with `org.freedesktop.portal.Error.Failed` and "Virtual devices not available". No socket has been created at that point.
- A failed `socketpair` fails with the same error name and the fixed message "Failed to create socket pair".

The `strerror` text of a failed `socketpair` is only logged (src/portal.cpp:322); the reply carries the fixed message (src/portal.cpp:323).

## Model

| member | source | states |
|---|---|---|
| Base.Wrap32 | src/portal.cpp:158 | Conversion to `uint32_t`: the identity on [0, 2^32), adding 2^32 to a negative 32-bit value, and always congruent modulo 2^32 |
| Modifiers.Xor | src/portal.cpp:860 | A bit is in `x ^ m` exactly when it is in one of `x` and `m` |
| Modifiers.MasksAreDisjointBits | src/portal.h:35-40 | Each of the six masks is a single bit, the masks are pairwise disjoint, and no level mask is a lock mask |
| Modifiers.RoleOf | src/portal.cpp:828-872 | Key codes 42/54, 29/97, 56/100 and 125/126 are exactly the Shift, Ctrl, Alt and Meta keys; 58 and 69 are exactly Caps and Num Lock; every other code is ordinary; level masks lie in the level set and lock masks in the lock set |
| Modifiers.Valid | src/portal.h:29-32 | No contract of its own: the invariant of the four fields (latched and group zero, locked within Caps and Num, depressed within the level masks). InitialIsValid, StepPreservesValid, RunPreservesValid and ReachableIsValid state it holds |
| Modifiers.Run | src/portal.cpp:822-885 | No contract of its own: successive calls of `update_modifier_state`, one Step per key event. Specified by RunPreservesValid, ReachableIsValid, TogglePressParity, NestedClearsMasks and NestedPairsRestore |
| Modifiers.Step | src/portal.cpp:822-885 | Latched and group never change. A level key sets its bit in depressed on press and clears it on release, leaving locked and the other depressed bits alone. A lock key flips its bit of locked on press and changes nothing on release. Any other code changes nothing |
| Modifiers.InitialIsValid | src/portal.h:29-32 | The all-zero initial state satisfies the invariant: latched and group zero, locked within Caps and Num, depressed within the level masks |
| Modifiers.StepPreservesValid | src/portal.cpp:857-881 | One key event preserves that invariant |
| Modifiers.RunPreservesValid | src/portal.cpp:822-885 | Any sequence of key events preserves the invariant |
| Modifiers.ReachableIsValid | src/portal.h:29-32 | From the initial state, every reachable state has latched and group zero, only MOD_CAPS and MOD_NUM in locked, and only the level masks in depressed |
| Modifiers.PressReleaseClearsBit | src/portal.cpp:874-881 | Pressing then releasing a level key clears its bit and changes nothing else |
| Modifiers.TogglePairRestores | src/portal.cpp:857-871 | Two presses of a lock key restore the state, with or without a release between them |
| Modifiers.TogglePressParity | src/portal.cpp:857-871 | After n presses of a lock key, its bit of locked is flipped exactly when n is odd, and nothing else changes |
| Modifiers.NestedClearsMasks | src/portal.cpp:874-881 | Pressing level keys in order and releasing them in reverse order clears exactly their masks from depressed |
| Modifiers.NestedPairsRestore | src/portal.cpp:874-881 | Such a nested chord restores the state when none of its masks was held before |
| Keysym.FirstMatchFrom | src/portal.cpp:182-187 | The scan from a key code finds the first code below max whose keysym matches, or finds none exactly when no code in range matches |
| Keysym.FirstMatch | src/portal.cpp:180-187 | No contract of its own: the scan from the keymap's minimum. FirstMatchIsFirst states it is the first match in [min, max), and MaxKeycodeNeverExamined what it depends on |
| Keysym.FoundKeycode | src/portal.cpp:180-187 | No contract of its own: the scan's result with 0 for no match, as the initialised `keycode` variable gives. ResolveKeycode's ensures ties the loop to it |
| Keysym.ResolveKeycode | src/portal.cpp:180-187 | The `for` loop with `break` returns the first matching key code of [min, max), or 0 when none matches |
| Keysym.FirstMatchIsFirst | src/portal.cpp:180-187 | The scan's result is k exactly when k is in [min, max), produces the keysym, and no smaller code in range does |
| Keysym.MaxKeycodeNeverExamined | src/portal.cpp:182 | The result depends only on the keysyms of [min, max); the keysym of max itself is never looked at |
| Keysym.KeysymOps | src/portal.cpp:165-201 | No contract of its own: the calls NotifyKeyboardKeysym sends. Specified by KeysymSendsFirstMatch, KeysymUnresolvedSendsNothing, KeysymMatchAtZeroSendsNothing and KeysymNeedsKeyboardAndKeymap |
| Keysym.KeysymSendsFirstMatch | src/portal.cpp:188-190 | When the first match is k > 0 and a keyboard is present, exactly one key call `k - 8` (modulo 2^32) is sent with the caller's time and state; for k >= 8 this is plain `k - 8` |
| Keysym.KeysymUnresolvedSendsNothing | src/portal.cpp:188-192 | When no key code in range produces the keysym, nothing is sent |
| Keysym.KeysymMatchAtZeroSendsNothing | src/portal.cpp:188 | A match at key code 0 is dropped by the `keycode > 0` test |
| Keysym.KeysymNeedsKeyboardAndKeymap | src/portal.cpp:169-178 | Without a keyboard, or when the XKB context, keymap or state cannot be created, nothing is sent |
| Translator.WheelScroll | src/portal.cpp:703-720 | Every call of a wheel scroll goes to the pointer and carries the given time |
| Translator.PointerOps | src/portal.cpp:633-763 | The pointer cases send nothing without a pointer, and nothing for non-pointer events; every call goes to the pointer and carries the event's time |
| Translator.KeyOps | src/portal.cpp:789-801 | The key case's calls all go to the keyboard, carry the event's time, and every modifiers call reports the updated state |
| Translator.Translate | src/portal.cpp:514-820 | No contract of its own: the translation of one EIS event. Specified by TranslateGuards, TranslateOpsWellFormed, KeyboardKeyTrace, ScrollDiscreteTrace, ScrollDeltaTrace and PointerTraces |
| Translator.TranslateGuards | src/portal.cpp:514-820 | Only a key event with a keyboard present changes the modifier state, and then by one Step. Nothing is sent to a missing device, nor for client connect/disconnect, seat bind, start/stop emulating, frame or unknown events |
| Translator.TranslateOpsWellFormed | src/portal.cpp:633-809 | For every event, key events go only to the keyboard and all others only to the pointer. Every modifiers call reports the post-update state, and every timestamped call carries the event's time |
| Translator.KeyboardKeyTrace | src/portal.cpp:776-801 | With a keyboard, the state becomes Step of the old one and the trace is exactly [Modifiers(s'), Key(time, keycode, press ? 1 : 0), Modifiers(s')], with the raw key code. Without a keyboard, the trace is empty and the state is unchanged |
| Translator.ScrollDiscreteTrace | src/portal.cpp:728-757 | Zero steps on both axes send nothing. Otherwise, with a pointer, the trace is exactly [AxisSource(wheel), AxisDiscrete(time, dx, dy), Frame]. There is never an axis stop |
| Translator.WheelScrollShape | src/portal.cpp:703-720 | Starts with AxisSource(wheel) and ends with Frame. The horizontal axis and stop pair is present iff dx != 0, the vertical pair iff dy != 0, and the length is 2, 4 or 6. The horizontal axis call carries its own value and the vertical one its own, and both carry dy. No discrete call |
| Translator.ScrollDeltaTrace | src/portal.cpp:696-720 | A continuous EIS scroll with a pointer is the wheel scroll whose axis calls carry dx * 15, the vertical call included. Without a pointer it sends nothing |
| Translator.PointerTraces | src/portal.cpp:633-683 | With a pointer: relative motion gives [Motion(t, dx, dy), Frame], absolute motion gives [MotionAbsolute(t, x, y, 1920, 1080), Frame], and a button gives [Button(t, b, press ? 1 : 0), Frame] |
| Translator.NotifyMotionOps | src/portal.cpp:121-131 | No contract of its own: the calls NotifyPointerMotion sends. Specified by NotifyMotionMatchesEis |
| Translator.NotifyButtonOps | src/portal.cpp:136-146 | No contract of its own: the calls NotifyPointerButton sends. Specified by NotifyButtonMatchesEis |
| Translator.NotifyKeycodeOps | src/portal.cpp:151-160 | No contract of its own: the calls NotifyKeyboardKeycode sends. Specified by NotifyKeycodeIsBareKey |
| Translator.NotifyAxisOps | src/portal.cpp:206-221 | No contract of its own: the calls NotifyPointerAxis sends. Specified by NotifyAxisIsUnscaledScroll and, through WheelScroll, by WheelScrollShape |
| Translator.NotifyMotionMatchesEis | src/portal.cpp:121-131 | NotifyPointerMotion sends exactly what an EIS relative motion sends: two calls with a pointer, none without |
| Translator.NotifyButtonMatchesEis | src/portal.cpp:136-146 | NotifyPointerButton with any `int32_t` button and state 1 or 0 sends exactly what the EIS press or release of that button cast to `uint32_t` sends |
| Translator.NotifyAxisIsUnscaledScroll | src/portal.cpp:206-221 | NotifyPointerAxis with horizontal delta 15 * dx sends exactly what an EIS scroll of dx sends, so the notify path passes the deltas unscaled |
| Translator.NotifyKeycodeIsBareKey | src/portal.cpp:151-160 | NotifyKeyboardKeycode, for any `int32_t` key code and any `uint32_t` state, sends at most one call and never a modifiers call. With a keyboard that call is Key(time, code cast to `uint32_t`, state); without one nothing is sent. For state 1 or 0 it is the key call the EIS path sends between its two modifiers calls |
| Translator.IntendedScrollDeltaOps | src/portal.cpp:709-718 | The continuous scroll as the log lines at 709 and 715 describe it: nothing without a pointer, and every axis call carries its own axis's delta times 15 |
| Translator.IntendedScrollCarriesEachDelta | src/portal.cpp:709-718 | In the intended scroll, a vertical call of value dy * 15 is present iff dy != 0, and a horizontal call of value dx * 15 iff dx != 0 |
| Translator.ScrollDeltaVerticalCarriesDx | src/portal.cpp:716 | As written, with a pointer and dy != 0, the vertical axis call carries dx * 15. The EIS scroll equals the intended one exactly when dx == dy |
| Translator.PureVerticalScrollSendsZero | src/portal.cpp:716 | An EIS scroll of (0, 1) sends a vertical axis call of value 0, where the intended scroll sends 15 |
| Translator.DrainWith | src/portal.cpp:486-493 | No contract of its own: every queued event handled in arrival order by a given handler. Specified by DrainWithAppend |
| Translator.Drain | src/portal.cpp:486-493 | No contract of its own: the drain with the EIS event handler. Specified by DrainAppend, DrainRunsKeyEvents, DrainReportsValidModifiers and DrainFromInitialReportsZeroLatchedAndGroup |
| Translator.DrainWithAppend | src/portal.cpp:486-493 | Draining a queue in two batches equals draining it at once: the state threads through, and the calls are concatenated in order |
| Translator.DrainAppend | src/portal.cpp:486-493 | The same for the EIS event handler |
| Translator.DrainRunsKeyEvents | src/portal.cpp:486-493 | After a drain, the modifier state is the state machine run over the queue's key events when a keyboard is present, and unchanged otherwise |
| Translator.DrainReportsValidModifiers | src/portal.cpp:789-801 | From a valid state, a drain keeps the state valid. Every modifiers call reports latched 0, group 0, only lock masks in locked and only level masks in depressed |
| Translator.DrainFromInitialReportsZeroLatchedAndGroup | src/portal.h:29-32 | From the all-zero state, every modifiers call ever sent has latched = 0 and group = 0 |
| Session.Version | src/portal.cpp:236-237 | The `version` property is 2 |
| Session.CreateSession | src/portal.cpp:65-83 | Status 0, and a result dictionary holding only `session_handle`, equal to the session handle passed in |
| Session.SelectDevices | src/portal.cpp:85-99 | Status 0, with `types` = 7 as the only result |
| Session.Start | src/portal.cpp:101-116 | Status 0, with `devices` = 7 as the only result |
| Session.RepliesIgnoreArguments | src/portal.cpp:65-116 | The replies do not depend on the request handle, the application id, the parent window or the options. CreateSession's reply determines the session handle and SelectDevices/Start ignore it |
| Session.ConnectToEis | src/portal.cpp:304-332 | Every failure is `org.freedesktop.portal.Error.Failed`. A missing keyboard or pointer fails with "Virtual devices not available" before any socket is created. A failed socket pair fails with "Failed to create socket pair". Success happens iff both devices exist and the pair was created; it returns the client end and starts the EIS server on the other end |
| PortalService.Portal.Valid | src/portal.h:29-32 | No contract of its own: the object invariant, Modifiers.Valid of the four fields. The constructor establishes it, and HandleKeyboardKey, HandleEisEvent and DrainEvents preserve it (UpdateModifierState equals Step, which StepPreservesValid covers). The notify methods cannot break it, because their frames exclude the modifier fields |
| PortalService.Portal.constructor | src/portal.cpp:32 | A new portal has no input handler and all four modifier fields zero, so it satisfies the object invariant |
| PortalService.Portal.SetHandler | src/portal.cpp:46-47 | Installing the input handler sets which devices are present |
| PortalService.Portal.UpdateModifierState | src/portal.cpp:822-885 | The in-place switch over the key code leaves the four fields equal to Step of their old values |
| PortalService.Portal.HandleEisEvent | src/portal.cpp:514-820 | The new modifier fields are the translation's state, and the log of sent calls grows by exactly the translation's calls. The object invariant is kept |
| PortalService.Portal.HandleKeyboardKey | src/portal.cpp:776-801 | With a keyboard: the fields are updated first, then the modifiers, the key and the modifiers are sent. The object invariant is kept |
| PortalService.Portal.SendWheelScroll | src/portal.cpp:703-720 | The calls sent are exactly the wheel scroll |
| PortalService.Portal.NotifyPointerMotion | src/portal.cpp:121-131 | Sends exactly NotifyMotionOps |
| PortalService.Portal.NotifyPointerButton | src/portal.cpp:136-146 | Sends exactly NotifyButtonOps: the button converted to `uint32_t` and the state passed through |
| PortalService.Portal.NotifyKeyboardKeycode | src/portal.cpp:151-160 | Sends exactly NotifyKeycodeOps and leaves the modifier fields untouched |
| PortalService.Portal.NotifyKeyboardKeysym | src/portal.cpp:165-201 | Runs the scan and sends exactly KeysymOps |
| PortalService.Portal.NotifyPointerAxis | src/portal.cpp:206-221 | Sends exactly NotifyAxisOps |
| PortalService.Portal.DrainEvents | src/portal.cpp:486-493 | The loop over the queue leaves the fields and the log as the drain fold says: each event handled in order at its own time. The object invariant is kept across any number of drains |
| PortalService.DrainFromFreshPortal | src/portal.cpp:486-493 | A fresh portal that drains any queue reports latched = 0 and group = 0 in every modifiers call and ends in a valid state |

## Findings

| source | as written | input that shows it | evidently intended | confidence | as-written member | corrected member |
|---|---|---|---|---|---|---|
| src/portal.cpp:716 | The vertical axis call of a continuous EIS scroll sends `dx * scale_factor` as its value, while the log line at 715 reports `dy * scale_factor` as the vertical value | ScrollDelta(0, 1) with a pointer: the vertical axis call carries 0 | The vertical call carries dy * 15 | low, not executed; the definition of `send_axis` is not part of this model, and the notify path at src/portal.cpp:216 passes `dx` to the vertical call in the same way | Translator.ScrollDeltaVerticalCarriesDx | Translator.IntendedScrollDeltaOps |

The rest of the model, including `Translate` and `Portal.HandleEisEvent`, follows the code as written. The intended scroll is kept beside it, with its property proved by `IntendedScrollCarriesEachDelta`.

## Left out

- D-Bus plumbing is not modelled: registration of the interface, `run`, `stop`, `cleanup` and the exceptions of `init` (src/portal.cpp:46-302). Only the fixed reply values and the error of ConnectToEIS are kept. The unused session handle and options of the notify methods are dropped.
- Threads and sockets of ConnectToEIS are not modelled (src/portal.cpp:326-511). This covers the EIS server thread, the socket bridge, `select`/`read`/`write`, `fcntl`, the sleep, the temporary socket path and `unlink`. Creating the socket pair and starting the server are recorded as actions, and the descriptors are parameters.
- libeis calls are not modelled: seat, device, region and keymap creation, and the memfd write of the keymap (src/portal.cpp:539-619). Only the 1920×1080 region is kept, as a constant.
- XKB keymap compilation is not modelled (src/portal.cpp:173-178). The keymap is a total key code → keysym function with its bounds. Failure to create the context, keymap or state is `None`.
- Floating point is not modelled. Deltas are reals, so `dx * 15.0` is exact and IEEE rounding is not captured. Absolute coordinates arrive already converted to `uint32_t`, so the double-to-unsigned cast at src/portal.cpp:661 is not modelled.
- The clock and logging are not modelled. The steady-clock millisecond time is a parameter, and verbose output and `std::cout` are dropped.
- Cross-thread sharing of the modifier fields between the D-Bus thread and EIS server threads is not modelled. The model is single-threaded.
- src/main.cpp (argument parsing, signals, thread start and join) and test_remote_desktop.py (a live D-Bus smoke test) are not part of this model.
- Keysym.KeysymSendsFirstMatch: for a first match below 8, the key sent is the wrapped `k - 8 + 2^32`, as the unsigned arithmetic of the code gives. The lemma states this value but does not claim that only matches of at least 8 occur, because the keymap's minimum is not visible to the model.
- Translator.NotifyButtonMatchesEis: the equivalence is stated for states 1 and 0 only. NotifyPointerButton passes any other state through unchanged, and the EIS path has no counterpart for it.
