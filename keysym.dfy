/** Resolution of an XKB keysym to a Linux key code, as NotifyKeyboardKeysym
    does it: a linear, first-match scan of the default keymap. */
module Keysym {
  import opened Base
  import opened Sink

  /** The default XKB keymap as the resolver sees it: the keysym that each
      XKB key code produces in the initial keyboard state, and the keymap's
      minimum and maximum key codes. */
  datatype Keymap = Keymap(symbolOf: u32 -> u32, minKeycode: u32, maxKeycode: u32)

  /** `k` is the first key code of the scanned range [min, max) that produces `sym`. */
  predicate IsFirstMatch(km: Keymap, sym: u32, k: u32)
  {
    km.minKeycode <= k < km.maxKeycode && km.symbolOf(k) == sym &&
    forall j: u32 | km.minKeycode <= j < k :: km.symbolOf(j) != sym
  }

  /** The first key code in [kc, max) that produces `sym`. */
  function FirstMatchFrom(km: Keymap, sym: u32, kc: u32): (r: Option<u32>)
    ensures r.Some? ==> kc <= r.value < km.maxKeycode && km.symbolOf(r.value) == sym
    ensures r.Some? ==> forall j: u32 | kc <= j < r.value :: km.symbolOf(j) != sym
    ensures r.None? <==> forall j: u32 | kc <= j < km.maxKeycode :: km.symbolOf(j) != sym
    decreases km.maxKeycode - kc
  {
    if kc >= km.maxKeycode then None
    else if km.symbolOf(kc) == sym then Some(kc)
    else FirstMatchFrom(km, sym, kc + 1)
  }

  function FirstMatch(km: Keymap, sym: u32): Option<u32>
  {
    FirstMatchFrom(km, sym, km.minKeycode)
  }

  /** The search the source writes as a `for` loop with `break`: the found
      key code, or 0 when no key code in [min, max) produces `sym`. */
  method ResolveKeycode(km: Keymap, sym: u32) returns (keycode: u32)
    ensures keycode == FoundKeycode(km, sym)
  {
    keycode := 0;
    var kc: u32 := km.minKeycode;
    while kc < km.maxKeycode
      invariant km.minKeycode <= kc
      invariant FirstMatchFrom(km, sym, kc) == FirstMatch(km, sym)
      decreases km.maxKeycode - kc
    {
      if km.symbolOf(kc) == sym {
        keycode := kc;
        break;
      }
      kc := kc + 1;
    }
  }

  /** The first match is the key code IsFirstMatch describes, and there is at most one. */
  lemma FirstMatchIsFirst(km: Keymap, sym: u32, k: u32)
    ensures FirstMatch(km, sym) == Some(k) <==> IsFirstMatch(km, sym, k)
  {
  }

  /** The scan stops before `max`: the keysym of key code `max` never
      influences the result, nor does any key code outside [min, max). */
  lemma {:induction false} FirstMatchFromIgnoresOutside(km: Keymap, other: Keymap, sym: u32, kc: u32)
    requires other.minKeycode == km.minKeycode && other.maxKeycode == km.maxKeycode
    requires forall j: u32 | kc <= j < km.maxKeycode :: other.symbolOf(j) == km.symbolOf(j)
    ensures FirstMatchFrom(other, sym, kc) == FirstMatchFrom(km, sym, kc)
    decreases km.maxKeycode - kc
  {
    if kc < km.maxKeycode && km.symbolOf(kc) != sym {
      FirstMatchFromIgnoresOutside(km, other, sym, kc + 1);
    }
  }

  lemma MaxKeycodeNeverExamined(km: Keymap, sym: u32, f: u32 -> u32)
    requires forall j: u32 | km.minKeycode <= j < km.maxKeycode :: f(j) == km.symbolOf(j)
    ensures FirstMatch(km.(symbolOf := f), sym) == FirstMatch(km, sym)
  {
    FirstMatchFromIgnoresOutside(km, km.(symbolOf := f), sym, km.minKeycode);
  }

  /** The key code found by the scan, or 0 when there is none. */
  function FoundKeycode(km: Keymap, sym: u32): u32
  {
    match FirstMatch(km, sym) case Some(k) => k case None => 0
  }

  /** What NotifyKeyboardKeysym sends. `keymap` is None when the XKB context,
      keymap or state could not be created. The `int32` keysym is compared
      with the unsigned keysyms of the keymap after conversion to `uint32`,
      and the found XKB key code is shifted down by 8 in unsigned arithmetic. */
  function KeysymOps(d: Devices, keymap: Option<Keymap>, time: u32, keysym: i32, state: u32): (ops: seq<SinkOp>)
  {
    if d.keyboard && keymap.Some? then
      var kc := FoundKeycode(keymap.value, Wrap32(keysym));
      if kc > 0 then [Key(time, Wrap32(kc - 8), state)] else []
    else []
  }

  /** When the first key code producing the keysym is k > 0, exactly one key
      call is sent, for k - 8 (wrapping below 8), with the caller's state. */
  lemma KeysymSendsFirstMatch(d: Devices, km: Keymap, time: u32, keysym: i32, state: u32, k: u32)
    requires d.keyboard
    requires IsFirstMatch(km, Wrap32(keysym), k) && k > 0
    ensures KeysymOps(d, Some(km), time, keysym, state) == [Key(time, Wrap32(k - 8), state)]
    ensures k >= 8 ==> Wrap32(k - 8) == k - 8
  {
    FirstMatchIsFirst(km, Wrap32(keysym), k);
  }

  /** When no key code in [min, max) produces the keysym, nothing is sent. */
  lemma KeysymUnresolvedSendsNothing(d: Devices, km: Keymap, time: u32, keysym: i32, state: u32)
    requires forall j: u32 | km.minKeycode <= j < km.maxKeycode :: km.symbolOf(j) != Wrap32(keysym)
    ensures KeysymOps(d, Some(km), time, keysym, state) == []
  {
  }

  /** A match at key code 0 is indistinguishable from no match: nothing is
      sent. (XKB keymaps start at key code 8, so this does not arise with
      the default keymap.) */
  lemma KeysymMatchAtZeroSendsNothing(d: Devices, km: Keymap, time: u32, keysym: i32, state: u32)
    requires IsFirstMatch(km, Wrap32(keysym), 0)
    ensures KeysymOps(d, Some(km), time, keysym, state) == []
  {
    FirstMatchIsFirst(km, Wrap32(keysym), 0);
  }

  /** Without a keyboard, or without a keymap, nothing is sent. */
  lemma KeysymNeedsKeyboardAndKeymap(d: Devices, keymap: Option<Keymap>, time: u32, keysym: i32, state: u32)
    requires !d.keyboard || keymap.None?
    ensures KeysymOps(d, keymap, time, keysym, state) == []
  {
  }
}
