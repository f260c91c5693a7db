/** The keyboard-modifier state machine of the portal: four 32-bit masks
    (depressed, latched, locked, group) driven by raw Linux key codes.

    A 32-bit mask is represented by the set of the positions of its one bits,
    so `x | m` is `x + m`, `x & ~m` is `x - m` and `x ^ m` is `Xor(x, m)`. */
module Modifiers {
  import opened Base

  type BitIndex = i: nat | i < 32

  /** A `uint32_t` bit mask, as the set of its one bits. */
  type Mask = set<BitIndex>

  function Xor(x: Mask, m: Mask): (r: Mask)
    ensures forall i :: i in r <==> (i in x) != (i in m)
  {
    (x - m) + (m - x)
  }

  // XKB modifier masks, one bit each: 1 << 0, 1 << 1, 1 << 2, 1 << 3, 1 << 4, 1 << 6.
  const MOD_SHIFT: Mask := {0}
  const MOD_CAPS: Mask := {1}
  const MOD_CTRL: Mask := {2}
  const MOD_ALT: Mask := {3}
  const MOD_NUM: Mask := {4}
  const MOD_META: Mask := {6}

  /** The masks held down by modifier keys, and the masks toggled by lock keys. */
  const LEVEL_MASKS: Mask := MOD_SHIFT + MOD_CTRL + MOD_ALT + MOD_META
  const LOCK_MASKS: Mask := MOD_CAPS + MOD_NUM

  /** The six masks, in the order of their declarations. */
  const ALL_MASKS: seq<Mask> := [MOD_SHIFT, MOD_CAPS, MOD_CTRL, MOD_ALT, MOD_NUM, MOD_META]

  /** Each mask is a single bit, and the six masks are pairwise disjoint, so
      OR, AND-NOT or XOR with one of them never alters another's bit. */
  lemma MasksAreDisjointBits()
    ensures forall i | 0 <= i < |ALL_MASKS| :: |ALL_MASKS[i]| == 1
    ensures forall i, j | 0 <= i < |ALL_MASKS| && 0 <= j < |ALL_MASKS| && i != j :: ALL_MASKS[i] * ALL_MASKS[j] == {}
    ensures LEVEL_MASKS * LOCK_MASKS == {}
  {
    var bits: seq<BitIndex> := [0, 1, 2, 3, 4, 6];
    assert forall i | 0 <= i < |ALL_MASKS| :: ALL_MASKS[i] == {bits[i]};
    forall i, j | 0 <= i < |ALL_MASKS| && 0 <= j < |ALL_MASKS| && i != j
      ensures ALL_MASKS[i] * ALL_MASKS[j] == {}
    {
      DistinctBitsDisjoint(bits[i], bits[j]);
    }
  }

  /** Two different single-bit masks share no bit. */
  lemma DistinctBitsDisjoint(b: BitIndex, c: BitIndex)
    requires b != c
    ensures {b} * {c} == {}
  {
  }

  /** The four fields the portal forwards to the virtual keyboard. */
  datatype ModState = ModState(depressed: Mask, latched: Mask, locked: Mask, group: Mask)

  /** Every field starts at zero. */
  const INITIAL: ModState := ModState({}, {}, {}, {})

  /** What a raw key code does to the modifier state. */
  datatype KeyRole =
    | Level(mask: Mask)   // held while pressed: OR on press, AND-NOT on release
    | Toggle(mask: Mask)  // lock key: XOR on press only
    | Ordinary            // no effect

  /** The key-code table of the state machine. */
  function RoleOf(keycode: u32): (r: KeyRole)
    ensures r == Level(MOD_SHIFT) <==> keycode == 42 || keycode == 54
    ensures r == Level(MOD_CTRL) <==> keycode == 29 || keycode == 97
    ensures r == Level(MOD_ALT) <==> keycode == 56 || keycode == 100
    ensures r == Level(MOD_META) <==> keycode == 125 || keycode == 126
    ensures r == Toggle(MOD_CAPS) <==> keycode == 58
    ensures r == Toggle(MOD_NUM) <==> keycode == 69
    ensures r.Level? ==> r.mask <= LEVEL_MASKS && |r.mask| == 1
    ensures r.Toggle? ==> r.mask <= LOCK_MASKS && |r.mask| == 1
  {
    if keycode == 42 || keycode == 54 then Level(MOD_SHIFT)
    else if keycode == 29 || keycode == 97 then Level(MOD_CTRL)
    else if keycode == 56 || keycode == 100 then Level(MOD_ALT)
    else if keycode == 125 || keycode == 126 then Level(MOD_META)
    else if keycode == 58 then Toggle(MOD_CAPS)
    else if keycode == 69 then Toggle(MOD_NUM)
    else Ordinary
  }

  /** One key event applied to the modifier state: a held modifier ORs its
      mask into depressed on press and AND-NOTs it out on release; a lock key
      XORs its mask into locked on press only; any other key does nothing. */
  function Step(s: ModState, keycode: u32, isPress: bool): (r: ModState)
    // latched and group are never written
    ensures r.latched == s.latched && r.group == s.group
    // a held modifier sets its bit on press, clears it on release, and touches nothing else
    ensures RoleOf(keycode).Level? ==> var m := RoleOf(keycode).mask;
      r.locked == s.locked &&
      r.depressed - m == s.depressed - m &&
      (if isPress then m <= r.depressed else r.depressed * m == {})
    // a lock key flips exactly its own bit of locked on press; a release changes nothing
    ensures RoleOf(keycode).Toggle? ==> var m := RoleOf(keycode).mask;
      r.depressed == s.depressed &&
      r.locked - m == s.locked - m &&
      (isPress ==> forall i | i in m :: i in r.locked <==> i !in s.locked) &&
      (!isPress ==> r == s)
    // every other key code is a no-op
    ensures RoleOf(keycode).Ordinary? ==> r == s
  {
    match RoleOf(keycode)
    case Level(m) =>
      if isPress then s.(depressed := s.depressed + m) else s.(depressed := s.depressed - m)
    case Toggle(m) =>
      if isPress then s.(locked := Xor(s.locked, m)) else s
    case Ordinary => s
  }

  /** The state invariant: latched and group stay zero, only lock masks enter
      locked, only held-modifier masks enter depressed. */
  predicate Valid(s: ModState)
  {
    s.latched == {} && s.group == {} &&
    s.locked <= LOCK_MASKS &&
    s.depressed <= LEVEL_MASKS
  }

  lemma InitialIsValid()
    ensures Valid(INITIAL)
  {
  }

  lemma StepPreservesValid(s: ModState, keycode: u32, isPress: bool)
    requires Valid(s)
    ensures Valid(Step(s, keycode, isPress))
  {
  }

  /** One raw key event. */
  datatype KeyEvent = KeyEvent(keycode: u32, isPress: bool)

  /** A sequence of key events applied in order. */
  function Run(s: ModState, ks: seq<KeyEvent>): ModState
    decreases |ks|
  {
    if ks == [] then s else Run(Step(s, ks[0].keycode, ks[0].isPress), ks[1..])
  }

  lemma {:induction false} RunAppend(s: ModState, a: seq<KeyEvent>, b: seq<KeyEvent>)
    ensures Run(s, a + b) == Run(Run(s, a), b)
    decreases |a|
  {
    if a == [] {
      assert a + b == b;
    } else {
      assert (a + b)[1..] == a[1..] + b;
      RunAppend(Step(s, a[0].keycode, a[0].isPress), a[1..], b);
    }
  }

  lemma RunSingle(s: ModState, k: KeyEvent)
    ensures Run(s, [k]) == Step(s, k.keycode, k.isPress)
  {
    assert [k][1..] == [];
  }

  /** The invariant holds after any sequence of key events. */
  lemma {:induction false} RunPreservesValid(s: ModState, ks: seq<KeyEvent>)
    requires Valid(s)
    ensures Valid(Run(s, ks))
    decreases |ks|
  {
    if ks != [] {
      StepPreservesValid(s, ks[0].keycode, ks[0].isPress);
      RunPreservesValid(Step(s, ks[0].keycode, ks[0].isPress), ks[1..]);
    }
  }

  /** From the initial state, latched and group are zero forever, and only
      the modifier masks ever appear in depressed and locked. */
  lemma ReachableIsValid(ks: seq<KeyEvent>)
    ensures Valid(Run(INITIAL, ks))
    ensures Run(INITIAL, ks).latched == {} && Run(INITIAL, ks).group == {}
  {
    InitialIsValid();
    RunPreservesValid(INITIAL, ks);
  }

  /** Pressing then releasing a held modifier leaves its bit clear and every
      other field and bit as it was. */
  lemma PressReleaseClearsBit(s: ModState, keycode: u32)
    requires RoleOf(keycode).Level?
    ensures Step(Step(s, keycode, true), keycode, false)
         == s.(depressed := s.depressed - RoleOf(keycode).mask)
  {
  }

  /** Two presses of a lock key restore the state, with or without a release
      in between. */
  lemma TogglePairRestores(s: ModState, keycode: u32)
    requires RoleOf(keycode).Toggle?
    ensures Run(s, [KeyEvent(keycode, true), KeyEvent(keycode, true)]) == s
    ensures Run(s, [KeyEvent(keycode, true), KeyEvent(keycode, false), KeyEvent(keycode, true)]) == s
  {
    var p, r := KeyEvent(keycode, true), KeyEvent(keycode, false);
    var s1 := Step(s, keycode, true);
    assert [p, p] == [p] + [p];
    RunAppend(s, [p], [p]);
    RunSingle(s, p);
    RunSingle(s1, p);
    assert Step(s1, keycode, true) == s;
    assert [p, r, p] == [p] + [r] + [p];
    RunAppend(s, [p] + [r], [p]);
    RunAppend(s, [p], [r]);
    RunSingle(s1, r);
  }

  function Presses(keycode: u32, n: nat): (r: seq<KeyEvent>)
  {
    seq(n, _ => KeyEvent(keycode, true))
  }

  /** n presses of a lock key flip its bit n times: locked changes exactly
      when n is odd, and nothing else changes. */
  lemma {:induction false} TogglePressParity(s: ModState, keycode: u32, n: nat)
    requires RoleOf(keycode).Toggle?
    ensures Run(s, Presses(keycode, n))
         == s.(locked := if n % 2 == 0 then s.locked else Xor(s.locked, RoleOf(keycode).mask))
    decreases n
  {
    if n == 0 {
      assert Presses(keycode, 0) == [];
    } else {
      var m := RoleOf(keycode).mask;
      assert Presses(keycode, n) == Presses(keycode, n - 1) + [KeyEvent(keycode, true)];
      RunAppend(s, Presses(keycode, n - 1), [KeyEvent(keycode, true)]);
      TogglePressParity(s, keycode, n - 1);
      RunSingle(Run(s, Presses(keycode, n - 1)), KeyEvent(keycode, true));
      assert Xor(Xor(s.locked, m), m) == s.locked;
    }
  }

  /** Press each of the given modifiers, then release them in reverse order. */
  function Nested(keys: seq<u32>): (r: seq<KeyEvent>)
    decreases |keys|
  {
    if keys == [] then []
    else [KeyEvent(keys[0], true)] + Nested(keys[1..]) + [KeyEvent(keys[0], false)]
  }

  /** Union of the masks of the given held modifiers. */
  function NestedMask(keys: seq<u32>): Mask
    requires forall i | 0 <= i < |keys| :: RoleOf(keys[i]).Level?
    decreases |keys|
  {
    if keys == [] then {} else NestedMask(keys[1..]) + RoleOf(keys[0]).mask
  }

  /** A nested press/release sequence of held modifiers clears exactly their
      bits from depressed and changes nothing else. */
  lemma {:induction false} NestedClearsMasks(s: ModState, keys: seq<u32>)
    requires forall i | 0 <= i < |keys| :: RoleOf(keys[i]).Level?
    ensures Run(s, Nested(keys)) == s.(depressed := s.depressed - NestedMask(keys))
    decreases |keys|
  {
    if keys == [] {
      assert s.depressed - {} == s.depressed;
    } else {
      var k, rest := keys[0], keys[1..];
      var m := RoleOf(k).mask;
      var p, r := KeyEvent(k, true), KeyEvent(k, false);
      var inner := Nested(rest);
      assert Nested(keys) == ([p] + inner) + [r];
      RunAppend(s, [p] + inner, [r]);
      RunAppend(s, [p], inner);
      RunSingle(s, p);
      var s1 := Step(s, k, true);
      assert forall i | 0 <= i < |rest| :: RoleOf(rest[i]).Level? by {
        forall i | 0 <= i < |rest| ensures RoleOf(rest[i]).Level? {
          assert rest[i] == keys[i + 1];
        }
      }
      NestedClearsMasks(s1, rest);
      var s2 := s1.(depressed := s1.depressed - NestedMask(rest));
      assert Run(s, Nested(keys)) == Run(s2, [r]);
      RunSingle(s2, r);
      MaskAlgebra(s.depressed, m, NestedMask(rest));
    }
  }

  lemma MaskAlgebra(d: Mask, m: Mask, n: Mask)
    ensures (d + m) - n - m == d - (n + m)
  {
  }

  /** So when none of those modifiers was held before, the state returns to
      what it was (for example press Shift, press Ctrl, release Ctrl, release Shift). */
  lemma NestedPairsRestore(s: ModState, keys: seq<u32>)
    requires forall i | 0 <= i < |keys| :: RoleOf(keys[i]).Level?
    requires s.depressed * NestedMask(keys) == {}
    ensures Run(s, Nested(keys)) == s
  {
    NestedClearsMasks(s, keys);
    assert s.depressed - NestedMask(keys) == s.depressed;
  }
}
