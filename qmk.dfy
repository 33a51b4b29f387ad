/** The part of the keyboard firmware framework that the keymap's handlers
    touch, reduced to values: keycodes, the effects a handler can request
    (send a string, press, tap or release a key, set the default layer,
    turn a layer on or off) and an abstract host state those effects act on.
    Nothing here models HID reports, timing or EEPROM persistence. */
module Qmk {

  /** Keycodes are 16-bit unsigned values (`uint16_t` in the framework). */
  newtype uint16 = x: int | 0 <= x < 0x1_0000

  type Keycode = uint16

  /** A layer index; the framework's layer state is a 32-bit mask. */
  type Layer = l: nat | l < 32

  // Basic keycodes used by this keymap (HID keyboard usage IDs).
  const KC_B: Keycode := 0x05
  const KC_J: Keycode := 0x0D
  const KC_K: Keycode := 0x0E
  const KC_O: Keycode := 0x12
  const KC_F5: Keycode := 0x3E
  const KC_F11: Keycode := 0x44
  const KC_HOME: Keycode := 0x4A
  const KC_END: Keycode := 0x4D
  const KC_RIGHT: Keycode := 0x4F
  const KC_LEFT: Keycode := 0x50
  const KC_DOWN: Keycode := 0x51
  const KC_UP: Keycode := 0x52
  const KC_LCTL: Keycode := 0xE0
  const KC_LSFT: Keycode := 0xE1

  // Modifier bits of a "modded" keycode, as used by C(), S() and A().
  const QK_LCTL: bv16 := 0x0100
  const QK_LSFT: bv16 := 0x0200
  const QK_LALT: bv16 := 0x0400

  /** The keycode `k` with the modifier bits `mods` added (bitwise or). */
  function WithMods(mods: bv16, k: Keycode): Keycode
  {
    ((k as bv16) | mods) as int as Keycode
  }

  /** `C(kc)`: `kc` with left Control. */
  function C(k: Keycode): Keycode { WithMods(QK_LCTL, k) }

  /** `S(kc)`: `kc` with left Shift. */
  function S(k: Keycode): Keycode { WithMods(QK_LSFT, k) }

  /** `A(kc)`: `kc` with left Alt. */
  function A(k: Keycode): Keycode { WithMods(QK_LALT, k) }

  /** One request a handler makes of the framework, in call order. */
  datatype Effect =
    | SendString(text: string)          // SEND_STRING
    | Register(key: Keycode)            // register_code: press and hold
    | Tap(key: Keycode)                 // tap_code: press and release
    | Unregister(key: Keycode)          // unregister_code: release
    | DefaultLayerSet(mask: nat)        // default_layer_set
    | LayerOn(layer: Layer)             // layer_on
    | LayerOff(layer: Layer)            // layer_off

  /** What the effects act on: the text typed so far, the keys tapped so far,
      the keys currently held (one copy per outstanding press), the default
      layer mask and the set of momentarily active layers. */
  datatype State = State(
    typed: string,
    tapped: seq<Keycode>,
    held: multiset<Keycode>,
    defaultLayers: nat,
    layers: set<Layer>)

  /** The effect of a single request on the host state. */
  function Step(s: State, e: Effect): State
  {
    match e
    case SendString(t) => s.(typed := s.typed + t)
    case Register(k) => s.(held := s.held + multiset{k})
    case Tap(k) => s.(tapped := s.tapped + [k])
    case Unregister(k) => s.(held := s.held - multiset{k})
    case DefaultLayerSet(m) => s.(defaultLayers := m)
    case LayerOn(l) => s.(layers := s.layers + {l})
    case LayerOff(l) => s.(layers := s.layers - {l})
  }

  /** The host state after the requests of `trace`, first to last. */
  function Run(trace: seq<Effect>, s: State): State
    decreases |trace|
  {
    if trace == [] then s else Run(trace[1..], Step(s, trace[0]))
  }

  /** Running two traces one after the other is running their concatenation. */
  lemma {:induction false} RunAppend(a: seq<Effect>, b: seq<Effect>, s: State)
    ensures Run(a + b, s) == Run(b, Run(a, s))
    decreases |a|
  {
    if a == [] {
      assert a + b == b;
    } else {
      assert (a + b)[0] == a[0];
      assert (a + b)[1..] == a[1..] + b;
      RunAppend(a[1..], b, Step(s, a[0]));
    }
  }

  /** Running a trace one more request at a time. */
  lemma RunSnoc(a: seq<Effect>, e: Effect, s: State)
    ensures Run(a + [e], s) == Step(Run(a, s), e)
  {
    RunAppend(a, [e], s);
  }

  /** `1 << n` as an unbounded number. */
  function Pow2(n: nat): (r: nat)
    ensures r >= 1
  {
    if n == 0 then 1 else 2 * Pow2(n - 1)
  }

  /** Bit `i` of the mask `m`: in a layer mask, whether layer `i` is on. */
  predicate Bit(m: nat, i: nat)
  {
    if i == 0 then m % 2 == 1 else Bit(m / 2, i - 1)
  }

  /** The mask with no layer has no bit set. */
  lemma {:induction false} NoBitOfZero(i: nat)
    ensures !Bit(0, i)
  {
    if i > 0 {
      NoBitOfZero(i - 1);
    }
  }

  /** `1 << n` has exactly one bit set, namely bit `n`. */
  lemma {:induction false} Pow2SingleBit(n: nat, i: nat)
    ensures Bit(Pow2(n), i) <==> i == n
  {
    if i == 0 {
      if n > 0 {
        assert Pow2(n) == 2 * Pow2(n - 1);
      }
    } else if n == 0 {
      assert Pow2(0) / 2 == 0;
      NoBitOfZero(i - 1);
    } else {
      assert Pow2(n) / 2 == Pow2(n - 1);
      Pow2SingleBit(n - 1, i - 1);
    }
  }

  /** A higher bit gives a larger mask; with `n == 32` this says a layer's
      mask fits in the framework's 32-bit layer state. */
  lemma {:induction false} Pow2Monotone(m: nat, n: nat)
    requires m < n
    ensures Pow2(m) < Pow2(n)
    decreases n
  {
    if m < n - 1 {
      Pow2Monotone(m, n - 1);
    }
  }
}
