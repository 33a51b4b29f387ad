/** The keymap's custom keycodes and its key-event callback
    `process_record_user`, which the framework calls once per key event: for
    the five custom keycodes it requests a fixed list of effects on a press
    and tells the framework to skip its own handling; every other keycode is
    passed through untouched. */
module Keymap {
  import opened Qmk

  datatype Option<T> = None | Some(value: T)

  /** The framework's first keycode free for keymaps. Its value is the
      framework's and is not fixed here: the model only relies on it lying
      above the basic and modded keycodes and leaving room for five codes. */
  type SafeRange = x: Keycode | 0x2000 <= x <= 0xFFFF - 4 witness 0x2000

  const SAFE_RANGE: SafeRange

  /** The custom keycodes, allocated consecutively from SAFE_RANGE. */
  datatype CustomKeycode =
    | PointerGlyph      // M_PTR: types "->"
    | VsHeader          // VS_HEADER: Ctrl+K, Ctrl+O (switch header/code)
    | VsPeekHeader      // VS_PEEK_HEADER: Ctrl+K, Ctrl+J (peek header)
    | SelectBase        // LS_BASE: default layer L_BASE
    | SelectGame        // LS_GAME: default layer L_GAME

  /** Position of a custom keycode in its enum. */
  function Ordinal(c: CustomKeycode): (r: nat)
    ensures r < 5
  {
    match c
    case PointerGlyph => 0
    case VsHeader => 1
    case VsPeekHeader => 2
    case SelectBase => 3
    case SelectGame => 4
  }

  /** The numeric keycode of a custom keycode. */
  function CodeOf(c: CustomKeycode): (r: Keycode)
    ensures SAFE_RANGE <= r <= SAFE_RANGE + 4
  {
    SAFE_RANGE + Ordinal(c) as Keycode
  }

  /** Which custom keycode, if any, a numeric keycode is: the cases of the
      callback's switch. */
  function Decode(k: Keycode): (r: Option<CustomKeycode>)
    ensures r.Some? <==> SAFE_RANGE <= k <= SAFE_RANGE + 4
    ensures r.Some? ==> CodeOf(r.value) == k
  {
    if k == SAFE_RANGE then Some(PointerGlyph)
    else if k == SAFE_RANGE + 1 then Some(VsHeader)
    else if k == SAFE_RANGE + 2 then Some(VsPeekHeader)
    else if k == SAFE_RANGE + 3 then Some(SelectBase)
    else if k == SAFE_RANGE + 4 then Some(SelectGame)
    else None
  }

  /** Decoding the code of a custom keycode gives it back, so the five codes
      are distinct. */
  lemma DecodeCodeOf(c: CustomKeycode)
    ensures Decode(CodeOf(c)) == Some(c)
  {
  }

  /** Layer indices of the keymap (`enum layer_names`). */
  const L_BASE: Layer := 0
  const L_GAME: Layer := 1
  const L_LOWER: Layer := 2
  const L_RAISE: Layer := 3
  const L_ADJUST: Layer := 4
  const L_VISUALSTUDIO: Layer := 5

  /** Hold Control, tap the keys in order, release Control. */
  function CtrlChord(keys: seq<Keycode>): (r: seq<Effect>)
    ensures |r| == |keys| + 2
    ensures r[0] == Register(KC_LCTL) && r[|r| - 1] == Unregister(KC_LCTL)
    ensures forall j :: 0 <= j < |keys| ==> r[j + 1] == Tap(keys[j])
  {
    [Register(KC_LCTL)] + TapAll(keys) + [Unregister(KC_LCTL)]
  }

  /** One tap per key, in order. */
  function TapAll(keys: seq<Keycode>): (r: seq<Effect>)
    ensures |r| == |keys|
    ensures forall j :: 0 <= j < |keys| ==> r[j] == Tap(keys[j])
  {
    if keys == [] then [] else [Tap(keys[0])] + TapAll(keys[1..])
  }

  /** The effects a custom keycode requests when pressed: never a change
      of the momentarily active layers, and every key it presses it also
      releases. */
  function PressEffects(c: CustomKeycode): (r: seq<Effect>)
    ensures r != []
    ensures forall e :: e in r ==> !e.LayerOn? && !e.LayerOff?
    ensures forall e :: e in r && e.Register? ==> Unregister(e.key) in r
  {
    match c
    case PointerGlyph => [SendString("->")]
    case VsHeader => CtrlChord([KC_K, KC_O])
    case VsPeekHeader => CtrlChord([KC_K, KC_J])
    case SelectBase => [DefaultLayerSet(Pow2(L_BASE))]
    case SelectGame => [DefaultLayerSet(Pow2(L_GAME))]
  }

  /** What the callback does with one key event: the effects it requests, in
      order, and whether the framework should go on handling the key. */
  datatype Outcome = Outcome(effects: seq<Effect>, passThrough: bool)

  /** `process_record_user`: the framework's handling continues exactly for
      the keycodes that are not custom; nothing is requested on a release, nor
      for a keycode that is passed through. */
  function ProcessRecordUser(keycode: Keycode, pressed: bool): (r: Outcome)
    ensures r.passThrough <==> Decode(keycode).None?
    ensures r.passThrough <==> !(SAFE_RANGE <= keycode <= SAFE_RANGE + 4)
    ensures !pressed ==> r.effects == []
    ensures r.passThrough ==> r.effects == []
  {
    match Decode(keycode)
    case None => Outcome([], true)
    case Some(c) => Outcome(if pressed then PressEffects(c) else [], false)
  }

  /** On a release the callback requests nothing, for every keycode, so its
      own response leaves the host state as it was. (For a keycode it passes
      through, the framework's own handling of the release is not part of
      this callback.) */
  lemma ReleaseRequestsNothing(keycode: Keycode, s: State)
    ensures ProcessRecordUser(keycode, false).effects == []
    ensures Run(ProcessRecordUser(keycode, false).effects, s) == s
  {
  }

  /** Pressing the pointer-glyph key types exactly "->" and changes nothing
      else; the framework does not also send the key. */
  lemma PointerGlyphTypesArrow(s: State)
    ensures ProcessRecordUser(CodeOf(PointerGlyph), true)
         == Outcome([SendString("->")], false)
    ensures Run(ProcessRecordUser(CodeOf(PointerGlyph), true).effects, s)
         == s.(typed := s.typed + "->")
  {
    DecodeCodeOf(PointerGlyph);
  }

  /** The state after a Control chord over `keys`: the keys are tapped in
      order and the held keys end as they began. */
  lemma {:induction false} CtrlChordRun(keys: seq<Keycode>, s: State)
    ensures Run(CtrlChord(keys), s) == s.(tapped := s.tapped + keys)
  {
    var s1 := Step(s, Register(KC_LCTL));
    RunAppend([Register(KC_LCTL)] + TapAll(keys), [Unregister(KC_LCTL)], s);
    RunAppend([Register(KC_LCTL)], TapAll(keys), s);
    TapAllRun(keys, s1);
    assert s1.held - multiset{KC_LCTL} == s.held;
  }

  /** Tapping keys only appends them to the tapped keys. */
  lemma {:induction false} TapAllRun(keys: seq<Keycode>, s: State)
    ensures Run(TapAll(keys), s) == s.(tapped := s.tapped + keys)
    decreases |keys|
  {
    if keys != [] {
      TapAllRun(keys[1..], Step(s, Tap(keys[0])));
      assert s.tapped + [keys[0]] + keys[1..] == s.tapped + keys;
    }
  }

  /** Every tap of a Control chord happens while Control is held. */
  lemma CtrlChordTapsUnderCtrl(keys: seq<Keycode>, s: State, i: nat)
    requires i < |CtrlChord(keys)| && CtrlChord(keys)[i].Tap?
    ensures KC_LCTL in Run(CtrlChord(keys)[..i], s).held
  {
    var t := CtrlChord(keys);
    assert 0 < i <= |keys|;
    assert t[..i] == [Register(KC_LCTL)] + TapAll(keys)[..i - 1];
    RunAppend([Register(KC_LCTL)], TapAll(keys)[..i - 1], s);
    TapAllPrefix(keys, i - 1);
    TapAllRun(keys[..i - 1], Step(s, Register(KC_LCTL)));
  }

  /** The taps of a prefix of the keys are the prefix of the taps. */
  lemma TapAllPrefix(keys: seq<Keycode>, n: nat)
    requires n <= |keys|
    ensures TapAll(keys)[..n] == TapAll(keys[..n])
  {
  }

  /** On a press, VS_HEADER requests Ctrl down, tap K, tap O, Ctrl up, in
      that order, and VS_PEEK_HEADER the same with J for O; both leave the
      held keys as they were and add nothing but the two taps. */
  lemma VsChords(s: State)
    ensures ProcessRecordUser(CodeOf(VsHeader), true).effects
         == [Register(KC_LCTL), Tap(KC_K), Tap(KC_O), Unregister(KC_LCTL)]
    ensures ProcessRecordUser(CodeOf(VsPeekHeader), true).effects
         == [Register(KC_LCTL), Tap(KC_K), Tap(KC_J), Unregister(KC_LCTL)]
    ensures Run(ProcessRecordUser(CodeOf(VsHeader), true).effects, s)
         == s.(tapped := s.tapped + [KC_K, KC_O])
    ensures Run(ProcessRecordUser(CodeOf(VsPeekHeader), true).effects, s)
         == s.(tapped := s.tapped + [KC_K, KC_J])
  {
    DecodeCodeOf(VsHeader);
    DecodeCodeOf(VsPeekHeader);
    CtrlChordRun([KC_K, KC_O], s);
    CtrlChordRun([KC_K, KC_J], s);
  }

  /** The default layer a layer-select keycode picks. */
  function TargetLayer(c: CustomKeycode): Layer
    requires c == SelectBase || c == SelectGame
  {
    if c == SelectBase then L_BASE else L_GAME
  }

  /** Pressing LS_BASE or LS_GAME makes the default layer mask `1 << layer`
      for its layer, whatever it was before: a mask with exactly that one
      layer's bit set, inside the 32-bit layer state. Nothing else changes,
      and pressing the same key again leaves the same state. */
  lemma SelectDefaultLayer(c: CustomKeycode, s: State)
    requires c == SelectBase || c == SelectGame
    ensures Run(ProcessRecordUser(CodeOf(c), true).effects, s)
         == s.(defaultLayers := Pow2(TargetLayer(c)))
    ensures forall l: nat :: Bit(Pow2(TargetLayer(c)), l) <==> l == TargetLayer(c)
    ensures Pow2(TargetLayer(c)) < Pow2(32)
    ensures var t := ProcessRecordUser(CodeOf(c), true).effects;
            Run(t, Run(t, s)) == Run(t, s)
  {
    DecodeCodeOf(c);
    forall l: nat ensures Bit(Pow2(TargetLayer(c)), l) <==> l == TargetLayer(c) {
      Pow2SingleBit(TargetLayer(c), l);
    }
    Pow2Monotone(TargetLayer(c), 32);
  }

  /** LS_BASE selects mask 1 and LS_GAME mask 2. */
  lemma SelectMasks()
    ensures PressEffects(SelectBase) == [DefaultLayerSet(1)]
    ensures PressEffects(SelectGame) == [DefaultLayerSet(2)]
  {
  }
}
