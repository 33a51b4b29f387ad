# Preonic keymap "simongeilfus": custom keycodes and the pointer tap dance

This project models the logic in one keyboard keymap for the Preonic. The
keymap is written against the QMK keyboard firmware framework. It has two
pieces of logic:

- **The key-event callback `process_record_user`.** It handles five custom
  keycodes, allocated one after another from the framework's `SAFE_RANGE`.
  On a press, `M_PTR` types `->`. `VS_HEADER` sends Ctrl+K then Ctrl+O, and
  `VS_PEEK_HEADER` sends Ctrl+K then Ctrl+J. `LS_BASE` and `LS_GAME` set the
  default-layer mask to `1 << L_BASE` and `1 << L_GAME`. The callback returns
  `false` for these five, so the framework skips its own handling. For every
  other keycode it returns `true` and does nothing.
- **The tap dance on the pointer key.** A module-level record stores the
  gesture classification. It starts at 0, which means idle. The `finished`
  callback stores the classification it is given and acts on it:
  - single tap holds F5;
  - double tap holds Ctrl, Shift and B;
  - hold turns on the Visual Studio layer.

  The `reset` callback releases what `finished` pressed and sets the record
  back to idle. The `tap_dance_actions` table links each tap-dance index to
  these callbacks or to a fixed single-tap/double-tap keycode pair.

The framework's primitives are modelled as abstract effects in `qmk.dfy`:
`SendString`, `Register`, `Tap`, `Unregister`, `DefaultLayerSet`, `LayerOn`
and `LayerOff`. `Qmk.Run` says how a sequence of these effects changes an
abstract host state. That state holds the text typed, the keys tapped, the
held keys (a multiset), the default-layer mask and the active layers (a set).

- `keymap.dfy` models `process_record_user` as a total function. It maps a
  keycode and a press flag to the list of effects and the pass-through flag.
- `tapdance.dfy` models the tap-dance record as a class, `TapDance.PointerTap`.
  `Finished` and `Reset` are methods on it. The record's `state` field is a
  real field. The ghost fields `host` and `log` stand for the framework's
  state and the requests sent to it. The invariant `host == Run(log,
  initial)` ties them together.

`SAFE_RANGE` belongs to the framework and its value is not fixed here. It is
an uninterpreted constant. The model assumes only that it is at least
`0x2000`, above the basic and modded keycodes, and that five codes fit below
`0x10000`. Every property holds for any such value.

Two facts about the code shape the model:
- `default_layer_set` sets the default-layer mask. The model records that
  mask and nothing about EEPROM persistence.
- `getDanceState` may return values other than the three that
  `pointer_tap_finished` and `pointer_tap_reset` act on. `Other` stands for
  them.

## Model

| member | source | states |
|---|---|---|
| Keymap.Ordinal | keyboards/preonic/keymaps/simongeilfus/keymap.c:17-23 | Each custom keycode has a position below five in its enum. |
| Keymap.CodeOf | keyboards/preonic/keymaps/simongeilfus/keymap.c:17-23 | Custom keycodes take the five consecutive values starting at `SAFE_RANGE`. |
| Keymap.Decode | keyboards/preonic/keymaps/simongeilfus/keymap.c:206-259 | A keycode is one of the switch's custom cases exactly when it lies in `SAFE_RANGE .. SAFE_RANGE+4`, and the decoded case has that code. |
| Keymap.DecodeCodeOf | keyboards/preonic/keymaps/simongeilfus/keymap.c:17-23 | Decoding the code of a custom keycode gives that keycode back. So the five codes are distinct, and each reaches its own case. |
| Keymap.ProcessRecordUser | keyboards/preonic/keymaps/simongeilfus/keymap.c:204-261 | Returns pass-through exactly for non-custom keycodes, on press and on release. A release requests no effect, and neither does a passed-through keycode. |
| Keymap.ReleaseRequestsNothing | keyboards/preonic/keymaps/simongeilfus/keymap.c:208-248 | For every keycode, the callback's response to a release requests no effect, so that response leaves the host state unchanged. The framework's own handling of a passed-through release is outside the callback. |
| Keymap.PressEffects | keyboards/preonic/keymaps/simongeilfus/keymap.c:207-248 | The press-guarded effects of each case: never a change of the momentary layers, and every key registered is also unregistered. The exact list per case is stated by PointerGlyphTypesArrow, VsChords and SelectMasks. |
| Keymap.CtrlChord | keyboards/preonic/keymaps/simongeilfus/keymap.c:216-219 | Control down first, the keys tapped in order, Control up last (the same shape at :225-228). Its effect on the host is stated by CtrlChordRun. |
| Keymap.PointerGlyphTypesArrow | keyboards/preonic/keymaps/simongeilfus/keymap.c:207-212 | A press of `M_PTR` requests exactly `SendString("->")` and suppresses default handling. Its only effect on the host is appending `->` to the typed text. |
| Keymap.CtrlChordRun | keyboards/preonic/keymaps/simongeilfus/keymap.c:214-230 | A Control chord taps its keys in order and leaves the held keys as they were. |
| Keymap.CtrlChordTapsUnderCtrl | keyboards/preonic/keymaps/simongeilfus/keymap.c:216-219 | Control is held at every tap inside a Control chord. |
| Keymap.VsChords | keyboards/preonic/keymaps/simongeilfus/keymap.c:214-230 | `VS_HEADER` requests Register(LCTL), Tap(K), Tap(O), Unregister(LCTL) in that order. `VS_PEEK_HEADER` requests the same with J in place of O. Neither changes the held keys; each only adds its two taps. |
| Keymap.SelectDefaultLayer | keyboards/preonic/keymaps/simongeilfus/keymap.c:232-248 | `LS_BASE`/`LS_GAME` set the default mask to `1 << layer`, whatever it was before, and change nothing else. The mask has exactly one bit, that layer's, and fits in 32 bits. Pressing the key again changes nothing. |
| Keymap.SelectMasks | keyboards/preonic/keymaps/simongeilfus/keymap.c:35-37 | The two masks are 1 (`L_BASE`) and 2 (`L_GAME`). |
| Qmk.Pow2SingleBit | keyboards/preonic/keymaps/simongeilfus/keymap.c:234 | For every `n`, `1 << n` has bit `i` set exactly when `i == n`. |
| TapDance.FinishedEffects | keyboards/preonic/keymaps/simongeilfus/keymap.c:276-280 | `finished` only presses keys or turns layers on. |
| TapDance.ResetEffects | keyboards/preonic/keymaps/simongeilfus/keymap.c:285-289 | `reset` only releases keys or turns layers off. |
| TapDance.ResetReleasesFinished | keyboards/preonic/keymaps/simongeilfus/keymap.c:273-291 | For every classification, `reset` releases exactly what `finished` pressed, one for one and in the same order. |
| TapDance.FinishedPresses | keyboards/preonic/keymaps/simongeilfus/keymap.c:276-280 | Single tap adds F5 to the held keys. Double tap adds LCTL, LSFT and B. Hold adds the Visual Studio layer (5). Any other classification changes nothing. |
| TapDance.FinishedThenReset | keyboards/preonic/keymaps/simongeilfus/keymap.c:273-291 | `finished` then `reset` restores the host state exactly. The one exception: a hold leaves the Visual Studio layer off, even if it was on before. |
| TapDance.GestureNeutral | keyboards/preonic/keymaps/simongeilfus/keymap.c:273-291 | If the Visual Studio layer starts off, `finished` then `reset` is net-neutral for every classification. |
| TapDance.PointerTap.Emit | keyboards/preonic/keymaps/simongeilfus/keymap.c:277-288 | One framework call (`register_code`, `unregister_code`, `layer_on`, `layer_off`): appends the request to the log and applies it to the host. Finished and Reset are stated in terms of it. |
| TapDance.PointerTap.constructor | keyboards/preonic/keymaps/simongeilfus/keymap.c:268-271 | The record starts as a press action in the idle state (0), with nothing requested yet. |
| TapDance.PointerTap.Finished | keyboards/preonic/keymaps/simongeilfus/keymap.c:273-281 | Stores the classification it is handed. Sends exactly `FinishedEffects` of it, and the host becomes `Run` of those effects on the old host. |
| TapDance.PointerTap.Reset | keyboards/preonic/keymaps/simongeilfus/keymap.c:283-291 | Sends exactly `ResetEffects` of the stored classification, then returns to idle. From idle it changes nothing but the state. |
| TapDance.PointerTap.Gesture | keyboards/preonic/keymaps/simongeilfus/keymap.c:273-291 | `Finished(c)`, then `Reset()`, ends idle with the held keys restored. The layers are restored too, unless `c` was a hold and the Visual Studio layer was already on. |
| TapDance.TapDanceActions | keyboards/preonic/keymaps/simongeilfus/keymap.c:295-303 | The table binds exactly indices `TD_POINTER` to `TD_STEP_INTO`, with `TD_POINTER` bound to the pointer callbacks. ActionsTable states the rest. |
| TapDance.ActionsTable | keyboards/preonic/keymaps/simongeilfus/keymap.c:295-303 | Every tap-dance index except `TD_ESC` has an entry, and only `TD_POINTER` goes to the pointer callbacks. In every pair entry the double-tap keycode differs from the single-tap keycode. |

## Left out

- Layer tables (`keymaps`): compile-time layout data resolved by the framework.
- Gesture classification (`getDanceState` in `tapdance.h`) and the framework's timing-driven tap-dance engine. `tapdance.h` is not part of this model. The classification is an input to `Finished`, and `Other` stands for every value the callbacks ignore.
- Runtime behaviour of the `ACTION_TAP_DANCE_DOUBLE` entries: only the table's keycode pairs are modelled.
- Audio feedback (`PLAY_SONG` with `sound_base`/`sound_game`): floating-point tone data, compiled only with audio support.
- `keyboard_post_init_user`: one call into the framework's auto-shift feature, compiled only with that feature.
- The commented-out `KC_ENTER` case and the framework keycodes (`RESET`, `EEP_RST`, the `MU_*` and `KC_AS*` codes), which the framework handles.
- Framework primitives are abstract effects. Models of HID reports, EEPROM persistence and real key timing are not included.
- Held keys are a multiset, one copy per outstanding press. The framework's real report holds each key or modifier at most once. The "held keys restored" results of `Keymap.CtrlChordRun`, `Keymap.VsChords`, `TapDance.FinishedThenReset`, `TapDance.GestureNeutral` and `TapDance.PointerTap.Gesture` rely on this. In the real report, `VS_HEADER` pressed while the user holds Control would also drop that Control. Likewise, a double tap on the pointer key while the user holds Control (bottom-left on the base layer) or Shift (`SHESC`) would drop that modifier on `reset`. The model does not capture either case.
- The value of `SAFE_RANGE` and the basic keycode values come from the framework. The basic keycodes use their HID usage IDs; `SAFE_RANGE` is only bounded, as described above.
