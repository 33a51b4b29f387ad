/** The keymap's tap-dance keys: the pointer key, whose two callbacks keep the
    last gesture classification in a module-level record, press keys or turn
    on a layer when the gesture is recognised and release exactly that when
    the key is let go; and the table that binds each tap-dance index to its
    behaviour. How a gesture is classified from press and release timing is
    the framework's and arrives here as an input. */
module TapDance {
  import opened Qmk
  import Keymap

  /** A gesture classification, as stored in the record's `state` field.
      `Idle` is the value 0 the record starts with and `reset` restores;
      `Other` stands for every classification this keymap does not act on. */
  datatype DanceState = Idle | SingleTap | DoubleTap | SingleHold | Other

  /** What `pointer_tap_finished` requests for a classification. */
  function FinishedEffects(c: DanceState): (r: seq<Effect>)
    ensures forall e :: e in r ==> e.Register? || e.LayerOn?
  {
    match c
    case SingleTap => [Register(KC_F5)]
    case DoubleTap => [Register(KC_LCTL), Register(KC_LSFT), Register(KC_B)]
    case SingleHold => [LayerOn(Keymap.L_VISUALSTUDIO)]
    case _ => []
  }

  /** What `pointer_tap_reset` requests for the stored classification. */
  function ResetEffects(c: DanceState): (r: seq<Effect>)
    ensures forall e :: e in r ==> e.Unregister? || e.LayerOff?
  {
    match c
    case SingleTap => [Unregister(KC_F5)]
    case DoubleTap => [Unregister(KC_LCTL), Unregister(KC_LSFT), Unregister(KC_B)]
    case SingleHold => [LayerOff(Keymap.L_VISUALSTUDIO)]
    case _ => []
  }

  /** The request that undoes a press or a layer activation. */
  function Release(e: Effect): Effect
  {
    match e
    case Register(k) => Unregister(k)
    case LayerOn(l) => LayerOff(l)
    case _ => e
  }

  /** `reset` releases exactly what `finished` pressed for the same
      classification, one for one and in the same order. */
  lemma ResetReleasesFinished(c: DanceState)
    ensures |ResetEffects(c)| == |FinishedEffects(c)|
    ensures forall i :: 0 <= i < |FinishedEffects(c)| ==>
              ResetEffects(c)[i] == Release(FinishedEffects(c)[i])
  {
  }

  /** While the gesture is in effect, what it stands for is down: F5 for a
      single tap, Control, Shift and B for a double tap, the Visual Studio
      layer for a hold; any other classification changes nothing. */
  lemma FinishedPresses(c: DanceState, s: State)
    ensures var t := Run(FinishedEffects(c), s);
      match c
      case SingleTap => t == s.(held := s.held + multiset{KC_F5})
      case DoubleTap => t == s.(held := s.held + multiset{KC_LCTL, KC_LSFT, KC_B})
      case SingleHold => t == s.(layers := s.layers + {Keymap.L_VISUALSTUDIO})
      case _ => t == s
  {
    match c {
      case DoubleTap =>
        RunThree(Register(KC_LCTL), Register(KC_LSFT), Register(KC_B), s);
        assert s.held + multiset{KC_LCTL} + multiset{KC_LSFT} + multiset{KC_B}
            == s.held + multiset{KC_LCTL, KC_LSFT, KC_B};
      case SingleTap =>
        RunOne(Register(KC_F5), s);
      case SingleHold =>
        RunOne(LayerOn(Keymap.L_VISUALSTUDIO), s);
      case _ =>
    }
  }

  lemma RunOne(a: Effect, s: State)
    ensures Run([a], s) == Step(s, a)
  {
    assert [a][1..] == [];
  }

  lemma RunThree(a: Effect, b: Effect, c: Effect, s: State)
    ensures Run([a, b, c], s) == Step(Step(Step(s, a), b), c)
  {
    assert [a, b, c] == [a] + [b] + [c];
    RunAppend([a] + [b], [c], s);
    RunAppend([a], [b], s);
    RunOne(a, s);
    RunOne(b, Step(s, a));
    RunOne(c, Step(Step(s, a), b));
  }

  /** `finished` followed by `reset` leaves the host as it was, except that a
      hold turns the Visual Studio layer off even if it was already on. */
  lemma FinishedThenReset(c: DanceState, s: State)
    ensures Run(FinishedEffects(c) + ResetEffects(c), s)
         == if c == SingleHold then s.(layers := s.layers - {Keymap.L_VISUALSTUDIO}) else s
  {
    RunAppend(FinishedEffects(c), ResetEffects(c), s);
    FinishedPresses(c, s);
    var t := Run(FinishedEffects(c), s);
    match c {
      case DoubleTap =>
        RunThree(Unregister(KC_LCTL), Unregister(KC_LSFT), Unregister(KC_B), t);
        assert t.held - multiset{KC_LCTL} - multiset{KC_LSFT} - multiset{KC_B} == s.held;
      case SingleTap =>
        RunOne(Unregister(KC_F5), t);
        assert t.held - multiset{KC_F5} == s.held;
      case SingleHold =>
        RunOne(LayerOff(Keymap.L_VISUALSTUDIO), t);
      case _ =>
    }
  }

  /** Since nothing else in this keymap turns the Visual Studio layer on, a
      gesture that starts with it off is net-neutral on every classification. */
  lemma GestureNeutral(c: DanceState, s: State)
    requires Keymap.L_VISUALSTUDIO !in s.layers
    ensures Run(FinishedEffects(c) + ResetEffects(c), s) == s
  {
    FinishedThenReset(c, s);
  }

  /** The record behind `pointer_tap_state` together with the part of the
      framework its callbacks act on. `host` and `log` are ghost: they are the
      framework's, and its state is `Run` of all requests since creation. */
  class PointerTap {
    var isPressAction: bool
    var state: DanceState
    ghost var host: State
    ghost var log: seq<Effect>
    ghost const initial: State

    ghost predicate Valid()
      reads this
    {
      host == Run(log, initial)
    }

    /** The static initialiser: press action, state 0. */
    constructor (ghost h: State)
      ensures Valid()
      ensures isPressAction && state == Idle
      ensures host == h && log == [] && initial == h
    {
      isPressAction := true;
      state := Idle;
      host := h;
      log := [];
      initial := h;
    }

    /** Hands one request to the framework. */
    method Emit(e: Effect)
      requires Valid()
      modifies this`host, this`log
      ensures Valid()
      ensures log == old(log) + [e]
      ensures host == Step(old(host), e)
    {
      RunSnoc(log, e, initial);
      log := log + [e];
      host := Step(host, e);
    }

    /** `pointer_tap_finished`: store the classification the framework
        hands in, then press what it stands for. */
    method Finished(c: DanceState)
      requires Valid()
      modifies this`state, this`host, this`log
      ensures Valid()
      ensures state == c && isPressAction == old(isPressAction)
      ensures log == old(log) + FinishedEffects(c)
      ensures host == Run(FinishedEffects(c), old(host))
    {
      state := c;
      match state {
        case SingleTap =>
          Emit(Register(KC_F5));
        case DoubleTap =>
          Emit(Register(KC_LCTL));
          Emit(Register(KC_LSFT));
          Emit(Register(KC_B));
        case SingleHold =>
          Emit(LayerOn(Keymap.L_VISUALSTUDIO));
        case _ =>
      }
      RunAppend(old(log), FinishedEffects(c), initial);
    }

    /** `pointer_tap_reset`: release what the stored classification pressed,
        then go back to idle. From idle it changes nothing but the state. */
    method Reset()
      requires Valid()
      modifies this`state, this`host, this`log
      ensures Valid()
      ensures state == Idle && isPressAction == old(isPressAction)
      ensures log == old(log) + ResetEffects(old(state))
      ensures host == Run(ResetEffects(old(state)), old(host))
      ensures old(state) == Idle ==> host == old(host) && log == old(log)
    {
      match state {
        case SingleTap =>
          Emit(Unregister(KC_F5));
        case DoubleTap =>
          Emit(Unregister(KC_LCTL));
          Emit(Unregister(KC_LSFT));
          Emit(Unregister(KC_B));
        case SingleHold =>
          Emit(LayerOff(Keymap.L_VISUALSTUDIO));
        case _ =>
      }
      state := Idle;
      RunAppend(old(log), ResetEffects(old(state)), initial);
    }

    /** One whole gesture as the framework drives it: `finished` with the
        classification, later `reset`. The record ends idle and the held
        keys as they were; the active layers too, unless the gesture was a
        hold and the Visual Studio layer was already on. */
    method Gesture(c: DanceState)
      requires Valid()
      modifies this`state, this`host, this`log
      ensures Valid() && state == Idle
      ensures log == old(log) + FinishedEffects(c) + ResetEffects(c)
      ensures host.held == old(host.held)
      ensures Keymap.L_VISUALSTUDIO !in old(host.layers) ==> host == old(host)
      ensures host == if c == SingleHold
                      then old(host).(layers := old(host.layers) - {Keymap.L_VISUALSTUDIO})
                      else old(host)
    {
      Finished(c);
      Reset();
      RunAppend(FinishedEffects(c), ResetEffects(c), old(host));
      FinishedThenReset(c, old(host));
    }
  }

  /** An entry of `tap_dance_actions`. */
  datatype Action =
    | PointerAdvanced                        // FN_ADVANCED(NULL, pointer_tap_finished, pointer_tap_reset)
    | Double(tap: Keycode, double: Keycode)  // single tap sends `tap`, double tap `double`

  // Tap-dance indices (`enum tapdance_keycodes`).
  const TD_ESC: nat := 0
  const TD_POINTER: nat := 1
  const TD_LFT: nat := 2
  const TD_DWN: nat := 3
  const TD_UP: nat := 4
  const TD_RGT: nat := 5
  const TD_STEP_INTO: nat := 6

  /** `tap_dance_actions`: every index but the commented-out TD_ESC has an
      entry, and TD_POINTER is the one bound to the pointer callbacks. */
  function TapDanceActions(): (m: map<nat, Action>)
    ensures forall i :: i in m <==> TD_POINTER <= i <= TD_STEP_INTO
    ensures TD_POINTER in m && m[TD_POINTER] == PointerAdvanced
  {
    map[
      TD_POINTER := PointerAdvanced,
      TD_LFT := Double(KC_LEFT, C(KC_LEFT)),
      TD_DWN := Double(KC_DOWN, KC_HOME),
      TD_UP := Double(KC_UP, KC_END),
      TD_RGT := Double(KC_RIGHT, C(KC_RIGHT)),
      TD_STEP_INTO := Double(KC_F11, S(A(KC_F11)))
    ]
  }

  /** The table binds every index but TD_ESC, only TD_POINTER to the pointer
      callbacks, and every other entry to a pair whose double-tap keycode
      differs from its single-tap keycode, so a double tap never sends the
      single-tap key. */
  lemma ActionsTable()
    ensures var m := TapDanceActions();
      forall i :: i in m ==> (m[i].PointerAdvanced? <==> i == TD_POINTER)
    ensures var m := TapDanceActions();
      forall i :: i in m && m[i].Double? ==> m[i].tap != m[i].double
  {
  }
}
