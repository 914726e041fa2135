/** The fidevorak keymap of the crkbd keyboard: the key-event override
    process_record_user and the layer colour chosen by layer_state_set_user.
    Process is the specification of one call of process_record_user;
    the class Interceptor holds the keymap's global state and runs the
    same call step by step against the host. */
module Keymap {
  import opened Host

  /** The layers of `enum layers`. */
  const Dvorak: nat := 0
  const Lower: nat := 1
  const Raise: nat := 2
  const Adjust: nat := 3

  /** The keycodes process_record_user tells apart. */
  datatype Keycode =
    | RMT | RMS | RMIH | RMDH | RMIS | RMDS | RMIV | RMDV  // the custom codes from SAFE_RANGE on
    | Bspc        // KC_BSPC
    | SemiColon   // LT(_DVORAK, KC_SCLN): semicolon on tap
    | CustomN     // LT(_DVORAK, KC_N): n on tap
    | Other       // every other keycode
  {
    /** The eight custom lighting keycodes. */
    predicate IsRgbKey()
    {
      RMT? || RMS? || RMIH? || RMDH? || RMIS? || RMDS? || RMIV? || RMDV?
    }

    /** The two layer-tap keys whose hold is intercepted. */
    predicate IsLayerTap()
    {
      SemiColon? || CustomN?
    }
  }

  /** The parts of the host's keyrecord_t that the override reads:
      the keycode, event.pressed and tap.count. */
  datatype KeyEvent = KeyEvent(keycode: Keycode, pressed: bool, tapCount: nat)

  /** What one call decides: pass the event through to the host (true) or
      suppress it (false), the new value of delkey_registered, and the host
      calls made, in order. */
  datatype Outcome = Outcome(passThrough: bool, delkey: bool, emitted: seq<Action>)

  /** A lighting keycode: one lighting command on press, nothing on release;
      the modifiers are left alone. */
  function RgbKey(mods: Mods, ev: KeyEvent, latch: bool, cmd: RgbCommand, passThrough: bool): (o: Outcome)
    ensures o.passThrough == passThrough && o.delkey == latch
    ensures |o.emitted| == (if ev.pressed then 1 else 0)
    ensures forall a :: a in o.emitted ==> a == RgbMatrix(cmd)
    ensures ModsAfter(mods, o.emitted) == mods
  {
    ReplayOne(ApplyMods, mods, RgbMatrix(cmd));
    Outcome(passThrough, latch, if ev.pressed then [RgbMatrix(cmd)] else [])
  }

  /** The hold of a layer-tap key: let a tap through, replace a held press
      by `hold`, let every release through. */
  function LayerTapKey(mods: Mods, ev: KeyEvent, latch: bool, hold: seq<Action>): (o: Outcome)
    ensures ModsAfter(mods, o.emitted) ==
              if ev.pressed && ev.tapCount == 0 then ModsAfter(mods, hold) else mods
  {
    if ev.tapCount != 0 && ev.pressed then Outcome(true, latch, [])
    else if ev.pressed then Outcome(false, latch, hold)
    else Outcome(true, latch, [])
  }

  /** LT(_DVORAK, KC_SCLN): a held press sends a colon; the modifiers are
      left alone. */
  function SemiColonKey(mods: Mods, ev: KeyEvent, latch: bool): (o: Outcome)
    ensures ModsAfter(mods, o.emitted) == mods
    ensures Register(Del) !in o.emitted
  {
    ReplayOne(ApplyMods, mods, Tap16(Colon));
    LayerTapKey(mods, ev, latch, [Tap16(Colon)])
  }

  /** LT(_DVORAK, KC_N): a held press sends AltGr+N, an ñ, and the release of
      AltGr at its end clears the AltGr bit, whether or not the user was
      holding AltGr before. */
  function CustomNKey(mods: Mods, ev: KeyEvent, latch: bool): (o: Outcome)
    ensures ModsAfter(mods, o.emitted) ==
              if ev.pressed && ev.tapCount == 0 then mods & !AltGrBit else mods
    ensures Register(Del) !in o.emitted
  {
    ReplayOfThree(ApplyMods, mods, Register(AltGr), Tap16(N), Unregister(AltGr));
    LayerTapKey(mods, ev, latch, [Register(AltGr), Tap16(N), Unregister(AltGr)])
  }

  /** Backspace: with shift held, a press sends Delete with the shift bits
      cleared for the duration of the register, and a release releases
      Delete if the latch says it is down. */
  function BackspaceKey(mods: Mods, latch: bool, pressed: bool): (o: Outcome)
    ensures ModsAfter(mods, o.emitted) == mods
    ensures forall i :: 0 <= i < |o.emitted| && o.emitted[i] == Register(Del) ==>
              ModsAfter(mods, o.emitted[..i]) & ShiftMask == 0
  {
    if pressed then
      if mods & ShiftMask != 0 then
        ReplayOfThree(ApplyMods, mods, DelMods(ShiftMask), Register(Del), SetMods(mods));
        ReplayOne(ApplyMods, mods, DelMods(ShiftMask));
        assert [DelMods(ShiftMask), Register(Del), SetMods(mods)][..1] == [DelMods(ShiftMask)];
        Outcome(false, true, [DelMods(ShiftMask), Register(Del), SetMods(mods)])
      else
        Outcome(true, latch, [])
    else if latch then
      Outcome(false, false, [Unregister(Del)])
    else
      Outcome(true, latch, [])
  }

  /** A press of LT(_DVORAK, KC_N) held past the tapping term: the one event
      whose hold sequence registers and unregisters AltGr. */
  predicate IsNHoldPress(ev: KeyEvent)
  {
    ev.keycode == CustomN && ev.pressed && ev.tapCount == 0
  }

  /** One call of process_record_user, with `mods` the host modifiers at entry
      (what get_mods returns) and `latch` the value of delkey_registered.
      Every call but a held press of the n key leaves the host modifiers as
      it found them; that one ends with the AltGr bit clear, whether or not
      it was set at entry. Delete is only ever registered while no shift bit
      is set, only Backspace touches the latch, and only RMDV both calls the
      host and passes the event through. */
  function Process(mods: Mods, latch: bool, ev: KeyEvent): (o: Outcome)
    ensures ModsAfter(mods, o.emitted) == if IsNHoldPress(ev) then mods & !AltGrBit else mods
    ensures forall i :: 0 <= i < |o.emitted| && o.emitted[i] == Register(Del) ==>
              ModsAfter(mods, o.emitted[..i]) & ShiftMask == 0
    ensures o.delkey != latch ==> ev.keycode == Bspc
    ensures o.passThrough && o.emitted != [] ==> ev.keycode == RMDV
  {
    match ev.keycode
    case RMT => RgbKey(mods, ev, latch, Toggle, false)
    case RMS => RgbKey(mods, ev, latch, Step, false)
    case RMIH => RgbKey(mods, ev, latch, IncreaseHue, false)
    case RMDH => RgbKey(mods, ev, latch, DecreaseHue, false)
    case RMIS => RgbKey(mods, ev, latch, IncreaseSat, false)
    case RMDS => RgbKey(mods, ev, latch, DecreaseSat, false)
    case RMIV => RgbKey(mods, ev, latch, IncreaseVal, false)
    case RMDV => RgbKey(mods, ev, latch, DecreaseVal, true)
    case Bspc => BackspaceKey(mods, latch, ev.pressed)
    case SemiColon => SemiColonKey(mods, ev, latch)
    case CustomN => CustomNKey(mods, ev, latch)
    case Other => Outcome(true, latch, [])
  }

  /** One call, seen through the keys the keymap holds down: if the report
      held Delete exactly while the latch was set, it still does afterwards,
      and the call leaves no key but Delete newly held. */
  lemma CallKeepsReport(mods: Mods, latch: bool, ev: KeyEvent, held: set<Key>)
    requires (Del in held) == latch
    ensures (Del in Report(held, Process(mods, latch, ev).emitted)) == Process(mods, latch, ev).delkey
    ensures Report(held, Process(mods, latch, ev).emitted) <= held + {Del}
  {
    var t := Process(mods, latch, ev).emitted;
    if ev.keycode == Bspc && ev.pressed && mods & ShiftMask != 0 {
      ReplayOfThree(ApplyKey, held, DelMods(ShiftMask), Register(Del), SetMods(mods));
    } else if IsNHoldPress(ev) {
      ReplayOfThree(ApplyKey, held, Register(AltGr), Tap16(N), Unregister(AltGr));
    } else if |t| == 1 {
      assert t == [t[0]];
      ReplayOne(ApplyKey, held, t[0]);
    }
  }

  /** CallKeepsReport for a whole trace from power-up: appending one call's
      host calls keeps "only Delete can be down, exactly while the latch is
      set". */
  lemma CallKeepsNoStuckKey(t: seq<Action>, mods: Mods, latch: bool, ev: KeyEvent)
    requires (Del in Report({}, t)) == latch && Report({}, t) <= {Del}
    ensures (Del in Report({}, t + Process(mods, latch, ev).emitted)) == Process(mods, latch, ev).delkey
    ensures Report({}, t + Process(mods, latch, ev).emitted) <= {Del}
  {
    ReplayAppend(ApplyKey, {}, t, Process(mods, latch, ev).emitted);
    CallKeepsReport(mods, latch, ev, Report({}, t));
  }

  /** The colour layer_state_set_user sends for the highest active layer of
      the state it is given: blue for RAISE, red for LOWER, green for DVORAK,
      violet for ADJUST, and cyan exactly for the layers without a colour of
      their own. */
  function LayerColor(highest: nat): (c: Color)
    ensures c == Color(0x00, 0xFF, 0xFF) <==> highest > Adjust
  {
    if highest == Raise then Color(0x00, 0x00, 0xFF)
    else if highest == Lower then Color(0xFF, 0x00, 0x00)
    else if highest == Dvorak then Color(0x00, 0xFF, 0x00)
    else if highest == Adjust then Color(0x7A, 0x00, 0xFF)
    else Color(0x00, 0xFF, 0xFF)
  }

  /** The keymap's global state next to the part of the host it changes:
      the host modifier byte, mod_state, the static delkey_registered of the
      Backspace case, and the calls made into the host so far. The host
      changes hostMods itself between calls, as modifier keys go up and down. */
  class Interceptor {
    var hostMods: Mods
    var modState: Mods
    var delkeyRegistered: bool
    var trace: seq<Action>

    /** The keymap never leaves a key stuck: of the keys it has pressed in
        the host's report, only Delete can still be down, and it is down
        exactly while delkeyRegistered is set. */
    ghost predicate Valid()
      reads this
    {
      (Del in Report({}, trace)) == delkeyRegistered &&
      Report({}, trace) <= {Del}
    }

    /** Power-up: the globals start zeroed and nothing has been sent. */
    constructor (mods: Mods)
      ensures hostMods == mods && modState == 0 && !delkeyRegistered && trace == []
      ensures Valid()
    {
      hostMods := mods;
      modState := 0;
      delkeyRegistered := false;
      trace := [];
    }

    /** One call into the host, as the keymap's own callbacks make it. It is
        a step of ProcessRecordUser and LayerStateSetUser, which restore
        Valid around it; on its own it promises nothing about Valid. */
    method Emit(a: Action)
      modifies this
      ensures hostMods == ApplyMods(old(hostMods), a)
      ensures trace == old(trace) + [a]
      ensures modState == old(modState) && delkeyRegistered == old(delkeyRegistered)
    {
      hostMods := ApplyMods(hostMods, a);
      trace := trace + [a];
    }

    /** process_record_user: refresh mod_state, then dispatch on the keycode.
        The result and the new state are those of Process; the host
        modifiers are back to their value at entry, except that a held
        press of the n key leaves the AltGr bit clear. */
    method ProcessRecordUser(kc: Keycode, pressed: bool, tapCount: nat) returns (passThrough: bool)
      requires Valid()
      modifies this
      ensures var o := Process(old(hostMods), old(delkeyRegistered), KeyEvent(kc, pressed, tapCount));
        passThrough == o.passThrough &&
        delkeyRegistered == o.delkey &&
        trace == old(trace) + o.emitted
      ensures modState == old(hostMods)
      ensures !IsNHoldPress(KeyEvent(kc, pressed, tapCount)) ==> hostMods == old(hostMods)
      ensures IsNHoldPress(KeyEvent(kc, pressed, tapCount)) ==> hostMods == old(hostMods) & !AltGrBit
      ensures Valid()
    {
      modState := hostMods;
      passThrough := Dispatch(kc, pressed, tapCount);
      CallKeepsNoStuckKey(old(trace), modState, old(delkeyRegistered), KeyEvent(kc, pressed, tapCount));
    }

    /** The switch of process_record_user, run once mod_state holds the host
        modifiers read at entry. */
    method Dispatch(kc: Keycode, pressed: bool, tapCount: nat) returns (passThrough: bool)
      requires modState == hostMods
      modifies this
      ensures var o := Process(old(hostMods), old(delkeyRegistered), KeyEvent(kc, pressed, tapCount));
        passThrough == o.passThrough &&
        delkeyRegistered == o.delkey &&
        trace == old(trace) + o.emitted
      ensures modState == old(modState)
      ensures !IsNHoldPress(KeyEvent(kc, pressed, tapCount)) ==> hostMods == old(hostMods)
      ensures IsNHoldPress(KeyEvent(kc, pressed, tapCount)) ==> hostMods == old(hostMods) & !AltGrBit
    {
      match kc {
        case RMT =>
          if pressed { Emit(RgbMatrix(Toggle)); }
          passThrough := false;
        case RMS =>
          if pressed { Emit(RgbMatrix(Step)); }
          passThrough := false;
        case RMIH =>
          if pressed { Emit(RgbMatrix(IncreaseHue)); }
          passThrough := false;
        case RMDH =>
          if pressed { Emit(RgbMatrix(DecreaseHue)); }
          passThrough := false;
        case RMIS =>
          if pressed { Emit(RgbMatrix(IncreaseSat)); }
          passThrough := false;
        case RMDS =>
          if pressed { Emit(RgbMatrix(DecreaseSat)); }
          passThrough := false;
        case RMIV =>
          if pressed { Emit(RgbMatrix(IncreaseVal)); }
          passThrough := false;
        case RMDV =>
          if pressed { Emit(RgbMatrix(DecreaseVal)); }
          passThrough := true;
        case Bspc =>
          passThrough := BackspaceCase(pressed);
        case SemiColon =>
          passThrough := SemiColonCase(pressed, tapCount);
        case CustomN =>
          passThrough := CustomNCase(pressed, tapCount);
        case Other =>
          passThrough := true;
      }
    }

    /** case KC_BSPC: Shift+Backspace sends Delete with the shift bits
        cleared while it is registered, then puts mod_state back; the
        release of Backspace releases Delete once if it is down. */
    method BackspaceCase(pressed: bool) returns (passThrough: bool)
      requires modState == hostMods
      modifies this
      ensures var o := BackspaceKey(old(hostMods), old(delkeyRegistered), pressed);
        passThrough == o.passThrough &&
        delkeyRegistered == o.delkey &&
        trace == old(trace) + o.emitted
      ensures modState == old(modState) && hostMods == old(hostMods)
    {
      if pressed {
        if modState & ShiftMask != 0 {
          Emit(DelMods(ShiftMask));
          Emit(Register(Del));
          delkeyRegistered := true;
          Emit(SetMods(modState));
          return false;
        }
      } else {
        if delkeyRegistered {
          Emit(Unregister(Del));
          delkeyRegistered := false;
          return false;
        }
      }
      return true;
    }

    /** case LT(_DVORAK, KC_SCLN): a held press sends a colon instead. */
    method SemiColonCase(pressed: bool, tapCount: nat) returns (passThrough: bool)
      modifies this
      ensures var o := SemiColonKey(old(hostMods), KeyEvent(SemiColon, pressed, tapCount), old(delkeyRegistered));
        passThrough == o.passThrough &&
        delkeyRegistered == o.delkey &&
        trace == old(trace) + o.emitted
      ensures modState == old(modState) && hostMods == old(hostMods)
    {
      if tapCount != 0 && pressed {
        return true;
      } else if pressed {
        Emit(Tap16(Colon));
        return false;
      }
      return true;
    }

    /** case LT(_DVORAK, KC_N): a held press sends AltGr+N instead, and
        leaves the AltGr bit clear. */
    method CustomNCase(pressed: bool, tapCount: nat) returns (passThrough: bool)
      modifies this
      ensures var o := CustomNKey(old(hostMods), KeyEvent(CustomN, pressed, tapCount), old(delkeyRegistered));
        passThrough == o.passThrough &&
        delkeyRegistered == o.delkey &&
        trace == old(trace) + o.emitted
      ensures modState == old(modState)
      ensures hostMods == if pressed && tapCount == 0 then old(hostMods) & !AltGrBit else old(hostMods)
    {
      if tapCount != 0 && pressed {
        return true;
      } else if pressed {
        Emit(Register(AltGr));
        Emit(Tap16(N));
        Emit(Unregister(AltGr));
        return false;
      }
      return true;
    }

    /** The colour choice of layer_state_set_user: one rgblight_setrgb call
        with the colour of the highest layer of the incoming state. */
    method LayerStateSetUser(highest: nat)
      requires Valid()
      modifies this
      ensures trace == old(trace) + [SetRgb(LayerColor(highest))]
      ensures hostMods == old(hostMods) && modState == old(modState)
      ensures delkeyRegistered == old(delkeyRegistered)
      ensures Valid()
    {
      Emit(SetRgb(LayerColor(highest)));
      ReplayAppend(ApplyKey, {}, old(trace), [SetRgb(LayerColor(highest))]);
      ReplayOne(ApplyKey, Report({}, old(trace)), SetRgb(LayerColor(highest)));
    }
  }
}
