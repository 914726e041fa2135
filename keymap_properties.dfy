/** What process_record_user does, case by case, and what a whole sequence
    of calls does to the keys the keymap holds down in the host's report. */
module KeymapProperties {
  import opened Host
  import opened Keymap

  /** The lighting command each custom keycode is bound to. */
  function RgbCommandOf(kc: Keycode): RgbCommand
    requires kc.IsRgbKey()
  {
    match kc
    case RMT => Toggle
    case RMS => Step
    case RMIH => IncreaseHue
    case RMDH => DecreaseHue
    case RMIS => IncreaseSat
    case RMDS => DecreaseSat
    case RMIV => IncreaseVal
    case RMDV => DecreaseVal
  }

  /** The sequence a held layer-tap key sends instead of its layer:
      a colon for the semicolon key, AltGr+N (an ñ) for the n key. */
  function HoldSequence(kc: Keycode): seq<Action>
    requires kc.IsLayerTap()
  {
    if kc == SemiColon then [Tap16(Colon)]
    else [Register(AltGr), Tap16(N), Unregister(AltGr)]
  }

  /** A lighting keycode calls its one lighting command on press and
      nothing on release, and leaves the latch alone; all but RMDV suppress
      the event, RMDV passes it through on press and release alike. */
  lemma RgbKeys(mods: Mods, latch: bool, ev: KeyEvent)
    requires ev.keycode.IsRgbKey()
    ensures Process(mods, latch, ev).emitted ==
              (if ev.pressed then [RgbMatrix(RgbCommandOf(ev.keycode))] else [])
    ensures Process(mods, latch, ev).passThrough <==> ev.keycode == RMDV
    ensures Process(mods, latch, ev).delkey == latch
  {
  }

  /** Shift+Backspace: clear the shift bits, press Delete, set the latch,
      put the modifiers back as they were at entry, and suppress. */
  lemma ShiftBackspacePress(mods: Mods, latch: bool, ev: KeyEvent)
    requires ev.keycode == Bspc && ev.pressed && mods & ShiftMask != 0
    ensures Process(mods, latch, ev).emitted == [DelMods(ShiftMask), Register(Del), SetMods(mods)]
    ensures Process(mods, latch, ev).delkey
    ensures !Process(mods, latch, ev).passThrough
  {
  }

  /** A held press of the n key while the user holds AltGr (KC_RALT is on
      the base layer) sends its ñ and then clears the AltGr bit the user is
      still holding. */
  lemma NHoldDropsHeldAltGr(mods: Mods, latch: bool)
    requires mods & AltGrBit != 0
    ensures ModsAfter(mods, Process(mods, latch, KeyEvent(CustomN, true, 0)).emitted) == mods & !AltGrBit
    ensures ModsAfter(mods, Process(mods, latch, KeyEvent(CustomN, true, 0)).emitted) != mods
  {
  }

  /** Backspace without shift goes to the host untouched. */
  lemma PlainBackspacePress(mods: Mods, latch: bool, ev: KeyEvent)
    requires ev.keycode == Bspc && ev.pressed && mods & ShiftMask == 0
    ensures Process(mods, latch, ev) == Outcome(true, latch, [])
  {
  }

  /** Releasing Backspace releases Delete exactly when the latch says it is
      down, clears the latch, and suppresses exactly in that case. */
  lemma BackspaceRelease(mods: Mods, latch: bool, ev: KeyEvent)
    requires ev.keycode == Bspc && !ev.pressed
    ensures Process(mods, latch, ev).emitted == (if latch then [Unregister(Del)] else [])
    ensures !Process(mods, latch, ev).delkey
    ensures Process(mods, latch, ev).passThrough <==> !latch
  {
  }

  /** A layer-tap key is suppressed exactly on a held press (tap count
      zero), where it sends its hold sequence; a tapped press and every
      release go to the host with nothing sent. */
  lemma LayerTapKeys(mods: Mods, latch: bool, ev: KeyEvent)
    requires ev.keycode.IsLayerTap()
    ensures !Process(mods, latch, ev).passThrough <==> ev.pressed && ev.tapCount == 0
    ensures Process(mods, latch, ev).emitted ==
              (if ev.pressed && ev.tapCount == 0 then HoldSequence(ev.keycode) else [])
    ensures Process(mods, latch, ev).delkey == latch
  {
  }

  /** Every other keycode goes to the host untouched. */
  lemma OtherKeys(mods: Mods, latch: bool, ev: KeyEvent)
    requires ev.keycode == Other
    ensures Process(mods, latch, ev) == Outcome(true, latch, [])
  {
  }

  /** The colours of the four layers and of every other layer. */
  lemma LayerColors(highest: nat)
    ensures LayerColor(Raise) == Color(0x00, 0x00, 0xFF)
    ensures LayerColor(Lower) == Color(0xFF, 0x00, 0x00)
    ensures LayerColor(Dvorak) == Color(0x00, 0xFF, 0x00)
    ensures LayerColor(Adjust) == Color(0x7A, 0x00, 0xFF)
    ensures highest > Adjust ==> LayerColor(highest) == Color(0x00, 0xFF, 0xFF)
  {
  }

  /** Each of the four layers has a colour of its own. */
  lemma LayerColorIdentifiesLayer(l1: nat, l2: nat)
    requires l1 <= Adjust
    ensures LayerColor(l1) == LayerColor(l2) <==> l1 == l2
  {
  }

  /** One call of process_record_user as the host makes it: the modifiers
      get_mods returns at that moment, and the event. */
  datatype Call = Call(mods: Mods, ev: KeyEvent)

  /** The latch after a sequence of calls and the host calls they made. */
  datatype RunResult = RunResult(latch: bool, trace: seq<Action>)

  /** The calls `calls`, one after the other, from latch `latch`. */
  function Run(latch: bool, calls: seq<Call>): RunResult
    decreases |calls|
  {
    if calls == [] then RunResult(latch, [])
    else
      var r := Run(latch, calls[..|calls| - 1]);
      var c := calls[|calls| - 1];
      var o := Process(c.mods, r.latch, c.ev);
      RunResult(o.delkey, r.trace + o.emitted)
  }

  /** No stuck key, over any sequence of events: if Delete was down exactly
      while the latch was set, that stays so, and the keymap never leaves any
      other key down that was not down before. In particular AltGr, the
      colon and the n it sends are always released again. */
  lemma {:induction false} RunKeepsReport(latch: bool, calls: seq<Call>, held: set<Key>)
    requires (Del in held) == latch
    ensures (Del in Report(held, Run(latch, calls).trace)) == Run(latch, calls).latch
    ensures Report(held, Run(latch, calls).trace) <= held + {Del}
    decreases |calls|
  {
    if calls != [] {
      var prefix := calls[..|calls| - 1];
      var r := Run(latch, prefix);
      var c := calls[|calls| - 1];
      var o := Process(c.mods, r.latch, c.ev);
      RunKeepsReport(latch, prefix, held);
      var mid := Report(held, r.trace);
      ReplayAppend(ApplyKey, held, r.trace, o.emitted);
      CallKeepsReport(c.mods, r.latch, c.ev, mid);
    }
  }

  /** From power-up (latch clear, nothing pressed), whatever the events,
      Delete is the only key the keymap can have left down, and it is down
      exactly while the latch is set. */
  lemma {:induction false} FromPowerUp(calls: seq<Call>)
    ensures Report({}, Run(false, calls).trace) == if Run(false, calls).latch then {Del} else {}
  {
    RunKeepsReport(false, calls, {});
  }

  /** Shift+Backspace and then its release: Delete goes down once and up
      once, and the latch ends clear, even when shift was let go in between. */
  lemma {:induction false} ShiftBackspaceThenRelease(down: Mods, up: Mods, latch: bool, taps: nat)
    requires down & ShiftMask != 0
    ensures Run(latch, [Call(down, KeyEvent(Bspc, true, taps)), Call(up, KeyEvent(Bspc, false, taps))])
            == RunResult(false, [DelMods(ShiftMask), Register(Del), SetMods(down), Unregister(Del)])
  {
    var press, release := Call(down, KeyEvent(Bspc, true, taps)), Call(up, KeyEvent(Bspc, false, taps));
    assert [press, release][..1] == [press];
    assert [press][..0] == [];
    assert Run(latch, [press]) == RunResult(true, [DelMods(ShiftMask), Register(Del), SetMods(down)]);
  }
}
