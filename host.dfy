/** The part of the host firmware that the keymap talks to.
    Every call the keymap makes into the host (lighting commands, modifier
    edits, key injection) is recorded as an Action appended to a trace.
    The modifier calls also change the host's modifier byte, and the key
    calls change the set of keys the keymap holds down in the host's report;
    both effects are given here as replays of a trace. */
module Host {

  /** The host's modifier byte (uint8_t), as get_mods, del_mods and set_mods see it. */
  type Mods = bv8

  /** The host's MOD_MASK_SHIFT: left shift is bit 1, right shift is bit 5. */
  const ShiftMask: Mods := 0x22

  /** The keys the keymap injects: KC_DEL, KC_ALGR, KC_N and KC_COLN. */
  datatype Key = Del | AltGr | N | Colon

  /** The rgb_matrix_* calls of the eight custom lighting keycodes. */
  datatype RgbCommand =
    | Toggle | Step
    | IncreaseHue | DecreaseHue
    | IncreaseSat | DecreaseSat
    | IncreaseVal | DecreaseVal

  /** The three uint8_t arguments of rgblight_setrgb. */
  datatype Color = Color(r: bv8, g: bv8, b: bv8)

  /** One call into the host. */
  datatype Action =
    | RgbMatrix(cmd: RgbCommand)   // rgb_matrix_toggle, rgb_matrix_step, rgb_matrix_increase_hue, ...
    | DelMods(mask: Mods)          // del_mods(mask)
    | SetMods(mods: Mods)          // set_mods(mods)
    | Register(key: Key)           // register_code(key)
    | Unregister(key: Key)         // unregister_code(key)
    | Tap16(key: Key)              // tap_code16(key)
    | SetRgb(color: Color)         // rgblight_setrgb(r, g, b)

  /** The host's MOD_BIT(KC_RALT): registering AltGr (KC_ALGR is KC_RALT)
      sets this bit in the modifier byte, unregistering it clears it. */
  const AltGrBit: Mods := 0x40

  /** What one call does to the modifier byte: del_mods clears bits,
      set_mods assigns, and registering or unregistering AltGr, a modifier
      key, sets or clears its bit. */
  function ApplyMods(m: Mods, a: Action): Mods
  {
    match a
    case DelMods(mask) => m & !mask
    case SetMods(x) => x
    case Register(AltGr) => m | AltGrBit
    case Unregister(AltGr) => m & !AltGrBit
    case _ => m
  }

  /** What one call does to the keys held down: register adds the key,
      unregister removes it, and a tap (press then release) leaves it up. */
  function ApplyKey(held: set<Key>, a: Action): set<Key>
  {
    match a
    case Register(k) => held + {k}
    case Unregister(k) => held - {k}
    case Tap16(k) => held - {k}
    case _ => held
  }

  /** The host state after the calls of `t`, one at a time, starting from `s`. */
  function Replay<S>(step: (S, Action) -> S, s: S, t: seq<Action>): S
    decreases |t|
  {
    if t == [] then s else Replay(step, step(s, t[0]), t[1..])
  }

  /** The modifier byte after the calls of `t`, starting from `m`. */
  function ModsAfter(m: Mods, t: seq<Action>): Mods
  {
    Replay(ApplyMods, m, t)
  }

  /** The keys held down after the calls of `t`, starting from `held`. */
  function Report(held: set<Key>, t: seq<Action>): set<Key>
  {
    Replay(ApplyKey, held, t)
  }

  /** Replaying two traces one after the other is replaying their concatenation. */
  lemma {:induction false} ReplayAppend<S>(step: (S, Action) -> S, s: S, t: seq<Action>, u: seq<Action>)
    ensures Replay(step, s, t + u) == Replay(step, Replay(step, s, t), u)
    decreases |t|
  {
    if t == [] {
      assert t + u == u;
    } else {
      assert (t + u)[0] == t[0];
      assert (t + u)[1..] == t[1..] + u;
      ReplayAppend(step, step(s, t[0]), t[1..], u);
    }
  }

  /** Replaying one call is applying it. */
  lemma ReplayOne<S>(step: (S, Action) -> S, s: S, a: Action)
    ensures Replay(step, s, [a]) == step(s, a)
  {
    assert [a][1..] == [];
  }

  /** Replaying three calls is applying them in order. */
  lemma ReplayOfThree<S>(step: (S, Action) -> S, s: S, a: Action, b: Action, c: Action)
    ensures Replay(step, s, [a, b, c]) == step(step(step(s, a), b), c)
  {
    assert [a, b, c] == [a] + [b] + [c];
    ReplayAppend(step, s, [a] + [b], [c]);
    ReplayAppend(step, s, [a], [b]);
    ReplayOne(step, s, a);
    ReplayOne(step, step(s, a), b);
    ReplayOne(step, step(step(s, a), b), c);
  }
}
