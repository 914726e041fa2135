# fidevorak keymap for the crkbd keyboard, modelled in Dafny

The keymap plugs two callbacks into the host keyboard firmware:

- `process_record_user` sees every key event before the host does. It can either suppress the event (return `false`) or pass it through (return `true`). It handles four groups of keys:
  - eight custom lighting keycodes (`RMT` … `RMDV`);
  - Backspace, which becomes Delete while a shift key is held;
  - two layer-tap keys, whose hold is replaced by a colon or by AltGr+N (ñ);
  - every other key, which passes through.
- `layer_state_set_user` sets the underglow colour from the highest active layer.

Every call into the host is modelled as an `Action` appended to a trace (`Host.Action`). This covers:
- the lighting calls (`rgb_matrix_*`, `rgblight_setrgb`);
- the modifier calls (`del_mods`, `set_mods`);
- the key calls (`register_code`, `unregister_code`, `tap_code16`).

The modifier calls also change the host's modifier byte. So do `register_code(KC_ALGR)` and `unregister_code(KC_ALGR)`, because AltGr (`KC_RALT`) is a modifier key: they set and clear its bit `0x40`. The model replays these calls with `Host.ModsAfter`: `del_mods` clears bits, `set_mods` assigns, and the AltGr calls set or clear `0x40`.

The key calls change the set of keys the keymap holds down in the host's report. The model replays them with `Host.Report`: register adds a key, unregister removes it, and a tap leaves it up.

The files:

- `host.dfy` (module `Host`): the host calls, the modifier byte and the report replay.
- `keymap.dfy` (module `Keymap`) has three parts:
  - `Process` specifies one call of `process_record_user` as a function.
  - `LayerColor` is the colour choice.
  - The class `Interceptor` holds the keymap's globals: the host modifier byte, `mod_state`, `delkey_registered` and the trace. It runs the callbacks step by step against the host. Its invariant `Valid` says the keymap never leaves a key stuck: of the keys it pressed, only Delete can still be down, and only while `delkey_registered` is set.
- `keymap_properties.dfy` (module `KeymapProperties`): the behaviour case by case, and `Run`, any sequence of calls, with the no-stuck-key property proved over it.

`MOD_MASK_SHIFT` is the host's constant. It is taken as `0x22`, the left shift bit and the right shift bit. The proofs only use the fact that a shifted byte and the mask share a bit.

The code and the keymap's own comment on the ADJUST layer ("Adjust (Lower + Raise)", keymap.c line 207) disagree on one point, and the model follows the code. The colour is chosen from the highest layer of the state passed in, before `update_tri_layer_state` adds ADJUST. So a change that turns on LOWER and RAISE together shows RAISE's blue, not ADJUST's violet. Violet shows only when the incoming state already has ADJUST as its highest layer.

`RMDV` returns `true` on press and on release, while its seven siblings return `false`. The model keeps this as written (`KeymapProperties.RgbKeys`).

Every call puts the modifier byte back as it found it, except a held press of the n key. That press registers and then unregisters AltGr, so it always ends with the AltGr bit clear. If the user was holding the right Alt key (`KC_RALT`, on the base layer at keymap.c line 157), its bit is dropped although the key is still down (`KeymapProperties.NHoldDropsHeldAltGr`).

## Model

| member | source | states |
|---|---|---|
| `Keymap.Process` | keyboards/crkbd/keymaps/fidevorak/keymap.c:28-129 | Replaying a call's modifier calls gives back the modifiers read at entry, except for a held press of the n key, which ends with the AltGr bit cleared. Delete is registered only while no shift bit is set. Only Backspace changes `delkey_registered`. Only `RMDV` both calls the host and passes the event through. |
| `Keymap.BackspaceKey` | keyboards/crkbd/keymaps/fidevorak/keymap.c:73-101 | In every Backspace case, replaying the modifier calls gives back the entry modifiers (`set_mods` restores what `del_mods` cleared). At the moment Delete is registered, no shift bit is set. |
| `Keymap.RgbKey` | keyboards/crkbd/keymaps/fidevorak/keymap.c:33-72 | A lighting key sends its own lighting command once on press and nothing on release. It keeps the latch, returns the case's own pass-through value, and leaves the modifier byte as it was. |
| `Keymap.LayerTapKey` | keyboards/crkbd/keymaps/fidevorak/keymap.c:102-124 | A layer-tap key changes the modifier byte only through its hold sequence, and only on a press with tap count zero. |
| `Keymap.SemiColonKey` | keyboards/crkbd/keymaps/fidevorak/keymap.c:102-111 | The semicolon key's colon leaves the modifier byte as it was, and Delete is never registered. |
| `Keymap.CustomNKey` | keyboards/crkbd/keymaps/fidevorak/keymap.c:112-124 | A held press of the n key ends with the AltGr bit cleared, whatever it was at entry. Every other event of this key leaves the modifier byte as it was. Delete is never registered. |
| `Keymap.CallKeepsReport` | keyboards/crkbd/keymaps/fidevorak/keymap.c:73-124 | If Delete was down exactly while the latch was set, this holds again after one call. A call leaves no key other than Delete newly held down; AltGr, the colon and the n are released in the same call. |
| `Keymap.CallKeepsNoStuckKey` | keyboards/crkbd/keymaps/fidevorak/keymap.c:73-124 | From power-up, if only Delete can be down and it is down exactly while the latch is set, one more call keeps this so. |
| `Keymap.LayerColor` | keyboards/crkbd/keymaps/fidevorak/keymap.c:231-248 | The fallback cyan is chosen exactly for layers above ADJUST. |
| `Keymap.Interceptor.constructor` | keyboards/crkbd/keymaps/fidevorak/keymap.c:23-76 | `mod_state` starts at zero, `delkey_registered` starts false, nothing has been sent, and `Valid` holds. |
| `Keymap.Interceptor.ProcessRecordUser` | keyboards/crkbd/keymaps/fidevorak/keymap.c:28-129 | `mod_state` is overwritten with the host modifiers at entry. The result, the new latch and the appended host calls are those of `Process`. The host modifiers end as they were at entry, except after a held press of the n key, which leaves them with the AltGr bit cleared. `Valid` (no stuck key) is preserved. |
| `Keymap.Interceptor.Dispatch` | keyboards/crkbd/keymaps/fidevorak/keymap.c:32-128 | The `switch` of `process_record_user` returns, sets the latch and calls the host as `Process` says. The host modifiers change only on a held press of the n key, which clears AltGr. |
| `Keymap.Interceptor.BackspaceCase` | keyboards/crkbd/keymaps/fidevorak/keymap.c:73-101 | The Backspace case runs as `BackspaceKey` says and ends with the host modifiers as they were. |
| `Keymap.Interceptor.SemiColonCase` | keyboards/crkbd/keymaps/fidevorak/keymap.c:102-111 | The semicolon case runs as `SemiColonKey` says, with the modifiers and the latch unchanged. |
| `Keymap.Interceptor.CustomNCase` | keyboards/crkbd/keymaps/fidevorak/keymap.c:112-124 | The n case runs as `CustomNKey` says. A held press leaves the host modifiers with the AltGr bit cleared. |
| `Keymap.Interceptor.LayerStateSetUser` | keyboards/crkbd/keymaps/fidevorak/keymap.c:231-248 | Appends exactly one `rgblight_setrgb` call, with `LayerColor` of the highest layer. Nothing else changes. `Valid` is preserved. |
| `KeymapProperties.RgbKeys` | keyboards/crkbd/keymaps/fidevorak/keymap.c:33-72 | A press of any of the eight lighting keys calls exactly its own lighting command. A release calls nothing. The latch is untouched. The event passes through exactly for `RMDV`, on press and on release. |
| `KeymapProperties.ShiftBackspacePress` | keyboards/crkbd/keymaps/fidevorak/keymap.c:77-89 | Backspace pressed with any shift bit set calls `del_mods(MOD_MASK_SHIFT)`, `register_code(KC_DEL)` and `set_mods` with the entry modifiers, in that order. It sets the latch and suppresses the event. |
| `KeymapProperties.NHoldDropsHeldAltGr` | keyboards/crkbd/keymaps/fidevorak/keymap.c:112-124 | If AltGr is held when the n key is held-pressed, the call ends with the AltGr bit cleared, so the modifiers differ from those at entry. |
| `KeymapProperties.PlainBackspacePress` | keyboards/crkbd/keymaps/fidevorak/keymap.c:77-100 | Backspace pressed with no shift bit set calls nothing, keeps the latch and passes through. |
| `KeymapProperties.BackspaceRelease` | keyboards/crkbd/keymaps/fidevorak/keymap.c:91-100 | A Backspace release calls `unregister_code(KC_DEL)` exactly once if the latch is set and nothing otherwise. It always leaves the latch clear. It suppresses the event exactly when the latch was set. |
| `KeymapProperties.LayerTapKeys` | keyboards/crkbd/keymaps/fidevorak/keymap.c:102-124 | Both layer-tap keys suppress exactly a press with tap count zero. Such a press sends `tap_code16(KC_COLN)` for the semicolon key, and `register_code(KC_ALGR)`, `tap_code16(KC_N)`, `unregister_code(KC_ALGR)` in order for the n key. A tapped press and every release pass through and send nothing. |
| `KeymapProperties.OtherKeys` | keyboards/crkbd/keymaps/fidevorak/keymap.c:126-127 | Any other keycode passes through, sends nothing and keeps the latch. |
| `KeymapProperties.LayerColors` | keyboards/crkbd/keymaps/fidevorak/keymap.c:231-248 | The colours are RAISE (0,0,0xFF), LOWER (0xFF,0,0), DVORAK (0,0xFF,0), ADJUST (0x7A,0,0xFF), and (0,0xFF,0xFF) for any other layer. |
| `KeymapProperties.LayerColorIdentifiesLayer` | keyboards/crkbd/keymaps/fidevorak/keymap.c:231-248 | Each of the four layers has a colour no other layer shares. |
| `KeymapProperties.RunKeepsReport` | keyboards/crkbd/keymaps/fidevorak/keymap.c:73-124 | Over any sequence of events, if Delete was down exactly while the latch was set, this stays so. No other key the keymap presses is left down. |
| `KeymapProperties.FromPowerUp` | keyboards/crkbd/keymaps/fidevorak/keymap.c:76-97 | From power-up, after any events, the keys the keymap holds down are {Delete} if the latch is set and none otherwise. |
| `KeymapProperties.ShiftBackspaceThenRelease` | keyboards/crkbd/keymaps/fidevorak/keymap.c:79-97 | Shift+Backspace followed by its release presses Delete once and releases it once, and ends with the latch clear. This holds even if shift was let go in between. |

## Left out

- `update_tri_layer_state` and `get_highest_layer` are host library functions that are not part of this model. `LayerStateSetUser` takes the highest layer as input and does not return the new layer state.
- The tap count comes from the host's tap/hold timing engine. It is an input here; only zero versus nonzero matters.
- The lighting drivers (`rgb_matrix_*`, `rgblight_setrgb`) are opaque trace entries.
- HID reporting and USB transport are outside the keymap. Besides setting and clearing the AltGr modifier bit, `register_code(KC_ALGR)` is also tracked as a held key in the report; how the host encodes it in a HID report is not modelled.
- The host's own processing of events that pass through is not modelled. It changes the modifier byte between calls; callers assign `hostMods`, and `Run` takes the modifiers of each call as input.
- The `keymaps` layer tables, the `LAYOUT_split_3x6_3` macro and the `LOWER`, `RAISE`, `LSFTCAP` defines are static data with no behaviour.
