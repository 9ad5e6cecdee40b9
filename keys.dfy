/**
 * VDR key codes the plugin uses. VDR's keys.h is not part of this model: the
 * values below follow its enumeration order, and the model relies only on
 * kVolUp, kVolDn and kNone being distinct and below the flag bits.
 */
module VdrKeys {
  /** An eKeys value: a key code, possibly with the k_Repeat/k_Release flags. */
  type Key = k: int | 0 <= k < 0x1_0000

  const KeyVolUp: Key := 35
  const KeyVolDn: Key := 36
  const KeyNone: Key := 56
  const KeyRepeat: Key := 0x8000

  /** `key & ~k_Repeat`: clears the repeat flag, keeps every other bit. */
  function ClearRepeat(k: Key): (r: Key)
    ensures r < KeyRepeat
    ensures r % KeyRepeat == k % KeyRepeat
  {
    if k >= KeyRepeat then k - KeyRepeat else k
  }

  /** cKey::FromString over VDR's table of key names: kNone for an unknown name. */
  function KeyFromString(table: map<string, Key>, name: string): (k: Key)
    ensures name in table ==> k == table[name]
    ensures name !in table ==> k == KeyNone
  {
    if name in table then table[name] else KeyNone
  }

  /** Which key maps cKeyMaps has active: VDR to CEC, CEC to VDR, and global. */
  datatype ActiveKeymaps = ActiveKeymaps(vdr: string, cec: string, global: string)

  /** cKeyMaps, reduced to the choice of active maps; the tables and their
      lookups are not part of this model. */
  class KeyMaps {
    var active: ActiveKeymaps

    constructor (initial: ActiveKeymaps)
      ensures active == initial
    {
      active := initial;
    }

    method SetActiveKeymaps(vdr: string, cec: string, global: string)
      modifies this
      ensures active == ActiveKeymaps(vdr, cec, global)
    {
      active := ActiveKeymaps(vdr, cec, global);
    }
  }
}
