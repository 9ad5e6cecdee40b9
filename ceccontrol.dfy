/**
 * cCECControl: the VDR control that runs while a menu's still-picture player
 * is in front. It switches to the menu's key maps, submits the menu's start
 * and stop lists, and turns key presses into submissions.
 */
module CecControl {
  import opened Wrappers
  import opened Commands
  import opened VdrKeys
  import opened CecRemote
  import opened ConfigFileParser

  /** eOSState, reduced to the two values ProcessKey returns. */
  datatype OsState = OsContinue | OsEnd

  /** What a key press does: the state returned and what was submitted. */
  datatype KeyReaction = KeyReaction(state: OsState, pushes: seq<Push>)

  /** The key press ProcessKey forwards: the key without its repeat flag,
      aimed at the menu's device. */
  function ForwardedKey(menu: Menu, key: Key): (c: Cmd)
    ensures c.kind == VdrKeyPress && c.val == ClearRepeat(key) && c.device == menu.device
  {
    NewCmd(VdrKeyPress, ClearRepeat(key), Some(menu.device), "")
  }

  /**
   * ProcessKey. A stop key ends the player and submits nothing; every other
   * key continues it. kNone submits nothing; a key with its own list submits
   * that list; any other key is forwarded as one key press.
   */
  function ProcessKeyR(menu: Menu, key: Key): (r: KeyReaction)
    ensures r.state == OsEnd <==> IsStopKey(menu, key)
    ensures |r.pushes| <= 1
    ensures r.pushes == [] <==> IsStopKey(menu, key) || key == KeyNone
    ensures r.pushes != [] && key in menu.cmdQueueKey ==> r.pushes[0] == PushList(menu.cmdQueueKey[key])
    ensures r.pushes != [] && key !in menu.cmdQueueKey ==> r.pushes[0] == PushOne(ForwardedKey(menu, key))
  {
    if IsStopKey(menu, key) then KeyReaction(OsEnd, [])
    else if key == KeyNone then KeyReaction(OsContinue, [])
    else if key in menu.cmdQueueKey then KeyReaction(OsContinue, [PushList(menu.cmdQueueKey[key])])
    else KeyReaction(OsContinue, [PushOne(ForwardedKey(menu, key))])
  }

  /** The key maps SetDefaultKeymaps activates: those of the global options. */
  function DefaultKeymaps(g: GlobalOptions): (k: ActiveKeymaps)
    ensures k.vdr == g.vdrKeymap && k.cec == g.cecKeymap && k.global == g.globalKeymap
  {
    ActiveKeymaps(g.vdrKeymap, g.cecKeymap, g.globalKeymap)
  }

  /** The key maps a player activates: the menu's own, and the default global map. */
  function PlayerKeymaps(m: Menu): ActiveKeymaps
  {
    ActiveKeymaps(m.vdrKeymap, m.cecKeymap, DefaultKeymap)
  }

  /** A forwarded key never carries the repeat flag, so holding a key down
      forwards the same press as tapping it. */
  lemma HeldKeyForwardedPlain(menu: Menu, key: Key)
    requires key < KeyRepeat && key + KeyRepeat !in menu.cmdQueueKey
    requires !IsStopKey(menu, key + KeyRepeat)
    ensures ProcessKeyR(menu, key + KeyRepeat).pushes == [PushOne(ForwardedKey(menu, key))]
  {
    assert ClearRepeat(key + KeyRepeat) == key;
  }

  class Control {
    const remote: Remote
    const keyMaps: KeyMaps
    const options: GlobalOptions
    /** The menu that started the control. */
    const menuItem: Menu
    /** The player's copy of the menu. */
    const config: Menu

    /** The constructor: the player's key maps, then the start list. */
    constructor (menuItem: Menu, remote: Remote, keyMaps: KeyMaps, options: GlobalOptions)
      modifies remote, keyMaps
      ensures this.menuItem == menuItem && this.config == menuItem
      ensures this.remote == remote && this.keyMaps == keyMaps && this.options == options
      ensures keyMaps.active == PlayerKeymaps(menuItem)
      ensures remote.Snapshot() == PushCmdQueueT(old(remote.Snapshot()), menuItem.onStart)
    {
      this.remote := remote;
      this.keyMaps := keyMaps;
      this.options := options;
      this.menuItem := menuItem;
      this.config := menuItem;
      new;
      keyMaps.SetActiveKeymaps(menuItem.vdrKeymap, menuItem.cecKeymap, DefaultKeymap);
      remote.PushCmdQueue(menuItem.onStart);
    }

    /** The destructor: the stop list, then the default key maps again. */
    method Close()
      modifies remote, keyMaps
      ensures remote.Snapshot() == PushCmdQueueT(old(remote.Snapshot()), menuItem.onStop)
      ensures keyMaps.active == DefaultKeymaps(options)
    {
      remote.PushCmdQueue(menuItem.onStop);
      keyMaps.SetActiveKeymaps(options.vdrKeymap, options.cecKeymap, options.globalKeymap);
    }

    method ProcessKey(key: Key) returns (state: OsState)
      modifies remote
      ensures var r := ProcessKeyR(menuItem, key);
        state == r.state && remote.Snapshot() == DeliverT(old(remote.Snapshot()), r.pushes)
    {
      if IsStopKey(menuItem, key) {
        return OsEnd;
      }
      if key == KeyNone {
        return OsContinue;
      }
      if key in menuItem.cmdQueueKey {
        remote.PushCmdQueue(menuItem.cmdQueueKey[key]);
      } else {
        var plain := ClearRepeat(key);
        remote.PushCmd(NewCmd(VdrKeyPress, plain, Some(menuItem.device), ""));
      }
      return OsContinue;
    }
  }
}
