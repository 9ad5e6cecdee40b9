/**
 * cPluginCecremote: the plugin object VDR talks to. It locates the
 * configuration file, decides at start-up whether VDR was started by hand or
 * by a timer, answers SVDRP commands, and starts a menu's action.
 *
 * VDR and the host are inputs: VDR's configuration directory, the RTC check's
 * result, VDR's next wake-up time and the current time.
 */
module CecRemotePlugin {
  import opened Wrappers
  import opened Commands
  import opened StringTools
  import opened VdrKeys
  import opened CecRemote
  import opened ConfigFileParser
  import opened CecControl

  // ------------------------------------------------------------ config path

  const DefaultCfgDir: string := "cecremote"
  const DefaultCfgFile: string := "cecremote.xml"

  /** mCfgDir[0] == '/': std::string yields '\0' at index 0 of an empty string. */
  predicate IsAbsolute(dir: string) { |dir| > 0 && dir[0] == '/' }

  /** GetConfigDir: an absolute directory as given, a relative one below
      VDR's configuration directory; either way with a trailing '/'. */
  function ConfigDir(cfgDir: string, vdrConfigDir: string): (r: string)
    ensures |r| > 0 && r[|r| - 1] == '/'
    ensures IsAbsolute(cfgDir) ==> r == cfgDir + "/"
    ensures !IsAbsolute(cfgDir) ==> r == vdrConfigDir + "/" + cfgDir + "/"
  {
    if IsAbsolute(cfgDir) then cfgDir + "/" else vdrConfigDir + "/" + cfgDir + "/"
  }

  /** GetConfigFile: the file name inside the configuration directory. */
  function ConfigFile(cfgDir: string, cfgFile: string, vdrConfigDir: string): (r: string)
    ensures var dir := ConfigDir(cfgDir, vdrConfigDir);
      |r| == |dir| + |cfgFile| && r[..|dir|] == dir && r[|dir|..] == cfgFile
  {
    ConfigDir(cfgDir, vdrConfigDir) + cfgFile
  }

  /** With the defaults the file is cecremote/cecremote.xml below VDR's
      configuration directory. */
  lemma DefaultConfigFile(vdrConfigDir: string)
    ensures ConfigFile(DefaultCfgDir, DefaultCfgFile, vdrConfigDir) ==
      vdrConfigDir + "/" + DefaultCfgDir + "/" + DefaultCfgFile
  {
    assert !IsAbsolute(DefaultCfgDir);
  }

  // ------------------------------------------------------------ start mode

  /** rtcwakeup::RTC_WAKEUP_TYPE */
  datatype RtcWakeupType = RtcWakeup | OtherWakeup | RtcError

  /** VDR's MANUALSTART window, in seconds. */
  const ManualStartWindow: int := 600

  function Abs(x: int): int { if x < 0 then -x else x }

  /** VDR's own guess at a timer start: a wake-up time is set and lies within
      600 seconds of now. */
  predicate TimedByVdr(nextWakeup: int, now: int)
  {
    nextWakeup > 0 && Abs(nextWakeup - now) < ManualStartWindow
  }

  /**
   * The start-mode decision of Initialize. With RTC detection its verdict
   * decides; when that detection is off or fails, VDR's wake-up time decides,
   * and with detection off the previous value is kept unless VDR's guess says
   * timed.
   */
  function StartMode(previous: bool, rtcDetect: bool, rtc: RtcWakeupType, nextWakeup: int, now: int): (manual: bool)
    ensures rtcDetect && rtc == RtcWakeup ==> !manual
    ensures rtcDetect && rtc == OtherWakeup ==> manual
    ensures rtcDetect && rtc == RtcError ==> (manual <==> !TimedByVdr(nextWakeup, now))
    ensures !rtcDetect ==> (manual <==> previous && !TimedByVdr(nextWakeup, now))
  {
    var result := if rtcDetect then rtc else RtcError;
    var manual := if rtcDetect then rtc != RtcWakeup else previous;
    if result == RtcError && TimedByVdr(nextWakeup, now) then false else manual
  }

  /** From the field's initial value (true), the start counts as manual
      exactly when neither the RTC nor VDR's wake-up time says timed. */
  lemma StartModeFromDefault(rtcDetect: bool, rtc: RtcWakeupType, nextWakeup: int, now: int)
    ensures StartMode(true, rtcDetect, rtc, nextWakeup, now) <==>
      !(rtcDetect && rtc == RtcWakeup) &&
      !((!rtcDetect || rtc == RtcError) && TimedByVdr(nextWakeup, now))
  {
  }

  // ------------------------------------------------------------ SVDRP

  const ReplyOk: int := 214
  const ReplyError: int := 901

  /** The answers SVDRPCommand can give. The listings are produced by code
      outside this model; the fixed texts are given beside their cases. */
  datatype Answer =
    | PluginStatus
    | DeviceList
    | KeymapList
    | KeycodeList
    | VdrKeymap(id: string)
    | CecKeymap(id: string)
    | GlobalKeymap(id: string)
    | KeymapIdRequired   // "Error: Keymap ID required"
    | Disconnected       // "Disconnected"
    | Connected          // "Connected"
    | UnexpectedOption   // "Error: Unexpected option"

  datatype SvdrpReply = SvdrpReply(code: int, answer: Answer)

  /** The commands that list a key map and need its id as option. */
  predicate IsKeymapCommand(command: string)
  {
    NameIs(command, "VDRK") || NameIs(command, "CECK") || NameIs(command, "GLOK")
  }

  /** The commands SVDRPCommand knows, in any case. */
  predicate IsSvdrpCommand(command: string)
  {
    NameIs(command, "STAT") || NameIs(command, "LSTD") || NameIs(command, "KEYM") ||
    NameIs(command, "LSTK") || IsKeymapCommand(command) ||
    NameIs(command, "DISC") || NameIs(command, "CONN")
  }

  /**
   * The reply of SVDRPCommand. The code is 214 unless the command is unknown
   * or a key-map command lacks its id, and then it is 901.
   */
  function SvdrpAnswer(command: string, option: Option<string>): (r: SvdrpReply)
    ensures r.code == ReplyOk || r.code == ReplyError
    ensures r.code == ReplyError <==> r.answer == KeymapIdRequired || r.answer == UnexpectedOption
    ensures r.answer == UnexpectedOption <==> !IsSvdrpCommand(command)
    ensures r.answer == KeymapIdRequired <==> IsKeymapCommand(command) && option.None?
    ensures r.answer == Disconnected <==> NameIs(command, "DISC")
    ensures r.answer == Connected <==> NameIs(command, "CONN")
    ensures r.answer == PluginStatus <==> NameIs(command, "STAT")
    ensures r.answer == DeviceList <==> NameIs(command, "LSTD")
    ensures r.answer == KeymapList <==> NameIs(command, "KEYM")
    ensures r.answer == KeycodeList <==> NameIs(command, "LSTK")
    ensures r.answer.VdrKeymap? <==> NameIs(command, "VDRK") && option.Some?
    ensures r.answer.CecKeymap? <==> NameIs(command, "CECK") && option.Some?
    ensures r.answer.GlobalKeymap? <==> NameIs(command, "GLOK") && option.Some?
    ensures (r.answer.VdrKeymap? || r.answer.CecKeymap? || r.answer.GlobalKeymap?) ==>
              option.Some? && r.answer.id == option.value
  {
    var u := ToUpper(command);
    if u == "STAT" then SvdrpReply(ReplyOk, PluginStatus)
    else if u == "LSTD" then SvdrpReply(ReplyOk, DeviceList)
    else if u == "KEYM" then SvdrpReply(ReplyOk, KeymapList)
    else if u == "LSTK" then SvdrpReply(ReplyOk, KeycodeList)
    else if u == "VDRK" || u == "CECK" || u == "GLOK" then
      if option.None? then SvdrpReply(ReplyError, KeymapIdRequired)
      else if u == "VDRK" then SvdrpReply(ReplyOk, VdrKeymap(option.value))
      else if u == "CECK" then SvdrpReply(ReplyOk, CecKeymap(option.value))
      else SvdrpReply(ReplyOk, GlobalKeymap(option.value))
    else if u == "DISC" then SvdrpReply(ReplyOk, Disconnected)
    else if u == "CONN" then SvdrpReply(ReplyOk, Connected)
    else SvdrpReply(ReplyError, UnexpectedOption)
  }

  /** The command an SVDRP command submits synchronously, if any. */
  function SvdrpSubmission(command: string): (r: Option<Cmd>)
    ensures r.Some? <==> NameIs(command, "DISC") || NameIs(command, "CONN")
    ensures r.Some? ==> r.value == NewCmd(if NameIs(command, "DISC") then Disconnect else Connect, -1, None, "")
  {
    var u := ToUpper(command);
    if u == "DISC" then Some(NewCmd(Disconnect, -1, None, ""))
    else if u == "CONN" then Some(NewCmd(Connect, -1, None, ""))
    else None
  }

  /** SVDRP command names are matched without regard to case. */
  lemma SvdrpIgnoresCase(command: string, option: Option<string>)
    ensures SvdrpAnswer(command, option) == SvdrpAnswer(ToUpper(command), option)
    ensures SvdrpSubmission(command) == SvdrpSubmission(ToUpper(command))
  {
    ToUpperIdempotent(command);
  }

  // ------------------------------------------------------------ players

  /** What StartPlayer does with a menu. */
  datatype PlayerAction = ToggleMenu | RunStartList | LaunchPlayer

  /** StartPlayer's choice: a menu without a still picture toggles when it is
      a power toggle and runs its start list otherwise; a menu with one
      launches the player. */
  function PlayerActionOf(menu: Menu): (a: PlayerAction)
    ensures a == LaunchPlayer <==> menu.stillPic != ""
    ensures a == ToggleMenu <==> menu.stillPic == "" && IsMenuPowerToggle(menu)
  {
    if menu.stillPic == "" then (if IsMenuPowerToggle(menu) then ToggleMenu else RunStartList)
    else LaunchPlayer
  }

  /** Every power-toggle menu the parser accepts goes through ExecToggle:
      the parser refuses a still picture on such a menu. */
  lemma ParsedToggleMenusToggle(node: Node, devices: DeviceMap, keys: KeyTable)
    requires node.Element?
    ensures var r := MenuSpec(node, devices, keys);
      r.Ok? && IsMenuPowerToggle(r.value) ==> PlayerActionOf(r.value) == ToggleMenu
  {
  }

  /** ExecToggle's command: the menu's device and its two power lists. */
  function ToggleCmd(menu: Menu): (c: Cmd)
    ensures c.kind == ExecToggle && c.device == menu.device
    ensures c.powerOn == menu.onPowerOn && c.powerOff == menu.onPowerOff
  {
    NewToggleCmd(ExecToggle, menu.device, menu.onPowerOn, menu.onPowerOff)
  }

  /** mCECLogLevel's initialiser: CEC_LOG_ERROR | CEC_LOG_WARNING | CEC_LOG_DEBUG. */
  const InitialCecLogLevel: int := 1 + 2 + 16

  class Plugin {
    /** mCECRemote; the engine is handed in rather than created by Initialize. */
    const remote: Remote
    /** The serial counter behind PushWaitCmd. */
    const alloc: SerialAllocator
    const keyMaps: KeyMaps
    var cfgDir: string
    var cfgFile: string
    var startManually: bool
    var cecLogLevel: int
    /** mConfigFileParser.mGlobalOptions */
    var options: GlobalOptions
    /** The still-picture control last launched, if any. */
    var control: Control?

    constructor (remote: Remote, alloc: SerialAllocator, keyMaps: KeyMaps)
      ensures this.remote == remote && this.alloc == alloc && this.keyMaps == keyMaps
      ensures cfgDir == DefaultCfgDir && cfgFile == DefaultCfgFile && startManually
      ensures cecLogLevel == InitialCecLogLevel && options == DefaultGlobalOptions() && control == null
    {
      this.remote := remote;
      this.alloc := alloc;
      this.keyMaps := keyMaps;
      cfgDir := DefaultCfgDir;
      cfgFile := DefaultCfgFile;
      startManually := true;
      cecLogLevel := InitialCecLogLevel;
      options := DefaultGlobalOptions();
      control := null;
    }

    /**
     * Initialize, after the configuration file has been read: `parsed` is the
     * parser's global options, or None when parsing failed; `rtc` is what the
     * RTC check reports (it is consulted only with RTC detection on).
     */
    method Initialize(parsed: Option<GlobalOptions>, rtc: RtcWakeupType, nextWakeup: int, now: int)
      returns (ok: bool)
      modifies this, keyMaps
      ensures ok <==> parsed.Some?
      ensures !ok ==> unchanged(this) && unchanged(keyMaps)
      ensures ok ==> options == parsed.value && cecLogLevel == parsed.value.cecDebug
      ensures ok ==> startManually == StartMode(old(startManually), options.rtcDetect, rtc, nextWakeup, now)
      ensures ok ==> keyMaps.active == DefaultKeymaps(options)
      ensures cfgDir == old(cfgDir) && cfgFile == old(cfgFile) && control == old(control)
    {
      if parsed.None? {
        return false;
      }
      options := parsed.value;
      var result := RtcError;
      cecLogLevel := options.cecDebug;
      if options.rtcDetect {
        result := rtc;
        startManually := result != RtcWakeup;
      }
      if result == RtcError {
        if nextWakeup > 0 {
          if Abs(nextWakeup - now) < ManualStartWindow {
            startManually := false;
          }
        }
      }
      keyMaps.SetActiveKeymaps(options.vdrKeymap, options.cecKeymap, options.globalKeymap);
      return true;
    }

    /** ExecToggle: submits the toggle command synchronously. */
    method ExecToggleMenu(menu: Menu, rounds: seq<WakeUp>) returns (sent: Cmd, outcome: WaitOutcome)
      requires alloc.Valid()
      modifies remote, alloc
      ensures alloc.Valid()
      ensures sent == ToggleCmd(menu).(serial := NextSerial(old(alloc.serial)))
      ensures remote.Snapshot() == RouteT(old(remote.Snapshot()), sent)
      ensures outcome == WaitFrom(sent.serial, rounds, 0).outcome
    {
      sent, outcome := remote.PushWaitCmd(ToggleCmd(menu), alloc, DefaultTimeoutMs, rounds);
    }

    /** StartPlayer. `rounds` are the wake-ups of the wait in ExecToggle. */
    method StartPlayer(menu: Menu, rounds: seq<WakeUp>)
      requires alloc.Valid()
      modifies this, remote, alloc, keyMaps
      ensures alloc.Valid()
      ensures options == old(options) && startManually == old(startManually)
      ensures PlayerActionOf(menu) == ToggleMenu ==>
        remote.Snapshot() == RouteT(old(remote.Snapshot()), ToggleCmd(menu).(serial := NextSerial(old(alloc.serial)))) &&
        unchanged(keyMaps) && control == old(control)
      ensures PlayerActionOf(menu) == RunStartList ==>
        remote.Snapshot() == PushCmdQueueT(old(remote.Snapshot()), menu.onStart) &&
        unchanged(alloc) && unchanged(keyMaps) && control == old(control)
      ensures PlayerActionOf(menu) == LaunchPlayer ==>
        control != null && fresh(control) && control.menuItem == menu && control.remote == remote &&
        remote.Snapshot() == PushCmdQueueT(old(remote.Snapshot()), menu.onStart) &&
        keyMaps.active == PlayerKeymaps(menu) && unchanged(alloc)
    {
      if menu.stillPic == "" {
        if IsMenuPowerToggle(menu) {
          var _, _ := ExecToggleMenu(menu, rounds);
        } else {
          remote.PushCmdQueue(menu.onStart);
        }
      } else {
        var c := new Control(menu, remote, keyMaps, options);
        control := c;
      }
    }

    /** MainMenuAction over the OSD's menu items: a single item is started at
        once and no menu opens; otherwise the menu opens (true). */
    method MainMenuAction(items: seq<Menu>, rounds: seq<WakeUp>) returns (osd: bool)
      requires alloc.Valid()
      modifies this, remote, alloc, keyMaps
      ensures alloc.Valid()
      ensures osd <==> |items| != 1
      ensures osd ==> unchanged(this) && unchanged(remote) && unchanged(alloc) && unchanged(keyMaps)
      ensures !osd && PlayerActionOf(items[0]) == ToggleMenu ==>
        remote.Snapshot() == RouteT(old(remote.Snapshot()), ToggleCmd(items[0]).(serial := NextSerial(old(alloc.serial))))
      ensures !osd && PlayerActionOf(items[0]) != ToggleMenu ==>
        remote.Snapshot() == PushCmdQueueT(old(remote.Snapshot()), items[0].onStart)
      ensures !osd && PlayerActionOf(items[0]) == LaunchPlayer ==>
        control != null && fresh(control) && control.menuItem == items[0]
    {
      if |items| == 1 {
        StartPlayer(items[0], rounds);
        return false;
      }
      return true;
    }

    /** SVDRPCommand; `rounds` are the wake-ups of the wait in PushWaitCmd. */
    method SvdrpCommand(command: string, option: Option<string>, rounds: seq<WakeUp>)
      returns (code: int, answer: Answer)
      requires alloc.Valid()
      modifies remote, alloc
      ensures alloc.Valid()
      ensures SvdrpReply(code, answer) == SvdrpAnswer(command, option)
      ensures SvdrpSubmission(command).None? ==> unchanged(remote) && unchanged(alloc)
      ensures SvdrpSubmission(command).Some? ==>
        remote.Snapshot() == RouteT(old(remote.Snapshot()),
                                    SvdrpSubmission(command).value.(serial := NextSerial(old(alloc.serial))))
    {
      var u := ToUpper(command);
      code := ReplyOk;
      if u == "STAT" {
        answer := PluginStatus;
      } else if u == "LSTD" {
        answer := DeviceList;
      } else if u == "KEYM" {
        answer := KeymapList;
      } else if u == "LSTK" {
        answer := KeycodeList;
      } else if u == "VDRK" || u == "CECK" || u == "GLOK" {
        if option.None? {
          code := ReplyError;
          answer := KeymapIdRequired;
        } else if u == "VDRK" {
          answer := VdrKeymap(option.value);
        } else if u == "CECK" {
          answer := CecKeymap(option.value);
        } else {
          answer := GlobalKeymap(option.value);
        }
      } else if u == "DISC" {
        var _, _ := remote.PushWaitCmd(NewCmd(Disconnect, -1, None, ""), alloc, DefaultTimeoutMs, rounds);
        answer := Disconnected;
      } else if u == "CONN" {
        var _, _ := remote.PushWaitCmd(NewCmd(Connect, -1, None, ""), alloc, DefaultTimeoutMs, rounds);
        answer := Connected;
      } else {
        code := ReplyError;
        answer := UnexpectedOption;
      }
    }
  }
}
