/**
 * cConfigFileParser: turns the XML configuration tree into devices, menus,
 * command lists and global options. The XML document is given as a tree of
 * `Node` values; every exception the parser throws becomes an `Err` carrying
 * the line number the parser reports.
 */
module ConfigFileParser {
  import opened Wrappers
  import opened StringTools
  import opened Commands
  import opened VdrKeys

  // ----------------------------------------------------------------- errors

  /** What a cCECConfigException reports; one constructor per place the
      parser throws, with the name or text the message quotes. */
  datatype Problem =
    | TooManyArguments(element: string)
    | InvalidCommand(element: string)
    | InvalidKey(text: string)
    | MissingKeyCode
    | UnknownKeyCode(code: string)
    | MissingFileName
    | MissingStopKey
    | NotLogicalAddress
    | AddressOutOfRange
    | DeviceNotFound(device: string)
    | MissingMenuName
    | ModeConflict(element: string)
    | MissingMode
    | StillPicWithPowerToggle
    | MissingDeviceId
    | InvalidPhysicalAddress(text: string)
    | InvalidLogicalAddress(text: string)
    | InvalidNode(element: string)
    | NothingDefined(id: string)

  /** A thrown exception: the line reported and the problem. */
  datatype ConfigError = ConfigError(line: int, problem: Problem)

  /** The outcome of a parsing step that may throw. */
  type Parsed<T> = Result<T, ConfigError>

  // -------------------------------------------------------------- XML nodes

  /** An element with its attributes, children and source line, or a text node. */
  datatype Node =
    | Element(name: string, attrs: map<string, string>, children: seq<Node>, line: int)
    | Data(value: string)

  /** `strcasecmp(name, tag) == 0`, with the tag written in upper case. */
  predicate NameIs(name: string, tag: string) { ToUpper(name) == tag }

  /** The first text child, which is what `node.text()` finds. */
  function FirstData(children: seq<Node>): Option<string>
  {
    if children == [] then None
    else if children[0].Data? then Some(children[0].value)
    else FirstData(children[1..])
  }

  /** `node.text().as_string(def)`. */
  function Text(n: Node, def: string): string
  {
    if n.Data? then n.value
    else match FirstData(n.children)
      case Some(v) => v
      case None => def
  }

  /** `node.attribute(key).as_string(def)`; attribute names are case-sensitive. */
  function Attr(n: Node, key: string, def: string): string
  {
    if n.Element? && key in n.attrs then n.attrs[key] else def
  }

  /** hasElements: some child of the node is an element. */
  function HasElements(n: Node): (b: bool)
    ensures b <==> n.Element? && ElementsFrom(n.children, 0) != []
  {
    n.Element? && exists k :: 0 <= k < |n.children| && n.children[k].Element?
  }

  /** The element children from index `i` on, in document order. */
  function ElementsFrom(children: seq<Node>, i: nat): (r: seq<Node>)
    requires i <= |children|
    ensures forall k :: 0 <= k < |r| ==> r[k].Element?
    ensures r == [] <==> forall k :: i <= k < |children| ==> !children[k].Element?
    decreases |children| - i
  {
    if i == |children| then []
    else if children[i].Element? then [children[i]] + ElementsFrom(children, i + 1)
    else ElementsFrom(children, i + 1)
  }

  /** std::map::insert: the pair is added only when the key is still absent. */
  function InsertKeep<K, V>(m: map<K, V>, k: K, v: V): (r: map<K, V>)
    ensures r.Keys == m.Keys + {k}
    ensures r[k] == (if k in m then m[k] else v)
    ensures forall j :: j in m ==> r[j] == m[j]
  {
    if k in m then m else m[k := v]
  }

  // ------------------------------------------------------ value conversions

  /** The textToInt wrapper for uint16_t: the int result is narrowed modulo 2^16. */
  function TextToUint16(text: string, base: int): (r: IntConversion)
    ensures r.ok == TextToInt(text, base).ok
    ensures 0 <= r.value < 0x1_0000
    ensures (r.value - TextToInt(text, base).value) % 0x1_0000 == 0
    ensures 0 <= TextToInt(text, base).value < 0x1_0000 ==> r.value == TextToInt(text, base).value
  {
    var c := TextToInt(text, base);
    IntConversion(c.ok, c.value % 0x1_0000)
  }

  /** The textToInt wrapper for uint32_t: the int result is narrowed modulo 2^32. */
  function TextToUint32(text: string, base: int): (r: IntConversion)
    ensures r.ok == TextToInt(text, base).ok
    ensures 0 <= r.value < 0x1_0000_0000
    ensures (r.value - TextToInt(text, base).value) % 0x1_0000_0000 == 0
    ensures 0 <= TextToInt(text, base).value < 0x1_0000_0000 ==> r.value == TextToInt(text, base).value
  {
    var c := TextToInt(text, base);
    IntConversion(c.ok, c.value % 0x1_0000_0000)
  }

  datatype BoolConversion = BoolConversion(ok: bool, value: bool)

  /** textToBool: "true" or "false" in any case; otherwise `val` is left alone. */
  function TextToBool(text: string, val: bool): (r: BoolConversion)
    ensures r.ok <==> ToUpper(text) == "TRUE" || ToUpper(text) == "FALSE"
    ensures r.value == (if r.ok then ToUpper(text) == "TRUE" else val)
  {
    if NameIs(text, "TRUE") then BoolConversion(true, true)
    else if NameIs(text, "FALSE") then BoolConversion(true, false)
    else BoolConversion(false, val)
  }

  /** The comparison ignores case. */
  lemma TextToBoolIgnoresCase(text: string, val: bool)
    ensures TextToBool(ToUpper(text), val) == TextToBool(text, val)
  {
    ToUpperIdempotent(text);
  }

  /** cec_device_type, in libCEC's numbering. */
  datatype DeviceType = TypeTv | TypeRecordingDevice | TypeReserved | TypeTuner | TypePlaybackDevice | TypeAudioSystem

  function DeviceTypeValue(t: DeviceType): (v: int)
    ensures 0 <= v <= 5
  {
    match t
    case TypeTv => 0
    case TypeRecordingDevice => 1
    case TypeReserved => 2
    case TypeTuner => 3
    case TypePlaybackDevice => 4
    case TypeAudioSystem => 5
  }

  /** getDeviceType: a device type name in any case; RESERVED for anything else. */
  function GetDeviceType(s: string): (t: DeviceType)
    ensures t == TypeTv <==> ToUpper(s) == "TV"
    ensures t == TypeRecordingDevice <==> ToUpper(s) == "RECORDING_DEVICE"
    ensures t == TypeTuner <==> ToUpper(s) == "TUNER"
    ensures t == TypePlaybackDevice <==> ToUpper(s) == "PLAYBACK_DEVICE"
    ensures t == TypeAudioSystem <==> ToUpper(s) == "AUDIO_SYSTEM"
    ensures t == TypeReserved <==>
      ToUpper(s) !in {"TV", "RECORDING_DEVICE", "TUNER", "PLAYBACK_DEVICE", "AUDIO_SYSTEM"}
  {
    if NameIs(s, "TV") then TypeTv
    else if NameIs(s, "RECORDING_DEVICE") then TypeRecordingDevice
    else if NameIs(s, "TUNER") then TypeTuner
    else if NameIs(s, "PLAYBACK_DEVICE") then TypePlaybackDevice
    else if NameIs(s, "AUDIO_SYSTEM") then TypeAudioSystem
    else TypeReserved
  }

  /** The lookup ignores case. */
  lemma GetDeviceTypeIgnoresCase(s: string)
    ensures GetDeviceType(ToUpper(s)) == GetDeviceType(s)
  {
    ToUpperIdempotent(s);
  }

  // ---------------------------------------------------------------- devices

  type DeviceMap = map<string, Device>

  /** A device reference getDevice accepts: a logical address 0..15 when the
      text starts with a digit, otherwise the name of a known device. */
  predicate DeviceRefOk(text: string, devices: DeviceMap)
  {
    if |text| > 0 && IsDigit(text[0]) then
      TextToInt(text, 0).ok && 0 <= TextToInt(text, 0).value <= CecDeviceBroadcast
    else text in devices
  }

  /**
   * getDevice: a digit-led text sets the physical address to 0 and the
   * defined logical address, keeping the cached one of `device`; a name is
   * looked up and replaces the whole device.
   */
  function GetDevice(text: string, device: Device, devices: DeviceMap, line: int): (r: Parsed<Device>)
    ensures r.Ok? <==> DeviceRefOk(text, devices)
    ensures r.Err? ==> r.error.line == line
    ensures r.Ok? && |text| > 0 && IsDigit(text[0]) ==>
      r.value == Device(0, TextToInt(text, 0).value, device.logicalUsed)
    ensures r.Ok? && !(|text| > 0 && IsDigit(text[0])) ==> r.value == devices[text]
  {
    if |text| > 0 && IsDigit(text[0]) then
      var c := TextToInt(text, 0);
      if !c.ok then Err(ConfigError(line, NotLogicalAddress))
      else if c.value <= CecDeviceUnknown || c.value > CecDeviceBroadcast then
        Err(ConfigError(line, AddressOutOfRange))
      else Ok(device.(physicalAddress := 0, logicalDefined := c.value))
    else if text in devices then Ok(devices[text])
    else Err(ConfigError(line, DeviceNotFound(text)))
  }

  // ---------------------------------------------------------- command lists

  /** The command kind a command-list element's name selects. */
  function TagKind(name: string): Option<CommandKind>
  {
    if NameIs(name, "POWERON") then Some(PowerOn)
    else if NameIs(name, "POWEROFF") then Some(PowerOff)
    else if NameIs(name, "MAKEACTIVE") then Some(MakeActive)
    else if NameIs(name, "MAKEINACTIVE") then Some(MakeInactive)
    else if NameIs(name, "TEXTVIEWON") then Some(TextViewOn)
    else if NameIs(name, "EXEC") then Some(ExecShell)
    else None
  }

  /** The kinds whose element text names a device. */
  predicate NeedsDevice(k: CommandKind) { k == PowerOn || k == PowerOff || k == TextViewOn }

  /** An element parseList accepts: no child elements, a known name and,
      where one is needed, a device reference that resolves. */
  predicate ListEntryOk(n: Node, devices: DeviceMap)
    requires n.Element?
  {
    !HasElements(n) && TagKind(n.name).Some? &&
    (NeedsDevice(TagKind(n.name).value) ==> DeviceRefOk(Text(n, ""), devices))
  }

  /**
   * One element of parseList. The command variable lives across the whole
   * loop, so the command is built from the previous element's command: only
   * the kind, the shell text and, for the device kinds, the device change.
   */
  function ListEntry(n: Node, cmd: Cmd, devices: DeviceMap): (r: Parsed<Cmd>)
    requires n.Element?
    ensures r.Ok? <==> ListEntryOk(n, devices)
    ensures r.Ok? ==> Some(r.value.kind) == TagKind(n.name)
    ensures r.Ok? ==> r.value.exec == (if r.value.kind == ExecShell then Text(n, "") else "")
    ensures r.Ok? ==> r.value.(kind := cmd.kind, device := cmd.device, exec := cmd.exec) == cmd
    ensures r.Ok? && !NeedsDevice(r.value.kind) ==> r.value.device == cmd.device
    ensures r.Ok? && NeedsDevice(r.value.kind) ==>
      GetDevice(Text(n, ""), cmd.device, devices, n.line) == Ok(r.value.device)
  {
    if HasElements(n) then Err(ConfigError(n.line, TooManyArguments(n.name)))
    else match TagKind(n.name)
      case None => Err(ConfigError(0, InvalidCommand(n.name)))
      case Some(k) =>
        if NeedsDevice(k) then
          match GetDevice(Text(n, ""), cmd.device, devices, n.line)
          case Err(e) => Err(e)
          case Ok(d) => Ok(cmd.(kind := k, device := d, exec := ""))
        else if k == ExecShell then Ok(cmd.(kind := k, exec := Text(n, "")))
        else Ok(cmd.(kind := k, exec := ""))
  }

  /** parseList from child `i` on, with the carried command and the list so far. */
  function ListFrom(children: seq<Node>, i: nat, cmd: Cmd, acc: seq<Cmd>, devices: DeviceMap): Parsed<seq<Cmd>>
    requires i <= |children|
    decreases |children| - i
  {
    if i == |children| then Ok(acc)
    else if !children[i].Element? then ListFrom(children, i + 1, cmd, acc, devices)
    else match ListEntry(children[i], cmd, devices)
      case Err(e) => Err(e)
      case Ok(c) => ListFrom(children, i + 1, c, acc + [c], devices)
  }

  /** parseList: appends one command per element child to `cmdList`. */
  method ParseList(node: Node, cmdList: seq<Cmd>, devices: DeviceMap) returns (r: Parsed<seq<Cmd>>)
    requires node.Element?
    ensures r == ListFrom(node.children, 0, DefaultCmd(), cmdList, devices)
  {
    var cmd := DefaultCmd();
    var list := cmdList;
    var i := 0;
    while i < |node.children|
      invariant i <= |node.children|
      invariant ListFrom(node.children, i, cmd, list, devices) == ListFrom(node.children, 0, DefaultCmd(), cmdList, devices)
    {
      var n := node.children[i];
      if n.Element? {
        var step := ListEntry(n, cmd, devices);
        if step.Err? {
          return Err(step.error);
        }
        cmd := step.value;
        list := list + [cmd];
      }
      i := i + 1;
    }
    r := Ok(list);
  }

  /** parseList succeeds exactly when every element child is acceptable. */
  lemma {:induction false} ListFromOk(children: seq<Node>, i: nat, cmd: Cmd, acc: seq<Cmd>, devices: DeviceMap)
    requires i <= |children|
    ensures ListFrom(children, i, cmd, acc, devices).Ok? <==>
      (forall k :: i <= k < |children| && children[k].Element? ==> ListEntryOk(children[k], devices))
    decreases |children| - i
  {
    if i < |children| {
      var n := children[i];
      if !n.Element? {
        ListFromOk(children, i + 1, cmd, acc, devices);
      } else {
        var step := ListEntry(n, cmd, devices);
        if step.Ok? {
          ListFromOk(children, i + 1, step.value, acc + [step.value], devices);
        }
      }
    }
  }

  /** The list made from the element names `es`: it extends `acc` by one
      command per name, of the kind that name selects. */
  predicate KindsFollow(v: seq<Cmd>, acc: seq<Cmd>, es: seq<Node>)
  {
    (forall k :: 0 <= k < |es| ==> es[k].Element?) &&
    |v| == |acc| + |es| && v[..|acc|] == acc &&
    forall k :: 0 <= k < |es| ==> Some(v[|acc| + k].kind) == TagKind(es[k].name)
  }

  /** Prepending one element and its command keeps KindsFollow. */
  lemma KindsFollowCons(v: seq<Cmd>, acc: seq<Cmd>, c: Cmd, n: Node, es: seq<Node>)
    requires n.Element? && Some(c.kind) == TagKind(n.name)
    requires KindsFollow(v, acc + [c], es)
    ensures KindsFollow(v, acc, [n] + es)
  {
    var es' := [n] + es;
    assert v[..|acc|] == (acc + [c])[..|acc|];
    forall k | 0 <= k < |es'|
      ensures Some(v[|acc| + k].kind) == TagKind(es'[k].name)
    {
      if k > 0 {
        assert es'[k] == es[k - 1];
        assert v[|acc| + k] == v[|acc + [c]| + (k - 1)];
      } else {
        assert v[|acc|] == v[..|acc| + 1][|acc|];
      }
    }
  }

  /** When parseList succeeds it appends one command per element child, in
      document order, of the kind the element names, and keeps the commands
      already in the list. */
  lemma {:induction false} ListFromKinds(children: seq<Node>, i: nat, cmd: Cmd, acc: seq<Cmd>, devices: DeviceMap)
    requires i <= |children|
    ensures var r := ListFrom(children, i, cmd, acc, devices);
      r.Ok? ==> KindsFollow(r.value, acc, ElementsFrom(children, i))
    decreases |children| - i
  {
    if i < |children| {
      var n := children[i];
      if !n.Element? {
        ListFromKinds(children, i + 1, cmd, acc, devices);
      } else {
        var step := ListEntry(n, cmd, devices);
        if step.Ok? {
          var c := step.value;
          ListFromKinds(children, i + 1, c, acc + [c], devices);
          var r := ListFrom(children, i, cmd, acc, devices);
          if r.Ok? {
            KindsFollowCons(r.value, acc, c, n, ElementsFrom(children, i + 1));
          }
        }
      }
    }
  }

  // ------------------------------------------------------------------ menus

  /** The menu's mode: not yet known, onstart/onstop, or onpoweron/onpoweroff. */
  datatype PowerToggleState = Undefined | UseOnStart | UseOnPower

  type KeyTable = map<string, Key>

  /** cKeyMaps::DEFAULTKEYMAP */
  const DefaultKeymap: string := "default"

  /** cCECMenu */
  datatype Menu = Menu(
    title: string,
    stillPic: string,
    stopKeys: set<Key>,
    device: Device,
    onStart: seq<Cmd>,
    onStop: seq<Cmd>,
    onPowerOn: seq<Cmd>,
    onPowerOff: seq<Cmd>,
    cmdQueueKey: map<Key, seq<Cmd>>,
    onVolumeUp: seq<Cmd>,
    onVolumeDown: seq<Cmd>,
    cecKeymap: string,
    vdrKeymap: string,
    powerToggle: PowerToggleState)

  /** The default-constructed menu: default keymaps, mode not yet known. */
  function NewMenu(): (m: Menu)
    ensures m.cecKeymap == DefaultKeymap && m.vdrKeymap == DefaultKeymap
    ensures m.powerToggle == Undefined
    ensures m.title == "" && m.stillPic == "" && m.stopKeys == {} && m.device == NewDevice()
    ensures m.onStart == [] && m.onStop == [] && m.onPowerOn == [] && m.onPowerOff == []
    ensures m.cmdQueueKey == map[] && m.onVolumeUp == [] && m.onVolumeDown == []
  {
    Menu("", "", {}, NewDevice(), [], [], [], [], map[], [], [], DefaultKeymap, DefaultKeymap, Undefined)
  }

  /** isMenuPowerToggle: the menu runs its onpoweron/onpoweroff lists. */
  function IsMenuPowerToggle(m: Menu): (b: bool)
    ensures b <==> m.powerToggle == UseOnPower
  {
    m.powerToggle == UseOnPower
  }

  /** isStopKey: the key is one of the player's stop keys. */
  function IsStopKey(m: Menu, k: Key): (b: bool)
    ensures b <==> k in m.stopKeys
  {
    k in m.stopKeys
  }

  /** The fields a <player> element leaves alone. */
  predicate KeepsMenuCore(a: Menu, b: Menu)
  {
    a.title == b.title && a.device == b.device && a.powerToggle == b.powerToggle &&
    a.onStart == b.onStart && a.onStop == b.onStop &&
    a.onPowerOn == b.onPowerOn && a.onPowerOff == b.onPowerOff
  }

  /** An element with the given name, in any case. */
  predicate IsTag(n: Node, tag: string) { n.Element? && NameIs(n.name, tag) }

  /** The keys the <stop> children from index `i` on name. */
  function StopKeysFrom(children: seq<Node>, i: nat, keys: KeyTable): (s: set<Key>)
    requires i <= |children|
    ensures forall k :: i <= k < |children| && IsTag(children[k], "STOP") ==>
      KeyFromString(keys, Text(children[k], "")) in s
    decreases |children| - i
  {
    if i == |children| then {}
    else
      var here := if IsTag(children[i], "STOP") then {KeyFromString(keys, Text(children[i], ""))} else {};
      here + StopKeysFrom(children, i + 1, keys)
  }

  /** The keys the <onkey> children from index `i` on bind. */
  function OnKeysFrom(children: seq<Node>, i: nat, keys: KeyTable): (s: set<Key>)
    requires i <= |children|
    ensures forall k :: i <= k < |children| && IsTag(children[k], "ONKEY") ==>
      KeyFromString(keys, Attr(children[k], "code", "")) in s
    decreases |children| - i
  {
    if i == |children| then {}
    else
      var here := if IsTag(children[i], "ONKEY") then {KeyFromString(keys, Attr(children[i], "code", ""))} else {};
      here + OnKeysFrom(children, i + 1, keys)
  }

  /** The attribute `attr` of the last <keymaps> child from index `i` on
      (the default key map when it lacks the attribute), or `def` when there
      is no such child. */
  function LastKeymap(children: seq<Node>, i: nat, attr: string, def: string): (v: string)
    requires i <= |children|
    ensures (forall k :: i <= k < |children| ==> !IsTag(children[k], "KEYMAPS")) ==> v == def
    decreases |children| - i
  {
    if i == |children| then def
    else if IsTag(children[i], "KEYMAPS") then LastKeymap(children, i + 1, attr, Attr(children[i], attr, DefaultKeymap))
    else LastKeymap(children, i + 1, attr, def)
  }

  /** The command lists of the children named `tag` from index `i` on, each
      read by parseList and appended to `acc` in document order. */
  function TagListsFrom(children: seq<Node>, i: nat, tag: string, acc: seq<Cmd>, devices: DeviceMap): (r: Parsed<seq<Cmd>>)
    requires i <= |children|
    ensures (forall k :: i <= k < |children| ==> !IsTag(children[k], tag)) ==> r == Ok(acc)
    decreases |children| - i
  {
    if i == |children| then Ok(acc)
    else if IsTag(children[i], tag) then
      match ListFrom(children[i].children, 0, DefaultCmd(), acc, devices)
      case Err(e) => Err(e)
      case Ok(l) => TagListsFrom(children, i + 1, tag, l, devices)
    else TagListsFrom(children, i + 1, tag, acc, devices)
  }

  /** One element child of <player>. */
  function PlayerEntry(c: Node, menu: Menu, devices: DeviceMap, keys: KeyTable): (r: Parsed<Menu>)
    requires c.Element?
    ensures r.Ok? ==> KeepsMenuCore(r.value, menu) && r.value.stillPic == menu.stillPic
    ensures r.Ok? ==> menu.stopKeys <= r.value.stopKeys && KeyNone !in r.value.stopKeys - menu.stopKeys
    ensures r.Ok? ==> menu.cmdQueueKey.Keys <= r.value.cmdQueueKey.Keys
    ensures r.Ok? ==> forall k :: k in menu.cmdQueueKey ==> r.value.cmdQueueKey[k] == menu.cmdQueueKey[k]
    ensures NameIs(c.name, "STOP") ==> (r.Ok? <==> !HasElements(c) && KeyFromString(keys, Text(c, "")) != KeyNone)
    ensures NameIs(c.name, "KEYMAPS") ==> (r.Ok? <==> !HasElements(c))
    ensures NameIs(c.name, "ONKEY") && r.Ok? ==>
      Attr(c, "code", "") != "" && KeyFromString(keys, Attr(c, "code", "")) != KeyNone
    ensures r.Ok? ==>
      NameIs(c.name, "STOP") || NameIs(c.name, "KEYMAPS") || NameIs(c.name, "ONKEY") ||
      NameIs(c.name, "ONVOLUMEUP") || NameIs(c.name, "ONVOLUMEDOWN")
    ensures r.Ok? ==>
      r.value.stopKeys == (if NameIs(c.name, "STOP") then menu.stopKeys + {KeyFromString(keys, Text(c, ""))} else menu.stopKeys)
    ensures r.Ok? ==>
      if NameIs(c.name, "KEYMAPS") then
        r.value.vdrKeymap == Attr(c, "vdr", DefaultKeymap) && r.value.cecKeymap == Attr(c, "cec", DefaultKeymap)
      else r.value.vdrKeymap == menu.vdrKeymap && r.value.cecKeymap == menu.cecKeymap
    ensures r.Ok? ==>
      if NameIs(c.name, "ONKEY") then
        ListFrom(c.children, 0, DefaultCmd(), [], devices).Ok? &&
        r.value.cmdQueueKey == InsertKeep(menu.cmdQueueKey, KeyFromString(keys, Attr(c, "code", "")),
                                          ListFrom(c.children, 0, DefaultCmd(), [], devices).value)
      else r.value.cmdQueueKey == menu.cmdQueueKey
    ensures r.Ok? ==>
      if NameIs(c.name, "ONVOLUMEUP") then
        ListFrom(c.children, 0, DefaultCmd(), menu.onVolumeUp, devices).Ok? &&
        r.value.onVolumeUp == ListFrom(c.children, 0, DefaultCmd(), menu.onVolumeUp, devices).value
      else r.value.onVolumeUp == menu.onVolumeUp
    ensures r.Ok? ==>
      if NameIs(c.name, "ONVOLUMEDOWN") then
        ListFrom(c.children, 0, DefaultCmd(), menu.onVolumeDown, devices).Ok? &&
        r.value.onVolumeDown == ListFrom(c.children, 0, DefaultCmd(), menu.onVolumeDown, devices).value
      else r.value.onVolumeDown == menu.onVolumeDown
  {
    if NameIs(c.name, "STOP") then
      if HasElements(c) then Err(ConfigError(c.line, TooManyArguments(c.name)))
      else
        var k := KeyFromString(keys, Text(c, ""));
        if k == KeyNone then Err(ConfigError(c.line, InvalidKey(Text(c, ""))))
        else Ok(menu.(stopKeys := menu.stopKeys + {k}))
    else if NameIs(c.name, "KEYMAPS") then
      if HasElements(c) then Err(ConfigError(c.line, TooManyArguments(c.name)))
      else Ok(menu.(vdrKeymap := Attr(c, "vdr", DefaultKeymap), cecKeymap := Attr(c, "cec", DefaultKeymap)))
    else if NameIs(c.name, "ONKEY") then
      var code := Attr(c, "code", "");
      if code == "" then Err(ConfigError(c.line, MissingKeyCode))
      else
        var k := KeyFromString(keys, code);
        if k == KeyNone then Err(ConfigError(c.line, UnknownKeyCode(code)))
        else match ListFrom(c.children, 0, DefaultCmd(), [], devices)
          case Err(e) => Err(e)
          case Ok(l) => Ok(menu.(cmdQueueKey := InsertKeep(menu.cmdQueueKey, k, l)))
    else if NameIs(c.name, "ONVOLUMEUP") then
      match ListFrom(c.children, 0, DefaultCmd(), menu.onVolumeUp, devices)
      case Err(e) => Err(e)
      case Ok(l) => Ok(menu.(onVolumeUp := l))
    else if NameIs(c.name, "ONVOLUMEDOWN") then
      match ListFrom(c.children, 0, DefaultCmd(), menu.onVolumeDown, devices)
      case Err(e) => Err(e)
      case Ok(l) => Ok(menu.(onVolumeDown := l))
    else Err(ConfigError(c.line, InvalidCommand(c.name)))
  }

  /**
   * The <player> children from index `i` on. They store the keys of every
   * <stop> child, a binding for the key of every <onkey> child, the key maps
   * of the last <keymaps> child, and the lists of the <onvolumeup> and
   * <onvolumedown> children appended in document order.
   */
  function PlayerFrom(children: seq<Node>, i: nat, menu: Menu, devices: DeviceMap, keys: KeyTable): (r: Parsed<Menu>)
    requires i <= |children|
    ensures r.Ok? ==> KeepsMenuCore(r.value, menu) && r.value.stillPic == menu.stillPic
    ensures r.Ok? ==> menu.stopKeys <= r.value.stopKeys && KeyNone !in r.value.stopKeys - menu.stopKeys
    ensures r.Ok? ==> r.value.stopKeys == menu.stopKeys + StopKeysFrom(children, i, keys)
    ensures r.Ok? ==> r.value.cmdQueueKey.Keys == menu.cmdQueueKey.Keys + OnKeysFrom(children, i, keys)
    ensures r.Ok? ==>
      r.value.vdrKeymap == LastKeymap(children, i, "vdr", menu.vdrKeymap) &&
      r.value.cecKeymap == LastKeymap(children, i, "cec", menu.cecKeymap)
    ensures r.Ok? ==>
      TagListsFrom(children, i, "ONVOLUMEUP", menu.onVolumeUp, devices) == Ok(r.value.onVolumeUp) &&
      TagListsFrom(children, i, "ONVOLUMEDOWN", menu.onVolumeDown, devices) == Ok(r.value.onVolumeDown)
    decreases |children| - i
  {
    if i == |children| then Ok(menu)
    else if !children[i].Element? then PlayerFrom(children, i + 1, menu, devices, keys)
    else match PlayerEntry(children[i], menu, devices, keys)
      case Err(e) => Err(e)
      case Ok(m) => PlayerFrom(children, i + 1, m, devices, keys)
  }

  /**
   * parsePlayer: a <player> needs a still picture file and at least one stop
   * key, changes only the player fields of the menu, and stores in them what
   * its children say.
   */
  function PlayerSpec(node: Node, menu: Menu, devices: DeviceMap, keys: KeyTable): (r: Parsed<Menu>)
    requires node.Element?
    ensures Attr(node, "file", "") == "" ==> r.Err?
    ensures r.Ok? ==> r.value.stillPic == Attr(node, "file", "") && r.value.stillPic != ""
    ensures r.Ok? ==> KeepsMenuCore(r.value, menu)
    ensures r.Ok? ==> r.value.stopKeys != {}
    ensures r.Ok? && !IsStopKey(menu, KeyNone) ==> !IsStopKey(r.value, KeyNone)
    ensures r.Ok? ==>
      r.value.stopKeys == menu.stopKeys + StopKeysFrom(node.children, 0, keys) &&
      r.value.cmdQueueKey.Keys == menu.cmdQueueKey.Keys + OnKeysFrom(node.children, 0, keys) &&
      r.value.vdrKeymap == LastKeymap(node.children, 0, "vdr", menu.vdrKeymap) &&
      r.value.cecKeymap == LastKeymap(node.children, 0, "cec", menu.cecKeymap) &&
      TagListsFrom(node.children, 0, "ONVOLUMEUP", menu.onVolumeUp, devices) == Ok(r.value.onVolumeUp) &&
      TagListsFrom(node.children, 0, "ONVOLUMEDOWN", menu.onVolumeDown, devices) == Ok(r.value.onVolumeDown)
  {
    var file := Attr(node, "file", "");
    if file == "" then Err(ConfigError(node.line, MissingFileName))
    else match PlayerFrom(node.children, 0, menu.(stillPic := file), devices, keys)
      case Err(e) => Err(e)
      case Ok(m) =>
        if |m.stopKeys| < 1 then Err(ConfigError(node.line, MissingStopKey))
        else Ok(m)
  }

  /** parsePlayer */
  method ParsePlayer(node: Node, menu: Menu, devices: DeviceMap, keys: KeyTable) returns (r: Parsed<Menu>)
    requires node.Element?
    ensures r == PlayerSpec(node, menu, devices, keys)
  {
    var file := Attr(node, "file", "");
    if file == "" {
      return Err(ConfigError(node.line, MissingFileName));
    }
    var m := menu.(stillPic := file);
    var i := 0;
    while i < |node.children|
      invariant i <= |node.children|
      invariant PlayerFrom(node.children, i, m, devices, keys) == PlayerFrom(node.children, 0, menu.(stillPic := file), devices, keys)
    {
      var c := node.children[i];
      if c.Element? {
        var step := PlayerEntry(c, m, devices, keys);
        if step.Err? {
          return Err(step.error);
        }
        m := step.value;
      }
      i := i + 1;
    }
    if |m.stopKeys| < 1 {
      return Err(ConfigError(node.line, MissingStopKey));
    }
    r := Ok(m);
  }

  /** <onstart> or <onstop> */
  predicate IsStartTag(n: Node) { n.Element? && (NameIs(n.name, "ONSTART") || NameIs(n.name, "ONSTOP")) }

  /** <onpoweron> or <onpoweroff> */
  predicate IsPowerTag(n: Node) { n.Element? && (NameIs(n.name, "ONPOWERON") || NameIs(n.name, "ONPOWEROFF")) }

  /** One element child of <menu>. */
  function MenuEntry(c: Node, menu: Menu, devices: DeviceMap, keys: KeyTable): (r: Parsed<Menu>)
    requires c.Element?
    ensures r.Ok? ==> r.value.title == menu.title && r.value.device == menu.device
    ensures NameIs(c.name, "PLAYER") ==> r == PlayerSpec(c, menu, devices, keys)
    ensures r.Ok? ==>
      if NameIs(c.name, "ONSTART") then
        ListFrom(c.children, 0, DefaultCmd(), menu.onStart, devices).Ok? &&
        r.value.onStart == ListFrom(c.children, 0, DefaultCmd(), menu.onStart, devices).value
      else r.value.onStart == menu.onStart
    ensures r.Ok? ==>
      if NameIs(c.name, "ONSTOP") then
        ListFrom(c.children, 0, DefaultCmd(), menu.onStop, devices).Ok? &&
        r.value.onStop == ListFrom(c.children, 0, DefaultCmd(), menu.onStop, devices).value
      else r.value.onStop == menu.onStop
    ensures r.Ok? ==>
      if NameIs(c.name, "ONPOWERON") then
        ListFrom(c.children, 0, DefaultCmd(), menu.onPowerOn, devices).Ok? &&
        r.value.onPowerOn == ListFrom(c.children, 0, DefaultCmd(), menu.onPowerOn, devices).value
      else r.value.onPowerOn == menu.onPowerOn
    ensures r.Ok? ==>
      if NameIs(c.name, "ONPOWEROFF") then
        ListFrom(c.children, 0, DefaultCmd(), menu.onPowerOff, devices).Ok? &&
        r.value.onPowerOff == ListFrom(c.children, 0, DefaultCmd(), menu.onPowerOff, devices).value
      else r.value.onPowerOff == menu.onPowerOff
  {
    if NameIs(c.name, "PLAYER") then PlayerSpec(c, menu, devices, keys)
    else if NameIs(c.name, "ONSTART") then
      if menu.powerToggle == Undefined || menu.powerToggle == UseOnStart then
        match ListFrom(c.children, 0, DefaultCmd(), menu.onStart, devices)
        case Err(e) => Err(e)
        case Ok(l) => Ok(menu.(powerToggle := UseOnStart, onStart := l))
      else Err(ConfigError(c.line, ModeConflict(c.name)))
    else if NameIs(c.name, "ONSTOP") then
      if menu.powerToggle == Undefined || menu.powerToggle == UseOnStart then
        match ListFrom(c.children, 0, DefaultCmd(), menu.onStop, devices)
        case Err(e) => Err(e)
        case Ok(l) => Ok(menu.(powerToggle := UseOnStart, onStop := l))
      else Err(ConfigError(c.line, ModeConflict(c.name)))
    else if NameIs(c.name, "ONPOWERON") then
      if menu.powerToggle == Undefined || menu.powerToggle == UseOnPower then
        match ListFrom(c.children, 0, DefaultCmd(), menu.onPowerOn, devices)
        case Err(e) => Err(e)
        case Ok(l) => Ok(menu.(powerToggle := UseOnPower, onPowerOn := l))
      else Err(ConfigError(c.line, ModeConflict(c.name)))
    else if NameIs(c.name, "ONPOWEROFF") then
      if menu.powerToggle == Undefined || menu.powerToggle == UseOnPower then
        match ListFrom(c.children, 0, DefaultCmd(), menu.onPowerOff, devices)
        case Err(e) => Err(e)
        case Ok(l) => Ok(menu.(powerToggle := UseOnPower, onPowerOff := l))
      else Err(ConfigError(c.line, ModeConflict(c.name)))
    else Err(ConfigError(c.line, InvalidCommand(c.name)))
  }

  /** The <menu> children from index `i` on. The four handler lists are the
      lists of the <onstart>, <onstop>, <onpoweron> and <onpoweroff>
      children, each appended in document order. */
  function MenuFrom(children: seq<Node>, i: nat, menu: Menu, devices: DeviceMap, keys: KeyTable): (r: Parsed<Menu>)
    requires i <= |children|
    ensures r.Ok? ==> r.value.title == menu.title && r.value.device == menu.device
    ensures r.Ok? ==>
      TagListsFrom(children, i, "ONSTART", menu.onStart, devices) == Ok(r.value.onStart) &&
      TagListsFrom(children, i, "ONSTOP", menu.onStop, devices) == Ok(r.value.onStop)
    ensures r.Ok? ==>
      TagListsFrom(children, i, "ONPOWERON", menu.onPowerOn, devices) == Ok(r.value.onPowerOn) &&
      TagListsFrom(children, i, "ONPOWEROFF", menu.onPowerOff, devices) == Ok(r.value.onPowerOff)
    decreases |children| - i
  {
    if i == |children| then Ok(menu)
    else if !children[i].Element? then MenuFrom(children, i + 1, menu, devices, keys)
    else match MenuEntry(children[i], menu, devices, keys)
      case Err(e) => Err(e)
      case Ok(m) => MenuFrom(children, i + 1, m, devices, keys)
  }

  /** Some child from index `i` on is <onstart> or <onstop>. */
  predicate StartTagFrom(children: seq<Node>, i: nat)
  {
    exists k :: i <= k < |children| && IsStartTag(children[k])
  }

  /** Some child from index `i` on is <onpoweron> or <onpoweroff>. */
  predicate PowerTagFrom(children: seq<Node>, i: nat)
  {
    exists k :: i <= k < |children| && IsPowerTag(children[k])
  }

  /** The mode after one accepted child: the start tags choose USE_ONSTART,
      the power tags USE_ONPOWER, anything else keeps the mode; a tag of the
      other mode than the one already chosen is refused. */
  lemma MenuEntryMode(c: Node, menu: Menu, devices: DeviceMap, keys: KeyTable)
    requires c.Element?
    ensures var r := MenuEntry(c, menu, devices, keys);
      (r.Ok? && IsStartTag(c) ==> r.value.powerToggle == UseOnStart) &&
      (r.Ok? && IsPowerTag(c) ==> r.value.powerToggle == UseOnPower) &&
      (r.Ok? && !IsStartTag(c) && !IsPowerTag(c) ==> r.value.powerToggle == menu.powerToggle) &&
      (IsStartTag(c) && menu.powerToggle == UseOnPower ==> r.Err?) &&
      (IsPowerTag(c) && menu.powerToggle == UseOnStart ==> r.Err?)
  {
  }

  /**
   * Over the rest of the children, an accepted menu ends in the mode its tags
   * chose: USE_ONSTART after a start tag, USE_ONPOWER after a power tag (so
   * both kinds together are refused), and the mode it came with otherwise; a
   * mode once chosen never changes.
   */
  lemma {:induction false} MenuFromMode(children: seq<Node>, i: nat, menu: Menu, devices: DeviceMap, keys: KeyTable)
    requires i <= |children|
    ensures var r := MenuFrom(children, i, menu, devices, keys);
      (r.Ok? && menu.powerToggle != Undefined ==> r.value.powerToggle == menu.powerToggle) &&
      (r.Ok? && StartTagFrom(children, i) ==> r.value.powerToggle == UseOnStart) &&
      (r.Ok? && PowerTagFrom(children, i) ==> r.value.powerToggle == UseOnPower) &&
      (r.Ok? && !StartTagFrom(children, i) && !PowerTagFrom(children, i) ==>
         r.value.powerToggle == menu.powerToggle)
    decreases |children| - i
  {
    if i < |children| {
      var c := children[i];
      assert StartTagFrom(children, i) <==> IsStartTag(c) || StartTagFrom(children, i + 1);
      assert PowerTagFrom(children, i) <==> IsPowerTag(c) || PowerTagFrom(children, i + 1);
      if !c.Element? {
        MenuFromMode(children, i + 1, menu, devices, keys);
      } else {
        var step := MenuEntry(c, menu, devices, keys);
        MenuEntryMode(c, menu, devices, keys);
        if step.Ok? {
          MenuFromMode(children, i + 1, step.value, devices, keys);
        }
      }
    }
  }

  /** The checks parseMenu makes after its loop: some mode was chosen, and a
      still picture only goes with the onstart/onstop mode. */
  function MenuChecks(parsed: Parsed<Menu>, line: int): (r: Parsed<Menu>)
    ensures parsed.Err? ==> r == parsed
    ensures r.Ok? ==> r == parsed
    ensures r.Ok? ==> r.value.powerToggle != Undefined
    ensures r.Ok? && IsMenuPowerToggle(r.value) ==> r.value.stillPic == ""
  {
    match parsed
    case Err(e) => Err(e)
    case Ok(m) =>
      if m.powerToggle == Undefined then
        Err(ConfigError(line, MissingMode))
      else if m.powerToggle == UseOnPower && m.stillPic != "" then
        Err(ConfigError(line, StillPicWithPowerToggle))
      else Ok(m)
  }

  /**
   * parseMenu: a menu needs a name and a device address that resolves; it
   * ends in one of the two modes, and a still picture only goes with the
   * onstart/onstop mode.
   */
  function MenuSpec(node: Node, devices: DeviceMap, keys: KeyTable): (r: Parsed<Menu>)
    requires node.Element?
    ensures Attr(node, "name", "") == "" ==> r.Err?
    ensures r.Ok? ==> DeviceRefOk(Attr(node, "address", ""), devices)
    ensures r.Ok? ==>
      GetDevice(Attr(node, "address", ""), NewDevice(), devices, node.line).Ok? &&
      r.value.device == GetDevice(Attr(node, "address", ""), NewDevice(), devices, node.line).value
    ensures r.Ok? ==> r.value.title == Attr(node, "name", "") && r.value.title != ""
    ensures r.Ok? ==> r.value.powerToggle != Undefined
    ensures r.Ok? && IsMenuPowerToggle(r.value) ==> r.value.stillPic == ""
    ensures r.Ok? ==>
      TagListsFrom(node.children, 0, "ONSTART", [], devices) == Ok(r.value.onStart) &&
      TagListsFrom(node.children, 0, "ONSTOP", [], devices) == Ok(r.value.onStop) &&
      TagListsFrom(node.children, 0, "ONPOWERON", [], devices) == Ok(r.value.onPowerOn) &&
      TagListsFrom(node.children, 0, "ONPOWEROFF", [], devices) == Ok(r.value.onPowerOff)
  {
    var title := Attr(node, "name", "");
    var dev := GetDevice(Attr(node, "address", ""), NewMenu().device, devices, node.line);
    if title == "" then Err(ConfigError(node.line, MissingMenuName))
    else if dev.Err? then Err(dev.error)
    else MenuChecks(MenuFrom(node.children, 0, NewMenu().(title := title, device := dev.value), devices, keys), node.line)
  }

  /** parseMenu accepts a menu only with tags of exactly one mode, and the
      menu's mode is the one its tags name. */
  lemma MenuModeFollowsTags(node: Node, devices: DeviceMap, keys: KeyTable)
    requires node.Element?
    ensures var r := MenuSpec(node, devices, keys);
      r.Ok? ==>
        (r.value.powerToggle == UseOnStart <==> StartTagFrom(node.children, 0)) &&
        (r.value.powerToggle == UseOnPower <==> PowerTagFrom(node.children, 0)) &&
        !(StartTagFrom(node.children, 0) && PowerTagFrom(node.children, 0))
    ensures !StartTagFrom(node.children, 0) && !PowerTagFrom(node.children, 0) ==>
      MenuSpec(node, devices, keys).Err?
  {
    var title := Attr(node, "name", "");
    var dev := GetDevice(Attr(node, "address", ""), NewMenu().device, devices, node.line);
    if title != "" && dev.Ok? {
      MenuFromMode(node.children, 0, NewMenu().(title := title, device := dev.value), devices, keys);
    }
  }

  /** The menu list after parseMenu: the parsed menu appended, or the error. */
  function AppendMenu(menus: seq<Menu>, parsed: Parsed<Menu>): (r: Parsed<seq<Menu>>)
    ensures r.Ok? <==> parsed.Ok?
    ensures r.Ok? ==> |r.value| == |menus| + 1 && r.value[..|menus|] == menus && r.value[|menus|] == parsed.value
  {
    match parsed
    case Ok(m) => Ok(menus + [m])
    case Err(e) => Err(e)
  }

  /** The loop of parseMenu over the children of <menu>. */
  method ParseMenuChildren(children: seq<Node>, start: Menu, devices: DeviceMap, keys: KeyTable) returns (r: Parsed<Menu>)
    ensures r == MenuFrom(children, 0, start, devices, keys)
  {
    var menu := start;
    var i := 0;
    while i < |children|
      invariant i <= |children|
      invariant MenuFrom(children, i, menu, devices, keys) == MenuFrom(children, 0, start, devices, keys)
    {
      var c := children[i];
      if c.Element? {
        var step := MenuEntry(c, menu, devices, keys);
        if step.Err? {
          return Err(step.error);
        }
        menu := step.value;
      }
      i := i + 1;
    }
    r := Ok(menu);
  }

  /** parseMenu: appends the parsed menu to the menu list. */
  method ParseMenu(node: Node, menus: seq<Menu>, devices: DeviceMap, keys: KeyTable) returns (r: Parsed<seq<Menu>>)
    requires node.Element?
    ensures r == AppendMenu(menus, MenuSpec(node, devices, keys))
  {
    var title := Attr(node, "name", "");
    if title == "" {
      return Err(ConfigError(node.line, MissingMenuName));
    }
    var dev := GetDevice(Attr(node, "address", ""), NewMenu().device, devices, node.line);
    if dev.Err? {
      return Err(dev.error);
    }
    var parsed := ParseMenuChildren(node.children, NewMenu().(title := title, device := dev.value), devices, keys);
    if parsed.Err? {
      return Err(parsed.error);
    }
    var menu := parsed.value;
    if menu.powerToggle == Undefined {
      r := Err(ConfigError(node.line, MissingMode));
    } else if menu.powerToggle == UseOnPower && menu.stillPic != "" {
      r := Err(ConfigError(node.line, StillPicWithPowerToggle));
    } else {
      r := Ok(menus + [menu]);
    }
    assert MenuSpec(node, devices, keys) == MenuChecks(parsed, node.line);
  }

  // ------------------------------------------------------------ <device>

  /** An element child of <device> that parseDevice accepts. */
  predicate DeviceEntryOk(c: Node)
    requires c.Element?
  {
    if NameIs(c.name, "PHYSICAL") then TextToInt(Text(c, "x"), 16).ok
    else NameIs(c.name, "LOGICAL") && TextToInt(Text(c, "x"), 0).ok
  }

  /**
   * One element child of <device>: <physical> (read through the uint16_t
   * wrapper) or <logical>. Errors carry the line of the <device> element.
   */
  function DeviceEntry(c: Node, line: int, device: Device): (r: Parsed<Device>)
    requires c.Element?
    ensures r.Ok? <==> DeviceEntryOk(c)
    ensures r.Err? ==> r.error.line == line
    ensures r.Ok? && NameIs(c.name, "PHYSICAL") ==>
      r.value == device.(physicalAddress := TextToUint16(Text(c, "x"), 16).value)
    ensures r.Ok? && !NameIs(c.name, "PHYSICAL") ==>
      r.value == device.(logicalDefined := TextToInt(Text(c, "x"), 0).value)
  {
    if NameIs(c.name, "PHYSICAL") then
      var conv := TextToUint16(Text(c, "x"), 16);
      if !conv.ok then Err(ConfigError(line, InvalidPhysicalAddress(Text(c, ""))))
      else if conv.value == -1 then Err(ConfigError(line, InvalidPhysicalAddress(Text(c, ""))))
      else Ok(device.(physicalAddress := conv.value))
    else if NameIs(c.name, "LOGICAL") then
      var conv := TextToInt(Text(c, "x"), 0);
      if !conv.ok then Err(ConfigError(line, InvalidLogicalAddress(Text(c, ""))))
      else if conv.value < 0 && conv.value > CecDeviceBroadcast then
        Err(ConfigError(line, InvalidLogicalAddress(Text(c, ""))))
      else Ok(device.(logicalDefined := conv.value))
    else Err(ConfigError(line, InvalidNode(c.name)))
  }

  /** The <device> children from index `i` on. */
  function DeviceFrom(children: seq<Node>, i: nat, line: int, device: Device): (r: Parsed<Device>)
    requires i <= |children|
    ensures r.Ok? ==> r.value.logicalUsed == device.logicalUsed
    decreases |children| - i
  {
    if i == |children| then Ok(device)
    else if !children[i].Element? then DeviceFrom(children, i + 1, line, device)
    else match DeviceEntry(children[i], line, device)
      case Err(e) => Err(e)
      case Ok(d) => DeviceFrom(children, i + 1, line, d)
  }

  /** A <physical> element. */
  predicate IsPhysicalTag(c: Node) { c.Element? && NameIs(c.name, "PHYSICAL") }

  /** A <logical> element. */
  predicate IsLogicalTag(c: Node) { c.Element? && NameIs(c.name, "LOGICAL") }

  /** The address the last <physical> child from index `i` on names, or `def`
      when there is none. */
  function LastPhysical(children: seq<Node>, i: nat, def: int): (v: int)
    requires i <= |children|
    ensures (forall k :: i <= k < |children| ==> !IsPhysicalTag(children[k])) ==> v == def
    decreases |children| - i
  {
    if i == |children| then def
    else if IsPhysicalTag(children[i]) then LastPhysical(children, i + 1, TextToUint16(Text(children[i], "x"), 16).value)
    else LastPhysical(children, i + 1, def)
  }

  /** The address the last <logical> child from index `i` on names, or `def`
      when there is none. */
  function LastLogical(children: seq<Node>, i: nat, def: int): (v: int)
    requires i <= |children|
    ensures (forall k :: i <= k < |children| ==> !IsLogicalTag(children[k])) ==> v == def
    decreases |children| - i
  {
    if i == |children| then def
    else if IsLogicalTag(children[i]) then LastLogical(children, i + 1, TextToInt(Text(children[i], "x"), 0).value)
    else LastLogical(children, i + 1, def)
  }

  /** An accepted <device> has the physical address of its last <physical>
      child and the logical address of its last <logical> child; without one
      the starting device's value stays. */
  lemma {:induction false} DeviceFromAddresses(children: seq<Node>, i: nat, line: int, device: Device)
    requires i <= |children|
    ensures var r := DeviceFrom(children, i, line, device);
      r.Ok? ==>
        r.value.physicalAddress == LastPhysical(children, i, device.physicalAddress) &&
        r.value.logicalDefined == LastLogical(children, i, device.logicalDefined)
    decreases |children| - i
  {
    if i < |children| {
      if !children[i].Element? {
        DeviceFromAddresses(children, i + 1, line, device);
      } else {
        var step := DeviceEntry(children[i], line, device);
        if step.Ok? {
          DeviceFromAddresses(children, i + 1, line, step.value);
        }
      }
    }
  }

  /** The <device> children are acceptable exactly when each one is. */
  lemma {:induction false} DeviceFromOk(children: seq<Node>, i: nat, line: int, device: Device)
    requires i <= |children|
    ensures DeviceFrom(children, i, line, device).Ok? <==>
      (forall k :: i <= k < |children| && children[k].Element? ==> DeviceEntryOk(children[k]))
    ensures DeviceFrom(children, i, line, device).Err? ==> DeviceFrom(children, i, line, device).error.line == line
    decreases |children| - i
  {
    if i < |children| {
      if !children[i].Element? {
        DeviceFromOk(children, i + 1, line, device);
      } else {
        var step := DeviceEntry(children[i], line, device);
        if step.Ok? {
          DeviceFromOk(children, i + 1, line, step.value);
        }
      }
    }
  }

  /**
   * parseDevice: a device needs an id; the device its children describe is
   * added under that id unless a device of that name already exists, in
   * which case the map is unchanged.
   */
  function DeviceSpec(node: Node, devices: DeviceMap): (r: Parsed<DeviceMap>)
    requires node.Element?
    ensures Attr(node, "id", "") == "" ==> r.Err?
    ensures r.Ok? ==> r.value.Keys == devices.Keys + {Attr(node, "id", "")}
    ensures r.Ok? ==> forall j :: j in devices ==> r.value[j] == devices[j]
    ensures r.Ok? && Attr(node, "id", "") in devices ==> r.value == devices
    ensures r.Ok? && Attr(node, "id", "") !in devices ==>
      DeviceFrom(node.children, 0, node.line, NewDevice()).Ok? &&
      r.value[Attr(node, "id", "")] == DeviceFrom(node.children, 0, node.line, NewDevice()).value
  {
    var id := Attr(node, "id", "");
    if id == "" then Err(ConfigError(node.line, MissingDeviceId))
    else match DeviceFrom(node.children, 0, node.line, NewDevice())
      case Err(e) => Err(e)
      case Ok(d) =>
        if d.physicalAddress == -1 && d.logicalDefined == CecDeviceUnknown then
          Err(ConfigError(node.line, NothingDefined(id)))
        else Ok(InsertKeep(devices, id, d))
  }

  /** parseDevice */
  method ParseDevice(node: Node, devices: DeviceMap) returns (r: Parsed<DeviceMap>)
    requires node.Element?
    ensures r == DeviceSpec(node, devices)
  {
    var line := node.line;
    var id := Attr(node, "id", "");
    if id == "" {
      return Err(ConfigError(line, MissingDeviceId));
    }
    var device := NewDevice();
    var i := 0;
    while i < |node.children|
      invariant i <= |node.children|
      invariant DeviceFrom(node.children, i, node.line, device) == DeviceFrom(node.children, 0, node.line, NewDevice())
    {
      var c := node.children[i];
      if c.Element? {
        var step := DeviceEntry(c, node.line, device);
        if step.Err? {
          return Err(step.error);
        }
        device := step.value;
      }
      i := i + 1;
    }
    if device.physicalAddress == -1 && device.logicalDefined == CecDeviceUnknown {
      return Err(ConfigError(line, NothingDefined(id)));
    }
    r := Ok(InsertKeep(devices, id, device));
  }

  /** The device Parse registers before any <device> element: the TV. */
  function TvDevice(): (d: Device)
    ensures d.physicalAddress == 0 && d.logicalDefined == CecDeviceTv && d.logicalUsed == CecDeviceTv
  {
    NewDevice().(logicalDefined := CecDeviceTv, logicalUsed := CecDeviceTv, physicalAddress := 0)
  }

  /** A <device> child of the root; the name is matched exactly. */
  predicate IsDeviceNode(n: Node) { n.Element? && n.name == "device" }

  /** The ids of the <device> nodes from index `i` on. */
  function DeviceIdsFrom(nodes: seq<Node>, i: nat): (s: set<string>)
    requires i <= |nodes|
    ensures forall k :: i <= k < |nodes| && IsDeviceNode(nodes[k]) ==> Attr(nodes[k], "id", "") in s
    decreases |nodes| - i
  {
    if i == |nodes| then {}
    else (if IsDeviceNode(nodes[i]) then {Attr(nodes[i], "id", "")} else {}) + DeviceIdsFrom(nodes, i + 1)
  }

  /** The root's <device> children from index `i` on: every id is registered,
      and nothing else. */
  function DevicesFrom(nodes: seq<Node>, i: nat, devices: DeviceMap): (r: Parsed<DeviceMap>)
    requires i <= |nodes|
    ensures r.Ok? ==> r.value.Keys == devices.Keys + DeviceIdsFrom(nodes, i)
    ensures r.Ok? ==> forall k :: i <= k < |nodes| && IsDeviceNode(nodes[k]) ==> Attr(nodes[k], "id", "") in r.value
    ensures r.Ok? ==> devices.Keys <= r.value.Keys
    ensures r.Ok? ==> forall j :: j in devices ==> r.value[j] == devices[j]
    decreases |nodes| - i
  {
    if i == |nodes| then Ok(devices)
    else if !IsDeviceNode(nodes[i]) then DevicesFrom(nodes, i + 1, devices)
    else match DeviceSpec(nodes[i], devices)
      case Err(e) => Err(e)
      case Ok(m) => DevicesFrom(nodes, i + 1, m)
  }

  /**
   * The device part of Parse: the TV is registered first, then every
   * <device> child of the root. As each insertion keeps an existing entry, a
   * <device id="TV"> never replaces the built-in TV.
   */
  method ParseDevices(root: Node) returns (r: Parsed<DeviceMap>)
    requires root.Element?
    ensures r == DevicesFrom(root.children, 0, map["TV" := TvDevice()])
    ensures r.Ok? ==> "TV" in r.value && r.value["TV"] == TvDevice()
  {
    var devices := map["TV" := TvDevice()];
    var i := 0;
    while i < |root.children|
      invariant i <= |root.children|
      invariant DevicesFrom(root.children, i, devices) == DevicesFrom(root.children, 0, map["TV" := TvDevice()])
      invariant "TV" in devices && devices["TV"] == TvDevice()
    {
      var n := root.children[i];
      if n.Element? && n.name == "device" {
        r := ParseDevice(n, devices);
        if r.Err? {
          return;
        }
        devices := r.value;
      }
      i := i + 1;
    }
    r := Ok(devices);
  }

  // ---------------------------------------------- handlers and global options

  /** cCECCommandHandler */
  datatype CommandHandler = CommandHandler(
    commands: seq<Cmd>, execMenu: string, stopMenu: string, opcode: int, device: Device)

  /** The default-constructed handler reacts to no opcode. */
  function NewCommandHandler(): (h: CommandHandler)
    ensures h.opcode == CecOpcodeNone && h.commands == [] && h.execMenu == "" && h.stopMenu == ""
    ensures h.device == NewDevice()
  {
    CommandHandler([], "", "", CecOpcodeNone, NewDevice())
  }

  /** CEC_DEFAULT_HDMI_PORT */
  const DefaultHdmiPort: int := 1

  /** cCECGlobalOptions; the opcode multimap is kept as a sequence of handlers. */
  datatype GlobalOptions = GlobalOptions(
    cecDebug: int,
    comboKeyTimeoutMs: int,
    hdmiPort: int,
    startupDelay: int,
    physicalAddress: int,
    baseDevice: int,
    audioDevice: Device,
    onStart: seq<Cmd>,
    onStop: seq<Cmd>,
    onVolumeUp: seq<Cmd>,
    onVolumeDown: seq<Cmd>,
    onManualStart: seq<Cmd>,
    onSwitchToTv: seq<Cmd>,
    onSwitchToRadio: seq<Cmd>,
    onSwitchToReplay: seq<Cmd>,
    deviceTypes: seq<DeviceType>,
    cecKeymap: string,
    vdrKeymap: string,
    globalKeymap: string,
    shutdownOnStandby: bool,
    powerOffOnStandby: bool,
    rtcDetect: bool,
    handlers: seq<CommandHandler>)

  /** The defaults before <global> is read. */
  function DefaultGlobalOptions(): (g: GlobalOptions)
    ensures g.cecDebug == 7 && g.comboKeyTimeoutMs == 1000 && g.hdmiPort == DefaultHdmiPort
    ensures g.startupDelay == 0 && g.physicalAddress == -1 && g.baseDevice == CecDeviceUnknown
    ensures g.audioDevice == NewDevice() && g.deviceTypes == [] && g.handlers == []
    ensures g.onStart == [] && g.onStop == [] && g.onManualStart == []
    ensures g.onVolumeUp == [] && g.onVolumeDown == []
    ensures g.onSwitchToTv == [] && g.onSwitchToRadio == [] && g.onSwitchToReplay == []
    ensures g.cecKeymap == DefaultKeymap && g.vdrKeymap == DefaultKeymap && g.globalKeymap == DefaultKeymap
    ensures !g.shutdownOnStandby && !g.powerOffOnStandby && g.rtcDetect
  {
    GlobalOptions(7, 1000, DefaultHdmiPort, 0, -1, CecDeviceUnknown, NewDevice(),
                  [], [], [], [], [], [], [], [], [], DefaultKeymap, DefaultKeymap, DefaultKeymap,
                  false, false, true, [])
  }

  // ------------------------------------------------------ menu references

  /** Some menu has this title. */
  predicate HasMenu(menus: seq<Menu>, name: string)
  {
    exists k :: 0 <= k < |menus| && menus[k].title == name
  }

  /**
   * FindMenu: reports whether a menu of that title exists and, if so, hands
   * back the last one in the list; otherwise `menu` comes back unchanged.
   */
  method FindMenu(menus: seq<Menu>, name: string, menu: Menu) returns (found: bool, r: Menu)
    ensures found <==> HasMenu(menus, name)
    ensures !found ==> r == menu
    ensures found ==> r.title == name
    ensures found ==> exists k :: 0 <= k < |menus| && menus[k] == r &&
                                  (forall j :: k < j < |menus| ==> menus[j].title != name)
  {
    found := false;
    r := menu;
    var i := 0;
    var last := -1;
    while i < |menus|
      invariant i <= |menus|
      invariant found <==> exists k :: 0 <= k < i && menus[k].title == name
      invariant !found ==> r == menu && last == -1
      invariant found ==> 0 <= last < i && menus[last] == r && r.title == name
      invariant found ==> forall j :: last < j < i ==> menus[j].title != name
    {
      var m := menus[i];
      if m.title == name {
        r := m;
        found := true;
        last := i;
      }
      i := i + 1;
    }
  }

  /** A handler's menu reference is empty or names an existing menu. */
  predicate MenuRefOk(name: string, menus: seq<Menu>) { name == "" || HasMenu(menus, name) }

  /**
   * The last step of Parse: every non-empty execmenu and stopmenu of an
   * <onceccommand> handler must name a parsed menu.
   */
  method CheckMenuReferences(handlers: seq<CommandHandler>, menus: seq<Menu>) returns (ok: bool)
    ensures ok <==> forall k :: 0 <= k < |handlers| ==>
      MenuRefOk(handlers[k].execMenu, menus) && MenuRefOk(handlers[k].stopMenu, menus)
  {
    ok := true;
    var m := NewMenu();
    var i := 0;
    while i < |handlers|
      invariant i <= |handlers|
      invariant ok <==> forall k :: 0 <= k < i ==>
        MenuRefOk(handlers[k].execMenu, menus) && MenuRefOk(handlers[k].stopMenu, menus)
    {
      var h := handlers[i];
      if h.execMenu != "" {
        var found;
        found, m := FindMenu(menus, h.execMenu, m);
        if !found {
          ok := false;
        }
      }
      if h.stopMenu != "" {
        var found;
        found, m := FindMenu(menus, h.stopMenu, m);
        if !found {
          ok := false;
        }
      }
      i := i + 1;
    }
  }
}
