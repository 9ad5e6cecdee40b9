# vdr-plugin-cecremote, modelled in Dafny

vdr-plugin-cecremote connects the VDR video recorder to the HDMI-CEC bus
through libCEC. It has these parts:

- The CEC engine (`cCECRemote`) runs one worker thread. The worker takes
  commands (`cCmd`) from a FIFO work queue and turns them into adapter calls,
  such as power on/off, key presses and active source. It also runs shell
  commands, and while a shell command runs it services a second queue of
  connection commands.
- Producers append to the queues:
  - libCEC callbacks;
  - VDR's status notifications (`cStatusMonitor`);
  - the still-picture player's control (`cCECControl`);
  - the plugin's main-menu and SVDRP entry points (`cPluginCecremote`).
- Synchronous submissions carry a serial from a wrapping counter, and the
  submitter waits until the worker publishes that serial.
- The behaviour comes from an XML configuration file. `cConfigFileParser`
  validates and parses it into menus, devices, command lists and global
  options.

## Structure

One file per module, following the source files:

| file | module | models |
|---|---|---|
| `wrappers.dfy` | `Wrappers` | `Option` and `Result` |
| `stringtools.dfy` | `StringTools` | `ToUpper`, `IntToStr`, `StrTrimTrail`, `TextToInt` (strtol in base 0, section 7.22.1.4 of ISO/IEC 9899:2011) |
| `cmd.dfy` | `Commands` | `cCECDevice`, `cCmd`, the `CECCommand` enumeration, the serial counter of `getSerial` |
| `keys.dfy` | `VdrKeys` | the VDR key codes the plugin uses, and the choice of active key maps |
| `cecremote.dfy` | `CecRemote` | the engine: class `Remote` and its transition functions |
| `cecremote_lemmas.dfy` | `CecRemoteLemmas` | properties of the engine over several steps |
| `configfileparser.dfy` | `ConfigFileParser` | lists, players, menus, devices, booleans, device types, menu lookup and the menu-reference check |
| `ceccontrol.dfy` | `CecControl` | the player control and its key dispatch |
| `statusmonitor.dfy` | `StatusMonitor` | channel-switch, replay and volume notifications |
| `cecremoteplugin.dfy` | `CecRemotePlugin` | configuration paths, start mode, SVDRP replies, `StartPlayer`, `MainMenuAction` |

### The engine

- The engine is a class whose fields the methods update:
  - the two queues;
  - `connected`, which stands for `mCECAdapter != nullptr`;
  - `processedSerial`, `inExec`, `deferredStartup`, `running` (the thread
    runs and is not cancelled) and `lastKey` (the key-press callback's
    static `lastkey`).
- Two fields record what is observed:
  - `busLog`, the adapter calls the engine made;
  - `completed`, the commands whose dispatch has finished.
- `Snapshot()` reads every field into an `Engine` value. Each method of
  `Remote` ensures `Snapshot() == XT(old(Snapshot()), …)`, where `XT` is a
  pure transition function; the lemmas are about those functions.
- Threads are not modelled. Each method is one atomic step of a producer or
  of the worker, which is what the queue mutexes guarantee.
- The `Action` loop becomes `ActionStep`, one iteration of the loop. The
  worker thread's one `Connect()` before the loop (cecremote.cc:233) is the
  separate `Connect` step, which the caller runs first; the startup-delay
  sleep before it (cecremote.cc:229-232) is not modelled.
- The `Exec`/`WaitExec` loop becomes `ExecStep`, one iteration. It is entered
  through `inExec` and left on EXIT.

### The bus

The libCEC adapter is an oracle value (`Bus`, `Env`) holding:

- the 16-slot active-device mask;
- each slot's physical address;
- the host's own logical addresses;
- the answer to a poll;
- whether a power request is accepted;
- the successive power-status readings;
- the outcome of opening the adapter;
- the result of `fork()`.

The synchronous wait of `PushWaitCmd` reads a sequence of wake-ups. Each
wake-up says whether the condition was signalled before the timeout and
which serial was published at that time.

### Other producers

The status monitor, the control and the plugin submit work through the
engine's `PushCmd`, `PushCmdQueue` and `PushWaitCmd`. Each of their
decisions is a pure function that returns:

- the component's new state;
- the submissions as `seq<Push>`.

A method ensures that the engine afterwards equals
`DeliverT(old(remote.Snapshot()), pushes)`.

### Behaviour modelled as the code is written

- `cCmd::getSerial` neither reads nor writes the command's `mSerial`. The
  caller stores the result. The counter starts at 1, so the first serial
  handed out is 2 (`Commands.FirstSerial`).
- `getLogical`'s physical scan does not stop at a match. It stops only when
  the slot is also the configured logical address. Otherwise the last
  matching slot wins.
- `PushCmdQueue` drops the whole list while the adapter is disconnected.
- POWERON or POWEROFF for a device that does not resolve still calls
  `WaitForPowerStatus` for `CECDEVICE_UNKNOWN`. The documented intent is that
  no adapter call is made; the model follows the code.
- `Connect` calls `SetPhysicalAddress` whenever the configured address is not
  0. This includes the default -1, which the `uint16_t` parameter turns into
  0xFFFF.
- `TextToInt` ignores its base argument and always converts in base 0. So
  "10" asked for in base 16 is decimal 10 (`StringTools.HexBaseIgnored`).
- `TextToInt` accepts the empty string as 0.
- A string of blanks is rejected: trimming leaves it untouched, because the
  search for a non-blank character reports npos.
- `parseList` reuses a single `cCmd` for all the elements of a list:
  - an element whose device text starts with a digit keeps the cached
    logical address `mLogicalAddressUsed` of the element before it;
  - the `exec` text is reset for every element that is not `<exec>`.
- The device map is filled with `std::map::insert`, which never overwrites.
  A second `<device>` with an id already present is ignored. This includes
  "TV", which is inserted before any `<device>` is read, so the TV device
  cannot be redefined (`ConfigFileParser.ParseDevices`).
- Some checks can never fire, and the model keeps them that way:
  - the logical-address range test in `parseDevice` (configfileparser.cc:920)
    asks for a value that is both negative and above 15;
  - the "nothing defined" test (configfileparser.cc:937) compares a
    `uint16_t` with -1, so a `<device>` with no children is accepted with
    physical address 0.
- `cStatusMonitor` starts with volume 0, not -1. So the branch of
  `SetVolume` that ignores a call while the volume is unknown fires only
  after a call has set the volume to -1.
- `GetConfigDir` treats an empty configuration directory as relative.
- `FindMenu` returns the last menu with the title, not the first.

## Model

| member | source | states |
|---|---|---|
| StringTools.ToUpper | stringtools.h:32-35 | The result has the input's length, and each character is upper-cased in the "C" locale |
| StringTools.ToUpperIdempotent | stringtools.h:32-35 | Upper-casing twice is upper-casing once |
| StringTools.DigitChar | stringtools.h:42-48 | A digit value becomes a decimal digit character |
| StringTools.NatToDigits | stringtools.h:42-48 | The decimal digits of a natural number: non-empty, all digits, no leading zero |
| StringTools.IntToStr | stringtools.h:42-48 | `%d` formatting: a leading '-' exactly for negative values, digits after it |
| StringTools.LastNonBlank | stringtools.h:54-59 | The index of the last character that is not a space or tab, or npos (-1) when there is none |
| StringTools.StrTrimTrail | stringtools.h:54-59 | An empty or all-blank string is unchanged; otherwise the result is the prefix ending at the last non-blank character, and only blanks were dropped |
| StringTools.StrTrimTrailIdempotent | stringtools.h:54-59 | Trimming twice is trimming once |
| StringTools.DigitValue | stringtools.h:68-75 | The value of a decimal, octal or hexadecimal digit is below its base |
| StringTools.SkipSpace | stringtools.h:68-75 | strtol's skip of leading white space: every skipped character is a space, and the stop position is not |
| StringTools.ScanDigits | stringtools.h:68-75 | The end of the maximal run of digits of the base |
| StringTools.Strtol | stringtools.h:72 | The position where conversion stopped lies within the string |
| StringTools.CString | stringtools.h:68-75 | What `c_str()` hands to C: the prefix up to the first NUL, with no NUL inside |
| StringTools.TextToIntIgnoresBase | stringtools.h:72 | The base argument has no effect on the result |
| StringTools.TextToInt | stringtools.h:68-75 | A non-empty text it accepts ends, after trimming and cutting at the first NUL, in a digit; the round trip, the trimming and the rejection of trailing garbage are the lemmas below |
| StringTools.DigitsValueOfDigits | stringtools.h:42-48 | Reading the decimal digits of n back gives n |
| StringTools.StrtolOfDigits | stringtools.h:68-75 | strtol consumes the whole digit string of a natural number and yields that number |
| StringTools.StrtolOfNegative | stringtools.h:68-75 | strtol consumes '-' and the digits of a positive number and yields its negation |
| StringTools.TextToIntIntToStr | stringtools.h:42-48 | Round trip: converting the formatted text of any int succeeds and gives that int back, in any base |
| StringTools.TrailingBlanksAccepted | stringtools.h:68-75 | "12 " converts to 12 because the trailing blank is trimmed first |
| StringTools.TrailingGarbageRejected | stringtools.h:68-75 | "12x" fails because strtol stops before the end |
| StringTools.EmptyAndBlankStrings | stringtools.h:54-75 | "" converts to 0 successfully; "  " fails |
| StringTools.HexBaseIgnored | stringtools.h:72 | "10" asked for in base 16 is decimal 10 |
| StringTools.SingleDigit | stringtools.h:68-75 | A single digit converts to its value |
| Commands.NewDevice | cmd.h:35-37 | A default device has physical address 0 and both logical addresses unknown |
| Commands.AssignDevice | cmd.h:44-49 | Device assignment copies the three fields; nothing of the target survives |
| Commands.KindValue | cmd.h:59-75 | CEC_INVALID is -1, CEC_EXIT is 0, and every value lies in -1..13; `KindOfValue` inverts it |
| Commands.KindOfValue | cmd.h:59-75 | Exactly the values -1..13 name an enumerator |
| Commands.KindValueRoundTrip | cmd.h:59-75 | Enumerator to value and back is the identity, and the values are distinct |
| Commands.DefaultCmd | cmd.h:94-102 | A default command: CEC_INVALID, value -1, serial -1, default device, empty shell text and sub-queues, opcode NONE, source unknown |
| Commands.NewCmd | cmd.cc:27-34 | Sets kind, value and shell text; copies the device only when one is given; every other field keeps its default |
| Commands.NewToggleCmd | cmd.cc:44-50 | Sets kind, device and both sub-queues; every other field keeps its default |
| Commands.NewOpcodeCmd | cmd.cc:59-64 | Sets opcode and source address; the device and every other field keep their defaults |
| Commands.AssignCmd | cmd.h:146-157 | Command assignment copies all nine fields, including both sub-queues |
| Commands.NextSerial | cmd.cc:78-82 | The next serial is the previous one plus 1, with 10000 wrapping to 1, and stays in 1..10000 |
| Commands.SerialAfter | cmd.cc:73-85 | Every serial after k calls lies in 1..10000 |
| Commands.SerialAfterClosedForm | cmd.cc:73-85 | After k calls the counter stands at (s - 1 + k) mod 10000 + 1 |
| Commands.SerialsDistinct | cmd.cc:73-85 | Fewer than 10000 consecutive calls never hand out the same serial twice |
| Commands.SerialAllocator.constructor | cmd.cc:74 | The static counter starts at 1 |
| Commands.SerialAllocator.GetSerial | cmd.cc:73-85 | Returns the next serial and stores it as the counter; nothing else is touched, in particular no command's mSerial |
| Commands.FirstSerial | cmd.cc:74-82 | The first serial a fresh counter hands out is 2 |
| VdrKeys.ClearRepeat | ceccontrol.cc:83-87 | `key & ~k_Repeat`: the result has no repeat flag and keeps every lower bit |
| VdrKeys.KeyFromString | configfileparser.cc:128-157 | A name in VDR's key table gives the key it names; a missing name gives kNone. `cKey::FromString` ignores case, so the table is taken to hold every spelling the lookup accepts |
| VdrKeys.KeyMaps.constructor | ceccontrol.cc:34 | The key maps start with the given active maps |
| VdrKeys.KeyMaps.SetActiveKeymaps | ceccontrol.cc:34 | Exactly the three given maps become active |
| CecRemote.LastMatchBelow | cecremote.cc:727-743 | The highest active slot below n at the physical address, or unknown exactly when there is none |
| CecRemote.ResolveSound | cecremote.cc:706-766 | A resolved address is the cached one, an active slot at the device's physical address, or the configured address that is not the host's own and answered the poll; only the cache changes; an unresolved device is unchanged |
| CecRemote.ResolvePhysicalChoice | cecremote.cc:720-743 | With active slots at the physical address, the configured logical address wins if it is one of them, and otherwise the highest such slot |
| CecRemote.ResolveStable | cecremote.cc:712-716 | Resolving the updated device again gives the same address on any bus, without a query |
| CecRemote.PollsFromBounds | cecremote.cc:784-788 | The number of polls is at least one, at most 50, and stops at the first reading that is the target or unknown |
| CecRemote.InitialInv | cecremote.h:140 | The initial engine satisfies the completion invariant: published serial -1 and nothing completed |
| CecRemote.PublishedSerialWasCompleted | cecremote.cc:372-375 | A published serial belongs to a command whose dispatch has finished |
| CecRemote.WaitFrom | cecremote.cc:985-987 | The wait ends as soon as its own serial is published (Completed) or a wait times out (TimedOut), and on nothing else; it is still waiting only when every wake-up was signalled with another serial |
| CecRemote.AwaitSerial | cecremote.cc:985-987 | The loop consumes the wake-ups `WaitFrom` says and ends with its outcome |
| CecRemote.Remote.constructor | cecremote.h:140 | The engine starts disconnected, with empty queues, published serial -1, not in exec and no deferred start-up |
| CecRemote.Remote.IsConnected | cecremote.h:133 | True exactly when the adapter is open |
| CecRemote.Remote.PushCmd | cecremote.cc:937-945 | Appends exactly one command at the back of the work queue and changes nothing else |
| CecRemote.Remote.PushCmdQueue | cecremote.cc:912-926 | Appends the whole list in order while connected; changes nothing while disconnected |
| CecRemote.Remote.PushWaitCmd | cecremote.cc:957-994 | Tags the command with the next serial; CONNECT and DISCONNECT go to the exec queue while a shell command runs, everything else to the back of the work queue; the wait's outcome is `WaitFrom` over the wake-ups for the command's own serial |
| CecRemote.Remote.Reconnect | cecremote.cc:1031-1048 | RECONNECT goes to the front of the queue the worker is reading |
| CecRemote.Remote.Startup | cecremote.cc:419-436 | Starts the worker; while connected queues the manual-start list (on a manual start) and the start list; otherwise defers them |
| CecRemote.Remote.Stop | cecremote.cc:584-592 | Queues the stop list, then submits EXIT synchronously with the next serial; the outcome is that of waiting for EXIT's serial |
| CecRemote.Remote.KeyPressCallback | cecremote.cc:44-62 | A valid key code is queued once, unless it repeats the last code and reports a duration |
| CecRemote.Remote.CommandCallback | cecremote.cc:74-87 | A received opcode is queued with its initiator unless the adapter is gone |
| CecRemote.Remote.AlertCallback | cecremote.cc:100-129 | A lost connection schedules a reconnect; every other alert changes nothing |
| CecRemote.Remote.Connect | cecremote.cc:447-559 | Nothing happens when already connected or when opening fails; otherwise the adapter is open, the physical address is set when configured, and a deferred start-up runs |
| CecRemote.Remote.Disconnect | cecremote.cc:567-576 | The adapter is always gone afterwards; an open one is made inactive and closed first |
| CecRemote.Remote.GetLogical | cecremote.cc:706-766 | The 16-slot scan computes the reference resolution `Resolve` |
| CecRemote.Remote.WaitForPowerStatus | cecremote.cc:778-789 | Polls at least once and at most 50 times, stopping at the first reading that is the target or unknown |
| CecRemote.Remote.Power | cecremote.cc:258-291 | POWERON/POWEROFF: a power request for a resolved device, then the power wait unless the request failed; an unresolved device still waits |
| CecRemote.Remote.Work | cecremote.cc:246-366 | The worker's switch for every command kind |
| CecRemote.Remote.Publish | cecremote.cc:372-375 | A command that carries a serial publishes it, and the command is completed |
| CecRemote.Remote.WaitCmd | cecremote.cc:1005-1022 | Removes and returns the front of the work queue, or returns nothing and changes nothing on an empty queue |
| CecRemote.Remote.ActionStep | cecremote.cc:223-378 | One iteration of the worker loop: nothing when stopped or idle, otherwise the head is dispatched; EXECSHELL with a successful fork enters the exec loop |
| CecRemote.Remote.ExecWork | cecremote.cc:832-865 | The exec loop acts only on RECONNECT, CONNECT and DISCONNECT |
| CecRemote.Remote.ExecStep | cecremote.cc:800-901 | One iteration of the exec loop: the head of the exec queue, or EXIT once the child exited; EXIT leaves the exec state and completes the EXECSHELL command; the step leaves the exec state exactly when it takes EXIT |
| CecRemoteLemmas.LastSerialAppend | cecremote.cc:372-375 | Completing a command moves the last published serial to it exactly when it carries one |
| CecRemoteLemmas.PublishKeepsInv | cecremote.cc:372-375 | Publishing keeps the published serial equal to that of the last completed command that carried one |
| CecRemoteLemmas.ConnectionFrame | cecremote.cc:447-576 | Connect and Disconnect leave completion and the exec state alone and only append to the work queue; Disconnect leaves the adapter gone |
| CecRemoteLemmas.WorkFrame | cecremote.cc:246-366 | The worker's switch leaves completion and the exec state alone, only appends to the work queue, and only EXIT stops the worker |
| CecRemoteLemmas.ConnectionWorkFrame | cecremote.cc:340-358 | The same frame for EXIT, RECONNECT, CONNECT and DISCONNECT |
| CecRemoteLemmas.BusWorkFrame | cecremote.cc:246-366 | The commands that only talk to the bus change the bus trace and nothing else |
| CecRemoteLemmas.PowerFrame | cecremote.cc:258-291 | POWERON and POWEROFF change the bus trace and nothing else |
| CecRemoteLemmas.ActionStepKeepsInv | cecremote.cc:223-378 | Every worker iteration keeps the completion invariant |
| CecRemoteLemmas.ExecStepKeepsInv | cecremote.cc:832-865 | Every exec-loop iteration keeps the completion invariant |
| CecRemoteLemmas.DispatchPublishesSerial | cecremote.cc:372-375 | After a command with a serial is dispatched, the published serial is that serial |
| CecRemoteLemmas.ExecExitFinishesShell | cecremote.cc:832-901 | Once the script has exited, the exec loop ends, the worker leaves the exec state and the EXECSHELL command's serial is published |
| CecRemoteLemmas.ActionStepTakesHead | cecremote.cc:236-378 | One worker iteration takes the head of the work queue; the rest stays in order at the front |
| CecRemoteLemmas.DispatchHead | cecremote.cc:236-378 | A worker iteration over a queue with no EXIT or EXECSHELL in front moves the head to the completed commands |
| CecRemoteLemmas.FifoDispatch | cecremote.cc:1005-1022 | Commands are completed in the order they were queued |
| CecRemoteLemmas.DeliverAppend | cecremote.cc:912-945 | Two batches of submissions delivered one after the other are the concatenated batch |
| CecRemoteLemmas.DeliverAppendsOnly | cecremote.cc:912-945 | Submissions touch nothing but the work queue and only append to it |
| CecRemoteLemmas.RouteDuringExec | cecremote.cc:969-982 | During a shell command, CONNECT and DISCONNECT go to the back of the exec queue and everything else to the back of the work queue |
| CecRemoteLemmas.ConnectServicedDuringExec | cecremote.cc:832-865 | A CONNECT submitted during a shell command is serviced and its serial published while the script still runs |
| CecRemoteLemmas.ExecStepKeepsWorkQueue | cecremote.cc:832-865 | The exec loop never takes from the work queue |
| CecRemoteLemmas.ExecStepEndsOnlyOnExit | cecremote.cc:832-865 | The exec loop runs until EXIT: a step leaves the exec state if and only if the command it takes is EXIT, from the exec queue or, with that queue empty, because the child exited |
| CecRemoteLemmas.ReconnectRunsNext | cecremote.cc:1036-1047 | After a lost connection the reconnect is the next command completed, ahead of everything already queued |
| CecRemoteLemmas.ConnectionIdempotent | cecremote.cc:450-453 | Disconnecting twice is disconnecting once; connecting an open adapter does nothing |
| CecRemoteLemmas.DeferredStartupRuns | cecremote.cc:425-428 | A start-up while disconnected is deferred, and the first successful connect queues the start lists |
| CecRemoteLemmas.StartupWhileConnected | cecremote.cc:429-435 | A start-up while connected queues the manual-start list (on a manual start) and then the start list |
| CecRemoteLemmas.PushCmdQueueIsPushes | cecremote.cc:912-926 | PushCmdQueue is PushCmd for each element in order while connected, and drops the list while disconnected |
| CecRemoteLemmas.HeldKeyQueuedOnce | cecremote.cc:53-61 | A key held down is queued once: a repeat of the same code that reports a duration is dropped |
| ConfigFileParser.ElementsFrom | configfileparser.cc:278-329 | Only element nodes are kept |
| ConfigFileParser.HasElements | configfileparser.cc:187-198 | A node has elements exactly when its list of element children is not empty |
| ConfigFileParser.InsertKeep | configfileparser.cc:944 | `std::map::insert`: the key is added, and an existing entry is never overwritten |
| ConfigFileParser.TextToUint16 | configfileparser.h:248-254 | The conversion's success flag, with the value truncated to 16 bits even on failure |
| ConfigFileParser.TextToUint32 | configfileparser.h:257-263 | The conversion's success flag, with the value truncated to 32 bits even on failure; its callers are in `parseGlobal`, which is not part of this model |
| ConfigFileParser.TextToBool | configfileparser.cc:209-221 | Succeeds exactly for "true" or "false" in any case; on any other text `val` is left unchanged |
| ConfigFileParser.TextToBoolIgnoresCase | configfileparser.cc:209-221 | The case of the text does not matter |
| ConfigFileParser.DeviceTypeValue | configfileparser.cc:443-461 | A device type's libCEC value lies in 0..5 |
| ConfigFileParser.GetDeviceType | configfileparser.cc:443-461 | Each of the five names maps to its type in any case, and exactly every other text maps to RESERVED |
| ConfigFileParser.GetDeviceTypeIgnoresCase | configfileparser.cc:443-461 | The case of the name does not matter |
| ConfigFileParser.GetDevice | configfileparser.cc:234-260 | A digit-led text needs an integer in 0..15, sets physical address 0 and the defined address, and keeps the cached one; a name copies its map entry; anything else fails |
| ConfigFileParser.ListEntry | configfileparser.cc:278-329 | An element is accepted exactly when it has no child elements, a known name and a resolvable device; the command gets the element's kind, shell text and device, and keeps the rest of the reused command |
| ConfigFileParser.ParseList | configfileparser.cc:274-333 | The loop over the children computes `ListFrom` |
| ConfigFileParser.ListFromOk | configfileparser.cc:278-329 | The list is accepted exactly when every element child is accepted |
| ConfigFileParser.KindsFollowCons | configfileparser.cc:278-329 | One accepted element extends the kinds of the list by its own kind |
| ConfigFileParser.ListFromKinds | configfileparser.cc:278-329 | An accepted list ends with exactly one command per element, in document order, with the element's kind |
| ConfigFileParser.NewMenu | configfileparser.h:127-129 | A new menu has mode UNDEFINED, both key maps "default", and everything else empty |
| ConfigFileParser.IsMenuPowerToggle | configfileparser.h:135 | A menu is in power-toggle mode exactly when its mode is USE_ONPOWER |
| ConfigFileParser.IsStopKey | configfileparser.h:142 | A key stops the player exactly when it is in the menu's set of stop keys |
| ConfigFileParser.PlayerEntry | configfileparser.cc:119-173 | A player child keeps the menu's core fields. `<stop>` adds its key, and fails on child elements or an unknown key. `<keymaps>` sets the VDR and CEC maps from its attributes, "default" when one is absent. `<onkey>` binds its key (by `map::insert`) to the list that parseList reads. `<onvolumeup>`/`<onvolumedown>` append their parsed list. Any other child is an error |
| ConfigFileParser.StopKeysFrom | configfileparser.cc:126-135 | Reference definition: the keys every `<stop>` child names |
| ConfigFileParser.OnKeysFrom | configfileparser.cc:144-159 | Reference definition: the keys every `<onkey>` child binds |
| ConfigFileParser.LastKeymap | configfileparser.cc:136-143 | Reference definition: an attribute of the last `<keymaps>` child, or the starting value when there is none |
| ConfigFileParser.TagListsFrom | configfileparser.cc:160-165 | Reference definition: the parseList lists of all children with a given name, appended in document order |
| ConfigFileParser.PlayerFrom | configfileparser.cc:119-173 | All player children together keep the core fields. The stop keys gain exactly the keys of the `<stop>` children, and kNone is never among them. The bound keys gain exactly those of the `<onkey>` children. The key maps are those of the last `<keymaps>` child. The volume lists are the `<onvolumeup>`/`<onvolumedown>` lists appended in order |
| ConfigFileParser.PlayerSpec | configfileparser.cc:109-179 | A player without a file is rejected. An accepted one has the file as still picture and at least one stop key. It stores the stop keys, the bound keys, the key maps and the volume lists its children give, as `PlayerFrom` states |
| ConfigFileParser.ParsePlayer | configfileparser.cc:109-179 | The loop over the player's children computes `PlayerSpec` |
| ConfigFileParser.MenuEntry | configfileparser.cc:360-421 | A menu child never changes the title or the device. `<player>` is parsePlayer. `<onstart>`, `<onstop>`, `<onpoweron>` and `<onpoweroff>` each append their parseList list to their own handler list and leave the other three alone |
| ConfigFileParser.MenuFrom | configfileparser.cc:357-423 | The menu's children never change the title or the device. Each of the four handler lists is the lists of the children of its tag appended in document order |
| ConfigFileParser.MenuEntryMode | configfileparser.cc:365-416 | onstart/onstop set USE_ONSTART, onpoweron/onpoweroff set USE_ONPOWER, other children keep the mode, and a tag of the other mode is rejected |
| ConfigFileParser.MenuFromMode | configfileparser.cc:357-423 | A mode once chosen is kept, and the mode after all children follows the tags present |
| ConfigFileParser.MenuChecks | configfileparser.cc:424-433 | A menu with mode UNDEFINED, or with a still picture in USE_ONPOWER mode, is rejected; otherwise unchanged |
| ConfigFileParser.MenuSpec | configfileparser.cc:341-434 | A menu without a name is rejected; an accepted menu has its name as title, a device reference that resolves and, as its device, the device `GetDevice` resolves it to, a defined mode, and no still picture if it is a power toggle. Its onstart, onstop, onpoweron and onpoweroff lists are the lists of the children of those tags, in document order |
| ConfigFileParser.MenuModeFollowsTags | configfileparser.cc:366-426 | An accepted menu is USE_ONSTART exactly when it has an onstart/onstop child and USE_ONPOWER exactly when it has an onpoweron/onpoweroff child, never both; a menu with neither is rejected |
| ConfigFileParser.AppendMenu | configfileparser.cc:434 | An accepted menu is appended after the menus already parsed |
| ConfigFileParser.ParseMenuChildren | configfileparser.cc:357-423 | The loop over the menu's children computes `MenuFrom` |
| ConfigFileParser.ParseMenu | configfileparser.cc:341-434 | parseMenu appends the result of `MenuSpec` or fails |
| ConfigFileParser.DeviceEntry | configfileparser.cc:893-934 | `<physical>` sets the 16-bit physical address and `<logical>` the defined address; each fails exactly when its conversion fails, and any other child fails |
| ConfigFileParser.DeviceFrom | configfileparser.cc:890-935 | A device's children never touch the cached logical address |
| ConfigFileParser.LastPhysical | configfileparser.cc:895-910 | Reference definition: the address of the last `<physical>` child, or the starting value when there is none |
| ConfigFileParser.LastLogical | configfileparser.cc:911-927 | Reference definition: the address of the last `<logical>` child, or the starting value when there is none |
| ConfigFileParser.DeviceFromAddresses | configfileparser.cc:890-935 | An accepted device has the physical address of its last `<physical>` child and the logical address of its last `<logical>` child, or those of the starting device when there is none |
| ConfigFileParser.DeviceFromOk | configfileparser.cc:890-935 | The children are accepted exactly when every element child is; errors carry the `<device>` line |
| ConfigFileParser.DeviceSpec | configfileparser.cc:879-945 | A device without an id is rejected; an accepted one adds its id, keeps every existing entry, and is ignored when the id exists; under a new id it stores the device its children describe, starting from the default device |
| ConfigFileParser.ParseDevice | configfileparser.cc:879-945 | The loop over the device's children computes `DeviceSpec` |
| ConfigFileParser.TvDevice | configfileparser.cc:1051-1057 | The preinserted TV device: physical address 0, logical addresses TV |
| ConfigFileParser.DeviceIdsFrom | configfileparser.cc:1081-1085 | Reference definition: the ids of every `<device>` child of the root |
| ConfigFileParser.DevicesFrom | configfileparser.cc:1081-1085 | Every `<device>` child's id is registered, the keys are exactly the old ones plus those ids, and an existing entry never changes |
| ConfigFileParser.ParseDevices | configfileparser.cc:1051-1085 | The device map starts with TV and after parsing still holds the same TV device |
| ConfigFileParser.NewCommandHandler | configfileparser.h:47 | A default handler has opcode NONE and nothing else set |
| ConfigFileParser.DefaultGlobalOptions | configfileparser.h:64-85 | The global defaults: debug 7, combo timeout 1000, HDMI port 1, startup delay 0, physical address -1, base device unknown, every command list empty, no device types or handlers, RTC detection on, both standby flags off, key maps "default" |
| ConfigFileParser.FindMenu | configfileparser.cc:981-992 | Finds a menu exactly when one has the title, and returns the last such menu; otherwise the output is untouched |
| ConfigFileParser.CheckMenuReferences | configfileparser.cc:1113-1135 | The check passes exactly when every non-empty execmenu and stopmenu names a parsed menu |
| CecControl.ForwardedKey | ceccontrol.cc:83-87 | The forwarded press is a VDR key press of the key without its repeat flag, aimed at the menu's device |
| CecControl.DefaultKeymaps | cecremoteplugin.cc:423-428 | The default key maps are the VDR, CEC and global maps of the global options |
| CecControl.ProcessKeyR | ceccontrol.cc:63-89 | A stop key ends the player and submits nothing; kNone submits nothing; a key with its own list submits that list; any other key is forwarded; every non-stop key continues |
| CecControl.HeldKeyForwardedPlain | ceccontrol.cc:83-87 | A key held down is forwarded as the same plain press as a tap |
| CecControl.Control.constructor | ceccontrol.cc:28-36 | Activates the menu's key maps, then queues the menu's start list |
| CecControl.Control.Close | ceccontrol.cc:41-44 | Queues the menu's stop list and restores the default key maps |
| CecControl.Control.ProcessKey | ceccontrol.cc:63-89 | Returns and submits what `ProcessKeyR` says |
| StatusMonitor.ChannelSwitchR | statusmonitor.cc:29-73 | Only a switch of the primary device to a channel counts; vpid 0 is radio; the radio or TV list is submitted once when the kind changes from a known one, never on the first switch |
| StatusMonitor.ReplayingR | statusmonitor.cc:86-96 | The start of a replay is recorded and its list submitted only when no replay was recorded |
| StatusMonitor.SetVolumeR | statusmonitor.cc:108-162 | The monitor ends at the new volume; nothing is submitted when the volume is -1 or unchanged; otherwise one volume key for the audio device, up exactly when the volume rose, plus the control's volume list when a control runs |
| StatusMonitor.NewVolume | statusmonitor.cc:111-121 | An absolute volume is taken as it is; a relative change applies to the known volume, or to 128 while the known volume is not positive |
| StatusMonitor.SwitchRepeatSilent | statusmonitor.cc:47-58 | A second switch to the same kind of channel submits nothing and changes nothing |
| StatusMonitor.FirstVolumeChangeSent | statusmonitor.h:100-102 | From the initial state (volume 0) a relative change starts from 128, and a key goes out unless the change is -128, which leaves the volume at 0; a change of 0 sends a key |
| StatusMonitor.Monitor.constructor | statusmonitor.h:100-102 | The monitor starts with status UNKNOWN and volume 0 |
| StatusMonitor.Monitor.ChannelSwitch | statusmonitor.cc:29-73 | Updates the status and submits what `ChannelSwitchR` says |
| StatusMonitor.Monitor.Replay | statusmonitor.cc:86-96 | Updates the status and submits what `ReplayingR` says |
| StatusMonitor.Monitor.SetVolume | statusmonitor.cc:108-162 | Updates the volume and submits what `SetVolumeR` says |
| CecRemotePlugin.ConfigDir | cecremoteplugin.h:57-63 | An absolute directory is taken as it is, a relative one lies below VDR's configuration directory; either way the result ends in '/' |
| CecRemotePlugin.ConfigFile | cecremoteplugin.h:69-72 | The file name follows the configuration directory |
| CecRemotePlugin.DefaultConfigFile | cecremoteplugin.h:45-72 | By default the file is `<VDR config dir>/cecremote/cecremote.xml` |
| CecRemotePlugin.StartMode | cecremoteplugin.cc:152-168 | With RTC detection the start is manual exactly when the wake-up was not the RTC's; on an RTC error, or without detection, a wake-up time within 600 s makes it a timed start |
| CecRemotePlugin.StartModeFromDefault | cecremoteplugin.cc:152-168 | From the default manual start, the start is timed exactly when the RTC woke the host or VDR's wake-up time is near |
| CecRemotePlugin.SvdrpAnswer | cecremoteplugin.cc:364-416 | Reply 214 unless an error; VDRK, CECK or GLOK without an option and an unknown command give 901; STAT, LSTD, KEYM and LSTK answer the plugin status, the device list, the key-map list and the key-code list; VDRK, CECK and GLOK with an option answer the VDR, CEC or global listing of the key map the option names; DISC and CONN answer Disconnected and Connected |
| CecRemotePlugin.SvdrpSubmission | cecremoteplugin.cc:403-412 | DISC and CONN, and only they, submit DISCONNECT or CONNECT |
| CecRemotePlugin.SvdrpIgnoresCase | cecremoteplugin.cc:366-415 | Command names are matched case-insensitively |
| CecRemotePlugin.PlayerActionOf | cecremoteplugin.cc:264-278 | A still picture launches the player; without one a power toggle toggles and any other menu runs its start list |
| CecRemotePlugin.ParsedToggleMenusToggle | cecremoteplugin.cc:264-278 | A parsed power-toggle menu is always toggled, never launched |
| CecRemotePlugin.ToggleCmd | cecremoteplugin.h:78-81 | An EXECTOGGLE for the menu's device carrying its power-on and power-off lists |
| CecRemotePlugin.Plugin.constructor | cecremoteplugin.h:43-51 | Defaults: directory "cecremote", file "cecremote.xml", manual start, no control |
| CecRemotePlugin.Plugin.Initialize | cecremoteplugin.cc:142-179 | Fails and changes nothing without a parsed configuration; otherwise takes the options and debug level, decides the start mode and activates the default key maps |
| CecRemotePlugin.Plugin.ExecToggleMenu | cecremoteplugin.h:78-81 | Submits the menu's EXECTOGGLE synchronously with the next serial; the outcome is that of waiting for that serial |
| CecRemotePlugin.Plugin.StartPlayer | cecremoteplugin.cc:261-279 | A toggle menu is toggled, a menu without a still picture queues its start list, and otherwise a new control is launched with the menu's key maps and start list |
| CecRemotePlugin.Plugin.MainMenuAction | cecremoteplugin.cc:289-296 | With exactly one menu it starts that menu's player and opens no menu; otherwise nothing happens and a menu opens |
| CecRemotePlugin.Plugin.SvdrpCommand | cecremoteplugin.cc:364-416 | Answers what `SvdrpAnswer` says and submits DISCONNECT or CONNECT synchronously for DISC and CONN |

## Left out

- libCEC is not part of this model. The bus and adapter become the `Bus`/`Env` oracle, and no CEC wire framing is modelled. The constants taken from libCEC's headers are written out as in libCEC: CEC_USER_CONTROL_CODE_MAX 0x96, CEC_OPCODE_NONE 0xFD, CEC_DEFAULT_HDMI_PORT 1, CECDEVICE_UNKNOWN -1, TV 0, BROADCAST 15, and the log levels 1, 2 and 16.
- VDR's keys.h is not part of this model. kVolUp, kVolDn, kNone and k_Repeat have stand-in values, and nothing depends on them beyond their being distinct.
- The bodies of `TextViewOn`, `ActionKeyPress`, `CECCommand` and `ExecToggle` are not part of this model. Their calls are recorded in `busLog` with their arguments.
- Threads, mutexes, condition variables, sleeps and `Cancel` are not modelled. Each method is one atomic step, and a timeout is an input to the wait.
- `fork`, `setsid`, `close`, `execl` and `waitpid` are not modelled. The fork result and the child's exit are inputs.
- Logging (ceclog, the log callbacks, syslog) and the text of `ListDevices` and `getStatus` are not modelled.
- The XML library and the reading of line numbers from the file are not modelled. Nodes are a datatype, and a line is an integer carried by each element.
- The text of `cCECConfigException::what`, which appends to a static string on every call, is not modelled. Errors are a `Problem` value with its line.
- The still-picture player, the OSD and setup menus, and `ProcessArgs` (getopt) are not modelled.
- Key-map tables, the opcode names and the RTC wake-up check are declared only in keymaps.h, opcodemap.h and rtcwakeup.h. They are inputs: a key table, and the RTC result.
- StringTools.TextToInt: strtol's overflow to LONG_MIN/LONG_MAX and the truncation from long to int are not modelled; values are unbounded integers.
- `parseGlobal`, the three key-map parsers, `parseOnCecCommand` and the loop of `Parse` over the document are not modelled. This includes the root-element check of `Parse` (configfileparser.cc:1037-1043), which can never reject. `CecRemotePlugin.Plugin.Initialize` takes the outcome of parsing (the global options, or none on failure) as an input.
- The queue-size getters and the startup delay are not modelled.
- `::toupper` and `strcasecmp` are modelled in the "C" locale only; another process locale could upper-case or compare further characters.
- CecRemotePlugin.Plugin.constructor: the engine is handed to the plugin rather than created in `Initialize` from the options, and the libCEC configuration built from the options in `Connect` is not modelled.
- CecRemotePlugin.Plugin.StartPlayer: `cControl::Launch` replacing or deleting a player already in front is not modelled. The new control is recorded in `control`.
- `Start`, `Stop`, `Housekeeping`, `MainThreadHook`, `WakeupTime` and the other plugin hooks that only delegate or log are not modelled.
- The contents of the SVDRP listings (STAT, LSTD, KEYM, LSTK and the key-map dumps) are produced by code outside this model. The answer records which listing was asked for.
