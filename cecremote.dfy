/**
 * The CEC engine (cCECRemote): a worker that takes commands from a FIFO work
 * queue and turns them into adapter calls, a second queue that is serviced
 * while a shell command runs, producer operations that append to the
 * queues, and the completion handshake of synchronous submissions.
 *
 * The adapter and the bus are an oracle (`Bus`, `Env`); what the engine asks
 * of them is recorded in `busLog`, and every command whose dispatch finished is
 * recorded in `completed`. Threads are not modelled: each method is one atomic
 * step of a producer or of the worker, as the queue mutexes make it.
 */
module CecRemote {
  import opened Wrappers
  import opened Commands

  /** libCEC's CEC_USER_CONTROL_CODE_MAX and CEC_USER_CONTROL_CODE_UNKNOWN. */
  const UserControlCodeMax: int := 0x96
  const UserControlCodeUnknown: int := 0xFF
  /** WaitForPowerStatus polls at most this often (100 ms apart). */
  const MaxPowerPolls: nat := 50
  /** Default timeout of WaitCmd and PushWaitCmd, in milliseconds. */
  const DefaultTimeoutMs: int := 5000
  const InitialProcessedSerial: int := -1

  // ------------------------------------------------------------ the oracle

  datatype PowerStatus = StatusOn | StatusStandby | StatusToOn | StatusToStandby | StatusUnknown

  /**
   * What the adapter reports: the 16-slot active-device mask, the physical
   * address of each slot, the host's own logical addresses, the answer to a
   * poll of the configured address, and whether a power request is accepted.
   */
  datatype Bus = Bus(active: seq<bool>, physical: seq<Uint16>, own: seq<bool>,
                     pollOk: bool, requestOk: bool)
  {
    predicate Valid() { |active| == 16 && |physical| == 16 && |own| == 16 }
  }

  /** The outcome of opening the adapter: libcec initialisation, adapter
      detection and `Open` can each fail. */
  datatype OpenOutcome = InitFailed | NoAdapter | OpenFailed | Opened

  /** Everything a worker step learns from outside: the bus, the successive
      power-status readings, the result of an open, the plugin's start mode
      and the result of fork(). */
  datatype Env = Env(bus: Bus, readings: seq<PowerStatus>, open: OpenOutcome,
                     startManually: bool, forkOk: bool)
  {
    predicate Valid() { bus.Valid() && |readings| >= MaxPowerPolls }
  }

  /** libcec_alert. */
  datatype Alert = ServiceDevice | ConnectionLost | PermissionError | PortBusy
                 | PhysicalAddressError | TvPollFailed

  /** Adapter and host calls the engine makes. The bodies of TextViewOn,
      ActionKeyPress, CECCommand and ExecToggle are not part of this model:
      their calls are recorded with their arguments. */
  datatype BusCall =
    | PutKeys(code: int)
    | PowerOnRequest(addr: int)
    | StandbyRequest(addr: int)
    | PowerWait(addr: int, target: PowerStatus, polls: nat)
    | TextViewOnRequest(addr: int)
    | SetActiveSource
    | SetInactiveView
    | InjectKey(key: int, device: Device)
    | RunShell(command: string)
    | HandleOpcode(opcode: int, initiator: int)
    | Toggle(device: Device, powerOn: seq<Cmd>, powerOff: seq<Cmd>)
    | Open
    | SetPhysicalAddress(physical: Uint16)
    | Close

  /** The command lists and options the engine copies from the global options. */
  datatype Config = Config(onStart: seq<Cmd>, onStop: seq<Cmd>, onManualStart: seq<Cmd>,
                           physAddress: int)

  // ------------------------------------------------- device resolution

  predicate PhysMatch(bus: Bus, phys: int, j: int)
    requires bus.Valid()
  {
    0 <= j < 16 && bus.active[j] && bus.physical[j] == phys
  }

  /** The highest slot below n whose active device has physical address phys,
      or CECDEVICE_UNKNOWN. */
  function LastMatchBelow(bus: Bus, phys: int, n: nat): (j: int)
    requires bus.Valid() && n <= 16
    ensures j == CecDeviceUnknown || (0 <= j < n && PhysMatch(bus, phys, j))
    ensures j == CecDeviceUnknown ==> forall k :: 0 <= k < n ==> !PhysMatch(bus, phys, k)
    ensures forall k :: j < k < n ==> !PhysMatch(bus, phys, k)
  {
    if n == 0 then CecDeviceUnknown
    else if PhysMatch(bus, phys, n - 1) then n - 1
    else LastMatchBelow(bus, phys, n - 1)
  }

  /** The own-address mask answers false outside 0..15. */
  predicate IsOwn(bus: Bus, a: int)
    requires bus.Valid()
  {
    0 <= a < 16 && bus.own[a]
  }

  datatype Resolution = Resolution(addr: int, device: Device)

  /**
   * getLogical, as a reference definition: a cached address wins; otherwise an
   * active slot at the device's physical address, preferring the configured
   * logical address and else the last such slot; otherwise the configured
   * address, unless it is unset, is the host's own or does not answer a poll.
   */
  function Resolve(connected: bool, bus: Bus, dev: Device): Resolution
    requires bus.Valid()
  {
    if !connected then Resolution(CecDeviceUnknown, dev)
    else if dev.logicalUsed != CecDeviceUnknown then Resolution(dev.logicalUsed, dev)
    else if dev.physicalAddress != 0 && PhysMatch(bus, dev.physicalAddress, dev.logicalDefined) then
      Resolution(dev.logicalDefined, dev.(logicalUsed := dev.logicalDefined))
    else if dev.physicalAddress != 0 && LastMatchBelow(bus, dev.physicalAddress, 16) != CecDeviceUnknown then
      var j := LastMatchBelow(bus, dev.physicalAddress, 16);
      Resolution(j, dev.(logicalUsed := j))
    else if dev.logicalDefined == CecDeviceUnknown then Resolution(CecDeviceUnknown, dev)
    else if IsOwn(bus, dev.logicalDefined) then Resolution(CecDeviceUnknown, dev)
    else if !bus.pollOk then Resolution(CecDeviceUnknown, dev)
    else Resolution(dev.logicalDefined, dev.(logicalUsed := dev.logicalDefined))
  }

  /** A resolved address is a real address: the cached one, an active slot at
      the device's physical address, or the configured one, which is not the
      host's own and answered the poll. The device changes only in its cached
      address, which becomes the result; an unresolved device is unchanged. */
  lemma ResolveSound(connected: bool, bus: Bus, dev: Device)
    requires bus.Valid()
    ensures var r := Resolve(connected, bus, dev);
      (r.addr == CecDeviceUnknown ==> r.device == dev) &&
      (r.addr != CecDeviceUnknown ==>
         connected &&
         r.device == dev.(logicalUsed := r.addr) &&
         (r.addr == dev.logicalUsed ||
          (dev.logicalUsed == CecDeviceUnknown && dev.physicalAddress != 0 &&
           PhysMatch(bus, dev.physicalAddress, r.addr)) ||
          (dev.logicalUsed == CecDeviceUnknown && r.addr == dev.logicalDefined &&
           !IsOwn(bus, r.addr) && bus.pollOk)))
  {
  }

  /** Among several active slots at the device's physical address, the
      configured logical address wins, and otherwise the highest slot. */
  lemma {:induction false} ResolvePhysicalChoice(bus: Bus, dev: Device)
    requires bus.Valid()
    requires dev.logicalUsed == CecDeviceUnknown && dev.physicalAddress != 0
    requires exists j :: 0 <= j < 16 && PhysMatch(bus, dev.physicalAddress, j)
    ensures var r := Resolve(true, bus, dev);
      PhysMatch(bus, dev.physicalAddress, r.addr) &&
      (PhysMatch(bus, dev.physicalAddress, dev.logicalDefined) ==> r.addr == dev.logicalDefined) &&
      (!PhysMatch(bus, dev.physicalAddress, dev.logicalDefined) ==>
         forall k :: r.addr < k < 16 ==> !PhysMatch(bus, dev.physicalAddress, k))
  {
    var j :| 0 <= j < 16 && PhysMatch(bus, dev.physicalAddress, j);
    assert LastMatchBelow(bus, dev.physicalAddress, 16) != CecDeviceUnknown;
  }

  /** Resolution is stable: once a device has been resolved, resolving the
      updated device again gives the same address on any bus, without a
      query. */
  lemma ResolveStable(bus: Bus, bus': Bus, dev: Device)
    requires bus.Valid() && bus'.Valid()
    requires Resolve(true, bus, dev).addr != CecDeviceUnknown
    ensures var r := Resolve(true, bus, dev);
      Resolve(true, bus', r.device) == r
  {
    ResolveSound(true, bus, dev);
  }

  // ---------------------------------------------------- power polling

  /** The number of status polls WaitForPowerStatus makes from poll `cnt` on. */
  function PollsFrom(target: PowerStatus, readings: seq<PowerStatus>, cnt: nat): nat
    requires cnt < MaxPowerPolls <= |readings|
    decreases MaxPowerPolls - cnt
  {
    var status := readings[cnt];
    if status != target && cnt + 1 < MaxPowerPolls && status != StatusUnknown then
      PollsFrom(target, readings, cnt + 1)
    else cnt + 1
  }

  function PollCount(target: PowerStatus, readings: seq<PowerStatus>): nat
    requires MaxPowerPolls <= |readings|
  {
    PollsFrom(target, readings, 0)
  }

  /** The poll count stops at the first reading that is the target or unknown,
      and never exceeds 50. */
  lemma {:induction false} PollsFromBounds(target: PowerStatus, readings: seq<PowerStatus>, cnt: nat)
    requires cnt < MaxPowerPolls <= |readings|
    requires forall i :: 0 <= i < cnt ==> readings[i] != target && readings[i] != StatusUnknown
    ensures var n := PollsFrom(target, readings, cnt);
      cnt < n <= MaxPowerPolls &&
      (forall i :: 0 <= i < n - 1 ==> readings[i] != target && readings[i] != StatusUnknown) &&
      (n < MaxPowerPolls ==> readings[n - 1] == target || readings[n - 1] == StatusUnknown)
    decreases MaxPowerPolls - cnt
  {
    var status := readings[cnt];
    if status != target && cnt + 1 < MaxPowerPolls && status != StatusUnknown {
      PollsFromBounds(target, readings, cnt + 1);
    }
  }

  // ------------------------------------------------------- engine state

  /** The fields of cCECRemote the model tracks, and the two traces. */
  datatype Engine = Engine(
    workerQueue: seq<Cmd>,
    execQueue: seq<Cmd>,
    connected: bool,
    processedSerial: int,
    inExec: bool,
    deferredStartup: bool,
    running: bool,
    execCmd: Cmd,
    lastKey: int,
    busLog: seq<BusCall>,
    completed: seq<Cmd>)

  function InitialEngine(): Engine
  {
    Engine([], [], false, InitialProcessedSerial, false, false, false, DefaultCmd(),
           UserControlCodeUnknown, [], [])
  }

  /** The serial of the last completed command that carried one, or -1. */
  function LastSerial(done: seq<Cmd>): int
  {
    if done == [] then -1
    else if done[|done| - 1].serial != -1 then done[|done| - 1].serial
    else LastSerial(done[..|done| - 1])
  }

  /** The completion invariant: the published serial is that of the last
      completed command that had one. */
  predicate Inv(e: Engine)
  {
    e.processedSerial == LastSerial(e.completed)
  }

  lemma InitialInv()
    ensures Inv(InitialEngine())
  {
  }

  /** A published serial belongs to a command whose dispatch has finished. */
  lemma {:induction false} PublishedSerialWasCompleted(done: seq<Cmd>)
    requires LastSerial(done) != -1
    ensures exists i :: 0 <= i < |done| && done[i].serial == LastSerial(done)
  {
    if done[|done| - 1].serial == -1 {
      PublishedSerialWasCompleted(done[..|done| - 1]);
      var i :| 0 <= i < |done| - 1 && done[..|done| - 1][i].serial == LastSerial(done[..|done| - 1]);
      assert done[i].serial == LastSerial(done);
    }
  }

  // ------------------------------------------------ transition functions

  function Log(e: Engine, call: BusCall): Engine
  {
    e.(busLog := e.busLog + [call])
  }

  /** PushCmd: append one command to the work queue. */
  function PushCmdT(e: Engine, c: Cmd): Engine
  {
    e.(workerQueue := e.workerQueue + [c])
  }

  /** PushCmdQueue: append a list to the work queue, or drop it while the
      adapter is disconnected. */
  function PushCmdQueueT(e: Engine, cmds: seq<Cmd>): Engine
  {
    if !e.connected then e else e.(workerQueue := e.workerQueue + cmds)
  }

  /** A submission a plugin component makes through PushCmd or PushCmdQueue. */
  datatype Push = PushOne(cmd: Cmd) | PushList(cmds: seq<Cmd>)

  /** The engine after one submission. */
  function SubmitT(e: Engine, p: Push): Engine
  {
    match p
    case PushOne(c) => PushCmdT(e, c)
    case PushList(cmds) => PushCmdQueueT(e, cmds)
  }

  /** The engine after the submissions, in order. */
  function DeliverT(e: Engine, ps: seq<Push>): Engine
    decreases |ps|
  {
    if ps == [] then e else DeliverT(SubmitT(e, ps[0]), ps[1..])
  }

  /** The routing of PushWaitCmd: CONNECT and DISCONNECT go to the exec queue
      while a shell command runs, everything else to the work queue. */
  function RouteT(e: Engine, c: Cmd): Engine
  {
    if (c.kind == Connect || c.kind == Disconnect) && e.inExec then
      e.(execQueue := e.execQueue + [c])
    else
      e.(workerQueue := e.workerQueue + [c])
  }

  function ReconnectCmd(): Cmd { NewCmd(Reconnect, -1, None, "") }

  /** Reconnect: a RECONNECT at the head of the queue the worker is reading. */
  function ReconnectT(e: Engine): Engine
  {
    if e.inExec then e.(execQueue := [ReconnectCmd()] + e.execQueue)
    else e.(workerQueue := [ReconnectCmd()] + e.workerQueue)
  }

  /** Startup: start the worker; push the start lists now, or defer them until
      the adapter is open. */
  function StartupT(e: Engine, cfg: Config, startManually: bool): Engine
  {
    var e1 := e.(running := true);
    if !e1.connected then e1.(deferredStartup := true)
    else
      var e2 := if startManually then PushCmdQueueT(e1, cfg.onManualStart) else e1;
      PushCmdQueueT(e2, cfg.onStart)
  }

  /** Connect: nothing when already open; otherwise open the adapter and, if
      startup was deferred, run it now. */
  function ConnectT(e: Engine, cfg: Config, env: Env): Engine
  {
    if e.connected || env.open != Opened then e
    else
      var e1 := e.(connected := true,
                   busLog := e.busLog + [Open] +
                     (if cfg.physAddress != 0 then [SetPhysicalAddress(cfg.physAddress % 0x1_0000)] else []));
      if e1.deferredStartup then StartupT(e1.(deferredStartup := false), cfg, env.startManually)
      else e1
  }

  /** Disconnect: close an open adapter; the adapter is gone afterwards. */
  function DisconnectT(e: Engine): Engine
  {
    e.(connected := false,
       busLog := if e.connected then e.busLog + [SetInactiveView, Close] else e.busLog)
  }

  /** The end of an iteration: a command that carries a serial publishes it. */
  function PublishT(e: Engine, c: Cmd): Engine
  {
    e.(processedSerial := if c.serial != -1 then c.serial else e.processedSerial,
       completed := e.completed + [c])
  }

  /** POWERON / POWEROFF while connected. */
  function PowerT(e: Engine, env: Env, dev: Device, on: bool): Engine
    requires env.Valid()
  {
    var addr := Resolve(true, env.bus, dev).addr;
    var target := if on then StatusOn else StatusStandby;
    var wait := PowerWait(addr, target, PollCount(target, env.readings));
    if addr != CecDeviceUnknown then
      var e1 := Log(e, if on then PowerOnRequest(addr) else StandbyRequest(addr));
      if env.bus.requestOk then Log(e1, wait) else e1
    else Log(e, wait)
  }

  /** The switch of the worker loop, for every kind but EXECSHELL. */
  function WorkT(e: Engine, cfg: Config, env: Env, c: Cmd): Engine
    requires env.Valid()
  {
    match c.kind
    case KeyPress => if 0 <= c.val <= UserControlCodeMax then Log(e, PutKeys(c.val)) else e
    case PowerOn => if e.connected then PowerT(e, env, c.device, true) else e
    case PowerOff => if e.connected then PowerT(e, env, c.device, false) else e
    case TextViewOn =>
      if e.connected && Resolve(true, env.bus, c.device).addr != CecDeviceUnknown then
        Log(e, TextViewOnRequest(Resolve(true, env.bus, c.device).addr))
      else e
    case MakeActive => if e.connected then Log(e, SetActiveSource) else e
    case MakeInactive => if e.connected then Log(e, SetInactiveView) else e
    case VdrKeyPress => if e.connected then Log(e, InjectKey(c.val, c.device)) else e
    case ExecShell => e
    case Exit => DisconnectT(e.(running := false))
    case Reconnect => ConnectT(DisconnectT(e), cfg, env)
    case Connect => ConnectT(e, cfg, env)
    case Disconnect => DisconnectT(e)
    case Command => Log(e, HandleOpcode(c.opcode, c.sourceAddress))
    case ExecToggle => Log(e, Toggle(c.device, c.powerOn, c.powerOff))
    case Invalid => e
  }

  /** One command through the worker loop. EXECSHELL with a successful fork
      enters the exec loop; its serial is published when that loop ends. */
  function DispatchT(e: Engine, cfg: Config, env: Env, c: Cmd): Engine
    requires env.Valid()
  {
    if c.kind == ExecShell then
      if env.forkOk then Log(e.(inExec := true, execCmd := c), RunShell(c.exec))
      else PublishT(e, c)
    else PublishT(WorkT(e, cfg, env, c), c)
  }

  /** One iteration of the worker loop: stop when cancelled, keep waiting on an
      empty queue, otherwise dispatch the head of the queue. */
  function ActionStepT(e: Engine, cfg: Config, env: Env): Engine
    requires env.Valid()
  {
    if !e.running || e.workerQueue == [] then e
    else DispatchT(e.(workerQueue := e.workerQueue[1..]), cfg, env, e.workerQueue[0])
  }

  /** The switch of the exec loop. */
  function ExecWorkT(e: Engine, cfg: Config, env: Env, c: Cmd): Engine
  {
    match c.kind
    case Reconnect => ConnectT(DisconnectT(e), cfg, env)
    case Connect => ConnectT(e, cfg, env)
    case Disconnect => DisconnectT(e)
    case _ => e
  }

  function ExitCmd(): Cmd { NewCmd(Exit, -1, None, "") }

  /** One command through the exec loop; EXIT ends the loop and finishes the
      EXECSHELL command that started it. */
  function ExecDispatchT(e: Engine, cfg: Config, env: Env, c: Cmd): Engine
  {
    var e1 := PublishT(ExecWorkT(e, cfg, env, c), c);
    if c.kind == Exit then PublishT(e1.(inExec := false), e1.execCmd) else e1
  }

  /** One iteration of the exec loop: the head of the exec queue, else EXIT
      once the wait timed out and the child has exited, else keep waiting. */
  function ExecStepT(e: Engine, cfg: Config, env: Env, childExited: bool): Engine
  {
    if e.execQueue != [] then ExecDispatchT(e.(execQueue := e.execQueue[1..]), cfg, env, e.execQueue[0])
    else if childExited then ExecDispatchT(e, cfg, env, ExitCmd())
    else e
  }

  /** The key-press callback: valid codes are queued, except a repeat of the
      previous code that reports a duration. */
  function KeyPressT(e: Engine, keycode: int, duration: int): Engine
  {
    if 0 <= keycode <= UserControlCodeMax && (duration == 0 || keycode != e.lastKey) then
      PushCmdT(e.(lastKey := keycode), NewCmd(KeyPress, keycode, None, ""))
    else e
  }

  /** The command callback: queue the opcode unless the adapter is gone. */
  function CommandReceivedT(e: Engine, opcode: int, initiator: int): Engine
  {
    if !e.connected then e else PushCmdT(e, NewOpcodeCmd(Command, opcode, initiator))
  }

  /** The alert callback: a lost connection schedules a reconnect. */
  function AlertT(e: Engine, alert: Alert): Engine
  {
    if alert == ConnectionLost then ReconnectT(e) else e
  }

  // ------------------------------------------------ the synchronous wait

  /** One wake-up of PushWaitCmd's wait: whether the condition was signalled
      before the timeout, and the published serial it then reads. */
  datatype WakeUp = WakeUp(signaled: bool, processed: int)

  datatype WaitOutcome = Completed | TimedOut | StillWaiting

  /** How a wait ended, and how many wake-ups it consumed. */
  datatype WaitResult = WaitResult(rounds: nat, outcome: WaitOutcome)

  /** A wake-up after which the wait goes on: signalled, with another serial published. */
  predicate Passes(w: WakeUp, serial: int)
  {
    w.signaled && w.processed != serial
  }

  /**
   * The wait of PushWaitCmd from wake-up k on: it leaves as soon as its own
   * serial is published or a wait times out, and on nothing else. A timeout
   * is reported as such even if the serial was published meanwhile.
   */
  function WaitFrom(serial: int, rounds: seq<WakeUp>, k: nat): (r: WaitResult)
    requires k <= |rounds|
    ensures k <= r.rounds <= |rounds|
    ensures forall i :: k <= i < r.rounds - 1 ==> Passes(rounds[i], serial)
    ensures r.outcome == StillWaiting <==>
              r.rounds == |rounds| && forall i :: k <= i < |rounds| ==> Passes(rounds[i], serial)
    ensures r.outcome == TimedOut <==> r.rounds > k && !rounds[r.rounds - 1].signaled
    ensures r.outcome == Completed <==>
              r.rounds > k && rounds[r.rounds - 1].signaled && rounds[r.rounds - 1].processed == serial
    decreases |rounds| - k
  {
    if k == |rounds| then WaitResult(k, StillWaiting)
    else if Passes(rounds[k], serial) then WaitFrom(serial, rounds, k + 1)
    else WaitResult(k + 1, if rounds[k].signaled then Completed else TimedOut)
  }

  /** The wait loop of PushWaitCmd, `while (processed != serial && signaled)`. */
  method AwaitSerial(serial: int, rounds: seq<WakeUp>) returns (n: nat, outcome: WaitOutcome)
    ensures WaitResult(n, outcome) == WaitFrom(serial, rounds, 0)
  {
    n := 0;
    while n < |rounds|
      invariant n <= |rounds|
      invariant WaitFrom(serial, rounds, n) == WaitFrom(serial, rounds, 0)
    {
      var w := rounds[n];
      n := n + 1;
      if !(w.processed != serial && w.signaled) {
        outcome := if w.signaled then Completed else TimedOut;
        return;
      }
    }
    outcome := StillWaiting;
  }

  // ------------------------------------------------------------ the class

  class Remote {
    const cfg: Config
    var workerQueue: seq<Cmd>
    var execQueue: seq<Cmd>
    var connected: bool
    var processedSerial: int
    var inExec: bool
    var deferredStartup: bool
    var running: bool
    var execCmd: Cmd
    var lastKey: int
    var busLog: seq<BusCall>
    var completed: seq<Cmd>

    function Snapshot(): Engine
      reads this
    {
      Engine(workerQueue, execQueue, connected, processedSerial, inExec, deferredStartup,
             running, execCmd, lastKey, busLog, completed)
    }

    constructor (cfg: Config)
      ensures this.cfg == cfg && Snapshot() == InitialEngine()
    {
      this.cfg := cfg;
      workerQueue, execQueue := [], [];
      connected := false;
      processedSerial := InitialProcessedSerial;
      inExec, deferredStartup, running := false, false, false;
      execCmd := DefaultCmd();
      lastKey := UserControlCodeUnknown;
      busLog, completed := [], [];
    }

    /** IsConnected: the adapter handle is set. */
    function IsConnected(): (b: bool)
      reads this
      ensures b <==> Snapshot().connected
    {
      connected
    }

    // ---- producers

    method PushCmd(c: Cmd)
      modifies this
      ensures Snapshot() == PushCmdT(old(Snapshot()), c)
    {
      workerQueue := workerQueue + [c];
    }

    method PushCmdQueue(cmds: seq<Cmd>)
      modifies this
      ensures Snapshot() == PushCmdQueueT(old(Snapshot()), cmds)
    {
      if !connected {
        return;
      }
      var i := 0;
      while i < |cmds|
        invariant 0 <= i <= |cmds|
        invariant Snapshot() == old(Snapshot()).(workerQueue := old(workerQueue) + cmds[..i])
      {
        workerQueue := workerQueue + [cmds[i]];
        i := i + 1;
        assert cmds[..i] == cmds[..i - 1] + [cmds[i - 1]];
      }
      assert cmds[..i] == cmds;
    }

    /** PushWaitCmd: tag the command with a fresh serial, route it, and wait
        for that serial or a timeout. */
    method PushWaitCmd(c: Cmd, alloc: SerialAllocator, timeoutMs: int, rounds: seq<WakeUp>)
      returns (sent: Cmd, outcome: WaitOutcome)
      requires alloc.Valid()
      modifies this, alloc
      ensures alloc.Valid()
      ensures sent == c.(serial := NextSerial(old(alloc.serial))) && sent.serial == alloc.serial
      ensures Snapshot() == RouteT(old(Snapshot()), sent)
      ensures outcome == WaitFrom(sent.serial, rounds, 0).outcome
    {
      var serial := alloc.GetSerial();
      sent := c.(serial := serial);
      if (sent.kind.Connect? || sent.kind.Disconnect?) && inExec {
        execQueue := execQueue + [sent];
      } else {
        workerQueue := workerQueue + [sent];
      }
      var _, o := AwaitSerial(serial, rounds);
      outcome := o;
    }

    method Reconnect()
      modifies this
      ensures Snapshot() == ReconnectT(old(Snapshot()))
    {
      var cmd := NewCmd(Commands.Reconnect, -1, None, "");
      if inExec {
        execQueue := [cmd] + execQueue;
      } else {
        workerQueue := [cmd] + workerQueue;
      }
    }

    method Startup(startManually: bool)
      modifies this
      ensures Snapshot() == StartupT(old(Snapshot()), cfg, startManually)
    {
      running := true;
      if !connected {
        deferredStartup := true;
      } else {
        if startManually {
          PushCmdQueue(cfg.onManualStart);
        }
        PushCmdQueue(cfg.onStart);
      }
    }

    /** Stop: push the stop list, then submit EXIT synchronously. */
    method Stop(alloc: SerialAllocator, rounds: seq<WakeUp>) returns (sent: Cmd, outcome: WaitOutcome)
      requires alloc.Valid()
      modifies this, alloc
      ensures alloc.Valid()
      ensures sent == ExitCmd().(serial := NextSerial(old(alloc.serial)))
      ensures Snapshot() == RouteT(PushCmdQueueT(old(Snapshot()), cfg.onStop), sent)
      ensures outcome == WaitFrom(sent.serial, rounds, 0).outcome
    {
      PushCmdQueue(cfg.onStop);
      sent, outcome := PushWaitCmd(ExitCmd(), alloc, DefaultTimeoutMs, rounds);
    }

    method KeyPressCallback(keycode: int, duration: int)
      modifies this
      ensures Snapshot() == KeyPressT(old(Snapshot()), keycode, duration)
    {
      if 0 <= keycode <= UserControlCodeMax && (duration == 0 || keycode != lastKey) {
        lastKey := keycode;
        PushCmd(NewCmd(KeyPress, keycode, None, ""));
      }
    }

    method CommandCallback(opcode: int, initiator: int)
      modifies this
      ensures Snapshot() == CommandReceivedT(old(Snapshot()), opcode, initiator)
    {
      if !connected {
        return;
      }
      PushCmd(NewOpcodeCmd(Command, opcode, initiator));
    }

    method AlertCallback(alert: Alert)
      modifies this
      ensures Snapshot() == AlertT(old(Snapshot()), alert)
    {
      if alert == ConnectionLost {
        Reconnect();
      }
    }

    // ---- adapter connection

    method Connect(env: Env)
      modifies this
      ensures Snapshot() == ConnectT(old(Snapshot()), cfg, env)
    {
      if connected {
        return;
      }
      if env.open != Opened {
        return;
      }
      connected := true;
      busLog := busLog + [Open];
      if cfg.physAddress != 0 {
        busLog := busLog + [SetPhysicalAddress(cfg.physAddress % 0x1_0000)];
      }
      if deferredStartup {
        deferredStartup := false;
        Startup(env.startManually);
      }
    }

    method Disconnect()
      modifies this
      ensures Snapshot() == DisconnectT(old(Snapshot()))
    {
      if connected {
        busLog := busLog + [SetInactiveView, Close];
      }
      connected := false;
    }

    // ---- worker

    /** getLogical: resolve a device to a logical address, scanning the 16
        slots of the active-device mask. */
    method GetLogical(bus: Bus, dev: Device) returns (addr: int, dev': Device)
      requires bus.Valid()
      ensures Resolution(addr, dev') == Resolve(connected, bus, dev)
    {
      if !connected {
        return CecDeviceUnknown, dev;
      }
      var found := CecDeviceUnknown;
      if dev.logicalUsed != CecDeviceUnknown {
        return dev.logicalUsed, dev;
      }
      dev' := dev;
      if dev.physicalAddress != 0 {
        var j := 0;
        while j < 16
          invariant 0 <= j <= 16
          invariant found == LastMatchBelow(bus, dev.physicalAddress, j)
          invariant dev' == if found == CecDeviceUnknown then dev else dev.(logicalUsed := found)
          invariant !(dev.logicalDefined < j && PhysMatch(bus, dev.physicalAddress, dev.logicalDefined))
        {
          if bus.active[j] {
            if dev.physicalAddress == bus.physical[j] {
              dev' := dev'.(logicalUsed := j);
              found := j;
              if dev.logicalDefined == j {
                return j, dev';
              }
            }
          }
          j := j + 1;
        }
      }
      if found != CecDeviceUnknown {
        return found, dev';
      }
      if dev.logicalDefined == CecDeviceUnknown {
        return CecDeviceUnknown, dev;
      }
      if IsOwn(bus, dev.logicalDefined) {
        return CecDeviceUnknown, dev;
      }
      if !bus.pollOk {
        return CecDeviceUnknown, dev;
      }
      dev' := dev.(logicalUsed := dev.logicalDefined);
      return dev.logicalDefined, dev';
    }

    /** WaitForPowerStatus: poll until the target status, an unknown status,
        or 50 polls. */
    method WaitForPowerStatus(addr: int, target: PowerStatus, readings: seq<PowerStatus>)
      returns (polls: nat)
      requires |readings| >= MaxPowerPolls
      ensures 1 <= polls <= MaxPowerPolls
      ensures forall i :: 0 <= i < polls - 1 ==> readings[i] != target && readings[i] != StatusUnknown
      ensures polls < MaxPowerPolls ==> readings[polls - 1] == target || readings[polls - 1] == StatusUnknown
      ensures polls == PollCount(target, readings)
    {
      var cnt := 0;
      var status := readings[cnt];
      cnt := cnt + 1;
      while status != target && cnt < MaxPowerPolls && status != StatusUnknown
        invariant 1 <= cnt <= MaxPowerPolls
        invariant status == readings[cnt - 1]
        invariant forall i :: 0 <= i < cnt - 1 ==> readings[i] != target && readings[i] != StatusUnknown
        invariant PollsFrom(target, readings, cnt - 1) == PollCount(target, readings)
        decreases MaxPowerPolls - cnt
      {
        status := readings[cnt];
        cnt := cnt + 1;
      }
      polls := cnt;
    }

    method Power(env: Env, dev: Device, on: bool)
      requires env.Valid() && connected
      modifies this
      ensures Snapshot() == PowerT(old(Snapshot()), env, dev, on)
    {
      var addr, _ := GetLogical(env.bus, dev);
      var target := if on then StatusOn else StatusStandby;
      if addr != CecDeviceUnknown {
        busLog := busLog + [if on then PowerOnRequest(addr) else StandbyRequest(addr)];
      }
      if addr != CecDeviceUnknown && !env.bus.requestOk {
        return;
      }
      var polls := WaitForPowerStatus(addr, target, env.readings);
      busLog := busLog + [PowerWait(addr, target, polls)];
    }

    method Work(env: Env, c: Cmd)
      requires env.Valid()
      modifies this
      ensures Snapshot() == WorkT(old(Snapshot()), cfg, env, c)
    {
      match c.kind {
        case KeyPress =>
          if 0 <= c.val <= UserControlCodeMax {
            busLog := busLog + [PutKeys(c.val)];
          }
        case PowerOn =>
          if connected { Power(env, c.device, true); }
        case PowerOff =>
          if connected { Power(env, c.device, false); }
        case TextViewOn =>
          if connected {
            var addr, _ := GetLogical(env.bus, c.device);
            if addr != CecDeviceUnknown {
              busLog := busLog + [TextViewOnRequest(addr)];
            }
          }
        case MakeActive =>
          if connected { busLog := busLog + [SetActiveSource]; }
        case MakeInactive =>
          if connected { busLog := busLog + [SetInactiveView]; }
        case VdrKeyPress =>
          if connected { busLog := busLog + [InjectKey(c.val, c.device)]; }
        case ExecShell =>
        case Exit =>
          running := false;
          Disconnect();
        case Reconnect =>
          Disconnect();
          Connect(env);
        case Connect =>
          Connect(env);
        case Disconnect =>
          Disconnect();
        case Command =>
          busLog := busLog + [HandleOpcode(c.opcode, c.sourceAddress)];
        case ExecToggle =>
          busLog := busLog + [Toggle(c.device, c.powerOn, c.powerOff)];
        case Invalid =>
      }
    }

    method Publish(c: Cmd)
      modifies this
      ensures Snapshot() == PublishT(old(Snapshot()), c)
    {
      if c.serial != -1 {
        processedSerial := c.serial;
      }
      completed := completed + [c];
    }

    /** WaitCmd: take the head of the work queue, or report that the worker
        is still waiting. */
    method WaitCmd() returns (c: Option<Cmd>)
      modifies this
      ensures old(workerQueue) == [] ==> c == None && Snapshot() == old(Snapshot())
      ensures old(workerQueue) != [] ==>
        c == Some(old(workerQueue)[0]) && Snapshot() == old(Snapshot()).(workerQueue := old(workerQueue)[1..])
    {
      if workerQueue == [] {
        return None;
      }
      c := Some(workerQueue[0]);
      workerQueue := workerQueue[1..];
    }

    /** One iteration of the worker loop of Action. */
    method ActionStep(env: Env)
      requires env.Valid() && !inExec
      modifies this
      ensures Snapshot() == ActionStepT(old(Snapshot()), cfg, env)
    {
      if !running {
        return;
      }
      var next := WaitCmd();
      if next.None? {
        return;
      }
      var c := next.value;
      if c.kind == ExecShell {
        if env.forkOk {
          inExec := true;
          execCmd := c;
          busLog := busLog + [RunShell(c.exec)];
        } else {
          Publish(c);
        }
      } else {
        Work(env, c);
        Publish(c);
      }
    }

    /** The switch of the exec loop: only the connection commands act. */
    method ExecWork(env: Env, c: Cmd)
      modifies this
      ensures Snapshot() == ExecWorkT(old(Snapshot()), cfg, env, c)
    {
      match c.kind {
        case Reconnect =>
          Disconnect();
          Connect(env);
        case Connect =>
          Connect(env);
        case Disconnect =>
          Disconnect();
        case _ =>
      }
    }

    /** One iteration of the exec loop (Exec and WaitExec). */
    method ExecStep(env: Env, childExited: bool)
      requires inExec
      modifies this
      ensures Snapshot() == ExecStepT(old(Snapshot()), cfg, env, childExited)
      ensures !inExec <==> if old(execQueue) != [] then old(execQueue)[0].kind == Exit else childExited
    {
      var c: Cmd;
      if execQueue != [] {
        c := execQueue[0];
        execQueue := execQueue[1..];
      } else if childExited {
        c := ExitCmd();
      } else {
        return;
      }
      ExecWork(env, c);
      Publish(c);
      if c.kind == Exit {
        inExec := false;
        Publish(execCmd);
      }
    }
  }
}
