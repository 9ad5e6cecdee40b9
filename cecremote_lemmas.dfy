/**
 * Properties of the CEC engine's transitions: the completion invariant of
 * synchronous submissions, FIFO dispatch, servicing during a shell command,
 * reconnection and deferred startup.
 */
module CecRemoteLemmas {
  import opened Wrappers
  import opened Commands
  import opened CecRemote

  // ------------------------------------------------ completion invariant

  lemma {:induction false} LastSerialAppend(done: seq<Cmd>, c: Cmd)
    ensures LastSerial(done + [c]) == if c.serial != -1 then c.serial else LastSerial(done)
  {
    assert (done + [c])[..|done|] == done;
  }

  /** Publishing keeps the published serial equal to the last completed one. */
  lemma PublishKeepsInv(e: Engine, c: Cmd)
    requires Inv(e)
    ensures Inv(PublishT(e, c))
  {
    LastSerialAppend(e.completed, c);
  }

  /** `r` leaves completion, the exec state and the exec queue as in `e`,
      and its work queue only grew at the end. */
  predicate Framed(e: Engine, r: Engine)
  {
    r.processedSerial == e.processedSerial && r.completed == e.completed &&
    r.inExec == e.inExec && r.execQueue == e.execQueue && r.execCmd == e.execCmd &&
    e.workerQueue <= r.workerQueue
  }

  /** Connecting and disconnecting change neither the traces of completion nor
      the exec state, and only append to the work queue. */
  lemma ConnectionFrame(e: Engine, cfg: Config, env: Env)
    ensures Framed(e, ConnectT(e, cfg, env)) && (e.running ==> ConnectT(e, cfg, env).running)
    ensures var r := DisconnectT(e);
      Framed(e, r) && r.workerQueue == e.workerQueue && r.running == e.running && !r.connected
  {
  }

  /** The worker's switch leaves completion, the exec state and the exec queue
      alone; it only appends to the work queue; only EXIT stops the worker. */
  lemma WorkFrame(e: Engine, cfg: Config, env: Env, c: Cmd)
    requires env.Valid()
    ensures Framed(e, WorkT(e, cfg, env, c))
    ensures c.kind == Exit ==> !WorkT(e, cfg, env, c).running
    ensures c.kind != Exit && e.running ==> WorkT(e, cfg, env, c).running
  {
    if c.kind.Reconnect? || c.kind.Connect? || c.kind.Disconnect? || c.kind.Exit? {
      ConnectionWorkFrame(e, cfg, env, c);
    } else if c.kind.PowerOn? || c.kind.PowerOff? {
      PowerFrame(e, env, c.device, c.kind.PowerOn?);
    } else {
      BusWorkFrame(e, cfg, env, c);
    }
  }

  /** WorkFrame for the commands that connect or disconnect. */
  lemma ConnectionWorkFrame(e: Engine, cfg: Config, env: Env, c: Cmd)
    requires env.Valid()
    requires c.kind.Reconnect? || c.kind.Connect? || c.kind.Disconnect? || c.kind.Exit?
    ensures Framed(e, WorkT(e, cfg, env, c))
    ensures c.kind == Exit ==> !WorkT(e, cfg, env, c).running
    ensures c.kind != Exit && e.running ==> WorkT(e, cfg, env, c).running
  {
    if c.kind == Reconnect {
      ConnectionFrame(e, cfg, env);
      ConnectionFrame(DisconnectT(e), cfg, env);
    } else if c.kind == Exit {
      ConnectionFrame(e.(running := false), cfg, env);
    } else {
      ConnectionFrame(e, cfg, env);
    }
  }

  /** WorkFrame for the commands that only talk to the bus: they change the
      bus trace and nothing else. */
  lemma BusWorkFrame(e: Engine, cfg: Config, env: Env, c: Cmd)
    requires env.Valid()
    requires !(c.kind.Reconnect? || c.kind.Connect? || c.kind.Disconnect? || c.kind.Exit?)
    requires !(c.kind.PowerOn? || c.kind.PowerOff?)
    ensures WorkT(e, cfg, env, c) == e.(busLog := WorkT(e, cfg, env, c).busLog)
  {
  }

  lemma PowerFrame(e: Engine, env: Env, dev: Device, on: bool)
    requires env.Valid()
    ensures PowerT(e, env, dev, on) == e.(busLog := PowerT(e, env, dev, on).busLog)
  {
  }

  /** Every worker iteration keeps the completion invariant. */
  lemma ActionStepKeepsInv(e: Engine, cfg: Config, env: Env)
    requires env.Valid() && Inv(e)
    ensures Inv(ActionStepT(e, cfg, env))
  {
    if e.running && e.workerQueue != [] {
      var e1 := e.(workerQueue := e.workerQueue[1..]);
      var c := e.workerQueue[0];
      WorkFrame(e1, cfg, env, c);
      PublishKeepsInv(WorkT(e1, cfg, env, c), c);
      PublishKeepsInv(e1, c);
    }
  }

  /** Every exec-loop iteration keeps the completion invariant. */
  lemma ExecStepKeepsInv(e: Engine, cfg: Config, env: Env, childExited: bool)
    requires Inv(e)
    ensures Inv(ExecStepT(e, cfg, env, childExited))
  {
    var e0 := if e.execQueue != [] then e.(execQueue := e.execQueue[1..]) else e;
    var c := if e.execQueue != [] then e.execQueue[0] else ExitCmd();
    if e.execQueue != [] || childExited {
      var w := ExecWorkT(e0, cfg, env, c);
      ConnectionFrame(e0, cfg, env);
      ConnectionFrame(DisconnectT(e0), cfg, env);
      assert Inv(w);
      PublishKeepsInv(w, c);
      var e1 := PublishT(w, c);
      PublishKeepsInv(e1.(inExec := false), e1.execCmd);
    }
  }

  /** A command carrying a serial publishes it when its dispatch finishes;
      an EXECSHELL whose fork succeeded publishes later. */
  lemma DispatchPublishesSerial(e: Engine, cfg: Config, env: Env, c: Cmd)
    requires env.Valid()
    requires c.serial != -1 && !(c.kind == ExecShell && env.forkOk)
    ensures DispatchT(e, cfg, env, c).processedSerial == c.serial
    ensures DispatchT(e, cfg, env, c).completed == e.completed + [c]
  {
    WorkFrame(e, cfg, env, c);
  }

  /** When the script has exited, the exec loop finishes the EXECSHELL command:
      the worker leaves the exec state and publishes that command's serial. */
  lemma ExecExitFinishesShell(e: Engine, cfg: Config, env: Env)
    requires e.inExec && e.execQueue == []
    ensures var r := ExecStepT(e, cfg, env, true);
      !r.inExec && r.completed == e.completed + [ExitCmd(), e.execCmd] &&
      r.processedSerial == (if e.execCmd.serial != -1 then e.execCmd.serial else e.processedSerial) &&
      r.workerQueue == e.workerQueue && r.connected == e.connected
  {
  }

  // ---------------------------------------------------------- FIFO order

  /** One worker iteration takes the head of the work queue; the rest of the
      queue stays in order at the front. */
  lemma ActionStepTakesHead(e: Engine, cfg: Config, env: Env)
    requires env.Valid() && e.running && !e.inExec && e.workerQueue != []
    ensures var r := ActionStepT(e, cfg, env); var c := e.workerQueue[0];
      e.workerQueue[1..] <= r.workerQueue && r.execQueue == e.execQueue &&
      (if c.kind == ExecShell && env.forkOk then r.inExec && r.execCmd == c && r.completed == e.completed
       else !r.inExec && r.completed == e.completed + [c]) &&
      (r.running <==> c.kind != Exit)
  {
    var e1 := e.(workerQueue := e.workerQueue[1..]);
    WorkFrame(e1, cfg, env, e.workerQueue[0]);
  }

  /** Worker iterations run one after another, one environment each. */
  function Run(e: Engine, cfg: Config, envs: seq<Env>): Engine
    requires forall k :: 0 <= k < |envs| ==> envs[k].Valid()
    decreases |envs|
  {
    if envs == [] then e else Run(ActionStepT(e, cfg, envs[0]), cfg, envs[1..])
  }

  /** The commands a run of n worker iterations may meet: none of the first
      n queued commands stops the worker or starts a shell command. */
  predicate PlainPrefix(q: seq<Cmd>, n: nat)
  {
    n <= |q| && forall k :: 0 <= k < n ==> q[k].kind != Exit && q[k].kind != ExecShell
  }

  /** One worker iteration over a plain prefix of length n leaves a plain
      prefix of length n - 1 and moves the head to the completed list. */
  lemma DispatchHead(e: Engine, cfg: Config, env: Env, n: nat)
    requires env.Valid() && e.running && !e.inExec && 0 < n && PlainPrefix(e.workerQueue, n)
    ensures var r := ActionStepT(e, cfg, env);
      r.running && !r.inExec && PlainPrefix(r.workerQueue, n - 1) &&
      r.completed + r.workerQueue[..n - 1] == e.completed + e.workerQueue[..n]
  {
    var c := e.workerQueue[0];
    var r := ActionStepT(e, cfg, env);
    ActionStepTakesHead(e, cfg, env);
    assert r.workerQueue[..n - 1] == e.workerQueue[1..n] by {
      assert e.workerQueue[1..] <= r.workerQueue;
    }
    assert e.workerQueue[..n] == [c] + e.workerQueue[1..n];
  }

  /** Commands are dispatched in the order they were queued: n worker
      iterations dispatch exactly the first n queued commands, as long as none
      of them stops the worker or starts a shell command. */
  lemma {:induction false} FifoDispatch(e: Engine, cfg: Config, envs: seq<Env>)
    requires forall k :: 0 <= k < |envs| ==> envs[k].Valid()
    requires e.running && !e.inExec && PlainPrefix(e.workerQueue, |envs|)
    ensures Run(e, cfg, envs).completed == e.completed + e.workerQueue[..|envs|]
    decreases |envs|
  {
    if envs != [] {
      var r := ActionStepT(e, cfg, envs[0]);
      DispatchHead(e, cfg, envs[0], |envs|);
      FifoDispatch(r, cfg, envs[1..]);
    }
  }

  /** Submissions made one after another compose: delivering two batches
      is delivering the first, then the second. */
  lemma {:induction false} DeliverAppend(e: Engine, ps: seq<Push>, qs: seq<Push>)
    ensures DeliverT(e, ps + qs) == DeliverT(DeliverT(e, ps), qs)
    decreases |ps|
  {
    if ps == [] {
      assert ps + qs == qs;
    } else {
      assert (ps + qs)[0] == ps[0];
      assert (ps + qs)[1..] == ps[1..] + qs;
      DeliverAppend(SubmitT(e, ps[0]), ps[1..], qs);
    }
  }

  /** Submissions never touch anything but the work queue, and only ever
      append to it. */
  lemma {:induction false} DeliverAppendsOnly(e: Engine, ps: seq<Push>)
    ensures var r := DeliverT(e, ps);
      r == e.(workerQueue := r.workerQueue) && e.workerQueue <= r.workerQueue
    decreases |ps|
  {
    if ps != [] {
      DeliverAppendsOnly(SubmitT(e, ps[0]), ps[1..]);
    }
  }

  // ------------------------------------------------ servicing during exec

  /** CONNECT and DISCONNECT submitted while a shell command runs go to the
      exec queue; any other submission waits in the work queue. */
  lemma RouteDuringExec(e: Engine, c: Cmd)
    requires e.inExec
    ensures (c.kind == Connect || c.kind == Disconnect) ==>
      RouteT(e, c) == e.(execQueue := e.execQueue + [c])
    ensures !(c.kind == Connect || c.kind == Disconnect) ==>
      RouteT(e, c) == e.(workerQueue := e.workerQueue + [c])
  {
  }

  /** A CONNECT submitted during a shell command is serviced by the exec loop
      without waiting for the script: it completes, its serial is published,
      the script is still running and the work queue only grew at its end. */
  lemma ConnectServicedDuringExec(e: Engine, cfg: Config, env: Env, c: Cmd, childExited: bool)
    requires e.inExec && e.execQueue == [] && c.kind == Connect
    ensures var r := ExecStepT(RouteT(e, c), cfg, env, childExited);
      r.inExec && r.execQueue == [] && r.completed == e.completed + [c] &&
      (c.serial != -1 ==> r.processedSerial == c.serial) &&
      e.workerQueue <= r.workerQueue &&
      (env.open == Opened ==> r.connected)
  {
    var e1 := RouteT(e, c);
    assert e1.execQueue == [c];
    ConnectionFrame(e1.(execQueue := []), cfg, env);
  }

  /** The exec loop never takes from the work queue: what waits there stays,
      in order, at its front. */
  lemma ExecStepKeepsWorkQueue(e: Engine, cfg: Config, env: Env, childExited: bool)
    ensures e.workerQueue <= ExecStepT(e, cfg, env, childExited).workerQueue
  {
    var e0 := if e.execQueue != [] then e.(execQueue := e.execQueue[1..]) else e;
    ConnectionFrame(e0, cfg, env);
    ConnectionFrame(DisconnectT(e0), cfg, env);
  }

  /** The exec loop runs until EXIT: a step leaves the exec state exactly
      when it takes an EXIT from the exec queue, or, with that queue empty,
      when the child has exited. */
  lemma ExecStepEndsOnlyOnExit(e: Engine, cfg: Config, env: Env, childExited: bool)
    requires e.inExec
    ensures !ExecStepT(e, cfg, env, childExited).inExec <==>
              if e.execQueue != [] then e.execQueue[0].kind == Exit else childExited
  {
    var e0 := if e.execQueue != [] then e.(execQueue := e.execQueue[1..]) else e;
    ConnectionFrame(e0, cfg, env);
    ConnectionFrame(DisconnectT(e0), cfg, env);
  }

  // -------------------------------------------------------- reconnection

  /** A lost connection is handled before everything already queued: the next
      worker iteration runs the reconnect, and if the adapter opens again the
      engine is connected and the old queue is intact behind it. */
  lemma ReconnectRunsNext(e: Engine, cfg: Config, env: Env)
    requires env.Valid() && e.running && !e.inExec
    ensures var r := ActionStepT(AlertT(e, ConnectionLost), cfg, env);
      r.completed == e.completed + [ReconnectCmd()] &&
      e.workerQueue <= r.workerQueue &&
      (env.open == Opened <==> r.connected)
  {
    var e1 := AlertT(e, ConnectionLost);
    assert e1.workerQueue[0] == ReconnectCmd() && e1.workerQueue[1..] == e.workerQueue;
    ActionStepTakesHead(e1, cfg, env);
    var e2 := e1.(workerQueue := e.workerQueue);
    ConnectionFrame(DisconnectT(e2), cfg, env);
  }

  /** Disconnecting twice is disconnecting once; connecting an open adapter
      does nothing. */
  lemma ConnectionIdempotent(e: Engine, cfg: Config, env: Env)
    ensures DisconnectT(DisconnectT(e)) == DisconnectT(e)
    ensures e.connected ==> ConnectT(e, cfg, env) == e
  {
  }

  // ---------------------------------------------------------- start-up

  /** Start-up lists are not lost when the adapter opens late: a start-up while
      disconnected is deferred, and the connect that succeeds later queues the
      manual-start list (if the plugin then says so) and the start list. */
  lemma DeferredStartupRuns(e: Engine, cfg: Config, startManually: bool, env: Env)
    requires !e.connected && env.open == Opened
    ensures var s := StartupT(e, cfg, startManually);
      s.deferredStartup && s.workerQueue == e.workerQueue
    ensures var r := ConnectT(StartupT(e, cfg, startManually), cfg, env);
      r.connected && !r.deferredStartup && r.running &&
      r.workerQueue == e.workerQueue + (if env.startManually then cfg.onManualStart else []) + cfg.onStart
  {
  }

  /** Start-up while connected queues the lists at once. */
  lemma StartupWhileConnected(e: Engine, cfg: Config, startManually: bool)
    requires e.connected
    ensures var r := StartupT(e, cfg, startManually);
      r.running && r.deferredStartup == e.deferredStartup &&
      r.workerQueue == e.workerQueue + (if startManually then cfg.onManualStart else []) + cfg.onStart
  {
  }

  // ------------------------------------------------------------ producers

  /** Pushing commands one by one. */
  function PushAll(e: Engine, cmds: seq<Cmd>): Engine
    decreases |cmds|
  {
    if cmds == [] then e else PushAll(PushCmdT(e, cmds[0]), cmds[1..])
  }

  /** PushCmdQueue is PushCmd of each element in order while connected, and
      drops the whole list while disconnected. */
  lemma {:induction false} PushCmdQueueIsPushes(e: Engine, cmds: seq<Cmd>)
    ensures e.connected ==> PushCmdQueueT(e, cmds) == PushAll(e, cmds)
    ensures !e.connected ==> PushCmdQueueT(e, cmds) == e
    decreases |cmds|
  {
    if e.connected && cmds != [] {
      PushCmdQueueIsPushes(PushCmdT(e, cmds[0]), cmds[1..]);
      assert [cmds[0]] + cmds[1..] == cmds;
      assert e.workerQueue + [cmds[0]] + cmds[1..] == e.workerQueue + cmds;
    }
  }

  /** A key held down is queued once: a repeat of the same code that reports
      a duration is dropped. */
  lemma HeldKeyQueuedOnce(e: Engine, keycode: int, d1: int, d2: int)
    requires 0 <= keycode <= UserControlCodeMax && (d1 == 0 || keycode != e.lastKey)
    requires d2 != 0
    ensures KeyPressT(e, keycode, d1).workerQueue == e.workerQueue + [NewCmd(KeyPress, keycode, None, "")]
    ensures KeyPressT(KeyPressT(e, keycode, d1), keycode, d2) == KeyPressT(e, keycode, d1)
  {
  }
}
