/**
  The websocket client as an object whose handlers update its fields in place.
  Every handler refines the corresponding step of the state machine, so the
  laws over runs hold of the object.
 */
module WsClientObject {

  import opened Results
  import opened WriteQueue
  import opened WsModel
  import opened WsInvariant

  class WsClient {
    var stopped: bool
    var connected: bool
    var writing: bool
    var reconnectScheduled: bool
    var generation: nat
    var reconnectDelayMs: nat
    var ws: Option<nat>
    const queue: WsWriteQueue
    const keepalive: bool
    const keepaliveText: string
    var policy: bool

    // the state of the machine: these fields, what the executor still owes, and the history
    ghost var model: State

    ghost predicate Tied()
      reads this, queue
    {
      && model.stopped == stopped && model.connected == connected && model.writing == writing
      && model.reconnectScheduled == reconnectScheduled && model.generation == generation
      && model.delay == reconnectDelayMs && model.ws == ws && model.policy == policy
      && model.keepalive == keepalive && model.keepaliveText == keepaliveText
      && model.queue == queue.View() && Valid(model.queue)
    }

    /** Holds between handlers. */
    ghost predicate Sane()
      reads this, queue
    {
      Tied() && Inv(model, 1, true)
    }

    constructor (keepalive: bool, keepaliveText: string, policy: bool)
      ensures Sane() && Fresh(model) && fresh(queue)
      ensures model == Initial(Empty(1024, 16), keepalive, keepaliveText, policy)
    {
      stopped, connected, writing, reconnectScheduled := false, false, false, false;
      generation, reconnectDelayMs, ws := 0, FIRST_DELAY, None;
      queue := new WsWriteQueue(1024, 16);
      this.keepalive, this.keepaliveText, this.policy := keepalive, keepaliveText, policy;
      model := Initial(Empty(1024, 16), keepalive, keepaliveText, policy);
      new;
      FreshInv(model);
    }

    // ------------------------------------------------------------ internal steps

    method StopNow()
      requires Tied()
      modifies this, queue
      ensures Tied() && model == StopClient(old(model))
    {
      stopped := true;
      connected := false;
      writing := false;
      queue.ClearAll();
      RetainedNothing();
      generation := generation + 1;
      reconnectScheduled := false;
      ws := None;
      policy := false;
      model := StopClient(model);
    }

    method ArmReconnect(env: Env)
      requires Tied()
      modifies this, queue
      ensures Tied() && model == ScheduleReconnect(old(model), env)
    {
      if stopped || reconnectScheduled {
        return;
      }
      if policy && (env.verdict.None? || env.verdict.value < 0) {
        StopNow();
        return;
      }
      reconnectScheduled := true;
      ws := None;
      var window := Max(25, reconnectDelayMs / 5);
      var jitter := env.seed % (window + 1);
      var delay := if policy then env.verdict.value else Min(LAST_DELAY, reconnectDelayMs + jitter);
      ArmTimer(delay);
      reconnectDelayMs := Min(reconnectDelayMs * 2, LAST_DELAY);
    }

    /** The timer starts; the machine moves as scheduling with this delay does. */
    ghost method ArmTimer(delay: nat)
      modifies this`model
      ensures model == Scheduled(old(model), delay)
    {
      model := Scheduled(model, delay);
    }

    method DropConnection()
      requires Tied()
      modifies this, queue
      ensures Tied() && model == Disconnect(old(model))
    {
      ghost var before := model;
      connected := false;
      writing := false;
      queue.DiscardConnectionWrites(generation);
      assert queue.View() == DiscardConnection(before.queue, before.generation);
      generation := generation + 1;
      model := Disconnect(before);
    }

    method LeaveConnection(env: Env)
      requires Tied()
      modifies this, queue
      ensures Tied() && model == ScheduleReconnect(Disconnect(old(model)), env)
    {
      DropConnection();
      ArmReconnect(env);
    }

    method KickNow(env: Env)
      requires Tied()
      modifies this, queue
      ensures Tied() && model == KickClient(old(model), env)
    {
      if ws.None? || stopped || !connected {
        return;
      }
      LeaveConnection(env);
    }

    method FailNow(g: nat, env: Env)
      requires Tied()
      modifies this, queue
      ensures Tied() && model == Fail(old(model), g, env)
    {
      if stopped || g != generation {
        return;
      }
      LeaveConnection(env);
    }

    method StartWrite(socket: Option<nat>, g: nat)
      requires Tied()
      modifies this
      ensures Tied() && model == DoWrite(old(model), socket, g)
    {
      if g != generation || |queue.entries| == 0 || !connected {
        writing := false;
        model := DoWrite(model, socket, g);
        return;
      }
      writing := true;
      var front := queue.Front();
      model := Hand(model, socket, g, front);
    }

    method FlushNow()
      requires Tied()
      modifies this
      ensures Tied() && model == Flush(old(model))
    {
      if connected && !writing {
        StartWrite(ws, generation);
      }
    }

    method SendNow(text: string)
      requires Tied()
      modifies this, queue
      ensures Tied() && model == SendRetained(old(model), text)
    {
      var ok := queue.PushRetained(text);
      if !ok {
        return;
      }
      model := Accept(model, text);
      FlushNow();
    }

    method SendFirstNow(text: string)
      requires Tied()
      modifies this, queue
      ensures Tied() && model == SendPriority(old(model), text)
    {
      var ok := queue.PushConnection(text, generation, true);
      model := model.(queue := queue.View());
      if ok {
        FlushNow();
      }
    }

    method NextGeneration()
      requires Tied()
      modifies this
      ensures Tied() && model == Renew(old(model))
    {
      reconnectScheduled := false;
      connected := false;
      writing := false;
      generation := generation + 1;
      ws := Some(generation);
      model := Renew(model);
    }

    method DoConnect(env: Env)
      requires Tied()
      modifies this, queue
      ensures Tied() && model == Connect(old(model), env)
    {
      if stopped {
        return;
      }
      NextGeneration();
      if !env.setupOk {
        generation := generation + 1;
        model := Skip(model);
        ArmReconnect(env);
        return;
      }
      model := FirstStep(model);
    }

    method ScheduleKeepalive()
      requires Tied()
      modifies this
      ensures Tied() && model == ArmKeepalive(old(model))
    {
      if keepalive {
        model := Await(model, KeepaliveWait);
      }
    }

    method RunCallback(actions: seq<Action>, env: Env)
      requires Tied()
      modifies this, queue
      ensures Tied() && model == PerformAll(old(model), actions, env)
    {
      ghost var before := model;
      for i := 0 to |actions|
        invariant Tied() && model == PerformAll(before, actions[..i], env)
      {
        assert actions[..i + 1][..i] == actions[..i];
        match actions[i] {
          case Prioritize(text) => SendFirstNow(text);
          case Drop => KickNow(env);
          case Retire => StopNow();
        }
      }
      assert actions[..|actions|] == actions;
    }

    // --------------------------------------------------------- completion handlers

    method Open(g: nat, actions: seq<Action>, env: Env)
      requires Tied() && g == generation
      modifies this, queue
      ensures Tied() && model == OnOpened(old(model), g, actions, env)
    {
      connected := true;
      queue.DiscardStaleConnectionWrites(g);
      model := Opened(model, g);
      RunCallback(actions, env);
      if stopped || g != generation {
        return;
      }
      Begin(g);
    }

    method StartFirstWrite(g: nat)
      requires Tied()
      modifies this
      ensures Tied() && model == FirstWrite(old(model), g)
    {
      if |queue.entries| != 0 && !writing {
        StartWrite(Some(g), g);
      }
    }

    method Begin(g: nat)
      requires Tied()
      modifies this
      ensures Tied() && model == BeginSession(old(model), g)
    {
      StartFirstWrite(g);
      ScheduleKeepalive();
      StartRead(g);
    }

    ghost method StartRead(g: nat)
      modifies this`model
      ensures model == Await(old(model), Read(g))
    {
      model := Await(model, Read(g));
    }

    ghost method StartStage(stage: Stage, g: nat)
      modifies this`model
      ensures model == Await(old(model), Connecting(stage, g))
    {
      model := Await(model, Connecting(stage, g));
    }

    method ConnectStageDone(stage: Stage, g: nat, ok: bool, actions: seq<Action>, env: Env)
      requires Tied()
      modifies this, queue
      ensures Tied() && model == OnConnecting(old(model), stage, g, ok, actions, env)
    {
      if g != generation {
        return;
      }
      if !ok {
        FailNow(g, env);
        return;
      }
      if stage == WsHandshake {
        Open(g, actions, env);
        return;
      }
      StageShape(model, stage, g, ok, actions, env);
      StartStage(NextStage(stage), g);
    }

    method DeadlineDone(g: nat, ok: bool, env: Env)
      requires Tied()
      modifies this, queue
      ensures Tied() && model == OnDeadline(old(model), g, ok, env)
    {
      if !ok || stopped || g != generation || connected {
        return;
      }
      writing := false;
      generation := generation + 1;
      model := Expire(model);
      ArmReconnect(env);
    }

    method ReadDone(g: nat, ok: bool, actions: seq<Action>, env: Env)
      requires Tied()
      modifies this, queue
      ensures Tied() && model == OnRead(old(model), g, ok, actions, env)
    {
      if g != generation {
        return;
      }
      if !ok {
        FailNow(g, env);
        return;
      }
      reconnectDelayMs := FIRST_DELAY;
      model := Refreshed(model);
      RunCallback(actions, env);
      if !stopped && g == generation {
        StartRead(g);
      }
    }

    method WriteDone(g: nat, id: nat, ok: bool, env: Env)
      requires Tied()
      modifies this, queue
      ensures Tied() && model == OnWritten(old(model), g, id, ok, env)
    {
      if g != generation {
        return;
      }
      if !ok {
        FailNow(g, env);
        return;
      }
      queue.CompletePayload(id);
      model := CompleteEntry(model, id);
      StartWrite(Some(g), g);
    }

    method ReconnectDone(ok: bool, env: Env)
      requires Tied()
      modifies this, queue
      ensures Tied() && model == OnReconnect(old(model), ok, env)
    {
      if ok && !stopped {
        reconnectScheduled := false;
        model := Fired(model);
        DoConnect(env);
      }
    }

    method KeepaliveDone(ok: bool)
      requires Tied()
      modifies this, queue
      ensures Tied() && model == OnKeepalive(old(model), ok)
    {
      if !ok || stopped || !connected {
        return;
      }
      var _ := queue.PushConnection(keepaliveText, generation, false);
      model := model.(queue := queue.View());
      FlushNow();
      ScheduleKeepalive();
    }

    // ------------------------------------------------------------------ the strand

    method Start(env: Env)
      requires Sane() && !model.started
      modifies this, queue
      ensures Sane() && model == Step(old(model), Event.Start(env))
    {
      StepKeeps(model, Event.Start(env));
      model := model.(started := true);
      DoConnect(env);
    }

    method Stop()
      requires Sane()
      modifies this, queue
      ensures Sane() && model == Step(old(model), Event.Stop)
    {
      StepKeeps(model, Event.Stop);
      StopNow();
    }

    method Kick(env: Env)
      requires Sane()
      modifies this, queue
      ensures Sane() && model == Step(old(model), Event.Kick(env))
    {
      StepKeeps(model, Event.Kick(env));
      KickNow(env);
    }

    method Send(text: string)
      requires Sane()
      modifies this, queue
      ensures Sane() && model == Step(old(model), Event.Send(text))
    {
      StepKeeps(model, Event.Send(text));
      SendNow(text);
    }

    method SendFirst(text: string)
      requires Sane()
      modifies this, queue
      ensures Sane() && model == Step(old(model), Event.SendFirst(text))
    {
      StepKeeps(model, Event.SendFirst(text));
      SendFirstNow(text);
    }

    method Dispatch(op: Op, ok: bool, actions: seq<Action>, env: Env)
      requires Tied()
      modifies this, queue
      ensures Tied() && model == Handle(old(model), op, ok, actions, env)
    {
      match op {
        case Connecting(stage, g) => ConnectStageDone(stage, g, ok, actions, env);
        case Deadline(g) => DeadlineDone(g, ok, env);
        case Read(g) => ReadDone(g, ok, actions, env);
        case Write(g, id) => WriteDone(g, id, ok, env);
        case ReconnectWait(_) => ReconnectDone(ok, env);
        case KeepaliveWait => KeepaliveDone(ok);
      }
    }

    /** The executor delivers one completion. */
    method Deliver(op: Op, ok: bool, actions: seq<Action>, env: Env)
      requires Sane() && op in model.pending && (op == ReconnectWait(false) ==> ok)
      modifies this, queue
      ensures Sane() && model == Step(old(model), Done(op, ok, actions, env))
    {
      StepKeeps(model, Done(op, ok, actions, env));
      model := Taken(model, op);
      Dispatch(op, ok, actions, env);
    }
  }
}
