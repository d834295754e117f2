/**
  What each event does to the websocket client, in every reachable state: where
  it leads, what it keeps and what it leaves alone.
 */
module WsEffects {

  import opened Results
  import opened WriteQueue
  import opened WsModel
  import opened WsInvariant
  import opened WsLaws
  import opened WsSession

  ghost predicate Reachable(t: State) {
    exists s, events :: Fresh(s) && Possible(s, events) && t == Run(s, events)
  }

  lemma {:induction false} RunsReach(s: State, events: seq<Event>)
    requires Fresh(s) && Possible(s, events)
    ensures Reachable(Run(s, events))
  {
  }

  lemma ReachableInv(t: State)
    requires Reachable(t)
    ensures Inv(t, 1, true)
  {
    var s, events :| Fresh(s) && Possible(s, events) && t == Run(s, events);
    RunKeeps(s, events);
  }

  /** The failure policy retires the client. */
  predicate GivesUp(policy: bool, env: Env) {
    policy && (env.verdict.None? || env.verdict.value < 0)
  }

  /** Nothing was accepted, completed or handed over. */
  predicate SameTraffic(t: State, u: State) {
    u.accepted == t.accepted && u.completed == t.completed && u.wire == t.wire
  }

  /** The connection is over: the client waits for its timer with every message kept, or its policy retired it. */
  ghost predicate Left(t: State, u: State, env: Env) {
    && !u.connected && u.generation > t.generation && SameTraffic(t, u)
    && u.stopped == GivesUp(t.policy, env)
    && (!u.stopped ==> InBackoff(u) && Retained(u.queue.entries) == Retained(t.queue.entries))
  }

  // ----------------------------------------------------------- leaving a connection

  lemma Waits(x: State, env: Env)
    requires Base(x) && Idle(x) && x.started && !x.stopped && !x.reconnectScheduled && Armed(x) == Cancelled(x) == 0
    ensures var u := ScheduleReconnect(x, env);
            && !u.connected && u.generation >= x.generation && SameTraffic(x, u)
            && u.stopped == GivesUp(x.policy, env)
            && (!u.stopped ==> InBackoff(u) && u.queue == x.queue && u.generation == x.generation)
  {
    ScheduleKeeps(x, env, 1, true);
    if GivenUp(x, env) {
      assert ScheduleReconnect(x, env) == StopClient(x);
    } else {
      assert ScheduleReconnect(x, env) == Scheduled(x, ReconnectDelay(x, env));
    }
  }

  lemma Leaves(s: State, env: Env)
    requires Base(s) && s.started && !s.stopped && !s.reconnectScheduled && Armed(s) == Cancelled(s) == 0
    ensures Left(s, ScheduleReconnect(Disconnect(s), env), env)
  {
    DisconnectKeeps(s);
    Waits(Disconnect(s), env);
    SweepRetained(s.queue.entries, s.generation, false);
  }

  /** A kick of a connected client ends its connection and schedules the next one. */
  lemma KickLeaves(t: State, env: Env)
    requires Reachable(t) && t.connected
    ensures Left(t, Step(t, Kick(env)), env)
  {
    ReachableInv(t);
    Leaves(t, env);
  }

  /** Any other kick changes nothing, so that it never disturbs a handshake or a backoff. */
  lemma KickIgnored(t: State, env: Env)
    requires !t.connected
    ensures Step(t, Kick(env)) == t
  {
  }

  lemma CurrentMeansLive(t: State, op: Op)
    requires Inv(t, 1, true) && op in t.pending
    requires match op case Connecting(_, g) => g == t.generation case Read(g) => g == t.generation
                      case Write(g, _) => g == t.generation case _ => false
    ensures t.started && !t.stopped && !t.reconnectScheduled && Armed(t) == Cancelled(t) == 0
  {
    match op
    case Connecting(stage, _) => StepMeansConnecting(t, stage);
    case Read(_) => ReadMeansConnected(t);
    case Write(_, id) => var _ := WriteMeansWriting(t, id);
  }

  lemma FailShape(t: State, op: Op, actions: seq<Action>, env: Env)
    requires !t.stopped
    requires match op case Connecting(_, g) => g == t.generation case Read(g) => g == t.generation
                      case Write(g, _) => g == t.generation case _ => false
    ensures Step(t, Done(op, false, actions, env)) == ScheduleReconnect(Disconnect(Taken(t, op)), env)
  {
    var s := Taken(t, op);
    match op
    case Connecting(stage, g) => assert Handle(s, op, false, actions, env) == Fail(s, g, env);
    case Read(g) => assert Handle(s, op, false, actions, env) == Fail(s, g, env);
    case Write(g, id) => assert Handle(s, op, false, actions, env) == Fail(s, g, env);
  }

  /** A failed connect stage, read or write of the current generation ends the connection. */
  lemma FailureLeaves(t: State, op: Op, actions: seq<Action>, env: Env)
    requires Reachable(t) && op in t.pending
    requires match op case Connecting(_, g) => g == t.generation case Read(g) => g == t.generation
                      case Write(g, _) => g == t.generation case _ => false
    ensures Left(t, Step(t, Done(op, false, actions, env)), env)
  {
    ReachableInv(t);
    CurrentMeansLive(t, op);
    FailShape(t, op, actions, env);
    TakenBase(t, op);
    Leaves(Taken(t, op), env);
  }

  lemma HandshakeMeansLive(t: State)
    requires Inv(t, 1, true) && InHandshake(t)
    ensures t.started && !t.stopped && !t.reconnectScheduled && Armed(t) == Cancelled(t) == 0
  {
  }

  lemma DeadlineShape(t: State, actions: seq<Action>, env: Env)
    requires !t.stopped && !t.connected
    ensures var op := Deadline(t.generation);
            Step(t, Done(op, true, actions, env)) == ScheduleReconnect(Expire(Taken(t, op)), env)
  {
    var op := Deadline(t.generation);
    assert Handle(Taken(t, op), op, true, actions, env) == OnDeadline(Taken(t, op), t.generation, true, env);
  }

  lemma Expires(s: State, env: Env)
    requires Base(s) && s.started && !s.stopped && !s.reconnectScheduled && Armed(s) == Cancelled(s) == 0
    requires !s.connected
    ensures Left(s, ScheduleReconnect(Expire(s), env), env)
  {
    SkipGeneration(s);
    Waits(Expire(s), env);
  }

  /** A handshake that runs out of time is left like a failed one: the client reconnects later. */
  lemma DeadlineLeaves(t: State, actions: seq<Action>, env: Env)
    requires Reachable(t) && InHandshake(t) && Deadline(t.generation) in t.pending
    ensures Left(t, Step(t, Done(Deadline(t.generation), true, actions, env)), env)
  {
    var op := Deadline(t.generation);
    ReachableInv(t);
    HandshakeMeansLive(t);
    TakenBase(t, op);
    Expires(Taken(t, op), env);
    DeadlineShape(t, actions, env);
  }

  /** A deadline that was cancelled, is stale, or finds the client connected or stopped does nothing. */
  lemma DeadlineIgnored(t: State, g: nat, ok: bool, actions: seq<Action>, env: Env)
    requires !ok || g != t.generation || t.connected || t.stopped
    ensures Step(t, Done(Deadline(g), ok, actions, env)) == Taken(t, Deadline(g))
  {
  }

  /** A completion of another generation does nothing, whatever its result. */
  lemma StaleIgnored(t: State, op: Op, ok: bool, actions: seq<Action>, env: Env)
    requires match op case Connecting(_, g) => g != t.generation case Read(g) => g != t.generation
                      case Write(g, _) => g != t.generation case Deadline(g) => g != t.generation case _ => false
    ensures Step(t, Done(op, ok, actions, env)) == Taken(t, op)
  {
    var s := Taken(t, op);
    match op
    case Connecting(stage, g) => assert Handle(s, op, ok, actions, env) == s;
    case Read(g) => assert Handle(s, op, ok, actions, env) == s;
    case Write(g, id) => assert Handle(s, op, ok, actions, env) == s;
    case Deadline(g) => assert Handle(s, op, ok, actions, env) == s;
  }

  // -------------------------------------------------------------------- connecting

  /** A new generation resolves its host under a deadline, with the queue as it was. */
  ghost predicate Dialed(t: State, u: State) {
    && InHandshake(u) && !u.stopped && u.generation == t.generation + 1 && u.queue == t.queue && SameTraffic(t, u)
    && Connecting(Resolve, u.generation) in u.pending && Deadline(u.generation) in u.pending
  }

  lemma Dials(s: State, env: Env)
    requires Base(s) && s.started && !s.stopped && Armed(s) == Cancelled(s) == 0
    ensures env.setupOk ==> Dialed(s, Connect(s, env))
    ensures !env.setupOk ==> Left(s, Connect(s, env), env)
  {
    ConnectKeeps(s, env);
    ConnectShape(s, env);
    RenewReady(s);
    if !env.setupOk {
      SkipReady(Renew(s));
      Waits(Skip(Renew(s)), env);
    }
  }

  /** Starting dials; when the TLS setup fails, the client tries again later. */
  lemma StartDials(t: State, env: Env)
    requires Reachable(t) && !t.started && !t.stopped
    ensures env.setupOk ==> Dialed(t, Step(t, Start(env)))
    ensures !env.setupOk ==> Left(t, Step(t, Start(env)), env)
  {
    ReachableInv(t);
    Dials(t.(started := true), env);
  }

  /** When the reconnect timer fires, the client dials again. */
  lemma TimerDials(t: State, actions: seq<Action>, env: Env)
    requires Reachable(t) && InBackoff(t)
    ensures var e := Done(ReconnectWait(false), true, actions, env);
            && Enabled(t, e)
            && (env.setupOk ==> Dialed(t, Step(t, e)))
            && (!env.setupOk ==> Left(t, Step(t, e), env))
  {
    var op := ReconnectWait(false);
    ReachableInv(t);
    TakenBase(t, op);
    Dials(Fired(Taken(t, op)), env);
    assert Handle(Taken(t, op), op, true, actions, env) == Connect(Fired(Taken(t, op)), env);
  }

  lemma StageStep(t: State, stage: Stage, actions: seq<Action>, env: Env)
    requires stage != WsHandshake
    ensures var op := Connecting(stage, t.generation);
            Step(t, Done(op, true, actions, env)) == Await(Taken(t, op), Connecting(NextStage(stage), t.generation))
  {
    var op := Connecting(stage, t.generation);
    assert Handle(Taken(t, op), op, true, actions, env)
        == OnConnecting(Taken(t, op), stage, t.generation, true, actions, env);
    StageShape(Taken(t, op), stage, t.generation, true, actions, env);
  }

  lemma StillShaking(t: State, stage: Stage, next: Stage)
    requires Inv(t, 1, true) && Connecting(stage, t.generation) in t.pending
    ensures InHandshake(Await(Taken(t, Connecting(stage, t.generation)), Connecting(next, t.generation)))
  {
    StepMeansConnecting(t, stage);
    AdvanceLive(t, stage, next);
  }

  /** Resolving leads to connecting, that to the TLS handshake, and that to the websocket handshake. */
  lemma StagesFollow(t: State, stage: Stage, actions: seq<Action>, env: Env)
    requires Reachable(t) && Connecting(stage, t.generation) in t.pending && stage != WsHandshake
    ensures var u := Step(t, Done(Connecting(stage, t.generation), true, actions, env));
            && InHandshake(u) && u.generation == t.generation && u.queue == t.queue && SameTraffic(t, u)
            && Connecting(match stage case Resolve => TcpConnect case TcpConnect => TlsHandshake
                                      case TlsHandshake => WsHandshake,
                          t.generation) in u.pending
  {
    ReachableInv(t);
    StillShaking(t, stage, NextStage(stage));
    StageStep(t, stage, actions, env);
  }

  // ----------------------------------------------------------------------- sessions

  lemma Begins(s: State)
    requires Inv(s, 0, false) && s.connected
    ensures var u := BeginSession(s, s.generation);
            && InSession(u) && u.generation == s.generation && u.queue == s.queue
            && u.accepted == s.accepted && u.completed == s.completed && u.openedAt == s.openedAt
            && (s.keepalive ==> KeepaliveWait in u.pending)
  {
    BeginSessionKeeps(s);
    BeginSessionFrame(s, s.generation);
  }

  lemma {:induction false} NoActions(s: State, env: Env)
    ensures PerformAll(s, [], env) == s
  {
  }

  lemma OpeningQueue(s: State)
    ensures Retained(Opened(s, s.generation).queue.entries) == Retained(s.queue.entries)
  {
    SweepRetained(s.queue.entries, s.generation, true);
  }

  /** A completed handshake opens a session that keeps every message and arms the keepalive. */
  lemma HandshakeOpens(t: State, env: Env)
    requires Reachable(t) && Connecting(WsHandshake, t.generation) in t.pending
    ensures var u := Step(t, Done(Connecting(WsHandshake, t.generation), true, [], env));
            && InSession(u) && u.generation == t.generation && u.accepted == t.accepted && u.completed == t.completed
            && u.openedAt == t.openedAt[t.generation := |t.completed|]
            && Retained(u.queue.entries) == Retained(t.queue.entries)
            && (t.keepalive ==> KeepaliveWait in u.pending)
  {
    var op := Connecting(WsHandshake, t.generation);
    var up := Opened(Taken(t, op), t.generation);
    ReachableInv(t);
    StepMeansConnecting(t, WsHandshake);
    OpenedKeeps(t);
    OpeningQueue(Taken(t, op));
    NoActions(up, env);
    Begins(up);
    OpeningStep(t, Done(op, true, [], env));
    assert Step(t, Done(op, true, [], env)) == BeginSession(up, t.generation);
  }

  lemma FrameShape(t: State, env: Env)
    requires !t.stopped
    ensures var op := Read(t.generation);
            Step(t, Done(op, true, [], env)) == Await(Refreshed(Taken(t, op)), op)
  {
    var op := Read(t.generation);
    NoActions(Refreshed(Taken(t, op)), env);
    assert Handle(Taken(t, op), op, true, [], env) == OnRead(Taken(t, op), t.generation, true, [], env);
  }

  lemma StillReading(t: State)
    requires Inv(t, 1, true) && Read(t.generation) in t.pending
    ensures !t.stopped && InSession(Await(Refreshed(Taken(t, Read(t.generation))), Read(t.generation)))
  {
    ReadMeansConnected(t);
  }

  /** An application frame resets the delay to 500 ms and is followed by the next read. */
  lemma FrameContinues(t: State, env: Env)
    requires Reachable(t) && Read(t.generation) in t.pending
    ensures var u := Step(t, Done(Read(t.generation), true, [], env));
            && InSession(u) && u.generation == t.generation && u.queue == t.queue && SameTraffic(t, u)
            && u.delay == 500
  {
    ReachableInv(t);
    StillReading(t);
    FrameShape(t, env);
  }

  // ---------------------------------------------------------------------- callbacks

  /** The event runs an application callback with these actions. */
  predicate Calls(t: State, e: Event) {
    e.Done? && e.ok && (e.op == Read(t.generation) || e.op == Connecting(WsHandshake, t.generation))
  }

  lemma {:induction false} RetireStops(s: State, actions: seq<Action>, env: Env)
    requires Retire in actions
    ensures PerformAll(s, actions, env).stopped
  {
    var front, last := actions[..|actions| - 1], actions[|actions| - 1];
    if last != Retire {
      assert Retire in front;
      RetireStops(s, front, env);
      StaysStopped(PerformAll(s, front, env), last, env);
    }
  }

  lemma StaysStopped(s: State, a: Action, env: Env)
    requires s.stopped
    ensures Perform(s, a, env).stopped
  {
    match a
    case Prioritize(text) => FlushFrame(PushFrame(s, text, true));
    case Drop =>
    case Retire =>
  }

  lemma {:induction false} DropLeaves(s: State, actions: seq<Action>, env: Env, want: nat, flushed: bool)
    requires Inv(s, want, flushed) && s.connected && Drop in actions
    ensures var u := PerformAll(s, actions, env); !u.connected && u.generation > s.generation
  {
    var front, last := actions[..|actions| - 1], actions[|actions| - 1];
    var f := PerformAll(s, front, env);
    PerformAllKeeps(s, front, env, want, flushed);
    PerformSession(f, last, env);
    if last == Drop {
      if f.connected { ScheduleSession(Disconnect(f), env); }
    } else {
      assert Drop in front;
      DropLeaves(s, front, env, want, flushed);
    }
  }

  /** The state a callback finds. */
  function Called(t: State, e: Event): State
    requires Calls(t, e)
  {
    if e.op.Read? then Refreshed(Taken(t, e.op)) else Opened(Taken(t, e.op), t.generation)
  }

  lemma ReadCallback(t: State, actions: seq<Action>, env: Env)
    ensures var op := Read(t.generation);
            Step(t, Done(op, true, actions, env)) == OnRead(Taken(t, op), t.generation, true, actions, env)
  {
    var op := Read(t.generation);
    assert Handle(Taken(t, op), op, true, actions, env) == OnRead(Taken(t, op), t.generation, true, actions, env);
  }

  lemma CallbackShape(t: State, e: Event)
    requires Calls(t, e)
    ensures var u := PerformAll(Called(t, e), e.actions, e.env);
            u.stopped || u.generation != t.generation ==> Step(t, e) == u
  {
    if e.op.Read? {
      ReadCallback(t, e.actions, e.env);
    } else {
      OpeningStep(t, e);
    }
  }

  /** A callback that stops the client stops it. */
  lemma CallbackStops(t: State, e: Event)
    requires Calls(t, e) && Retire in e.actions
    ensures Step(t, e).stopped
  {
    CallbackShape(t, e);
    RetireStops(Called(t, e), e.actions, e.env);
  }

  /** A callback that kicks the client ends the connection it was called on. */
  lemma CallbackKicks(t: State, e: Event)
    requires Reachable(t) && Calls(t, e) && e.op in t.pending && Drop in e.actions
    ensures !Step(t, e).connected && Step(t, e).generation > t.generation
  {
    ReachableInv(t);
    CallbackShape(t, e);
    if e.op.Read? {
      FrameArrives(t);
      ReadMeansConnected(t);
      DropLeaves(Refreshed(Taken(t, e.op)), e.actions, e.env, 0, true);
    } else {
      OpenedKeeps(t);
      DropLeaves(Opened(Taken(t, e.op), t.generation), e.actions, e.env, 0, false);
    }
  }

  // ------------------------------------------------------------------------ sending

  /** The frame goes out at once if nothing is queued on a connection, and waits otherwise. */
  ghost predicate HandedIfIdle(t: State, u: State, e: Entry) {
    u.wire == if t.connected && t.queue.entries == []
              then t.wire + [Handoff(Some(t.generation), t.generation, e)] else t.wire
  }

  lemma FlushHands(t: State, s: State)
    requires Inv(t, 1, true) && s.queue.entries != []
    requires s == t.(queue := s.queue, accepted := s.accepted, pending := s.pending)
    ensures Flush(s).queue == s.queue && Flush(s).accepted == s.accepted
    ensures HandedIfIdle(t, Flush(s), s.queue.entries[0])
    ensures Flush(s).pending[KeepaliveWait] == s.pending[KeepaliveWait]
  {
    if s.connected && !s.writing {
      assert Flush(s) == Hand(s, s.ws, s.generation, s.queue.entries[0]);
    }
  }

  /** A message is accepted exactly while fewer than capacity minus reserve are queued, and then goes last. */
  lemma SendQueues(t: State, text: string)
    requires Reachable(t)
    ensures var u := Step(t, Send(text));
            if |t.queue.entries| < t.queue.capacity - t.queue.reserve
            then var m := Entry(t.queue.nextId, text, false, 0);
                 && u.accepted == t.accepted + [m] && u.queue.entries == t.queue.entries + [m]
                 && HandedIfIdle(t, u, m)
            else u == t
  {
    ReachableInv(t);
    if AddRetained(t.queue, text).1 {
      FlushHands(t, Accept(t, text));
    }
  }

  /** On a queue without stale frames, a connection frame is put at its end or refused. */
  lemma PushesOne(q: Queue, text: string, generation: nat, priority: bool)
    requires ScopedTo(q.entries, generation)
    ensures var e := Entry(q.nextId, text, true, generation);
            AddConnection(q, text, generation, priority)
            == if |q.entries| >= q.capacity then (q, false)
               else (q.(entries := if priority then [e] + q.entries else q.entries + [e], nextId := q.nextId + 1), true)
  {
    SweepNothing(q.entries, generation);
  }

  lemma SessionGoesOn(t: State)
    requires Inv(t, 1, true) && t.connected
    ensures !t.stopped && ScopedTo(t.queue.entries, t.generation)
  {
  }

  lemma PriorityShape(t: State, text: string)
    requires ScopedTo(t.queue.entries, t.generation)
    ensures Step(t, SendFirst(text))
         == if |t.queue.entries| < t.queue.capacity then Flush(PushFrame(t, text, true)) else t
  {
    PushesOne(t.queue, text, t.generation, true);
    assert Step(t, SendFirst(text)) == SendPriority(t, text);
  }

  lemma PriorityEntry(t: State, text: string)
    requires ScopedTo(t.queue.entries, t.generation) && |t.queue.entries| < t.queue.capacity
    ensures PushFrame(t, text, true).queue.entries
         == [Entry(t.queue.nextId, text, true, t.generation)] + t.queue.entries
  {
    PushesOne(t.queue, text, t.generation, true);
  }

  /** On a connection a priority frame goes first, unless the queue is full. */
  lemma PriorityLeads(t: State, text: string)
    requires Reachable(t) && t.connected
    ensures var u := Step(t, SendFirst(text));
            if |t.queue.entries| < t.queue.capacity
            then var e := Entry(t.queue.nextId, text, true, t.generation);
                 && u.queue.entries == [e] + t.queue.entries && u.accepted == t.accepted && HandedIfIdle(t, u, e)
            else u == t
  {
    ReachableInv(t);
    SessionGoesOn(t);
    PriorityShape(t, text);
    if |t.queue.entries| < t.queue.capacity {
      PriorityEntry(t, text);
      FlushHands(t, PushFrame(t, text, true));
    }
  }

  lemma PingShape(t: State, actions: seq<Action>, env: Env)
    requires t.connected && !t.stopped && t.keepalive
    ensures Step(t, Done(KeepaliveWait, true, actions, env))
         == Await(Flush(PushFrame(Taken(t, KeepaliveWait), t.keepaliveText, false)), KeepaliveWait)
  {
    var s := Taken(t, KeepaliveWait);
    assert Handle(s, KeepaliveWait, true, actions, env) == OnKeepalive(s, true);
    FlushFrame(PushFrame(s, t.keepaliveText, false));
  }

  lemma PingFlushes(t: State, s: State)
    requires Inv(t, 1, true) && t.connected && s == t.(queue := s.queue, pending := s.pending)
    requires s.queue.entries == t.queue.entries || s.queue.entries != []
    ensures Flush(s).queue == s.queue && Flush(s).accepted == s.accepted
    ensures Flush(s).pending[KeepaliveWait] == s.pending[KeepaliveWait]
    ensures s.queue.entries != [] ==> HandedIfIdle(t, Flush(s), s.queue.entries[0])
    ensures s.queue.entries == [] ==> Flush(s).wire == s.wire
  {
    FlushFrame(s);
    if s.queue.entries != [] {
      FlushHands(t, s);
    } else if !s.writing {
      assert Flush(s) == s.(writing := false);
    }
  }

  /** The queue after a ping: one more frame at its end, or the same if it was full. */
  ghost predicate Pinged(t: State, u: State) {
    if |t.queue.entries| < t.queue.capacity
    then u.queue.entries == t.queue.entries + [Entry(t.queue.nextId, t.keepaliveText, true, t.generation)]
    else u.queue == t.queue
  }

  /** While connected, a keepalive wait that ends queues the keepalive text last and is armed again. */
  lemma KeepalivePings(t: State, actions: seq<Action>, env: Env)
    requires Reachable(t) && t.connected && t.keepalive && KeepaliveWait in t.pending
    ensures var u := Step(t, Done(KeepaliveWait, true, actions, env));
            && u.pending[KeepaliveWait] == t.pending[KeepaliveWait] && u.accepted == t.accepted && Pinged(t, u)
            && (if u.queue.entries == [] then u.wire == t.wire else HandedIfIdle(t, u, u.queue.entries[0]))
  {
    ReachableInv(t);
    SessionGoesOn(t);
    PushesOne(t.queue, t.keepaliveText, t.generation, false);
    PingShape(t, actions, env);
    PingFlushes(t, PushFrame(Taken(t, KeepaliveWait), t.keepaliveText, false));
  }

  /** Outside a connection, or cancelled, a keepalive wait does nothing. */
  lemma KeepaliveIgnored(t: State, ok: bool, actions: seq<Action>, env: Env)
    requires !ok || t.stopped || !t.connected
    ensures Step(t, Done(KeepaliveWait, ok, actions, env)) == Taken(t, KeepaliveWait)
  {
  }

  /** A stop ends everything: no connection, no queue, no timer. */
  lemma StopEnds(t: State)
    requires Reachable(t)
    ensures var u := Step(t, Stop);
            && u.stopped && !u.connected && !u.writing && u.queue.entries == [] && u.ws == None && !u.policy
            && u.generation > t.generation && Armed(u) == 0
            && u.dropped == t.dropped + Retained(t.queue.entries) && SameTraffic(t, u)
  {
    CancelFacts(t.pending);
  }
}
