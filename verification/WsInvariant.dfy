/** What every step of the websocket client keeps, over every run. */
module WsInvariant {

  import opened Results
  import opened WriteQueue
  import opened WsModel

  // ------------------------------------------------------------- the invariant

  function Tag(op: Op): nat {
    match op
    case Connecting(_, g) => g
    case Deadline(g) => g
    case Read(g) => g
    case Write(g, _) => g
    case ReconnectWait(_) => 0
    case KeepaliveWait => 0
  }

  /** No operation captured a generation that does not exist yet. */
  ghost predicate Tagged(s: State) {
    forall op :: op in s.pending ==> Tag(op) <= s.generation
  }

  ghost predicate QueueOk(s: State) {
    && Valid(s.queue)
    && (s.connected ==> ScopedTo(s.queue.entries, s.generation))
  }

  /** Accepted messages are completed, dropped by a stop, or queued, in that order. */
  ghost predicate Conserved(s: State) {
    && s.accepted == s.completed + s.dropped + Retained(s.queue.entries)
    && (s.dropped != [] ==> s.stopped)
  }

  /** A handoff went to the socket of its generation, and a scoped frame to its own. */
  ghost predicate Sound(h: Handoff) {
    h.socket == Some(h.generation) && (h.entry.scoped ==> h.entry.generation == h.generation)
  }

  ghost predicate WireOk(s: State) {
    && (forall i :: 0 <= i < |s.wire| ==> Sound(s.wire[i]))
    && (forall i :: 0 <= i < |s.wire| ==> s.wire[i].generation <= s.generation)
    && (forall i :: 0 <= i < |s.wire| ==> s.wire[i].entry.id < s.queue.nextId)
    && OncePerGeneration(s.wire)
  }

  /** No frame is handed twice to the same connection. */
  ghost predicate OncePerGeneration(wire: seq<Handoff>) {
    forall i, j :: 0 <= i < j < |wire| && wire[i].generation == wire[j].generation
                   ==> wire[i].entry.id != wire[j].entry.id
  }

  /** 500 ms doubled once per reconnect, capped. */
  function BackoffBase(k: nat): nat {
    if k == 0 then FIRST_DELAY else Min(BackoffBase(k - 1) * 2, LAST_DELAY)
  }

  ghost predicate ScheduleOk(x: Schedule) {
    && x.base == BackoffBase(x.earlier)
    && (!x.byPolicy ==> x.base <= x.delay <= Min(LAST_DELAY, x.base + x.base / 5))
  }

  ghost predicate BackoffOk(s: State) {
    && s.delay == BackoffBase(s.sinceFrame)
    && (forall i :: 0 <= i < |s.schedules| ==> ScheduleOk(s.schedules[i]))
  }

  /** The part that does not depend on which operations are outstanding. */
  ghost predicate Base(s: State) {
    Tagged(s) && QueueOk(s) && Conserved(s) && WireOk(s) && BackoffOk(s)
  }

  function Steps(s: State): nat {
    s.pending[Connecting(Resolve, s.generation)] + s.pending[Connecting(TcpConnect, s.generation)]
    + s.pending[Connecting(TlsHandshake, s.generation)] + s.pending[Connecting(WsHandshake, s.generation)]
  }

  function Reads(s: State): nat {
    s.pending[Read(s.generation)]
  }

  function Armed(s: State): nat {
    s.pending[ReconnectWait(false)]
  }

  function Cancelled(s: State): nat {
    s.pending[ReconnectWait(true)]
  }

  /**
    Never stranded: a started client that was not stopped is connected with
    `want` reads outstanding, or has one connect step outstanding, or has one
    reconnect timer armed, and only one of the three.
   */
  ghost predicate Live(s: State, want: nat) {
    if s.stopped then
      !s.connected && !s.writing && !s.reconnectScheduled && s.ws == None && Armed(s) == 0
      && Steps(s) == 0 && Reads(s) == 0
    else if !s.started then
      !s.connected && !s.writing && !s.reconnectScheduled && s.ws == None && s.pending == multiset{}
    else if s.connected then
      s.ws == Some(s.generation) && Reads(s) == want && Steps(s) == 0 && Armed(s) == 0 && Cancelled(s) == 0
      && !s.reconnectScheduled
    else if s.reconnectScheduled then
      s.ws == None && Reads(s) == 0 && Steps(s) == 0 && Armed(s) == 1 && Cancelled(s) == 0 && !s.writing
    else
      s.ws == Some(s.generation) && Reads(s) == 0 && Steps(s) == 1 && Armed(s) == 0 && Cancelled(s) == 0
      && !s.writing
  }

  ghost predicate NoWrite(s: State) {
    forall id :: s.pending[Write(s.generation, id)] == 0
  }

  /** Entry k is the one being written: one write is outstanding, and only scoped entries are ahead. */
  ghost predicate InFlight(s: State, k: nat) {
    && k < |s.queue.entries|
    && s.pending[Write(s.generation, s.queue.entries[k].id)] == 1
    && (forall id :: id != s.queue.entries[k].id ==> s.pending[Write(s.generation, id)] == 0)
    && (forall j :: 0 <= j < k ==> s.queue.entries[j].scoped)
  }

  /** `writing` holds exactly when one write of the current generation is outstanding. */
  ghost predicate WriteOk(s: State) {
    if s.writing then s.connected && exists k :: InFlight(s, k) else NoWrite(s)
  }

  /** A queued frame already given to this connection is the one in flight. */
  ghost predicate HandedOnce(s: State) {
    forall i, k :: 0 <= i < |s.wire| && 0 <= k < |s.queue.entries|
                   && s.wire[i].generation == s.generation && s.wire[i].entry.id == s.queue.entries[k].id
                   ==> s.pending[Write(s.generation, s.queue.entries[k].id)] > 0
  }

  /** `flushed`: a connected client with queued frames is writing. */
  ghost predicate Inv(s: State, want: nat, flushed: bool) {
    && Base(s)
    && Live(s, want)
    && WriteOk(s)
    && HandedOnce(s)
    && (flushed && s.connected && s.queue.entries != [] ==> s.writing)
  }

  // ------------------------------------------------------------ building blocks

  /** No operation of the current generation is outstanding. */
  ghost predicate Idle(s: State) {
    && !s.connected && !s.writing
    && (forall op :: op in s.pending && Tag(op) == s.generation ==> op.ReconnectWait? || op.KeepaliveWait?)
    && (forall i :: 0 <= i < |s.wire| ==> s.wire[i].generation < s.generation)
  }

  lemma IdleFacts(s: State)
    requires Idle(s)
    ensures Steps(s) == 0 && Reads(s) == 0 && WriteOk(s) && HandedOnce(s)
  {
    assert forall id :: Tag(Write(s.generation, id)) == s.generation;
    assert forall stage :: Tag(Connecting(stage, s.generation)) == s.generation;
    assert Tag(Read(s.generation)) == s.generation;
  }

  lemma CancelFacts(p: multiset<Op>)
    ensures CancelWaits(p)[ReconnectWait(false)] == 0
    ensures CancelWaits(p)[ReconnectWait(true)] == p[ReconnectWait(true)] + p[ReconnectWait(false)]
    ensures forall op :: op in CancelWaits(p) ==> op in p || op == ReconnectWait(true)
    ensures forall op: Op :: !op.ReconnectWait? ==> CancelWaits(p)[op] == p[op]
  {
  }

  lemma StopBase(s: State)
    requires Base(s)
    ensures Base(StopClient(s)) && Idle(StopClient(s))
  {
    CancelFacts(s.pending);
    RetainedNothing();
  }

  lemma StopKeeps(s: State, want: nat, flushed: bool)
    requires Base(s)
    ensures Inv(StopClient(s), want, flushed)
  {
    StopBase(s);
    IdleFacts(StopClient(s));
    CancelFacts(s.pending);
  }

  lemma JitterBounds(base: nat, seed: nat)
    requires FIRST_DELAY <= base <= LAST_DELAY
    ensures base <= BackoffDelay(base, seed) <= Min(LAST_DELAY, base + base / 5)
  {
    assert JitterWindow(base) == base / 5;
    assert 0 <= seed % (base / 5 + 1) <= base / 5;
  }

  lemma {:induction false} BaseRange(k: nat)
    ensures FIRST_DELAY <= BackoffBase(k) <= LAST_DELAY
  {
    if k > 0 { BaseRange(k - 1); }
  }

  lemma ScheduledBackoff(s: State, delay: nat)
    requires BackoffOk(s)
    requires !s.policy ==> s.delay <= delay <= Min(LAST_DELAY, s.delay + s.delay / 5)
    ensures BackoffOk(Scheduled(s, delay))
  {
    BaseRange(s.sinceFrame);
    assert BackoffBase(s.sinceFrame + 1) == Min(s.delay * 2, LAST_DELAY);
  }

  lemma ScheduleBackoff(s: State, env: Env)
    requires BackoffOk(s) && !GivenUp(s, env)
    ensures BackoffOk(Scheduled(s, ReconnectDelay(s, env)))
  {
    BaseRange(s.sinceFrame);
    JitterBounds(s.delay, env.seed);
    ScheduledBackoff(s, ReconnectDelay(s, env));
  }

  lemma ScheduledBase(s: State, delay: nat)
    requires Base(s) && Idle(s) && BackoffOk(Scheduled(s, delay))
    ensures Base(Scheduled(s, delay)) && Idle(Scheduled(s, delay))
  {
    CancelFacts(s.pending);
  }

  lemma ScheduleBase(s: State, env: Env)
    requires Base(s) && Idle(s)
    ensures Base(ScheduleReconnect(s, env)) && Idle(ScheduleReconnect(s, env))
  {
    if s.stopped || s.reconnectScheduled {
    } else if GivenUp(s, env) {
      StopBase(s);
    } else {
      ScheduleBackoff(s, env);
      ScheduledBase(s, ReconnectDelay(s, env));
    }
  }

  lemma RetainedNothing()
    ensures Retained([]) == []
  {
  }

  /** An idle client whose timer is free reconnects later, or is retired by its policy. */
  lemma ScheduleKeeps(s: State, env: Env, want: nat, flushed: bool)
    requires Base(s) && Idle(s) && s.started && !s.stopped && !s.reconnectScheduled && Armed(s) == Cancelled(s) == 0
    ensures Inv(ScheduleReconnect(s, env), want, flushed)
  {
    ScheduleBase(s, env);
    IdleFacts(ScheduleReconnect(s, env));
    CancelFacts(s.pending);
    if GivenUp(s, env) {
      assert ScheduleReconnect(s, env) == StopClient(s);
    } else {
      assert ScheduleReconnect(s, env) == Scheduled(s, ReconnectDelay(s, env));
    }
  }

  lemma DisconnectKeeps(s: State)
    requires Base(s)
    ensures Base(Disconnect(s)) && Idle(Disconnect(s))
  {
    SweepValid(s.queue, s.generation, false);
    SweepRetained(s.queue.entries, s.generation, false);
  }

  lemma LeaveKeeps(s: State, env: Env, want: nat, flushed: bool)
    requires Base(s) && s.started && !s.stopped && !s.reconnectScheduled && Armed(s) == Cancelled(s) == 0
    ensures Inv(ScheduleReconnect(Disconnect(s), env), want, flushed)
  {
    DisconnectKeeps(s);
    ScheduleKeeps(Disconnect(s), env, want, flushed);
  }

  // ------------------------------------------------------------------- writing

  /** A write only touches the flag, the outstanding operations and the wire. */
  lemma DoWriteFrame(s: State, socket: Option<nat>, g: nat)
    ensures var t := DoWrite(s, socket, g);
            t == s.(writing := t.writing, pending := t.pending, wire := t.wire)
  {
    if CanWrite(s, g) {
      assert DoWrite(s, socket, g) == Hand(s, socket, g, s.queue.entries[0]);
    } else {
      assert DoWrite(s, socket, g) == s.(writing := false);
    }
  }

  lemma FlushFrame(s: State)
    ensures var t := Flush(s);
            t == s.(writing := t.writing, pending := t.pending, wire := t.wire)
  {
    if s.connected && !s.writing {
      DoWriteFrame(s, s.ws, s.generation);
    }
  }

  /** Starting a write on an idle connection hands over the front entry, once. */
  lemma DoWriteKeeps(s: State, want: nat)
    requires Base(s) && Live(s, want) && s.connected && NoWrite(s) && HandedOnce(s)
    ensures Inv(DoWrite(s, Some(s.generation), s.generation), want, true)
  {
    if s.queue.entries != [] {
      HandKeeps(s, want);
    }
  }

  lemma HandKeeps(s: State, want: nat)
    requires Base(s) && Live(s, want) && s.connected && NoWrite(s) && HandedOnce(s) && s.queue.entries != []
    ensures Inv(Hand(s, Some(s.generation), s.generation, s.queue.entries[0]), want, true)
  {
    assert InFlight(Hand(s, Some(s.generation), s.generation, s.queue.entries[0]), 0);
    WireGrows(s);
  }

  lemma WireGrows(s: State)
    requires Base(s) && s.connected && NoWrite(s) && HandedOnce(s) && s.queue.entries != []
    ensures WireOk(Hand(s, Some(s.generation), s.generation, s.queue.entries[0]))
    ensures HandedOnce(Hand(s, Some(s.generation), s.generation, s.queue.entries[0]))
  {
  }

  /** Everything but the flush obligation survives a push. */
  ghost predicate Pushed(s: State, s': State) {
    && s' == s.(queue := s'.queue, accepted := s'.accepted)
    && s'.queue.nextId >= s.queue.nextId
  }

  /** A new or kept entry keeps the handoff discipline. */
  lemma HandedAfterPush(s: State, s': State)
    requires WireOk(s) && HandedOnce(s) && Pushed(s, s')
    requires forall k :: 0 <= k < |s'.queue.entries| ==>
               s'.queue.entries[k] in s.queue.entries || s'.queue.entries[k].id >= s.queue.nextId
    ensures HandedOnce(s') && WireOk(s')
  {
  }

  /** The entry in flight keeps its place behind scoped entries only. */
  lemma InFlightMoves(s: State, s': State, k: nat, k': nat)
    requires InFlight(s, k) && Pushed(s, s')
    requires k' < |s'.queue.entries| && s'.queue.entries[k'] == s.queue.entries[k]
    requires forall j :: 0 <= j < k' ==> s'.queue.entries[j].scoped
    ensures InFlight(s', k')
  {
  }

  lemma AcceptConserves(s: State, text: string)
    requires Conserved(s) && Valid(s.queue) && AddRetained(s.queue, text).1
    ensures Conserved(Accept(s, text))
  {
    AddRetainedValid(s.queue, text);
    AppendLast(s.completed + s.dropped, Retained(s.queue.entries), Message(s.queue, text));
  }

  lemma AcceptWrites(s: State, text: string)
    requires WriteOk(s) && AddRetained(s.queue, text).1
    ensures WriteOk(Accept(s, text))
  {
    if s.writing {
      var k: nat :| InFlight(s, k);
      InFlightMoves(s, Accept(s, text), k, k);
    }
  }

  lemma RetainKeeps(s: State, text: string, want: nat, flushed: bool)
    requires Inv(s, want, flushed) && AddRetained(s.queue, text).1
    ensures Inv(Accept(s, text), want, false)
  {
    AddRetainedValid(s.queue, text);
    AcceptConserves(s, text);
    AcceptWrites(s, text);
    HandedAfterPush(s, Accept(s, text));
  }

  lemma AppendLast(a: seq<Entry>, b: seq<Entry>, x: Entry)
    ensures a + b + [x] == a + (b + [x])
  {
  }

  lemma FrameEntries(q: Queue, text: string, generation: nat, priority: bool)
    ensures var q' := AddConnection(q, text, generation, priority).0;
            q'.nextId >= q.nextId
            && forall k :: 0 <= k < |q'.entries| ==> q'.entries[k] in q.entries || q'.entries[k].id >= q.nextId
  {
    SweepKeeps(q.entries, generation, true);
  }

  /** While the queue holds no stale frame, a push only adds one entry at an end. */
  lemma PlainPush(q: Queue, text: string, generation: nat, priority: bool)
    requires ScopedTo(q.entries, generation)
    ensures var q' := AddConnection(q, text, generation, priority).0;
            || q'.entries == q.entries
            || (exists e: Entry :: e.scoped && (q'.entries == [e] + q.entries || q'.entries == q.entries + [e]))
  {
    SweepNothing(q.entries, generation);
    var e := Entry(q.nextId, text, true, generation);
    assert e.scoped;
  }

  lemma FrameInFlight(s: State, s': State, text: string, priority: bool)
    requires s.writing && WriteOk(s) && QueueOk(s)
    requires s' == PushFrame(s, text, priority)
    ensures WriteOk(s')
  {
    PlainPush(s.queue, text, s.generation, priority);
    var k: nat :| InFlight(s, k);
    if s'.queue.entries == s.queue.entries {
      InFlightMoves(s, s', k, k);
    } else {
      var e: Entry :| e.scoped
                      && (s'.queue.entries == [e] + s.queue.entries || s'.queue.entries == s.queue.entries + [e]);
      InFlightMoves(s, s', k, if s'.queue.entries == [e] + s.queue.entries then k + 1 else k);
    }
  }

  lemma FrameKeeps(s: State, text: string, priority: bool, want: nat, flushed: bool)
    requires Inv(s, want, flushed)
    ensures Inv(PushFrame(s, text, priority), want, false)
  {
    var s' := PushFrame(s, text, priority);
    AddConnectionValid(s.queue, text, s.generation, priority);
    FrameEntries(s.queue, text, s.generation, priority);
    HandedAfterPush(s, s');
    if s.writing {
      FrameInFlight(s, s', text, priority);
    }
  }

  lemma FlushKeeps(s: State, want: nat)
    requires Inv(s, want, false)
    ensures Inv(Flush(s), want, true)
  {
    if s.connected && !s.writing {
      DoWriteKeeps(s, want);
    }
  }

  lemma SendRetainedKeeps(s: State, text: string, want: nat, flushed: bool)
    requires Inv(s, want, flushed)
    ensures Inv(SendRetained(s, text), want, flushed)
  {
    if AddRetained(s.queue, text).1 {
      RetainKeeps(s, text, want, flushed);
      FlushKeeps(Accept(s, text), want);
    }
  }

  /** A refused frame leaves a connected queue as it was. */
  lemma SendPriorityKeeps(s: State, text: string, want: nat, flushed: bool)
    requires Inv(s, want, flushed)
    ensures Inv(SendPriority(s, text), want, flushed)
  {
    FrameKeeps(s, text, true, want, flushed);
    if AddConnection(s.queue, text, s.generation, true).1 {
      FlushKeeps(PushFrame(s, text, true), want);
    } else if s.connected {
      SweepNothing(s.queue.entries, s.generation);
    }
  }

  // ----------------------------------------------------------------- connecting

  /** Ready to start over: a client of a generation that has no operation yet. */
  ghost predicate Ready(s: State) {
    Base(s) && Idle(s) && s.started && !s.stopped && !s.reconnectScheduled && Armed(s) == Cancelled(s) == 0
    && s.ws == Some(s.generation)
  }

  lemma RenewReady(s: State)
    requires Base(s) && s.started && !s.stopped && Armed(s) == Cancelled(s) == 0
    ensures Ready(Renew(s))
  {
  }

  lemma SkipReady(s: State)
    requires Ready(s)
    ensures Base(Skip(s)) && Idle(Skip(s))
  {
  }

  /** The first connect step of a new generation. */
  lemma FirstStepKeeps(s: State)
    requires Ready(s)
    ensures Inv(FirstStep(s), 1, true)
  {
    IdleFacts(s);
    var s' := FirstStep(s);
    assert Tagged(s');
    assert Steps(s') == 1;
  }

  lemma ConnectShape(s: State, env: Env)
    requires !s.stopped
    ensures Connect(s, env) == if env.setupOk then FirstStep(Renew(s)) else ScheduleReconnect(Skip(Renew(s)), env)
  {
    if env.setupOk {
      assert Connect(s, env) == FirstStep(Renew(s));
    } else {
      assert Connect(s, env) == ScheduleReconnect(Skip(Renew(s)), env);
    }
  }

  /** Starting over: a new generation with one connect step, or straight to the backoff. */
  lemma ConnectKeeps(s: State, env: Env)
    requires Base(s) && s.started && Armed(s) == Cancelled(s) == 0 && !s.stopped
    ensures Inv(Connect(s, env), 1, true)
  {
    RenewReady(s);
    ConnectShape(s, env);
    if env.setupOk {
      FirstStepKeeps(Renew(s));
    } else {
      SkipReady(Renew(s));
      ScheduleKeeps(Skip(Renew(s)), env, 1, true);
    }
  }

  // ------------------------------------------------------------------ callbacks

  /** A callback leaves the session alone, or ends it with its generation. */
  ghost predicate SameSession(s: State, s': State) {
    && s'.generation >= s.generation
    && (if s'.generation == s.generation
        then s'.connected == s.connected && s'.stopped == s.stopped && s'.started == s.started
        else !s'.connected)
  }

  lemma ScheduleSession(s: State, env: Env)
    requires !s.connected
    ensures ScheduleReconnect(s, env).generation >= s.generation && !ScheduleReconnect(s, env).connected
  {
    if s.stopped || s.reconnectScheduled {
    } else if GivenUp(s, env) {
      assert ScheduleReconnect(s, env) == StopClient(s);
    } else {
      assert ScheduleReconnect(s, env) == Scheduled(s, ReconnectDelay(s, env));
    }
  }

  lemma FlushSession(s: State)
    ensures SameSession(s, Flush(s)) && Flush(s).generation == s.generation
  {
    FlushFrame(s);
  }

  lemma PrioritizeSession(s: State, text: string)
    ensures SameSession(s, SendPriority(s, text))
  {
    FlushSession(PushFrame(s, text, true));
  }

  lemma PerformSession(s: State, a: Action, env: Env)
    ensures SameSession(s, Perform(s, a, env))
  {
    match a
    case Prioritize(text) => PrioritizeSession(s, text);
    case Drop => ScheduleSession(Disconnect(s), env);
    case Retire =>
  }

  lemma PerformKeeps(s: State, a: Action, env: Env, want: nat, flushed: bool)
    requires Inv(s, want, flushed)
    ensures Inv(Perform(s, a, env), want, flushed)
  {
    match a
    case Prioritize(text) => SendPriorityKeeps(s, text, want, flushed);
    case Drop =>
      if s.connected { LeaveKeeps(s, env, want, flushed); }
    case Retire => StopKeeps(s, want, flushed);
  }

  lemma {:induction false} PerformAllKeeps(s: State, actions: seq<Action>, env: Env, want: nat, flushed: bool)
    requires Inv(s, want, flushed)
    ensures Inv(PerformAll(s, actions, env), want, flushed)
    ensures SameSession(s, PerformAll(s, actions, env))
  {
    if actions != [] {
      var front := actions[..|actions| - 1];
      PerformAllKeeps(s, front, env, want, flushed);
      PerformKeeps(PerformAll(s, front, env), actions[|actions| - 1], env, want, flushed);
      PerformSession(PerformAll(s, front, env), actions[|actions| - 1], env);
    }
  }

  /** Only the outcome while still in the session depends on how many reads are wanted. */
  lemma OutOfSession(s: State, want: nat, want': nat, flushed: bool)
    requires Inv(s, want, flushed) && !s.connected
    ensures Inv(s, want', true)
  {
  }

  // --------------------------------------------------------------- the handlers

  /** Handling this outstanding operation keeps the invariant. */
  ghost predicate Handled(s: State, op: Op, ok: bool, actions: seq<Action>, env: Env) {
    Inv(Handle(Taken(s, op), op, ok, actions, env), 1, true)
  }

  /** Operations other than current writes come and go freely, as far as they leave the client live. */
  lemma PendingChange(s: State, s': State, want: nat, want': nat, flushed: bool)
    requires Inv(s, want, flushed) && s' == s.(pending := s'.pending)
    requires Tagged(s') && Live(s', want')
    requires forall id :: s'.pending[Write(s.generation, id)] == s.pending[Write(s.generation, id)]
    ensures Inv(s', want', flushed)
  {
    if s.writing {
      var k: nat :| InFlight(s, k);
      assert InFlight(s', k);
    }
  }

  lemma TakenBase(s: State, op: Op)
    requires Base(s)
    ensures Base(Taken(s, op))
  {
  }

  /** A stale completion, or a timer nobody counts on, changes nothing that matters. */
  lemma TakenStale(s: State, op: Op)
    requires Inv(s, 1, true) && op in s.pending
    requires match op
             case Connecting(_, g) => g != s.generation
             case Read(g) => g != s.generation
             case Write(g, _) => g != s.generation
             case ReconnectWait(cancelled) => cancelled && s.stopped
             case _ => true
    ensures Inv(Taken(s, op), 1, true)
  {
    PendingChange(s, Taken(s, op), 1, 1, true);
  }

  lemma OnStart(s: State, env: Env)
    requires Inv(s, 1, true) && !s.started
    ensures Inv(Connect(s.(started := true), env), 1, true)
  {
    var s' := s.(started := true);
    assert Base(s');
    if !s.stopped { ConnectKeeps(s', env); }
  }

  /** A failed operation of the current generation ends the connection. */
  lemma FailKeeps(s: State, op: Op, env: Env)
    requires Inv(s, 1, true) && op in s.pending && s.started && !s.stopped && !s.reconnectScheduled
    ensures Inv(ScheduleReconnect(Disconnect(Taken(s, op)), env), 1, true)
  {
    TakenBase(s, op);
    LeaveKeeps(Taken(s, op), env, 1, true);
  }

  /** A client with an outstanding connect step of its own generation is connecting. */
  lemma StepMeansConnecting(s: State, stage: Stage)
    requires Inv(s, 1, true) && Connecting(stage, s.generation) in s.pending
    ensures !s.stopped && s.started && !s.connected && !s.reconnectScheduled && s.ws == Some(s.generation)
    ensures Steps(Taken(s, Connecting(stage, s.generation))) == 0
  {
  }

  /** Moving on to the next connect stage. */
  lemma AdvanceKeeps(s: State, stage: Stage, next: Stage)
    requires Inv(s, 1, true) && Connecting(stage, s.generation) in s.pending
    ensures Inv(Await(Taken(s, Connecting(stage, s.generation)), Connecting(next, s.generation)), 1, true)
  {
    var s' := Await(Taken(s, Connecting(stage, s.generation)), Connecting(next, s.generation));
    AdvanceLive(s, stage, next);
    assert forall id :: s'.pending[Write(s.generation, id)] == s.pending[Write(s.generation, id)];
    PendingChange(s, s', 1, 1, true);
  }

  lemma AdvanceLive(s: State, stage: Stage, next: Stage)
    requires Inv(s, 1, true) && Connecting(stage, s.generation) in s.pending
    ensures var s' := Await(Taken(s, Connecting(stage, s.generation)), Connecting(next, s.generation));
            Tagged(s') && Live(s', 1)
  {
    StepMeansConnecting(s, stage);
    OneMoreStep(Taken(s, Connecting(stage, s.generation)), next);
    SwapCounts(s, Connecting(stage, s.generation), Connecting(next, s.generation));
  }

  lemma SwapCounts(s: State, op: Op, next: Op)
    requires op.Connecting? && next.Connecting?
    ensures var s' := Await(Taken(s, op), next);
            Reads(s') == Reads(s) && Armed(s') == Armed(s) && Cancelled(s') == Cancelled(s)
  {
  }

  lemma OneMoreStep(s: State, next: Stage)
    requires Steps(s) == 0
    ensures Steps(Await(s, Connecting(next, s.generation))) == 1
  {
  }

  /** Opening sweeps stale frames out of a queue nothing is written from. */
  lemma OpenedBase(s: State)
    requires Base(s) && HandedOnce(s) && NoWrite(s)
    ensures Base(Opened(s, s.generation)) && HandedOnce(Opened(s, s.generation))
  {
    SweepValid(s.queue, s.generation, true);
    SweepRetained(s.queue.entries, s.generation, true);
    SweepKeeps(s.queue.entries, s.generation, true);
    HandedAfterPush(s.(connected := true, openedAt := Opened(s, s.generation).openedAt), Opened(s, s.generation));
  }

  lemma OpenedKeeps(s: State)
    requires Inv(s, 1, true) && Connecting(WsHandshake, s.generation) in s.pending
    ensures Inv(Opened(Taken(s, Connecting(WsHandshake, s.generation)), s.generation), 0, false)
  {
    var op := Connecting(WsHandshake, s.generation);
    StepMeansConnecting(s, WsHandshake);
    TakenBase(s, op);
    var s' := Taken(s, op);
    assert forall id :: s'.pending[Write(s.generation, id)] == s.pending[Write(s.generation, id)];
    OpenedBase(s');
  }

  /** Adding the read, and a keepalive wait, completes the session. */
  lemma ReadStarts(s: State)
    requires Inv(s, 0, true) && s.connected
    ensures Inv(Await(s, Read(s.generation)), 1, true)
  {
    PendingChange(s, Await(s, Read(s.generation)), 0, 1, true);
  }

  lemma KeepaliveArms(s: State, want: nat)
    requires Inv(s, want, true) && s.started
    ensures Inv(ArmKeepalive(s), want, true)
  {
    PendingChange(s, ArmKeepalive(s), want, want, true);
  }

  lemma FirstWriteKeeps(s: State)
    requires Inv(s, 0, false) && s.connected
    ensures Inv(FirstWrite(s, s.generation), 0, true) && FirstWrite(s, s.generation).connected
    ensures FirstWrite(s, s.generation).generation == s.generation
  {
    if s.queue.entries != [] && !s.writing {
      DoWriteKeeps(s, 0);
      DoWriteFrame(s, Some(s.generation), s.generation);
    }
  }

  lemma BeginSessionKeeps(s: State)
    requires Inv(s, 0, false) && s.connected
    ensures Inv(BeginSession(s, s.generation), 1, true)
  {
    FirstWriteKeeps(s);
    KeepaliveArms(FirstWrite(s, s.generation), 0);
    ReadStarts(ArmKeepalive(FirstWrite(s, s.generation)));
  }

  lemma OnOpenedKeeps(s: State, actions: seq<Action>, env: Env)
    requires Inv(s, 1, true) && Connecting(WsHandshake, s.generation) in s.pending
    ensures Inv(OnOpened(Taken(s, Connecting(WsHandshake, s.generation)), s.generation, actions, env), 1, true)
  {
    var s0 := Taken(s, Connecting(WsHandshake, s.generation));
    OpenedKeeps(s);
    PerformAllKeeps(Opened(s0, s.generation), actions, env, 0, false);
    StepMeansConnecting(s, WsHandshake);
    var s2 := PerformAll(Opened(s0, s.generation), actions, env);
    if s2.stopped || s.generation != s2.generation {
      OutOfSession(s2, 0, 1, false);
    } else {
      BeginSessionKeeps(s2);
    }
  }

  function NextStage(stage: Stage): Stage
    requires stage != WsHandshake
  {
    match stage
    case Resolve => TcpConnect
    case TcpConnect => TlsHandshake
    case TlsHandshake => WsHandshake
  }

  /** Before the handshake is complete there is no callback: a stage is stale, fails or leads to the next. */
  lemma StageShape(s: State, stage: Stage, g: nat, ok: bool, actions: seq<Action>, env: Env)
    requires !(stage == WsHandshake && ok && g == s.generation)
    ensures OnConnecting(s, stage, g, ok, actions, env)
         == if g != s.generation then s
            else if ok then Await(s, Connecting(NextStage(stage), g))
            else Fail(s, g, env)
  {
  }

  lemma StageKeeps(s: State, stage: Stage, ok: bool, actions: seq<Action>, env: Env)
    requires Inv(s, 1, true) && Connecting(stage, s.generation) in s.pending && !(stage == WsHandshake && ok)
    ensures Inv(OnConnecting(Taken(s, Connecting(stage, s.generation)), stage, s.generation, ok, actions, env), 1, true)
  {
    StepMeansConnecting(s, stage);
    StageShape(Taken(s, Connecting(stage, s.generation)), stage, s.generation, ok, actions, env);
    if ok {
      AdvanceKeeps(s, stage, NextStage(stage));
    } else {
      FailKeeps(s, Connecting(stage, s.generation), env);
    }
  }

  lemma OnConnectingKeeps(s: State, stage: Stage, g: nat, ok: bool, actions: seq<Action>, env: Env)
    requires Inv(s, 1, true) && Connecting(stage, g) in s.pending
    ensures Handled(s, Connecting(stage, g), ok, actions, env)
  {
    if g != s.generation {
      TakenStale(s, Connecting(stage, g));
    } else if stage == WsHandshake && ok {
      OnOpenedKeeps(s, actions, env);
    } else {
      StageKeeps(s, stage, ok, actions, env);
    }
  }

  lemma SkipGeneration(s: State)
    requires Base(s) && !s.connected
    ensures Base(Expire(s)) && Idle(Expire(s))
  {
  }

  /** A connect stage that ran out of time. */
  lemma DeadlineEnds(s: State, env: Env)
    requires Inv(s, 1, true) && s.started && !s.stopped && !s.connected
    ensures Inv(ScheduleReconnect(Expire(s), env), 1, true)
  {
    SkipGeneration(s);
    if s.reconnectScheduled {
      IdleFacts(Expire(s));
    } else {
      ScheduleKeeps(Expire(s), env, 1, true);
    }
  }

  lemma OnDeadlineKeeps(s: State, g: nat, ok: bool, actions: seq<Action>, env: Env)
    requires Inv(s, 1, true) && Deadline(g) in s.pending
    ensures Handled(s, Deadline(g), ok, actions, env)
  {
    TakenStale(s, Deadline(g));
    PendingMeansStarted(s, Deadline(g));
    DeadlinePasses(Taken(s, Deadline(g)), g, ok, env);
  }

  lemma PendingMeansStarted(s: State, op: Op)
    requires Live(s, 1) && op in s.pending
    ensures s.stopped || s.started
  {
  }

  lemma DeadlinePasses(s: State, g: nat, ok: bool, env: Env)
    requires Inv(s, 1, true) && (s.stopped || s.started)
    ensures Inv(OnDeadline(s, g, ok, env), 1, true)
  {
    if ok && !s.stopped && g == s.generation && !s.connected {
      DeadlineEnds(s, env);
    }
  }

  lemma ReadMeansConnected(s: State)
    requires Inv(s, 1, true) && Read(s.generation) in s.pending
    ensures !s.stopped && s.started && s.connected && !s.reconnectScheduled
  {
  }

  /** An application frame resets the backoff; the next read is not started yet. */
  lemma FrameArrives(s: State)
    requires Inv(s, 1, true) && Read(s.generation) in s.pending
    ensures Inv(Refreshed(Taken(s, Read(s.generation))), 0, true)
  {
    ReadMeansConnected(s);
    var s' := Taken(s, Read(s.generation));
    PendingChange(s, s', 1, 0, true);
    BackoffReset(s');
  }

  lemma BackoffReset(s: State)
    requires Inv(s, 0, true)
    ensures Inv(Refreshed(s), 0, true)
  {
    var s' := Refreshed(s);
    assert BackoffBase(0) == FIRST_DELAY;
    if s.writing {
      var k: nat :| InFlight(s, k);
      assert InFlight(s', k);
    }
  }

  /** The callback ran; the next read starts if the session is still the same. */
  lemma FrameHandled(s: State, actions: seq<Action>, env: Env)
    requires Inv(s, 1, true) && Read(s.generation) in s.pending
    ensures Inv(OnRead(Taken(s, Read(s.generation)), s.generation, true, actions, env), 1, true)
  {
    ReadMeansConnected(s);
    FrameArrives(s);
    var s0 := Refreshed(Taken(s, Read(s.generation)));
    PerformAllKeeps(s0, actions, env, 0, true);
    var s1 := PerformAll(s0, actions, env);
    if s1.stopped || s.generation != s1.generation {
      OutOfSession(s1, 0, 1, true);
    } else {
      ReadStarts(s1);
    }
  }

  lemma OnReadKeeps(s: State, g: nat, ok: bool, actions: seq<Action>, env: Env)
    requires Inv(s, 1, true) && Read(g) in s.pending
    ensures Inv(OnRead(Taken(s, Read(g)), g, ok, actions, env), 1, true)
  {
    if g != s.generation {
      TakenStale(s, Read(g));
    } else if !ok {
      ReadMeansConnected(s);
      FailKeeps(s, Read(g), env);
    } else {
      FrameHandled(s, actions, env);
    }
  }

  lemma ReadHandled(s: State, g: nat, ok: bool, actions: seq<Action>, env: Env)
    requires Inv(s, 1, true) && Read(g) in s.pending
    ensures Handled(s, Read(g), ok, actions, env)
  {
    var s' := Taken(s, Read(g));
    assert Handle(s', Read(g), ok, actions, env) == OnRead(s', g, ok, actions, env);
    OnReadKeeps(s, g, ok, actions, env);
  }

  /** The completed frame is the one in flight, and the whole accounting moves by it. */
  lemma CompleteKeeps(s: State, k: nat, s': State)
    requires Inv(s, 1, true) && s.writing && InFlight(s, k)
    requires s' == CompleteEntry(Taken(s, Write(s.generation, s.queue.entries[k].id)), s.queue.entries[k].id)
    ensures Base(s') && NoWrite(s') && HandedOnce(s') && Live(s', 1) && s'.connected
  {
    var entries, id := s.queue.entries, s.queue.entries[k].id;
    TakenBase(s, Write(s.generation, id));
    FirstIs(entries, k);
    RemoveAhead(entries, k);
    WithoutValid(s.queue, id);
    WithoutDistinct(entries, id);
    CompletedMoves(s.completed, Mark(entries[k]), Retained(Without(entries, id)));
    HandedLeaves(s, s', k);
  }

  lemma CompletedMoves(a: seq<Entry>, m: seq<Entry>, b: seq<Entry>)
    ensures a + [] + (m + b) == (a + m) + [] + b
  {
  }

  lemma HandedLeaves(s: State, s': State, k: nat)
    requires HandedOnce(s) && InFlight(s, k) && Distinct(s.queue.entries)
    requires s'.wire == s.wire && s'.generation == s.generation
    requires s'.queue.entries == Without(s.queue.entries, s.queue.entries[k].id)
    ensures HandedOnce(s')
  {
    WithoutDistinct(s.queue.entries, s.queue.entries[k].id);
    forall i, j | 0 <= i < |s'.wire| && 0 <= j < |s'.queue.entries| && s'.wire[i].generation == s'.generation
      ensures s'.wire[i].entry.id != s'.queue.entries[j].id
    {
      var j' :| 0 <= j' < |s.queue.entries| && s.queue.entries[j'] == s'.queue.entries[j];
      assert s.queue.entries[j'].id != s.queue.entries[k].id;
      assert s.pending[Write(s.generation, s.queue.entries[j'].id)] == 0;
    }
  }

  lemma WriteMeansWriting(s: State, id: nat) returns (k: nat)
    requires Inv(s, 1, true) && Write(s.generation, id) in s.pending
    ensures s.writing && s.connected && !s.stopped && s.started && !s.reconnectScheduled
    ensures InFlight(s, k) && s.queue.entries[k].id == id
  {
    k :| InFlight(s, k);
  }

  lemma OnWrittenKeeps(s: State, g: nat, id: nat, ok: bool, env: Env)
    requires Inv(s, 1, true) && Write(g, id) in s.pending
    ensures Inv(OnWritten(Taken(s, Write(g, id)), g, id, ok, env), 1, true)
  {
    if g != s.generation {
      TakenStale(s, Write(g, id));
    } else {
      var k := WriteMeansWriting(s, id);
      if !ok {
        FailKeeps(s, Write(g, id), env);
      } else {
        var s' := CompleteEntry(Taken(s, Write(g, id)), id);
        CompleteKeeps(s, k, s');
        DoWriteKeeps(s', 1);
      }
    }
  }

  lemma WriteHandled(s: State, g: nat, id: nat, ok: bool, actions: seq<Action>, env: Env)
    requires Inv(s, 1, true) && Write(g, id) in s.pending
    ensures Handled(s, Write(g, id), ok, actions, env)
  {
    var s' := Taken(s, Write(g, id));
    assert Handle(s', Write(g, id), ok, actions, env) == OnWritten(s', g, id, ok, env);
    OnWrittenKeeps(s, g, id, ok, env);
  }

  lemma OnReconnectKeeps(s: State, cancelled: bool, ok: bool, actions: seq<Action>, env: Env)
    requires Inv(s, 1, true) && ReconnectWait(cancelled) in s.pending && (!cancelled ==> ok)
    ensures Handled(s, ReconnectWait(cancelled), ok, actions, env)
  {
    var s' := Taken(s, ReconnectWait(cancelled));
    if s.stopped {
      TakenStale(s, ReconnectWait(cancelled));
    } else {
      TakenBase(s, ReconnectWait(cancelled));
      ConnectKeeps(Fired(s'), env);
    }
  }

  lemma OnKeepaliveKeeps(s: State, ok: bool, actions: seq<Action>, env: Env)
    requires Inv(s, 1, true) && KeepaliveWait in s.pending
    ensures Handled(s, KeepaliveWait, ok, actions, env)
  {
    TakenStale(s, KeepaliveWait);
    var s' := Taken(s, KeepaliveWait);
    if ok && !s.stopped && s.connected {
      FrameKeeps(s', s.keepaliveText, false, 1, true);
      var s'' := PushFrame(s', s.keepaliveText, false);
      FlushKeeps(s'', 1);
      FlushSession(s'');
      KeepaliveArms(Flush(s''), 1);
    }
  }

  // ---------------------------------------------------------------- every run

  lemma HandleKeeps(s: State, op: Op, ok: bool, actions: seq<Action>, env: Env)
    requires Inv(s, 1, true) && op in s.pending && (op == ReconnectWait(false) ==> ok)
    ensures Handled(s, op, ok, actions, env)
  {
    match op
    case Connecting(stage, g) => OnConnectingKeeps(s, stage, g, ok, actions, env);
    case Deadline(g) => OnDeadlineKeeps(s, g, ok, actions, env);
    case Read(g) => ReadHandled(s, g, ok, actions, env);
    case Write(g, id) => WriteHandled(s, g, id, ok, actions, env);
    case ReconnectWait(cancelled) => OnReconnectKeeps(s, cancelled, ok, actions, env);
    case KeepaliveWait => OnKeepaliveKeeps(s, ok, actions, env);
  }

  lemma StepKeeps(s: State, e: Event)
    requires Inv(s, 1, true) && Enabled(s, e)
    ensures Inv(Step(s, e), 1, true)
  {
    match e
    case Start(env) => OnStart(s, env);
    case Stop => StopKeeps(s, 1, true);
    case Kick(env) => PerformKeeps(s, Drop, env, 1, true);
    case Send(text) => SendRetainedKeeps(s, text, 1, true);
    case SendFirst(text) => SendPriorityKeeps(s, text, 1, true);
    case Done(op, ok, actions, env) => HandleKeeps(s, op, ok, actions, env);
  }

  lemma FreshInv(s: State)
    requires Fresh(s)
    ensures Inv(s, 1, true)
  {
    RetainedNothing();
    assert BackoffBase(0) == FIRST_DELAY;
  }

  /** The invariant holds after every possible run of a new client. */
  lemma {:induction false} RunKeeps(s: State, events: seq<Event>)
    requires Fresh(s) && Possible(s, events)
    ensures Inv(Run(s, events), 1, true)
  {
    if events == [] {
      FreshInv(s);
    } else {
      RunKeeps(s, events[..|events| - 1]);
      StepKeeps(Run(s, events[..|events| - 1]), events[|events| - 1]);
    }
  }
}
