/**
  What a run's events account for: why a client is stopped, and how far its
  reconnect delay has grown. Both are counted on the events, not on the state.
 */
module WsCauses {

  import opened Results
  import opened WriteQueue
  import opened WsModel
  import opened WsInvariant
  import opened WsLaws
  import opened WsSession

  /** What the surroundings decided during the event, if it let them. */
  function EnvOf(e: Event): Option<Env> {
    match e
    case Start(env) => Some(env)
    case Kick(env) => Some(env)
    case Done(_, _, _, env) => Some(env)
    case _ => None
  }

  // ------------------------------------------------------------------------ stopping

  /** The policy, if any, asks for another attempt. */
  predicate Retries(policy: bool, env: Env) {
    policy ==> env.verdict.Some? && env.verdict.value >= 0
  }

  /** Nobody stops the client here: no stop, no retiring callback, no policy that gives up. */
  predicate Benign(policy: bool, e: Event) {
    && !e.Stop?
    && (EnvOf(e).Some? ==> Retries(policy, EnvOf(e).value))
    && (e.Done? ==> Retire !in e.actions)
  }

  /** Still going, with the policy it had or none. */
  predicate GoesOn(s: State, u: State) {
    !u.stopped && (u.policy ==> s.policy)
  }

  lemma ScheduleGoesOn(s: State, env: Env)
    requires !s.stopped && Retries(s.policy, env)
    ensures GoesOn(s, ScheduleReconnect(s, env))
  {
    if !s.reconnectScheduled {
      assert ScheduleReconnect(s, env) == Scheduled(s, ReconnectDelay(s, env));
    }
  }

  lemma LeaveGoesOn(s: State, env: Env)
    requires !s.stopped && Retries(s.policy, env)
    ensures GoesOn(s, ScheduleReconnect(Disconnect(s), env))
  {
    ScheduleGoesOn(Disconnect(s), env);
  }

  lemma ConnectGoesOn(s: State, env: Env)
    requires !s.stopped && Retries(s.policy, env)
    ensures GoesOn(s, Connect(s, env))
  {
    ConnectShape(s, env);
    if !env.setupOk { ScheduleGoesOn(Skip(Renew(s)), env); }
  }

  lemma PerformGoesOn(s: State, a: Action, env: Env)
    requires !s.stopped && Retries(s.policy, env) && a != Retire
    ensures GoesOn(s, Perform(s, a, env))
  {
    match a
    case Prioritize(text) => FlushFrame(PushFrame(s, text, true));
    case Drop => LeaveGoesOn(s, env);
  }

  lemma {:induction false} PerformAllGoesOn(s: State, actions: seq<Action>, env: Env)
    requires !s.stopped && Retries(s.policy, env) && Retire !in actions
    ensures GoesOn(s, PerformAll(s, actions, env))
  {
    if actions != [] {
      PerformAllGoesOn(s, actions[..|actions| - 1], env);
      PerformGoesOn(PerformAll(s, actions[..|actions| - 1], env), actions[|actions| - 1], env);
    }
  }

  lemma OpeningGoesOn(s: State, g: nat, actions: seq<Action>, env: Env)
    requires !s.stopped && Retries(s.policy, env) && Retire !in actions
    ensures GoesOn(s, OnOpened(s, g, actions, env))
  {
    var s' := PerformAll(Opened(s, g), actions, env);
    PerformAllGoesOn(Opened(s, g), actions, env);
    BeginSessionFrame(s', g);
  }

  lemma ConnectingGoesOn(s: State, stage: Stage, g: nat, ok: bool, actions: seq<Action>, env: Env)
    requires !s.stopped && Retries(s.policy, env) && Retire !in actions
    ensures GoesOn(s, OnConnecting(s, stage, g, ok, actions, env))
  {
    if stage == WsHandshake && ok && g == s.generation {
      OpeningGoesOn(s, g, actions, env);
      assert OnConnecting(s, stage, g, ok, actions, env) == OnOpened(s, g, actions, env);
    } else {
      StageShape(s, stage, g, ok, actions, env);
      LeaveGoesOn(s, env);
    }
  }

  lemma ReadGoesOn(s: State, g: nat, ok: bool, actions: seq<Action>, env: Env)
    requires !s.stopped && Retries(s.policy, env) && Retire !in actions
    ensures GoesOn(s, OnRead(s, g, ok, actions, env))
  {
    if g != s.generation {
    } else if !ok {
      LeaveGoesOn(s, env);
    } else {
      PerformAllGoesOn(Refreshed(s), actions, env);
    }
  }

  lemma WrittenGoesOn(s: State, g: nat, id: nat, ok: bool, env: Env)
    requires !s.stopped && Retries(s.policy, env)
    ensures GoesOn(s, OnWritten(s, g, id, ok, env))
  {
    if g != s.generation {
    } else if !ok {
      LeaveGoesOn(s, env);
    } else {
      DoWriteFrame(CompleteEntry(s, id), Some(g), g);
    }
  }

  lemma DeadlineGoesOn(s: State, g: nat, ok: bool, env: Env)
    requires !s.stopped && Retries(s.policy, env)
    ensures GoesOn(s, OnDeadline(s, g, ok, env))
  {
    if ok && g == s.generation && !s.connected {
      ScheduleGoesOn(Expire(s), env);
    }
  }

  lemma TimerGoesOn(s: State, ok: bool, env: Env)
    requires !s.stopped && Retries(s.policy, env)
    ensures GoesOn(s, OnReconnect(s, ok, env))
  {
    if ok { ConnectGoesOn(Fired(s), env); }
  }

  lemma KeepaliveGoesOn(s: State, ok: bool)
    requires !s.stopped
    ensures GoesOn(s, OnKeepalive(s, ok))
  {
    if ok && s.connected {
      FlushFrame(PushFrame(s, s.keepaliveText, false));
    }
  }

  lemma HandleGoesOn(s: State, op: Op, ok: bool, actions: seq<Action>, env: Env)
    requires !s.stopped && Retries(s.policy, env) && Retire !in actions
    ensures GoesOn(s, Handle(s, op, ok, actions, env))
  {
    match op
    case Connecting(stage, g) => ConnectingGoesOn(s, stage, g, ok, actions, env);
    case Deadline(g) => DeadlineGoesOn(s, g, ok, env);
    case Read(g) => ReadGoesOn(s, g, ok, actions, env);
    case Write(g, id) => WrittenGoesOn(s, g, id, ok, env);
    case ReconnectWait(_) => TimerGoesOn(s, ok, env);
    case KeepaliveWait => KeepaliveGoesOn(s, ok);
  }

  lemma StepGoesOn(s: State, e: Event)
    requires !s.stopped && Benign(s.policy, e)
    ensures GoesOn(s, Step(s, e))
  {
    match e
    case Start(env) => ConnectGoesOn(s.(started := true), env);
    case Kick(env) => LeaveGoesOn(s, env);
    case Send(text) => FlushFrame(Accept(s, text));
    case SendFirst(text) => FlushFrame(PushFrame(s, text, true));
    case Done(op, ok, actions, env) => HandleGoesOn(Taken(s, op), op, ok, actions, env);
  }

  /**
    Only a stop call, a callback that stops or a policy that gives up ever stops a
    client: without them no run does, however slow, broken or stale the network is.
   */
  lemma {:induction false} NothingElseStops(s: State, events: seq<Event>)
    requires Fresh(s) && forall i :: 0 <= i < |events| ==> Benign(s.policy, events[i])
    ensures !Run(s, events).stopped && (Run(s, events).policy ==> s.policy)
  {
    if events != [] {
      var front := events[..|events| - 1];
      NothingElseStops(s, front);
      assert Benign(s.policy, events[|events| - 1]);
      StepGoesOn(Run(s, front), events[|events| - 1]);
    }
  }

  /** And then no message is ever dropped: all are completed or still queued, in order. */
  lemma {:induction false} NothingElseDrops(s: State, events: seq<Event>)
    requires Fresh(s) && Possible(s, events) && forall i :: 0 <= i < |events| ==> Benign(s.policy, events[i])
    ensures var t := Run(s, events); t.accepted == t.completed + Retained(t.queue.entries)
  {
    NothingElseStops(s, events);
    RetainedInOrder(s, events);
  }

  // ------------------------------------------------------------------------- backoff

  /** The event delivers an application frame of the current connection. */
  predicate FrameRead(t: State, e: Event) {
    e.Done? && e.ok && e.op == Read(t.generation) && e.op in t.pending
  }

  /** How many reconnects the step scheduled. */
  function Growth(t: State, u: State): int {
    |u.schedules| - |t.schedules|
  }

  /** The reconnects scheduled since the last application frame, counted on the events. */
  function SinceFrame(s: State, events: seq<Event>): int {
    if events == [] then 0
    else
      var front, e := events[..|events| - 1], events[|events| - 1];
      (if FrameRead(Run(s, front), e) then 0 else SinceFrame(s, front)) + Growth(Run(s, front), Run(s, events))
  }

  /** From a state on: nothing scheduled, or one reconnect, after which the connection is gone. */
  ghost predicate Counted(a: State, u: State, env: Env) {
    || (u.schedules == a.schedules && u.sinceFrame == a.sinceFrame)
    || (&& !u.connected && u.sinceFrame == a.sinceFrame + 1
        && exists delay :: u.schedules == a.schedules + [Schedule(a.delay, delay, a.policy, a.sinceFrame)]
                           && DelayIs(a.delay, delay, a.policy, env))
  }

  /** The policy's own delay, or the base and some of its jitter window, capped. */
  ghost predicate DelayIs(base: nat, delay: nat, byPolicy: bool, env: Env) {
    if byPolicy then env.verdict == Some(delay) else delay == BackoffDelay(base, env.seed)
  }

  lemma ScheduleCounted(s: State, env: Env)
    requires !s.connected
    ensures Counted(s, ScheduleReconnect(s, env), env)
  {
    if s.stopped || s.reconnectScheduled {
    } else if GivenUp(s, env) {
      assert ScheduleReconnect(s, env) == StopClient(s);
    } else {
      var delay := ReconnectDelay(s, env);
      assert ScheduleReconnect(s, env) == Scheduled(s, delay);
      assert DelayIs(s.delay, delay, s.policy, env);
    }
  }

  /** The counting fields are the same. */
  predicate SameCount(a: State, b: State) {
    a.schedules == b.schedules && a.sinceFrame == b.sinceFrame && a.delay == b.delay && a.policy == b.policy
  }

  lemma CountedFrom(a: State, b: State, u: State, env: Env)
    requires SameCount(a, b) && Counted(b, u, env)
    ensures Counted(a, u, env)
  {
  }

  lemma LeaveCounted(s: State, env: Env)
    ensures Counted(s, ScheduleReconnect(Disconnect(s), env), env)
  {
    ScheduleCounted(Disconnect(s), env);
    CountedFrom(s, Disconnect(s), ScheduleReconnect(Disconnect(s), env), env);
  }

  lemma ConnectCounted(s: State, env: Env)
    ensures Counted(s, Connect(s, env), env)
  {
    if !s.stopped {
      ConnectShape(s, env);
      if !env.setupOk {
        ScheduleCounted(Skip(Renew(s)), env);
        CountedFrom(s, Skip(Renew(s)), Connect(s, env), env);
      }
    }
  }

  lemma PerformCounted(s: State, a: Action, env: Env)
    ensures Counted(s, Perform(s, a, env), env)
    ensures !s.connected ==> Perform(s, a, env).schedules == s.schedules
                             && Perform(s, a, env).sinceFrame == s.sinceFrame && !Perform(s, a, env).connected
    ensures Perform(s, a, env).connected ==> SameCount(s, Perform(s, a, env))
  {
    match a
    case Prioritize(text) => FlushFrame(PushFrame(s, text, true));
    case Drop =>
      LeaveCounted(s, env);
      ScheduleSession(Disconnect(s), env);
    case Retire =>
  }

  /** Counted, and while still connected nothing of the count has moved. */
  ghost predicate CountedSession(a: State, u: State, env: Env) {
    Counted(a, u, env) && (u.connected ==> SameCount(a, u))
  }

  lemma {:induction false} PerformAllCounted(s: State, actions: seq<Action>, env: Env)
    ensures CountedSession(s, PerformAll(s, actions, env), env)
  {
    if actions != [] {
      var front, last := actions[..|actions| - 1], actions[|actions| - 1];
      var f := PerformAll(s, front, env);
      PerformAllCounted(s, front, env);
      PerformCounted(f, last, env);
      if f.connected {
        CountedFrom(s, f, Perform(f, last, env), env);
      }
    }
  }

  lemma {:induction false} SessionCounted(s: State, up: State, g: nat, actions: seq<Action>, env: Env)
    requires SameCount(s, up)
    ensures var u := PerformAll(up, actions, env);
            Counted(s, u, env) && Counted(s, BeginSession(u, g), env) && Counted(s, Await(u, Read(g)), env)
  {
    var u := PerformAll(up, actions, env);
    PerformAllCounted(up, actions, env);
    CountedFrom(s, up, u, env);
    BeginSessionFrame(u, g);
  }

  lemma ConnectingCounted(s: State, stage: Stage, g: nat, ok: bool, actions: seq<Action>, env: Env)
    ensures Counted(s, OnConnecting(s, stage, g, ok, actions, env), env)
  {
    if stage == WsHandshake && ok && g == s.generation {
      SessionCounted(s, Opened(s, g), g, actions, env);
      assert OnConnecting(s, stage, g, ok, actions, env) == OnOpened(s, g, actions, env);
    } else {
      StageShape(s, stage, g, ok, actions, env);
      LeaveCounted(s, env);
    }
  }

  lemma ReadCounted(s: State, g: nat, ok: bool, actions: seq<Action>, env: Env)
    ensures Counted(if g == s.generation && ok then Refreshed(s) else s, OnRead(s, g, ok, actions, env), env)
  {
    if g != s.generation {
    } else if !ok {
      LeaveCounted(s, env);
    } else {
      SessionCounted(Refreshed(s), Refreshed(s), g, actions, env);
    }
  }

  lemma WrittenCounted(s: State, g: nat, id: nat, ok: bool, env: Env)
    ensures Counted(s, OnWritten(s, g, id, ok, env), env)
  {
    if g != s.generation {
    } else if !ok {
      LeaveCounted(s, env);
    } else {
      DoWriteFrame(CompleteEntry(s, id), Some(g), g);
    }
  }

  lemma DeadlineCounted(s: State, g: nat, ok: bool, env: Env)
    ensures Counted(s, OnDeadline(s, g, ok, env), env)
  {
    if ok && !s.stopped && g == s.generation && !s.connected {
      ScheduleCounted(Expire(s), env);
      CountedFrom(s, Expire(s), ScheduleReconnect(Expire(s), env), env);
    }
  }

  lemma TimerCounted(s: State, ok: bool, env: Env)
    ensures Counted(s, OnReconnect(s, ok, env), env)
  {
    if ok && !s.stopped {
      ConnectCounted(Fired(s), env);
      CountedFrom(s, Fired(s), Connect(Fired(s), env), env);
    }
  }

  lemma KeepaliveCounted(s: State, ok: bool, env: Env)
    ensures Counted(s, OnKeepalive(s, ok), env)
  {
    if ok && !s.stopped && s.connected {
      FlushFrame(PushFrame(s, s.keepaliveText, false));
    }
  }

  lemma HandleCounted(s: State, op: Op, ok: bool, actions: seq<Action>, env: Env)
    ensures Counted(if op == Read(s.generation) && ok then Refreshed(s) else s, Handle(s, op, ok, actions, env), env)
  {
    match op
    case Connecting(stage, g) => ConnectingCounted(s, stage, g, ok, actions, env);
    case Deadline(g) => DeadlineCounted(s, g, ok, env);
    case Read(g) => ReadCounted(s, g, ok, actions, env);
    case Write(g, id) => WrittenCounted(s, g, id, ok, env);
    case ReconnectWait(_) => TimerCounted(s, ok, env);
    case KeepaliveWait => KeepaliveCounted(s, ok, env);
  }

  const NO_ENV := Env(None, 0, true)

  function EnvIn(e: Event): Env {
    if EnvOf(e).Some? then EnvOf(e).value else NO_ENV
  }

  lemma DoneCounted(s: State, op: Op, ok: bool, actions: seq<Action>, env: Env)
    requires op in s.pending
    ensures var e := Done(op, ok, actions, env);
            Counted(if FrameRead(s, e) then Refreshed(s) else s, Step(s, e), env)
  {
    var e := Done(op, ok, actions, env);
    HandleCounted(Taken(s, op), op, ok, actions, env);
    if FrameRead(s, e) {
      CountedFrom(Refreshed(s), Refreshed(Taken(s, op)), Step(s, e), env);
    } else {
      CountedFrom(s, Taken(s, op), Step(s, e), env);
    }
  }

  lemma StartCounted(s: State, env: Env)
    ensures Counted(s, Step(s, Start(env)), env)
  {
    ConnectCounted(s.(started := true), env);
    CountedFrom(s, s.(started := true), Step(s, Start(env)), env);
  }

  lemma QuietEvents(t: State, e: Event)
    requires EnvOf(e).None?
    ensures Step(t, e).schedules == t.schedules && Step(t, e).sinceFrame == t.sinceFrame
  {
    match e
    case Stop =>
    case Send(text) => FlushFrame(Accept(t, text));
    case SendFirst(text) => FlushFrame(PushFrame(t, text, true));
  }

  lemma StepCounted(s: State, e: Event)
    requires Enabled(s, e)
    ensures Counted(if FrameRead(s, e) then Refreshed(s) else s, Step(s, e), EnvIn(e))
  {
    match e
    case Start(env) => StartCounted(s, env);
    case Kick(env) => LeaveCounted(s, env);
    case Done(op, ok, actions, env) => DoneCounted(s, op, ok, actions, env);
    case _ => QuietEvents(s, e);
  }

  lemma {:induction false} CountOfRun(s: State, events: seq<Event>)
    requires Fresh(s) && Possible(s, events)
    ensures SinceFrame(s, events) == Run(s, events).sinceFrame
  {
    if events != [] {
      var front, e := events[..|events| - 1], events[|events| - 1];
      CountOfRun(s, front);
      StepCounted(Run(s, front), e);
    }
  }

  /**
    The delay is 500 ms doubled once per reconnect since the last application frame,
    at most 30 s, and without a policy no wait was shorter than its base or longer
    than a fifth more.
   */
  lemma {:induction false} DelayInEveryRun(s: State, events: seq<Event>)
    requires Fresh(s) && Possible(s, events)
    ensures SinceFrame(s, events) >= 0
    ensures Run(s, events).delay == Min(500 * Pow2(SinceFrame(s, events)), 30000)
    ensures forall x :: x in Run(s, events).schedules && !x.byPolicy
                        ==> x.base <= x.delay <= Min(30000, x.base + x.base / 5)
  {
    RunKeeps(s, events);
    CountOfRun(s, events);
    BackoffClosed(Run(s, events).sinceFrame);
    forall x | x in Run(s, events).schedules
      ensures ScheduleOk(x)
    {
      var i :| 0 <= i < |Run(s, events).schedules| && Run(s, events).schedules[i] == x;
    }
  }

  /** What a scheduled reconnect waits, given the number of earlier ones since a frame. */
  ghost predicate Timed(x: Schedule, earlier: nat, policy: bool, env: Env) {
    && x.base == Min(500 * Pow2(earlier), 30000) && x.byPolicy == policy
    && (if policy then env.verdict == Some(x.delay)
        else x.delay == Min(30000, x.base + env.seed % (x.base / 5 + 1)))
  }

  lemma TimedWell(a: State, delay: nat, env: Env)
    requires BackoffOk(a) && DelayIs(a.delay, delay, a.policy, env)
    ensures Timed(Schedule(a.delay, delay, a.policy, a.sinceFrame), a.sinceFrame, a.policy, env)
  {
    BackoffClosed(a.sinceFrame);
    BaseRange(a.sinceFrame);
    assert JitterWindow(a.delay) == a.delay / 5;
  }

  lemma RefreshedOk(s: State)
    requires BackoffOk(s)
    ensures BackoffOk(Refreshed(s))
  {
    assert BackoffBase(0) == FIRST_DELAY;
  }

  /**
    A step schedules at most one reconnect. Its base is 500 ms doubled per earlier
    reconnect since the last application frame, capped at 30 s; it waits what the
    policy asked for, or the base and up to a fifth of it more, as the seed says.
   */
  lemma {:induction false} SchedulesInEveryRun(s: State, events: seq<Event>, e: Event)
    requires Fresh(s) && Possible(s, events) && Enabled(Run(s, events), e)
    ensures SinceFrame(s, events) >= 0
    ensures var t, u := Run(s, events), Step(Run(s, events), e);
            var earlier := if FrameRead(t, e) then 0 else SinceFrame(s, events);
            || u.schedules == t.schedules
            || (&& !u.connected && EnvOf(e).Some?
                && exists x :: u.schedules == t.schedules + [x] && Timed(x, earlier, t.policy, EnvOf(e).value))
  {
    var t := Run(s, events);
    var a := if FrameRead(t, e) then Refreshed(t) else t;
    RunKeeps(s, events);
    CountOfRun(s, events);
    StepCounted(t, e);
    RefreshedOk(t);
    if EnvOf(e).None? { QuietEvents(t, e); }
    if Step(t, e).schedules != t.schedules {
      var delay :| Step(t, e).schedules == a.schedules + [Schedule(a.delay, delay, a.policy, a.sinceFrame)]
                   && DelayIs(a.delay, delay, a.policy, EnvIn(e));
      TimedWell(a, delay, EnvIn(e));
    }
  }

}
