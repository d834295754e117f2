/**
  Where each connection resumes: the retained messages handed to one connection
  are a contiguous run of the accepted ones, starting at the first message not
  completed when it opened.
 */
module WsResume {

  import opened Results
  import opened WriteQueue
  import opened WsModel
  import opened WsInvariant

  /** The retained messages handed to one connection, in order. */
  function Carried(wire: seq<Handoff>, g: nat): seq<Entry> {
    if wire == [] then []
    else Carried(wire[..|wire| - 1], g) + CarriedBy(wire[|wire| - 1], g)
  }

  function CarriedBy(h: Handoff, g: nat): seq<Entry> {
    if h.generation == g then Mark(h.entry) else []
  }

  /** c is the part of a that starts at lo. */
  ghost predicate Segment(a: seq<Entry>, lo: nat, c: seq<Entry>) {
    lo + |c| <= |a| && c == a[lo..lo + |c|]
  }

  /** The last handoff is the one in flight on this connection. */
  ghost predicate LastSent(s: State) {
    && s.wire != []
    && var h := s.wire[|s.wire| - 1];
       && h.generation == s.generation
       && h.entry in s.queue.entries
       && s.pending[Write(s.generation, h.entry.id)] > 0
  }

  function Flying(s: State): nat {
    if s.writing && s.wire != [] then |Mark(s.wire[|s.wire| - 1].entry)| else 0
  }

  ghost predicate Position(s: State) {
    && s.generation in s.openedAt
    && s.openedAt[s.generation] + |Carried(s.wire, s.generation)| == |s.completed| + Flying(s)
  }

  ghost predicate OpenedOk(s: State) {
    && (forall i :: 0 <= i < |s.wire| ==> s.wire[i].generation in s.openedAt)
    && (forall g :: g in s.openedAt ==> g <= s.generation && (g == s.generation ==> s.connected))
  }

  ghost predicate Segments(s: State) {
    forall g :: g in s.openedAt ==> Segment(s.accepted, s.openedAt[g], Carried(s.wire, g))
  }

  /** Frames of a finished session are gone from the queue. */
  ghost predicate Clean(s: State) {
    forall k :: 0 <= k < |s.queue.entries| && s.queue.entries[k].scoped && s.queue.entries[k].generation in s.openedAt
                ==> s.connected && s.queue.entries[k].generation == s.generation
  }

  ghost predicate Resume(s: State) {
    && OpenedOk(s)
    && Segments(s)
    && Clean(s)
    && (s.connected ==> Position(s))
    && (s.writing ==> LastSent(s))
  }

  // ------------------------------------------------------------ building blocks

  lemma {:induction false} CarriedAppend(wire: seq<Handoff>, h: Handoff, g: nat)
    ensures Carried(wire + [h], g) == Carried(wire, g) + CarriedBy(h, g)
  {
    assert (wire + [h])[..|wire|] == wire;
  }

  lemma {:induction false} CarriedNone(wire: seq<Handoff>, g: nat)
    requires forall i :: 0 <= i < |wire| ==> wire[i].generation != g
    ensures Carried(wire, g) == []
  {
    if wire != [] { CarriedNone(wire[..|wire| - 1], g); }
  }

  /** The record only grows at its end. */
  ghost predicate Recorded(s: State, s': State) {
    s'.wire == s.wire && s'.openedAt == s.openedAt && s.accepted <= s'.accepted
  }

  lemma SegmentLonger(a: seq<Entry>, b: seq<Entry>, lo: nat, c: seq<Entry>)
    requires Segment(a, lo, c) && a <= b
    ensures Segment(b, lo, c)
  {
    assert a[lo..lo + |c|] == b[lo..lo + |c|];
  }

  lemma SegmentsKept(s: State, s': State)
    requires Segments(s) && Recorded(s, s')
    ensures Segments(s')
  {
    forall g | g in s'.openedAt
      ensures Segment(s'.accepted, s'.openedAt[g], Carried(s'.wire, g))
    {
      SegmentLonger(s.accepted, s'.accepted, s.openedAt[g], Carried(s.wire, g));
    }
  }

  lemma ResumeOut(s: State, s': State)
    requires Resume(s) && Recorded(s, s') && !s'.connected && !s'.writing
    requires s'.generation > s.generation || (s'.generation == s.generation && !s.connected)
    requires Clean(s')
    ensures Resume(s')
  {
    SegmentsKept(s, s');
  }

  lemma ResumeSame(s: State, s': State)
    requires Resume(s) && Recorded(s, s') && s'.completed == s.completed
    requires s'.connected == s.connected && s'.generation == s.generation && s'.writing == s.writing
    requires s'.writing ==> LastSent(s')
    requires s'.queue == s.queue || Clean(s')
    ensures Resume(s')
  {
    SegmentsKept(s, s');
  }

  lemma DisconnectClean(s: State)
    requires Clean(s)
    ensures Clean(Disconnect(s))
  {
    SweepKeeps(s.queue.entries, s.generation, false);
    var s' := Disconnect(s);
    forall k | 0 <= k < |s'.queue.entries| && s'.queue.entries[k].scoped
      ensures s'.queue.entries[k].generation !in s.openedAt
    {
      var j :| 0 <= j < |s.queue.entries| && s.queue.entries[j] == s'.queue.entries[k];
      assert !Swept(s.queue.entries[j], s.generation, false);
    }
  }

  /** Pushing keeps old entries and adds frames of the current generation. */
  lemma PushClean(s: State, s': State)
    requires Clean(s) && OpenedOk(s) && s'.openedAt == s.openedAt
    requires s'.connected == s.connected && s'.generation == s.generation
    requires forall k :: 0 <= k < |s'.queue.entries| ==>
               s'.queue.entries[k] in s.queue.entries
               || !s'.queue.entries[k].scoped || s'.queue.entries[k].generation == s.generation
    ensures Clean(s')
  {
  }

  lemma StopResumes(s: State)
    requires Resume(s)
    ensures Resume(StopClient(s))
  {
    ResumeOut(s, StopClient(s));
  }

  lemma ScheduleResumes(s: State, env: Env)
    requires Resume(s) && !s.connected && !s.writing
    ensures Resume(ScheduleReconnect(s, env))
  {
    if s.stopped || s.reconnectScheduled {
    } else if GivenUp(s, env) {
      StopResumes(s);
    } else {
      ResumeOut(s, Scheduled(s, ReconnectDelay(s, env)));
    }
  }

  lemma LeaveResumes(s: State, env: Env)
    requires Resume(s)
    ensures Resume(ScheduleReconnect(Disconnect(s), env))
  {
    DisconnectClean(s);
    ResumeOut(s, Disconnect(s));
    ScheduleResumes(Disconnect(s), env);
  }

  lemma Middle(c: seq<Entry>, m: seq<Entry>, r: seq<Entry>)
    ensures (c + (m + r))[|c|..|c| + |m|] == m
  {
  }

  lemma {:induction false} FrontMessage(entries: seq<Entry>)
    requires entries != []
    ensures Retained(entries) == Mark(entries[0]) + Retained(entries[1..])
  {
    assert entries == [entries[0]] + entries[1..];
    RetainedConcat([entries[0]], entries[1..]);
    RetainedOne(entries[0]);
  }

  /** The front entry, if retained, is the next accepted message. */
  lemma NextAccepted(s: State)
    requires Conserved(s) && !s.stopped && s.queue.entries != []
    ensures |s.completed| + |Mark(s.queue.entries[0])| <= |s.accepted|
    ensures s.accepted[|s.completed|..|s.completed| + |Mark(s.queue.entries[0])|] == Mark(s.queue.entries[0])
  {
    var m, r := Mark(s.queue.entries[0]), Retained(s.queue.entries[1..]);
    assert s.accepted == s.completed + (m + r) by {
      FrontMessage(s.queue.entries);
      assert s.completed + [] == s.completed;
    }
    Middle(s.completed, m, r);
  }

  lemma SegmentGrows(a: seq<Entry>, lo: nat, c: seq<Entry>, m: seq<Entry>)
    requires Segment(a, lo, c) && lo + |c| + |m| <= |a| && a[lo + |c|..lo + |c| + |m|] == m
    ensures Segment(a, lo, c + m)
  {
    assert a[lo..lo + |c + m|] == a[lo..lo + |c|] + a[lo + |c|..lo + |c| + |m|];
  }

  lemma WireSegments(s: State, h: Handoff)
    requires Segments(s) && Position(s.(writing := false)) && Conserved(s) && !s.stopped
    requires s.queue.entries != [] && h.generation == s.generation && h.entry == s.queue.entries[0]
    ensures Segments(s.(wire := s.wire + [h]))
  {
    forall g | g in s.openedAt
      ensures Segment(s.accepted, s.openedAt[g], Carried(s.wire + [h], g))
    {
      CarriedAppend(s.wire, h, g);
      assert Segment(s.accepted, s.openedAt[g], Carried(s.wire, g));
      if g == s.generation {
        NextAccepted(s);
        SegmentGrows(s.accepted, s.openedAt[g], Carried(s.wire, g), Mark(h.entry));
      } else {
        assert Carried(s.wire, g) + [] == Carried(s.wire, g);
      }
    }
  }

  /** Handing over the front entry extends this connection's run by it. */
  lemma HandResumes(s: State, socket: Option<nat>)
    requires Resume(s.(writing := false)) && Conserved(s) && !s.stopped && CanWrite(s, s.generation)
    ensures Resume(Hand(s, socket, s.generation, s.queue.entries[0]))
  {
    var h := Handoff(socket, s.generation, s.queue.entries[0]);
    WireSegments(s, h);
    CarriedAppend(s.wire, h, s.generation);
  }

  lemma DoWriteResumes(s: State, socket: Option<nat>)
    requires Resume(s.(writing := false)) && Conserved(s) && !s.stopped && s.connected
    ensures Resume(DoWrite(s, socket, s.generation))
  {
    if CanWrite(s, s.generation) {
      HandResumes(s, socket);
    } else {
      assert DoWrite(s, socket, s.generation) == s.(writing := false);
    }
  }

  lemma FlushResumes(s: State, want: nat)
    requires Resume(s) && Inv(s, want, false)
    ensures Resume(Flush(s))
  {
    if s.connected && !s.writing {
      assert s == s.(writing := false);
      DoWriteResumes(s, s.ws);
    }
  }

  lemma AcceptResumes(s: State, text: string)
    requires Resume(s) && AddRetained(s.queue, text).1
    ensures Resume(Accept(s, text))
  {
    PushClean(s, Accept(s, text));
    ResumeSame(s, Accept(s, text));
  }

  lemma SendResumes(s: State, text: string)
    requires Resume(s) && Inv(s, 1, true)
    ensures Resume(SendRetained(s, text))
  {
    if AddRetained(s.queue, text).1 {
      RetainKeeps(s, text, 1, true);
      AcceptResumes(s, text);
      FlushResumes(Accept(s, text), 1);
    }
  }

  lemma FrameResumes(s: State, text: string, priority: bool)
    requires Resume(s) && QueueOk(s) && (s.writing ==> s.connected)
    ensures Resume(PushFrame(s, text, priority))
  {
    var s' := PushFrame(s, text, priority);
    if s.writing { PlainPush(s.queue, text, s.generation, priority); }
    AddConnectionValid(s.queue, text, s.generation, priority);
    PushClean(s, s');
    ResumeSame(s, s');
  }

  lemma PriorityResumes(s: State, text: string, want: nat, flushed: bool)
    requires Resume(s) && Inv(s, want, flushed)
    ensures Resume(SendPriority(s, text))
  {
    FrameResumes(s, text, true);
    if AddConnection(s.queue, text, s.generation, true).1 {
      FrameKeeps(s, text, true, want, flushed);
      FlushResumes(PushFrame(s, text, true), want);
    }
  }

  lemma ConnectResumes(s: State, env: Env)
    requires Resume(s) && !s.connected
    ensures Resume(Connect(s, env))
  {
    if !s.stopped {
      ConnectShape(s, env);
      ResumeOut(s, Renew(s));
      if env.setupOk {
        ResumeOut(Renew(s), FirstStep(Renew(s)));
      } else {
        var s' := Skip(Renew(s));
        ResumeOut(Renew(s), s');
        ScheduleResumes(s', env);
      }
    }
  }

  lemma PerformResumes(s: State, a: Action, env: Env, want: nat, flushed: bool)
    requires Resume(s) && Inv(s, want, flushed)
    ensures Resume(Perform(s, a, env))
  {
    match a
    case Prioritize(text) => PriorityResumes(s, text, want, flushed);
    case Drop => LeaveResumes(s, env);
    case Retire => StopResumes(s);
  }

  lemma {:induction false} PerformAllResumes(s: State, actions: seq<Action>, env: Env, want: nat, flushed: bool)
    requires Resume(s) && Inv(s, want, flushed)
    ensures Resume(PerformAll(s, actions, env))
  {
    if actions != [] {
      var front := actions[..|actions| - 1];
      PerformAllResumes(s, front, env, want, flushed);
      PerformAllKeeps(s, front, env, want, flushed);
      PerformResumes(PerformAll(s, front, env), actions[|actions| - 1], env, want, flushed);
    }
  }

  // --------------------------------------------------------------- the handlers

  /** Handling this outstanding operation keeps the record in step. */
  ghost predicate Resumed(s: State, op: Op, ok: bool, actions: seq<Action>, env: Env) {
    Resume(Handle(Taken(s, op), op, ok, actions, env))
  }

  /** Taking out an operation other than the current write. */
  lemma TakenResumes(s: State, op: Op)
    requires Resume(s) && (op.Write? ==> op.generation != s.generation)
    ensures Resume(Taken(s, op))
  {
    ResumeSame(s, Taken(s, op));
  }

  lemma FailResumes(s: State, op: Op, env: Env)
    requires Resume(s)
    ensures Resume(ScheduleReconnect(Disconnect(Taken(s, op)), env))
  {
    DisconnectClean(Taken(s, op));
    ResumeOut(s, Disconnect(Taken(s, op)));
    ScheduleResumes(Disconnect(Taken(s, op)), env);
  }

  lemma OpenedResumes(s: State)
    requires Resume(s) && !s.connected && !s.writing && !s.stopped && Conserved(s)
    ensures Resume(Opened(s, s.generation))
  {
    SweepKeeps(s.queue.entries, s.generation, true);
    var s' := Opened(s, s.generation);
    CarriedNone(s.wire, s.generation);
    forall g | g in s'.openedAt
      ensures Segment(s'.accepted, s'.openedAt[g], Carried(s'.wire, g))
    {
      if g != s.generation {
        assert g in s.openedAt;
        assert Segment(s.accepted, s.openedAt[g], Carried(s.wire, g));
      }
    }
  }

  lemma ArmResumes(s: State)
    requires Resume(s)
    ensures Resume(ArmKeepalive(s))
  {
    ResumeSame(s, ArmKeepalive(s));
  }

  lemma FirstWriteResumes(s: State)
    requires Resume(s) && Inv(s, 0, false) && s.connected
    ensures Resume(FirstWrite(s, s.generation))
  {
    if s.queue.entries != [] && !s.writing {
      assert s == s.(writing := false);
      DoWriteResumes(s, Some(s.generation));
    }
  }

  lemma BeginSessionResumes(s: State)
    requires Resume(s) && Inv(s, 0, false) && s.connected
    ensures Resume(BeginSession(s, s.generation))
  {
    FirstWriteResumes(s);
    ArmResumes(FirstWrite(s, s.generation));
    AwaitResumes(ArmKeepalive(FirstWrite(s, s.generation)), Read(s.generation));
  }

  lemma OnOpenedResumes(s: State, actions: seq<Action>, env: Env)
    requires Resume(s) && Inv(s, 1, true) && Connecting(WsHandshake, s.generation) in s.pending
    ensures Resume(OnOpened(Taken(s, Connecting(WsHandshake, s.generation)), s.generation, actions, env))
  {
    var s0 := Taken(s, Connecting(WsHandshake, s.generation));
    StepMeansConnecting(s, WsHandshake);
    TakenResumes(s, Connecting(WsHandshake, s.generation));
    OpenedResumes(s0);
    OpenedKeeps(s);
    PerformAllResumes(Opened(s0, s.generation), actions, env, 0, false);
    PerformAllKeeps(Opened(s0, s.generation), actions, env, 0, false);
    var s2 := PerformAll(Opened(s0, s.generation), actions, env);
    if !(s2.stopped || s.generation != s2.generation) {
      BeginSessionResumes(s2);
    }
  }

  lemma AwaitResumes(s: State, op: Op)
    requires Resume(s)
    ensures Resume(Await(s, op))
  {
    ResumeSame(s, Await(s, op));
  }

  lemma StageResumes(s: State, stage: Stage, g: nat, ok: bool, actions: seq<Action>, env: Env)
    requires Resume(s) && Inv(s, 1, true) && Connecting(stage, g) in s.pending
    requires !(stage == WsHandshake && ok && g == s.generation)
    ensures Resume(OnConnecting(Taken(s, Connecting(stage, g)), stage, g, ok, actions, env))
  {
    var s' := Taken(s, Connecting(stage, g));
    TakenResumes(s, Connecting(stage, g));
    StageShape(s', stage, g, ok, actions, env);
    if g == s.generation {
      if !ok {
        StepMeansConnecting(s, stage);
        FailResumes(s, Connecting(stage, g), env);
      } else {
        AwaitResumes(s', Connecting(NextStage(stage), g));
      }
    }
  }

  lemma OnConnectingResumes(s: State, stage: Stage, g: nat, ok: bool, actions: seq<Action>, env: Env)
    requires Resume(s) && Inv(s, 1, true) && Connecting(stage, g) in s.pending
    ensures Resumed(s, Connecting(stage, g), ok, actions, env)
  {
    if stage == WsHandshake && ok && g == s.generation {
      OnOpenedResumes(s, actions, env);
    } else {
      StageResumes(s, stage, g, ok, actions, env);
    }
  }

  lemma OnDeadlineResumes(s: State, g: nat, ok: bool, actions: seq<Action>, env: Env)
    requires Resume(s)
    ensures Resumed(s, Deadline(g), ok, actions, env)
  {
    var s' := Taken(s, Deadline(g));
    TakenResumes(s, Deadline(g));
    if ok && !s.stopped && g == s.generation && !s.connected {
      ResumeOut(s', Expire(s'));
      ScheduleResumes(Expire(s'), env);
    }
  }

  lemma FrameHandledResumes(s: State, actions: seq<Action>, env: Env)
    requires Resume(s) && Inv(s, 1, true) && Read(s.generation) in s.pending
    ensures Resume(OnRead(Taken(s, Read(s.generation)), s.generation, true, actions, env))
  {
    var s0 := Refreshed(Taken(s, Read(s.generation)));
    FrameArrives(s);
    TakenResumes(s, Read(s.generation));
    ResumeSame(Taken(s, Read(s.generation)), s0);
    PerformAllResumes(s0, actions, env, 0, true);
    var s1 := PerformAll(s0, actions, env);
    if !(s1.stopped || s.generation != s1.generation) {
      AwaitResumes(s1, Read(s.generation));
    }
  }

  lemma OnReadResumes(s: State, g: nat, ok: bool, actions: seq<Action>, env: Env)
    requires Resume(s) && Inv(s, 1, true) && Read(g) in s.pending
    ensures Resumed(s, Read(g), ok, actions, env)
  {
    if g != s.generation {
      TakenResumes(s, Read(g));
    } else if !ok {
      FailResumes(s, Read(g), env);
    } else {
      FrameHandledResumes(s, actions, env);
    }
  }

  /** The frame in flight is the last one handed over. */
  lemma LastSentIs(s: State, k: nat)
    requires LastSent(s) && InFlight(s, k) && Distinct(s.queue.entries)
    ensures s.wire[|s.wire| - 1].entry == s.queue.entries[k]
  {
    var e := s.wire[|s.wire| - 1].entry;
    var j :| 0 <= j < |s.queue.entries| && s.queue.entries[j] == e;
    assert e.id == s.queue.entries[k].id;
  }

  /** Completing it moves it from flying to completed. */
  lemma CompleteResumes(s: State, k: nat)
    requires Resume(s) && s.writing && s.connected && InFlight(s, k) && Distinct(s.queue.entries)
    ensures var id := s.queue.entries[k].id;
            Resume(CompleteEntry(Taken(s, Write(s.generation, id)), id).(writing := false))
  {
    var id := s.queue.entries[k].id;
    FirstIs(s.queue.entries, k);
    LastSentIs(s, k);
    var s' := CompleteEntry(Taken(s, Write(s.generation, id)), id).(writing := false);
    SegmentsKept(s, s');
    WithoutDistinct(s.queue.entries, id);
    PushClean(s, s');
  }

  lemma WrittenResumes(s: State, id: nat, env: Env)
    requires Resume(s) && Inv(s, 1, true) && Write(s.generation, id) in s.pending
    ensures Resume(OnWritten(Taken(s, Write(s.generation, id)), s.generation, id, true, env))
  {
    var k := WriteMeansWriting(s, id);
    var s' := CompleteEntry(Taken(s, Write(s.generation, id)), id);
    CompleteKeeps(s, k, s');
    CompleteResumes(s, k);
    DoWriteResumes(s', Some(s.generation));
  }

  lemma OnWrittenResumes(s: State, g: nat, id: nat, ok: bool, actions: seq<Action>, env: Env)
    requires Resume(s) && Inv(s, 1, true) && Write(g, id) in s.pending
    ensures Resumed(s, Write(g, id), ok, actions, env)
  {
    if g != s.generation {
      TakenResumes(s, Write(g, id));
    } else if !ok {
      FailResumes(s, Write(g, id), env);
    } else {
      WrittenResumes(s, id, env);
    }
  }

  lemma OnReconnectResumes(s: State, cancelled: bool, ok: bool, actions: seq<Action>, env: Env)
    requires Resume(s) && Inv(s, 1, true) && ReconnectWait(cancelled) in s.pending
    ensures Resumed(s, ReconnectWait(cancelled), ok, actions, env)
  {
    var s' := Taken(s, ReconnectWait(cancelled));
    TakenResumes(s, ReconnectWait(cancelled));
    if ok && !s.stopped {
      ResumeSame(s', Fired(s'));
      ConnectResumes(Fired(s'), env);
    }
  }

  lemma OnKeepaliveResumes(s: State, ok: bool, actions: seq<Action>, env: Env)
    requires Resume(s) && Inv(s, 1, true) && KeepaliveWait in s.pending
    ensures Resumed(s, KeepaliveWait, ok, actions, env)
  {
    var s' := Taken(s, KeepaliveWait);
    TakenResumes(s, KeepaliveWait);
    TakenStale(s, KeepaliveWait);
    if ok && !s.stopped && s.connected {
      KeepaliveResumes(s');
    }
  }

  lemma KeepaliveResumes(s: State)
    requires Resume(s) && Inv(s, 1, true)
    ensures Resume(ArmKeepalive(Flush(PushFrame(s, s.keepaliveText, false))))
  {
    FrameResumes(s, s.keepaliveText, false);
    FrameKeeps(s, s.keepaliveText, false, 1, true);
    var s' := PushFrame(s, s.keepaliveText, false);
    FlushResumes(s', 1);
    ArmResumes(Flush(s'));
  }

  // ---------------------------------------------------------------- every run

  lemma HandleResumes(s: State, op: Op, ok: bool, actions: seq<Action>, env: Env)
    requires Resume(s) && Inv(s, 1, true) && op in s.pending
    ensures Resumed(s, op, ok, actions, env)
  {
    match op
    case Connecting(stage, g) => OnConnectingResumes(s, stage, g, ok, actions, env);
    case Deadline(g) => OnDeadlineResumes(s, g, ok, actions, env);
    case Read(g) => OnReadResumes(s, g, ok, actions, env);
    case Write(g, id) => OnWrittenResumes(s, g, id, ok, actions, env);
    case ReconnectWait(cancelled) => OnReconnectResumes(s, cancelled, ok, actions, env);
    case KeepaliveWait => OnKeepaliveResumes(s, ok, actions, env);
  }

  lemma StartResumes(s: State, env: Env)
    requires Resume(s) && !s.connected
    ensures Resume(Step(s, Start(env)))
  {
    ResumeSame(s, s.(started := true));
    ConnectResumes(s.(started := true), env);
  }

  lemma StepResumes(s: State, e: Event)
    requires Resume(s) && Inv(s, 1, true) && Enabled(s, e)
    ensures Resume(Step(s, e))
  {
    match e
    case Start(env) => StartResumes(s, env);
    case Stop => StopResumes(s);
    case Kick(env) => PerformResumes(s, Drop, env, 1, true);
    case Send(text) => SendResumes(s, text);
    case SendFirst(text) => PriorityResumes(s, text, 1, true);
    case Done(op, ok, actions, env) => HandleResumes(s, op, ok, actions, env);
  }

  lemma {:induction false} RunResumes(s: State, events: seq<Event>)
    requires Fresh(s) && Possible(s, events)
    ensures Resume(Run(s, events))
  {
    if events != [] {
      RunResumes(s, events[..|events| - 1]);
      RunKeeps(s, events[..|events| - 1]);
      StepResumes(Run(s, events[..|events| - 1]), events[|events| - 1]);
    }
  }

  /**
    In every run, the retained messages handed to a connection are a contiguous
    run of the accepted ones, from the first not completed when it opened. Once a
    connected client has drained its queue, that run is the whole remainder.
   */
  lemma {:induction false} ConnectionsResume(s: State, events: seq<Event>, g: nat)
    requires Fresh(s) && Possible(s, events) && g in Run(s, events).openedAt
    ensures var t := Run(s, events);
            && Segment(t.accepted, t.openedAt[g], Carried(t.wire, g))
            && (t.connected && g == t.generation && t.queue.entries == []
                ==> Carried(t.wire, g) == t.accepted[t.openedAt[g]..])
  {
    RunResumes(s, events);
    RunKeeps(s, events);
    SessionRun(Run(s, events), g);
  }

  /** No frame of a finished session is ever left in the queue. */
  lemma {:induction false} FinishedSessionsLeaveNothing(s: State, events: seq<Event>, e: Entry)
    requires Fresh(s) && Possible(s, events)
    requires var t := Run(s, events); e in t.queue.entries && e.scoped && e.generation in t.openedAt
    ensures Run(s, events).connected && e.generation == Run(s, events).generation
  {
    RunResumes(s, events);
  }

  lemma {:induction false} HandedIsCarried(wire: seq<Handoff>, i: nat)
    requires i < |wire| && !wire[i].entry.scoped
    ensures wire[i].entry in Carried(wire, wire[i].generation)
  {
    var front := wire[..|wire| - 1];
    if i < |front| {
      HandedIsCarried(front, i);
      assert wire[i] == front[i];
    }
  }

  /** Every retained frame ever handed over is an accepted message, with its own text. */
  lemma {:induction false} HandedWereAccepted(s: State, events: seq<Event>, i: nat)
    requires Fresh(s) && Possible(s, events) && i < |Run(s, events).wire| && !Run(s, events).wire[i].entry.scoped
    ensures Run(s, events).wire[i].entry in Run(s, events).accepted
  {
    RunResumes(s, events);
    var t := Run(s, events);
    HandedIsCarried(t.wire, i);
    assert Segment(t.accepted, t.openedAt[t.wire[i].generation], Carried(t.wire, t.wire[i].generation));
  }

  lemma {:induction false} SessionRun(t: State, g: nat)
    requires Resume(t) && Inv(t, 1, true) && g in t.openedAt
    ensures Segment(t.accepted, t.openedAt[g], Carried(t.wire, g))
    ensures t.connected && g == t.generation && t.queue.entries == []
            ==> Carried(t.wire, g) == t.accepted[t.openedAt[g]..]
  {
    assert Segment(t.accepted, t.openedAt[g], Carried(t.wire, g));
    if t.connected && g == t.generation && t.queue.entries == [] {
      Drained(t);
    }
  }

  lemma Drained(s: State)
    requires Position(s) && Conserved(s) && !s.stopped && !s.writing && s.queue.entries == []
    ensures s.openedAt[s.generation] + |Carried(s.wire, s.generation)| == |s.accepted|
  {
    RetainedNothing();
  }
}
