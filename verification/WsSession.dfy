/**
  What each connection is given first: when the opening callback queues one
  priority frame and nothing else ever does, that frame is never refused, and it
  is the first one handed to its connection in every run.
 */
module WsSession {

  import opened Results
  import opened WriteQueue
  import opened WsModel
  import opened WsInvariant
  import opened WsResume

  /** All frames handed to one connection, in order. */
  function HandedOn(wire: seq<Handoff>, g: nat): seq<Entry> {
    if wire == [] then []
    else HandedOn(wire[..|wire| - 1], g) + HandedBy(wire[|wire| - 1], g)
  }

  function HandedBy(h: Handoff, g: nat): seq<Entry> {
    if h.generation == g then [h.entry] else []
  }

  /** The event completes the handshake of the current generation. */
  predicate Opens(s: State, e: Event) {
    e.Done? && e.op == Connecting(WsHandshake, s.generation) && e.ok
  }

  predicate Plain(actions: seq<Action>) {
    forall i :: 0 <= i < |actions| ==> !actions[i].Prioritize?
  }

  /** Priority frames come from the opening callback only, which starts with one. */
  predicate Disciplined(s: State, e: Event) {
    && !e.SendFirst?
    && (Opens(s, e) ==> e.actions != [] && e.actions[0].Prioritize? && Plain(e.actions[1..]))
    && (e.Done? && !Opens(s, e) ==> Plain(e.actions))
  }

  /** The first frame of each connection, by generation. */
  function FirstsAfter(s: State, e: Event, firsts: map<nat, string>): map<nat, string>
    requires Disciplined(s, e)
  {
    if Opens(s, e) then firsts[s.generation := e.actions[0].text] else firsts
  }

  /** Led by this text, with only keepalives among the other scoped frames. */
  ghost predicate Led(frames: seq<Entry>, first: string, keepalive: string) {
    && frames != [] && frames[0].scoped && frames[0].text == first
    && forall i :: 1 <= i < |frames| && frames[i].scoped ==> frames[i].text == keepalive
  }

  /** A queued scoped frame belongs to a live connection and is in flight or a keepalive. */
  ghost predicate Loose(s: State) {
    forall k :: 0 <= k < |s.queue.entries| && s.queue.entries[k].scoped ==>
      s.connected
      && (s.pending[Write(s.generation, s.queue.entries[k].id)] > 0 || s.queue.entries[k].text == s.keepaliveText)
  }

  ghost predicate Sessions(s: State, firsts: map<nat, string>) {
    forall g :: g in s.openedAt ==> g in firsts && Led(HandedOn(s.wire, g), firsts[g], s.keepaliveText)
  }

  ghost predicate Fronted(s: State, firsts: map<nat, string>) {
    Loose(s) && Sessions(s, firsts) && 0 < s.queue.reserve < s.queue.capacity
  }

  // ------------------------------------------------------------ building blocks

  lemma {:induction false} HandedAppend(wire: seq<Handoff>, h: Handoff, g: nat)
    ensures HandedOn(wire + [h], g) == HandedOn(wire, g) + HandedBy(h, g)
  {
    assert (wire + [h])[..|wire|] == wire;
  }

  lemma {:induction false} HandedNone(wire: seq<Handoff>, g: nat)
    requires forall i :: 0 <= i < |wire| ==> wire[i].generation != g
    ensures HandedOn(wire, g) == []
  {
    if wire != [] { HandedNone(wire[..|wire| - 1], g); }
  }

  /** The record of handoffs and openings is the same. */
  ghost predicate SameRecord(s: State, s': State) {
    s'.wire == s.wire && s'.openedAt == s.openedAt && s'.keepaliveText == s.keepaliveText
    && s'.queue.reserve == s.queue.reserve && s'.queue.capacity == s.queue.capacity
  }

  ghost predicate NoScoped(entries: seq<Entry>) {
    forall k :: 0 <= k < |entries| ==> !entries[k].scoped
  }

  lemma FrontedOut(s: State, s': State, firsts: map<nat, string>)
    requires Fronted(s, firsts) && SameRecord(s, s') && NoScoped(s'.queue.entries)
    ensures Fronted(s', firsts)
  {
  }

  /** The queue is the same, and no current write ends. */
  lemma FrontedSame(s: State, s': State, firsts: map<nat, string>)
    requires Fronted(s, firsts) && SameRecord(s, s') && s'.queue == s.queue
    requires s'.connected == s.connected && s'.generation == s.generation
    requires forall id :: s'.pending[Write(s.generation, id)] >= s.pending[Write(s.generation, id)]
    ensures Fronted(s', firsts)
  {
  }

  lemma StopFronted(s: State, firsts: map<nat, string>)
    requires Fronted(s, firsts)
    ensures Fronted(StopClient(s), firsts)
  {
    FrontedOut(s, StopClient(s), firsts);
  }

  lemma ScheduleFronted(s: State, env: Env, firsts: map<nat, string>)
    requires Fronted(s, firsts) && !s.connected
    ensures Fronted(ScheduleReconnect(s, env), firsts)
  {
    if s.stopped || s.reconnectScheduled {
    } else if GivenUp(s, env) {
      StopFronted(s, firsts);
    } else {
      FrontedOut(s, Scheduled(s, ReconnectDelay(s, env)), firsts);
    }
  }

  /** Leaving a connection takes its scoped frames along. */
  lemma DisconnectUnscoped(s: State)
    requires Loose(s) && QueueOk(s)
    ensures NoScoped(Disconnect(s).queue.entries)
  {
    SweepKeeps(s.queue.entries, s.generation, false);
    var entries := Sweep(s.queue.entries, s.generation, false);
    forall k | 0 <= k < |entries|
      ensures !entries[k].scoped
    {
      var j :| 0 <= j < |s.queue.entries| && s.queue.entries[j] == entries[k];
      assert !Swept(entries[k], s.generation, false);
    }
  }

  lemma LeaveFronted(s: State, env: Env, firsts: map<nat, string>)
    requires Fronted(s, firsts) && QueueOk(s)
    ensures Fronted(ScheduleReconnect(Disconnect(s), env), firsts)
  {
    DisconnectUnscoped(s);
    FrontedOut(s, Disconnect(s), firsts);
    ScheduleFronted(Disconnect(s), env, firsts);
  }

  lemma LedGrows(frames: seq<Entry>, e: Entry, first: string, keepalive: string)
    requires Led(frames, first, keepalive) && (e.scoped ==> e.text == keepalive)
    ensures Led(frames + [e], first, keepalive)
  {
  }

  lemma WireLed(s: State, h: Handoff, firsts: map<nat, string>)
    requires Sessions(s, firsts) && (h.entry.scoped ==> h.entry.text == s.keepaliveText)
    ensures Sessions(s.(wire := s.wire + [h]), firsts)
  {
    forall g | g in s.openedAt
      ensures Led(HandedOn(s.wire + [h], g), firsts[g], s.keepaliveText)
    {
      HandedAppend(s.wire, h, g);
      if h.generation == g {
        LedGrows(HandedOn(s.wire, g), h.entry, firsts[g], s.keepaliveText);
      } else {
        assert HandedOn(s.wire, g) + [] == HandedOn(s.wire, g);
      }
    }
  }

  /** What is handed over next is a message or a keepalive: the first frame is in flight or done. */
  lemma DoWriteFronted(s: State, socket: Option<nat>, firsts: map<nat, string>)
    requires Fronted(s, firsts) && NoWrite(s)
    ensures Fronted(DoWrite(s, socket, s.generation), firsts)
  {
    if CanWrite(s, s.generation) {
      HandFronted(s, socket, firsts);
    } else {
      FrontedSame(s, s.(writing := false), firsts);
    }
  }

  lemma HandFronted(s: State, socket: Option<nat>, firsts: map<nat, string>)
    requires Fronted(s, firsts) && NoWrite(s) && CanWrite(s, s.generation)
    ensures Fronted(Hand(s, socket, s.generation, s.queue.entries[0]), firsts)
  {
    WireLed(s, Handoff(socket, s.generation, s.queue.entries[0]), firsts);
  }

  lemma FlushFronted(s: State, firsts: map<nat, string>)
    requires Fronted(s, firsts) && WriteOk(s)
    ensures Fronted(Flush(s), firsts)
  {
    if s.connected && !s.writing {
      DoWriteFronted(s, s.ws, firsts);
    }
  }

  lemma RetainFronted(s: State, text: string, firsts: map<nat, string>)
    requires Fronted(s, firsts) && AddRetained(s.queue, text).1
    ensures Fronted(Accept(s, text), firsts)
  {
  }

  lemma SendFronted(s: State, text: string, firsts: map<nat, string>)
    requires Fronted(s, firsts) && Inv(s, 1, true)
    ensures Fronted(SendRetained(s, text), firsts)
  {
    if AddRetained(s.queue, text).1 {
      var s' := Accept(s, text);
      RetainFronted(s, text, firsts);
      assert WriteOk(s') by { RetainKeeps(s, text, 1, true); }
      FlushFronted(s', firsts);
    }
  }

  lemma ConnectFronted(s: State, env: Env, firsts: map<nat, string>)
    requires Fronted(s, firsts) && !s.connected
    ensures Fronted(Connect(s, env), firsts)
  {
    if !s.stopped {
      ConnectShape(s, env);
      FrontedOut(s, Renew(s), firsts);
      if env.setupOk {
        FrontedOut(s, FirstStep(Renew(s)), firsts);
      } else {
        FrontedOut(s, Skip(Renew(s)), firsts);
        ScheduleFronted(Skip(Renew(s)), env, firsts);
      }
    }
  }

  lemma PerformFronted(s: State, a: Action, env: Env, firsts: map<nat, string>)
    requires Fronted(s, firsts) && QueueOk(s) && !a.Prioritize?
    ensures Fronted(Perform(s, a, env), firsts)
  {
    if a.Drop? {
      LeaveFronted(s, env, firsts);
    } else {
      StopFronted(s, firsts);
    }
  }

  lemma {:induction false} PlainFronted(s: State, actions: seq<Action>, env: Env, firsts: map<nat, string>,
                                        want: nat, flushed: bool)
    requires Fronted(s, firsts) && Inv(s, want, flushed) && Plain(actions)
    ensures Fronted(PerformAll(s, actions, env), firsts)
  {
    if actions != [] {
      var front := actions[..|actions| - 1];
      PlainFronted(s, front, env, firsts, want, flushed);
      PerformAllKeeps(s, front, env, want, flushed);
      PerformFronted(PerformAll(s, front, env), actions[|actions| - 1], env, firsts);
    }
  }

  // -------------------------------------------------------------------- opening

  lemma {:induction false} NothingScoped(entries: seq<Entry>)
    requires NoScoped(entries)
    ensures Retained(entries) == entries
  {
    if entries != [] {
      var front := entries[..|entries| - 1];
      NothingScoped(front);
      assert entries == front + [entries[|entries| - 1]];
    }
  }

  function FirstEntry(s: State, text: string): Entry {
    Entry(s.queue.nextId, text, true, s.generation)
  }

  /** Retained messages alone always leave room for a connection frame. */
  lemma RoomForOne(q: Queue)
    requires Valid(q) && q.reserve > 0 && NoScoped(q.entries)
    ensures |q.entries| < q.capacity
  {
    NothingScoped(q.entries);
  }

  /** The first frame is queued ahead of every message, whatever is retained. */
  lemma FirstFits(s: State, text: string)
    requires Valid(s.queue) && s.queue.reserve > 0 && NoScoped(s.queue.entries)
    ensures AddConnection(s.queue, text, s.generation, true)
         == (s.queue.(entries := [FirstEntry(s, text)] + s.queue.entries, nextId := s.queue.nextId + 1), true)
  {
    SweepNothing(s.queue.entries, s.generation);
    RoomForOne(s.queue);
  }

  /** The state after the first frame was queued and handed over. */
  function Greeted(s: State, text: string): State {
    var e := FirstEntry(s, text);
    s.(queue := s.queue.(entries := [e] + s.queue.entries, nextId := s.queue.nextId + 1),
       writing := true,
       pending := s.pending + multiset{Write(s.generation, e.id)},
       wire := s.wire + [Handoff(s.ws, s.generation, e)])
  }

  lemma FirstIsHanded(s: State, text: string)
    requires Valid(s.queue) && s.queue.reserve > 0 && NoScoped(s.queue.entries) && s.connected && !s.writing
    ensures SendPriority(s, text) == Greeted(s, text)
  {
    FirstFits(s, text);
  }

  /** A connection nothing was handed to is led by its first frame. */
  lemma GreetedLed(s: State, text: string, firsts: map<nat, string>)
    requires forall g :: g in s.openedAt && g != s.generation ==>
               g in firsts && Led(HandedOn(s.wire, g), firsts[g], s.keepaliveText)
    requires HandedOn(s.wire, s.generation) == []
    ensures Sessions(Greeted(s, text), firsts[s.generation := text])
  {
    var h := Handoff(s.ws, s.generation, FirstEntry(s, text));
    forall g | g in s.openedAt
      ensures Led(HandedOn(s.wire + [h], g), firsts[s.generation := text][g], s.keepaliveText)
    {
      HandedAppend(s.wire, h, g);
      if g != s.generation {
        assert HandedOn(s.wire, g) + [] == HandedOn(s.wire, g);
      }
    }
  }

  lemma GreetedFronted(s: State, text: string, firsts: map<nat, string>)
    requires NoScoped(s.queue.entries) && 0 < s.queue.reserve < s.queue.capacity && s.connected
    requires forall g :: g in s.openedAt && g != s.generation ==>
               g in firsts && Led(HandedOn(s.wire, g), firsts[g], s.keepaliveText)
    requires HandedOn(s.wire, s.generation) == []
    ensures Fronted(Greeted(s, text), firsts[s.generation := text])
  {
    GreetedLed(s, text, firsts);
  }

  lemma UnscopedStays(s: State)
    requires NoScoped(s.queue.entries)
    ensures Opened(s, s.generation).queue == s.queue
  {
    SweepNothing(s.queue.entries, s.generation);
  }

  /** Opening a client and queueing the first frame. */
  lemma OpeningGreets(s: State, text: string, firsts: map<nat, string>)
    requires Fronted(s, firsts) && Base(s) && OpenedOk(s) && !s.connected && !s.writing
    ensures SendPriority(Opened(s, s.generation), text) == Greeted(Opened(s, s.generation), text)
    ensures Fronted(Greeted(Opened(s, s.generation), text), firsts[s.generation := text])
  {
    UnscopedStays(s);
    FirstIsHanded(Opened(s, s.generation), text);
    HandedNone(s.wire, s.generation);
    GreetedFronted(Opened(s, s.generation), text, firsts);
  }

  lemma {:induction false} PerformFirst(s: State, a: Action, rest: seq<Action>, env: Env)
    ensures PerformAll(s, [a] + rest, env) == PerformAll(Perform(s, a, env), rest, env)
  {
    var all := [a] + rest;
    if rest == [] {
      assert all == [a] && all[..0] == [];
      assert PerformAll(s, [], env) == s;
    } else {
      assert all[..|all| - 1] == [a] + rest[..|rest| - 1];
      PerformFirst(s, a, rest[..|rest| - 1], env);
    }
  }

  lemma ArmFronted(s: State, firsts: map<nat, string>)
    requires Fronted(s, firsts)
    ensures Fronted(ArmKeepalive(s), firsts)
  {
    FrontedSame(s, ArmKeepalive(s), firsts);
  }

  lemma ReadFronted(s: State, g: nat, firsts: map<nat, string>)
    requires Fronted(s, firsts)
    ensures Fronted(Await(s, Read(g)), firsts)
  {
    FrontedSame(s, Await(s, Read(g)), firsts);
  }

  lemma FirstWriteFronted(s: State, firsts: map<nat, string>)
    requires Fronted(s, firsts) && WriteOk(s)
    ensures Fronted(FirstWrite(s, s.generation), firsts)
  {
    if s.queue.entries != [] && !s.writing {
      DoWriteFronted(s, Some(s.generation), firsts);
    }
  }

  lemma BeginSessionFronted(s: State, firsts: map<nat, string>)
    requires Fronted(s, firsts) && WriteOk(s)
    ensures Fronted(BeginSession(s, s.generation), firsts)
  {
    FirstWriteFronted(s, firsts);
    ArmFronted(FirstWrite(s, s.generation), firsts);
    ReadFronted(ArmKeepalive(FirstWrite(s, s.generation)), s.generation, firsts);
  }

  lemma TakenFronted(s: State, op: Op, firsts: map<nat, string>)
    requires Fronted(s, firsts) && (op.Write? ==> op.generation != s.generation)
    ensures Fronted(Taken(s, op), firsts)
  {
    FrontedSame(s, Taken(s, op), firsts);
  }

  lemma OnOpenedFronted(s: State, text: string, rest: seq<Action>, env: Env, firsts: map<nat, string>)
    requires Fronted(s, firsts) && Resume(s) && Inv(s, 1, true) && Plain(rest)
    requires Connecting(WsHandshake, s.generation) in s.pending
    ensures Fronted(OnOpened(Taken(s, Connecting(WsHandshake, s.generation)), s.generation,
                             [Prioritize(text)] + rest, env),
                    firsts[s.generation := text])
  {
    var op := Connecting(WsHandshake, s.generation);
    var s0 := Taken(s, op);
    StepMeansConnecting(s, WsHandshake);
    TakenFronted(s, op, firsts);
    TakenBase(s, op);
    OpeningGreets(s0, text, firsts);
    OpenedKeeps(s);
    SendPriorityKeeps(Opened(s0, s.generation), text, 0, false);
    var s1 := Greeted(Opened(s0, s.generation), text);
    PerformFirst(Opened(s0, s.generation), Prioritize(text), rest, env);
    PlainFronted(s1, rest, env, firsts[s.generation := text], 0, false);
    PerformAllKeeps(s1, rest, env, 0, false);
    var s2 := PerformAll(s1, rest, env);
    if !(s2.stopped || s.generation != s2.generation) {
      BeginSessionFronted(s2, firsts[s.generation := text]);
    }
  }

  // --------------------------------------------------------------- the handlers

  lemma AdvanceFronted(s: State, stage: Stage, next: Stage, firsts: map<nat, string>)
    requires Fronted(s, firsts)
    ensures Fronted(Await(Taken(s, Connecting(stage, s.generation)), Connecting(next, s.generation)), firsts)
  {
    var s' := Taken(s, Connecting(stage, s.generation));
    TakenFronted(s, Connecting(stage, s.generation), firsts);
    FrontedSame(s', Await(s', Connecting(next, s.generation)), firsts);
  }

  lemma FailFronted(s: State, env: Env, firsts: map<nat, string>)
    requires Fronted(s, firsts) && QueueOk(s)
    ensures Fronted(Fail(s, s.generation, env), firsts)
  {
    LeaveFronted(s, env, firsts);
  }

  lemma OnConnectingFronted(s: State, stage: Stage, g: nat, ok: bool, actions: seq<Action>, env: Env,
                            firsts: map<nat, string>)
    requires Fronted(s, firsts) && QueueOk(s) && !(stage == WsHandshake && ok && g == s.generation)
    ensures Fronted(OnConnecting(Taken(s, Connecting(stage, g)), stage, g, ok, actions, env), firsts)
  {
    StageShape(Taken(s, Connecting(stage, g)), stage, g, ok, actions, env);
    TakenFronted(s, Connecting(stage, g), firsts);
    if g == s.generation {
      if ok {
        AdvanceFronted(s, stage, NextStage(stage), firsts);
      } else {
        FailFronted(Taken(s, Connecting(stage, g)), env, firsts);
      }
    }
  }

  lemma OnDeadlineFronted(s: State, g: nat, ok: bool, env: Env, firsts: map<nat, string>)
    requires Fronted(s, firsts)
    ensures Fronted(OnDeadline(Taken(s, Deadline(g)), g, ok, env), firsts)
  {
    var s' := Taken(s, Deadline(g));
    TakenFronted(s, Deadline(g), firsts);
    if ok && !s.stopped && g == s.generation && !s.connected {
      FrontedOut(s', Expire(s'), firsts);
      ScheduleFronted(Expire(s'), env, firsts);
    }
  }

  lemma OnReadFronted(s: State, g: nat, ok: bool, actions: seq<Action>, env: Env, firsts: map<nat, string>)
    requires Fronted(s, firsts) && Inv(s, 1, true) && Read(g) in s.pending && Plain(actions)
    ensures Fronted(OnRead(Taken(s, Read(g)), g, ok, actions, env), firsts)
  {
    var s' := Taken(s, Read(g));
    TakenFronted(s, Read(g), firsts);
    if g == s.generation {
      if !ok {
        LeaveFronted(s', env, firsts);
      } else {
        FrameArrives(s);
        var s0 := Refreshed(s');
        FrontedSame(s', s0, firsts);
        PlainFronted(s0, actions, env, firsts, 0, true);
        var s1 := PerformAll(s0, actions, env);
        if !(s1.stopped || g != s1.generation) {
          ReadFronted(s1, g, firsts);
        }
      }
    }
  }

  /** Completing the frame in flight leaves messages and keepalives. */
  lemma CompleteFronted(s: State, id: nat, firsts: map<nat, string>)
    requires Fronted(s, firsts) && Distinct(s.queue.entries)
    ensures Fronted(CompleteEntry(Taken(s, Write(s.generation, id)), id), firsts)
  {
    WithoutDistinct(s.queue.entries, id);
    var s' := CompleteEntry(Taken(s, Write(s.generation, id)), id);
    forall k | 0 <= k < |s'.queue.entries| && s'.queue.entries[k].scoped
      ensures s'.connected && (s'.pending[Write(s'.generation, s'.queue.entries[k].id)] > 0
                               || s'.queue.entries[k].text == s'.keepaliveText)
    {
      var j :| 0 <= j < |s.queue.entries| && s.queue.entries[j] == s'.queue.entries[k];
      assert s.queue.entries[j].id != id;
    }
  }

  lemma OnWrittenFronted(s: State, g: nat, id: nat, ok: bool, env: Env, firsts: map<nat, string>)
    requires Fronted(s, firsts) && Inv(s, 1, true) && Write(g, id) in s.pending
    ensures Fronted(OnWritten(Taken(s, Write(g, id)), g, id, ok, env), firsts)
  {
    if g != s.generation {
      TakenFronted(s, Write(g, id), firsts);
    } else {
      var k := WriteMeansWriting(s, id);
      var s' := Taken(s, Write(g, id));
      if !ok {
        DisconnectUnscoped(s);
        assert Disconnect(s').queue == Disconnect(s).queue;
        FrontedOut(s, Disconnect(s'), firsts);
        ScheduleFronted(Disconnect(s'), env, firsts);
      } else {
        CompleteFronted(s, id, firsts);
        CompleteKeeps(s, k, CompleteEntry(s', id));
        DoWriteFronted(CompleteEntry(s', id), Some(g), firsts);
      }
    }
  }

  lemma OnReconnectFronted(s: State, cancelled: bool, ok: bool, env: Env, firsts: map<nat, string>)
    requires Fronted(s, firsts) && Inv(s, 1, true) && ReconnectWait(cancelled) in s.pending
    ensures Fronted(OnReconnect(Taken(s, ReconnectWait(cancelled)), ok, env), firsts)
  {
    var s' := Taken(s, ReconnectWait(cancelled));
    TakenFronted(s, ReconnectWait(cancelled), firsts);
    if ok && !s.stopped {
      FrontedSame(s', Fired(s'), firsts);
      ConnectFronted(Fired(s'), env, firsts);
    }
  }

  lemma PingEntries(q: Queue, text: string, generation: nat, k: nat)
    requires ScopedTo(q.entries, generation)
    requires k < |AddConnection(q, text, generation, false).0.entries|
    ensures var e := AddConnection(q, text, generation, false).0.entries[k];
            e.text == text || (k < |q.entries| && e == q.entries[k])
  {
    SweepNothing(q.entries, generation);
  }

  lemma PingFronted(s: State, firsts: map<nat, string>)
    requires Fronted(s, firsts) && QueueOk(s) && s.connected
    ensures Fronted(PushFrame(s, s.keepaliveText, false), firsts)
  {
    var s' := PushFrame(s, s.keepaliveText, false);
    forall k | 0 <= k < |s'.queue.entries| && s'.queue.entries[k].scoped
      ensures s'.pending[Write(s'.generation, s'.queue.entries[k].id)] > 0
              || s'.queue.entries[k].text == s'.keepaliveText
    {
      PingEntries(s.queue, s.keepaliveText, s.generation, k);
    }
  }

  lemma KeepaliveFronted(s: State, firsts: map<nat, string>)
    requires Fronted(s, firsts) && Inv(s, 1, true) && s.connected
    ensures Fronted(ArmKeepalive(Flush(PushFrame(s, s.keepaliveText, false))),
                    firsts)
  {
    var s' := PushFrame(s, s.keepaliveText, false);
    PingFronted(s, firsts);
    assert WriteOk(s') by { FrameKeeps(s, s.keepaliveText, false, 1, true); }
    FlushFronted(s', firsts);
    ArmFronted(Flush(s'), firsts);
  }

  lemma OnKeepaliveFronted(s: State, ok: bool, firsts: map<nat, string>)
    requires Fronted(s, firsts) && Inv(s, 1, true) && KeepaliveWait in s.pending
    ensures Fronted(OnKeepalive(Taken(s, KeepaliveWait), ok), firsts)
  {
    var s' := Taken(s, KeepaliveWait);
    TakenFronted(s, KeepaliveWait, firsts);
    TakenStale(s, KeepaliveWait);
    if ok && !s.stopped && s.connected {
      KeepaliveFronted(s', firsts);
    }
  }

  // ---------------------------------------------------------------- every step

  lemma HandleFronted(s: State, op: Op, ok: bool, actions: seq<Action>, env: Env, firsts: map<nat, string>)
    requires Fronted(s, firsts) && Inv(s, 1, true) && op in s.pending && Plain(actions)
    requires !(op == Connecting(WsHandshake, s.generation) && ok)
    ensures Fronted(Handle(Taken(s, op), op, ok, actions, env), firsts)
  {
    match op
    case Connecting(stage, g) => OnConnectingFronted(s, stage, g, ok, actions, env, firsts);
    case Deadline(g) => OnDeadlineFronted(s, g, ok, env, firsts);
    case Read(g) => OnReadFronted(s, g, ok, actions, env, firsts);
    case Write(g, id) => OnWrittenFronted(s, g, id, ok, env, firsts);
    case ReconnectWait(cancelled) => OnReconnectFronted(s, cancelled, ok, env, firsts);
    case KeepaliveWait => OnKeepaliveFronted(s, ok, firsts);
  }

  lemma OpeningStep(s: State, e: Event)
    requires Opens(s, e)
    ensures Step(s, e) == OnOpened(Taken(s, e.op), s.generation, e.actions, e.env)
  {
    var op := Connecting(WsHandshake, s.generation);
    assert Handle(Taken(s, op), op, true, e.actions, e.env)
        == OnConnecting(Taken(s, op), WsHandshake, s.generation, true, e.actions, e.env);
  }

  lemma OpeningFronted(s: State, e: Event, firsts: map<nat, string>)
    requires Fronted(s, firsts) && Resume(s) && Inv(s, 1, true) && Enabled(s, e) && Disciplined(s, e) && Opens(s, e)
    ensures Fronted(Step(s, e), firsts[s.generation := e.actions[0].text])
  {
    assert e.actions == [Prioritize(e.actions[0].text)] + e.actions[1..];
    OpeningStep(s, e);
    OnOpenedFronted(s, e.actions[0].text, e.actions[1..], e.env, firsts);
  }

  lemma StepFronted(s: State, e: Event, firsts: map<nat, string>)
    requires Fronted(s, firsts) && Resume(s) && Inv(s, 1, true) && Enabled(s, e) && Disciplined(s, e)
    ensures Fronted(Step(s, e), FirstsAfter(s, e, firsts))
  {
    match e
    case Start(env) =>
      FrontedSame(s, s.(started := true), firsts);
      ConnectFronted(s.(started := true), env, firsts);
    case Stop => StopFronted(s, firsts);
    case Kick(env) => PerformFronted(s, Drop, env, firsts);
    case Send(text) => SendFronted(s, text, firsts);
    case Done(op, ok, actions, env) =>
      if Opens(s, e) {
        OpeningFronted(s, e, firsts);
      } else {
        HandleFronted(s, op, ok, actions, env, firsts);
      }
  }

  // ------------------------------------------------------- what a step leaves alone

  /** No message accepted, no connection opened. */
  ghost predicate Quiet(s: State, s': State) {
    && s'.accepted == s.accepted && s'.openedAt == s.openedAt && s'.keepaliveText == s.keepaliveText
    && (s'.policy ==> s.policy)
    && (s'.connected ==> s.connected && s'.generation == s.generation)
  }

  lemma ScheduleQuiet(s: State, env: Env)
    ensures Quiet(s, ScheduleReconnect(s, env))
  {
    if s.stopped || s.reconnectScheduled {
    } else if GivenUp(s, env) {
      assert ScheduleReconnect(s, env) == StopClient(s);
    } else {
      assert ScheduleReconnect(s, env) == Scheduled(s, ReconnectDelay(s, env));
    }
  }

  lemma LeaveQuiet(s: State, env: Env)
    ensures Quiet(s, ScheduleReconnect(Disconnect(s), env))
  {
    ScheduleQuiet(Disconnect(s), env);
  }

  lemma ConnectQuiet(s: State, env: Env)
    requires !s.connected
    ensures Quiet(s, Connect(s, env))
  {
    if !s.stopped {
      ConnectShape(s, env);
      ScheduleQuiet(Skip(Renew(s)), env);
    }
  }

  lemma PerformQuiet(s: State, a: Action, env: Env)
    ensures Quiet(s, Perform(s, a, env))
  {
    match a
    case Prioritize(text) => FlushFrame(PushFrame(s, text, true));
    case Drop => LeaveQuiet(s, env);
    case Retire =>
  }

  lemma {:induction false} PerformAllQuiet(s: State, actions: seq<Action>, env: Env)
    ensures Quiet(s, PerformAll(s, actions, env))
  {
    if actions != [] {
      PerformAllQuiet(s, actions[..|actions| - 1], env);
      PerformQuiet(PerformAll(s, actions[..|actions| - 1], env), actions[|actions| - 1], env);
    }
  }

  lemma FirstWriteFrame(s: State, g: nat)
    ensures var t := FirstWrite(s, g);
            t == s.(writing := t.writing, pending := t.pending, wire := t.wire)
  {
    if s.queue.entries != [] && !s.writing {
      DoWriteFrame(s, Some(g), g);
    }
  }

  /** A session begins on the wire and in the executor only. */
  lemma BeginSessionFrame(s: State, g: nat)
    ensures var t := BeginSession(s, g);
            t == s.(writing := t.writing, pending := t.pending, wire := t.wire)
  {
    FirstWriteFrame(s, g);
  }

  lemma OnOpenedQuiet(s: State, g: nat, actions: seq<Action>, env: Env)
    ensures Quiet(Opened(s, g), OnOpened(s, g, actions, env))
  {
    var s' := PerformAll(Opened(s, g), actions, env);
    PerformAllQuiet(Opened(s, g), actions, env);
    if !(s'.stopped || g != s'.generation) {
      BeginSessionFrame(s', g);
    }
  }

  /** Opening records how many messages were completed, and nothing else of the record. */
  lemma OpeningRecords(s: State, e: Event)
    requires Opens(s, e)
    ensures Quiet(Opened(s, s.generation), Step(s, e))
  {
    OpeningStep(s, e);
    OnOpenedQuiet(Taken(s, e.op), s.generation, e.actions, e.env);
  }

  lemma OnConnectingQuiet(s: State, stage: Stage, g: nat, ok: bool, actions: seq<Action>, env: Env)
    requires !(stage == WsHandshake && ok && g == s.generation)
    ensures Quiet(s, OnConnecting(s, stage, g, ok, actions, env))
  {
    StageShape(s, stage, g, ok, actions, env);
    LeaveQuiet(s, env);
  }

  lemma OnReadQuiet(s: State, g: nat, ok: bool, actions: seq<Action>, env: Env)
    ensures Quiet(s, OnRead(s, g, ok, actions, env))
  {
    if g != s.generation {
    } else if !ok {
      LeaveQuiet(s, env);
    } else {
      PerformAllQuiet(Refreshed(s), actions, env);
    }
  }

  lemma OnDeadlineQuiet(s: State, g: nat, ok: bool, env: Env)
    ensures Quiet(s, OnDeadline(s, g, ok, env))
  {
    if ok && !s.stopped && g == s.generation && !s.connected {
      ScheduleQuiet(Expire(s), env);
    }
  }

  lemma OnWrittenQuiet(s: State, g: nat, id: nat, ok: bool, env: Env)
    ensures Quiet(s, OnWritten(s, g, id, ok, env))
  {
    if g != s.generation {
    } else if !ok {
      LeaveQuiet(s, env);
    } else {
      DoWriteFrame(CompleteEntry(s, id), Some(g), g);
    }
  }

  lemma OnKeepaliveQuiet(s: State, ok: bool)
    ensures Quiet(s, OnKeepalive(s, ok))
  {
    if ok && !s.stopped && s.connected {
      FlushFrame(PushFrame(s, s.keepaliveText, false));
    }
  }

  lemma OnReconnectQuiet(s: State, cancelled: bool, ok: bool, env: Env)
    requires Inv(s, 1, true) && ReconnectWait(cancelled) in s.pending
    ensures Quiet(s, OnReconnect(Taken(s, ReconnectWait(cancelled)), ok, env))
  {
    if !s.stopped {
      ConnectQuiet(Fired(Taken(s, ReconnectWait(cancelled))), env);
    }
  }

  lemma HandleQuiet(s: State, op: Op, ok: bool, actions: seq<Action>, env: Env)
    requires Inv(s, 1, true) && op in s.pending && !(op == Connecting(WsHandshake, s.generation) && ok)
    ensures Quiet(s, Handle(Taken(s, op), op, ok, actions, env))
  {
    var s0 := Taken(s, op);
    match op
    case Connecting(stage, g) => OnConnectingQuiet(s0, stage, g, ok, actions, env);
    case Deadline(g) => OnDeadlineQuiet(s0, g, ok, env);
    case Read(g) => OnReadQuiet(s0, g, ok, actions, env);
    case Write(g, id) => OnWrittenQuiet(s0, g, id, ok, env);
    case ReconnectWait(cancelled) => OnReconnectQuiet(s, cancelled, ok, env);
    case KeepaliveWait => OnKeepaliveQuiet(s0, ok);
  }

  /** Only a send accepts a message, and only a handshake opens a connection. */
  lemma StepQuiet(s: State, e: Event)
    requires Inv(s, 1, true) && Enabled(s, e) && !Opens(s, e) && !e.Send?
    ensures Quiet(s, Step(s, e))
  {
    match e
    case Start(env) => ConnectQuiet(s.(started := true), env);
    case Stop =>
    case Kick(env) => LeaveQuiet(s, env);
    case SendFirst(text) => PerformQuiet(s, Prioritize(text), Env(None, 0, true));
    case Done(op, ok, actions, env) => HandleQuiet(s, op, ok, actions, env);
  }

  lemma SendRecords(s: State, text: string)
    ensures var s' := SendRetained(s, text);
            && s'.accepted == s.accepted + (if AddRetained(s.queue, text).1 then [Message(s.queue, text)] else [])
            && s'.openedAt == s.openedAt && s'.connected == s.connected && s'.generation == s.generation
            && s'.keepaliveText == s.keepaliveText && s'.policy == s.policy
  {
    if AddRetained(s.queue, text).1 {
      FlushFrame(Accept(s, text));
    }
  }

  /** The texts given to the sends that were accepted, in order. */
  function SentTexts(s: State, events: seq<Event>): seq<string> {
    if events == [] then []
    else
      var front, e := events[..|events| - 1], events[|events| - 1];
      SentTexts(s, front)
      + (if e.Send? && AddRetained(Run(s, front).queue, e.text).1 then [e.text] else [])
  }

  ghost predicate Carry(accepted: seq<Entry>, texts: seq<string>) {
    |accepted| == |texts| && forall i :: 0 <= i < |accepted| ==> accepted[i].text == texts[i]
  }

  lemma StepAccepts(s: State, e: Event, texts: seq<string>)
    requires Inv(s, 1, true) && Enabled(s, e) && Carry(s.accepted, texts)
    ensures Carry(Step(s, e).accepted,
                  texts + (if e.Send? && AddRetained(s.queue, e.text).1 then [e.text] else []))
  {
    if e.Send? {
      SendRecords(s, e.text);
    } else if Opens(s, e) {
      OpeningRecords(s, e);
    } else {
      StepQuiet(s, e);
    }
  }

  /** In every run the accepted messages carry exactly the texts that were sent. */
  lemma {:induction false} AcceptedCarryTheirTexts(s: State, events: seq<Event>)
    requires Fresh(s) && Possible(s, events)
    ensures Carry(Run(s, events).accepted, SentTexts(s, events))
  {
    if events != [] {
      var front := events[..|events| - 1];
      AcceptedCarryTheirTexts(s, front);
      RunKeeps(s, front);
      StepAccepts(Run(s, front), events[|events| - 1], SentTexts(s, front));
    }
  }
}
