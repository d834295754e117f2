/**
  The websocket client can always get through: from every state that a started
  and unstopped client reaches, some continuation connects and writes out
  everything it accepted.
 */
module WsProgress {

  import opened Results
  import opened WriteQueue
  import opened WsModel
  import opened WsInvariant
  import opened WsSession

  ghost predicate Alive(s: State) {
    Inv(s, 1, true) && s.started && !s.stopped
  }

  const CALM := Env(None, 0, true)

  /** The operation ends well, and no callback interferes. */
  function Succeeds(op: Op): Event {
    Done(op, true, [], CALM)
  }

  // --------------------------------------------------------------- single steps

  lemma Redials(s: State)
    requires Alive(s) && s.reconnectScheduled && !s.connected
    ensures Enabled(s, Succeeds(ReconnectWait(false)))
    ensures var t := Step(s, Succeeds(ReconnectWait(false)));
            Alive(t) && !t.connected && !t.reconnectScheduled
  {
    StepKeeps(s, Succeeds(ReconnectWait(false)));
    ConnectShape(Fired(Taken(s, ReconnectWait(false))), CALM);
  }

  lemma Climbs(s: State, stage: Stage)
    requires Alive(s) && Connecting(stage, s.generation) in s.pending && stage != WsHandshake
    ensures var t := Step(s, Succeeds(Connecting(stage, s.generation)));
            Alive(t) && t.generation == s.generation && Connecting(NextStage(stage), s.generation) in t.pending
  {
    var op := Connecting(stage, s.generation);
    StepKeeps(s, Succeeds(op));
    StageShape(Taken(s, op), stage, s.generation, true, [], CALM);
  }

  /** A connect step is outstanding. */
  lemma SomeStage(s: State) returns (stage: Stage)
    requires Alive(s) && !s.connected && !s.reconnectScheduled
    ensures Connecting(stage, s.generation) in s.pending
  {
    stage := if Connecting(Resolve, s.generation) in s.pending then Resolve
             else if Connecting(TcpConnect, s.generation) in s.pending then TcpConnect
             else if Connecting(TlsHandshake, s.generation) in s.pending then TlsHandshake
             else WsHandshake;
  }

  lemma StillUp(s: State, g: nat)
    ensures var t := BeginSession(s, g);
            t.connected == s.connected && t.stopped == s.stopped && t.started == s.started
  {
    BeginSessionFrame(s, g);
  }

  /** The handshake succeeds, and the callback queues a frame or nothing. */
  lemma ComesUp(s: State, actions: seq<Action>)
    requires Alive(s) && Connecting(WsHandshake, s.generation) in s.pending
    requires actions == [] || exists text :: actions == [Prioritize(text)]
    ensures var t := Step(s, Done(Connecting(WsHandshake, s.generation), true, actions, CALM));
            Alive(t) && t.connected
  {
    var op := Connecting(WsHandshake, s.generation);
    StepKeeps(s, Done(op, true, actions, CALM));
    var up := Opened(Taken(s, op), s.generation);
    assert PerformAll(up, [], CALM) == up;
    if actions == [] {
      StillUp(up, s.generation);
    } else {
      var text :| actions == [Prioritize(text)];
      PerformFirst(up, actions[0], [], CALM);
      PrioritizeUp(up, text);
      StillUp(SendPriority(up, text), s.generation);
    }
  }

  lemma PrioritizeUp(s: State, text: string)
    ensures var t := SendPriority(s, text);
            && t.connected == s.connected && t.stopped == s.stopped && t.started == s.started
            && t.generation == s.generation
  {
    FlushFrame(PushFrame(s, text, true));
  }

  lemma OneLess(entries: seq<Entry>, k: nat)
    requires k < |entries| && Distinct(entries)
    ensures |Without(entries, entries[k].id)| == |entries| - 1
  {
    FirstIs(entries, k);
  }

  /** The outstanding write ends, and the queue is one shorter. */
  lemma Writes(s: State) returns (id: nat)
    requires Alive(s) && s.connected && s.queue.entries != []
    ensures Write(s.generation, id) in s.pending
    ensures var t := Step(s, Succeeds(Write(s.generation, id)));
            && Alive(t) && t.connected && t.accepted == s.accepted
            && t.generation == s.generation && t.openedAt == s.openedAt
            && |t.queue.entries| == |s.queue.entries| - 1
  {
    var k: nat :| InFlight(s, k);
    id := s.queue.entries[k].id;
    StepKeeps(s, Succeeds(Write(s.generation, id)));
    OneLess(s.queue.entries, k);
    DoWriteFrame(CompleteEntry(Taken(s, Write(s.generation, id)), id), Some(s.generation), s.generation);
  }

  // ---------------------------------------------------------------- continuations

  lemma Extend(s: State, events: seq<Event>, e: Event) returns (longer: seq<Event>)
    requires Possible(s, events) && Enabled(Run(s, events), e)
    ensures longer == events + [e]
    ensures Possible(s, longer) && Run(s, longer) == Step(Run(s, events), e)
  {
    longer := events + [e];
    assert longer[..|events|] == events;
  }

  /** Climbing the connect stages up to the opening. */
  lemma Climb(s: State, events: seq<Event>, stage: Stage) returns (later: seq<Event>)
    requires Possible(s, events) && Alive(Run(s, events))
    requires Connecting(stage, Run(s, events).generation) in Run(s, events).pending
    ensures events <= later && Possible(s, later) && Alive(Run(s, later)) && Run(s, later).connected
    decreases match stage case Resolve => 3 case TcpConnect => 2 case TlsHandshake => 1 case WsHandshake => 0
  {
    var t := Run(s, events);
    later := Extend(s, events, Succeeds(Connecting(stage, t.generation)));
    if stage == WsHandshake {
      ComesUp(t, []);
    } else {
      Climbs(t, stage);
      later := Climb(s, later, NextStage(stage));
    }
  }

  lemma Reconnect(s: State, events: seq<Event>) returns (later: seq<Event>)
    requires Possible(s, events) && Alive(Run(s, events))
    ensures events <= later && Possible(s, later) && Alive(Run(s, later)) && Run(s, later).connected
  {
    later := events;
    if !Run(s, events).connected {
      if Run(s, events).reconnectScheduled {
        Redials(Run(s, events));
        later := Extend(s, events, Succeeds(ReconnectWait(false)));
      }
      var stage := SomeStage(Run(s, later));
      later := Climb(s, later, stage);
    }
  }

  lemma Drain(s: State, events: seq<Event>) returns (later: seq<Event>)
    requires Possible(s, events) && Alive(Run(s, events)) && Run(s, events).connected
    ensures events <= later && Possible(s, later)
    ensures Alive(Run(s, later)) && Run(s, later).connected && Run(s, later).queue.entries == []
    decreases |Run(s, events).queue.entries|
  {
    later := events;
    if Run(s, events).queue.entries != [] {
      var id := Writes(Run(s, events));
      later := Extend(s, events, Succeeds(Write(Run(s, events).generation, id)));
      later := Drain(s, later);
    }
  }

  lemma DrainedMeansCompleted(s: State)
    requires Conserved(s) && !s.stopped && s.queue.entries == []
    ensures s.completed == s.accepted
  {
    RetainedNothing();
  }

  /**
    From every state a started and unstopped client can reach, some possible
    continuation ends connected, with an empty queue and every accepted message completed.
   */
  lemma CanAlwaysDeliver(s: State, events: seq<Event>) returns (later: seq<Event>)
    requires Fresh(s) && Possible(s, events) && Run(s, events).started && !Run(s, events).stopped
    ensures events <= later && Possible(s, later)
    ensures var t := Run(s, later);
            t.connected && t.queue.entries == [] && t.completed == t.accepted
  {
    RunKeeps(s, events);
    later := Reconnect(s, events);
    later := Drain(s, later);
    DrainedMeansCompleted(Run(s, later));
  }
}
