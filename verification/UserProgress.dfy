/**
  The feed can always settle: from every state it reaches with a live client,
  some continuation connects, runs every posted send and writes everything out.
 */
module UserProgress {

  import opened WriteQueue
  import opened WsModel
  import opened WsInvariant
  import opened WsSession
  import opened WsProgress
  import opened UserFeed
  import opened UserFrames
  import opened UserSession

  ghost predicate Lively(j: Joint) {
    JointInv(j) && Alive(j.client)
  }

  /** Only frames were written, on the same connection. */
  ghost predicate Flowed(j: Joint, j': Joint) {
    && Lively(j') && j' == j.(client := j'.client)
    && j'.client.connected && j'.client.generation == j.client.generation
    && j'.client.openedAt == j.client.openedAt && j'.client.accepted == j.client.accepted
  }

  /** A new connection was opened, and nothing was sent meanwhile. */
  ghost predicate Risen(j: Joint, j': Joint) {
    && j' == j.(client := j'.client, feed := FeedStep(j.feed, Opening), initials := j'.initials)
    && j'.client.connected && j'.client.accepted == j.client.accepted
    && ResumedAt(j') <= |j.client.accepted|
  }

  ghost predicate Rose(j: Joint, j': Joint) {
    Lively(j') && Risen(j, j')
  }

  /** Posted sends were run and written out, on the same connection. */
  ghost predicate Passed(j: Joint, j': Joint) {
    && j'.client.connected && j'.feed == j.feed && j'.refused == j.refused
    && j'.client.generation == j.client.generation && j'.client.openedAt == j.client.openedAt
  }

  ghost predicate Delivered(j: Joint, j': Joint) {
    Lively(j') && Passed(j, j')
  }

  lemma Prolong(j: Joint, events: seq<JointEvent>, e: JointEvent) returns (longer: seq<JointEvent>)
    requires JointPossible(j, events) && JointEnabled(JointRun(j, events), e)
    ensures events <= longer && JointPossible(j, longer)
    ensures JointRun(j, longer) == JointStep(JointRun(j, events), e)
  {
    longer := events + [e];
    RunSnoc(j, events, e);
    PossibleSnoc(j, events, e);
  }

  // --------------------------------------------------------------- single steps

  /** A step of the client that opens nothing is the same step of both. */
  lemma ClientMoves(j: Joint, e: Event)
    requires Lively(j) && e.Done? && Plain(e.actions) && !Opens(j.client, e) && Enabled(j.client, e)
    requires Alive(Step(j.client, e))
    ensures JointEnabled(j, Strand(e)) && Lively(JointStep(j, Strand(e)))
    ensures JointStep(j, Strand(e)) == j.(client := Step(j.client, e))
    ensures Step(j.client, e).accepted == j.client.accepted
  {
    JointStepKeeps(j, Strand(e));
    StepQuiet(j.client, e);
  }

  lemma OpensAlive(j: Joint)
    requires Alive(j.client) && Connecting(WsHandshake, j.client.generation) in j.client.pending
    ensures var j' := OnStrand(j, Succeeds(Connecting(WsHandshake, j.client.generation)));
            && Alive(j'.client) && j'.client.connected
            && j' == j.(client := j'.client, feed := FeedStep(j.feed, Opening), initials := j'.initials)
  {
    var first := Prioritize(Text(Full(j.creds, j.feed.desired)));
    OpeningShape(j, [], CALM);
    assert [first] + [] == [first];
    ComesUp(j.client, [first]);
  }

  lemma CompletedFirst(c: State)
    requires Conserved(c)
    ensures |c.completed| <= |c.accepted|
  {
  }

  lemma OpeningMoves(j: Joint)
    requires Lively(j) && Connecting(WsHandshake, j.client.generation) in j.client.pending
    ensures var e := Strand(Succeeds(Connecting(WsHandshake, j.client.generation)));
            JointEnabled(j, e) && Rose(j, JointStep(j, e))
  {
    var e := Succeeds(Connecting(WsHandshake, j.client.generation));
    assert JointInv(OnStrand(j, e)) by { JointStepKeeps(j, Strand(e)); }
    OpensAlive(j);
    OpensRecorded(j, e);
  }

  lemma OpensRecorded(j: Joint, e: Event)
    requires Client(j) && JointEnabled(j, Strand(e)) && Opens(j.client, e) && OnStrand(j, e).client.connected
    ensures OnStrand(j, e).client.accepted == j.client.accepted
    ensures ResumedAt(OnStrand(j, e)) <= |j.client.accepted|
  {
    assert Quiet(Opened(j.client, j.client.generation), OnStrand(j, e).client) by { OpeningClient(j, e); }
    CompletedFirst(j.client);
  }

  lemma SendKeepsRest(s: State, text: string)
    ensures var t := SendRetained(s, text);
            && t.started == s.started && t.stopped == s.stopped
            && t.queue == (if AddRetained(s.queue, text).1 then AddRetained(s.queue, text).0 else s.queue)
  {
    if AddRetained(s.queue, text).1 {
      FlushFrame(Accept(s, text));
    }
  }

  lemma SendAlive(s: State, text: string)
    requires Alive(s)
    ensures Alive(SendRetained(s, text))
  {
    SendRetainedKeeps(s, text, 1, true);
    SendKeepsRest(s, text);
  }

  /** A posted send of a live, connected feed. */
  lemma PostingMoves(j: Joint)
    requires Lively(j) && j.client.connected && j.outbox != []
    ensures j.waiting != [] && JointEnabled(j, Posted) && JointStep(j, Posted) == OnPosted(j)
    ensures var j' := OnPosted(j);
            && Lively(j') && j'.client.connected && j'.feed == j.feed && j'.outbox == j.outbox[1..]
            && j'.client.generation == j.client.generation && j'.client.openedAt == j.client.openedAt
  {
    assert j.waiting != [] && JointInv(OnPosted(j)) by { PostedKeeps(j); }
    PostedFrame(j);
    SendAlive(j.client, j.outbox[0]);
    SendRecords(j.client, j.outbox[0]);
  }

  /** An empty queue refuses nothing. */
  lemma PostingTaken(j: Joint)
    requires Lively(j) && j.client.queue.entries == [] && j.outbox != [] && j.waiting != []
    ensures OnPosted(j).refused == j.refused
  {
    PostedFrame(j);
  }

  // ---------------------------------------------------------------- continuations

  lemma ClimbUp(j: Joint, events: seq<JointEvent>, stage: Stage) returns (later: seq<JointEvent>)
    requires JointPossible(j, events) && Lively(JointRun(j, events))
    requires Connecting(stage, JointRun(j, events).client.generation) in JointRun(j, events).client.pending
    ensures events <= later && JointPossible(j, later) && Rose(JointRun(j, events), JointRun(j, later))
    decreases match stage case Resolve => 3 case TcpConnect => 2 case TlsHandshake => 1 case WsHandshake => 0
  {
    var t := JointRun(j, events);
    var op := Connecting(stage, t.client.generation);
    if stage == WsHandshake {
      OpeningMoves(t);
      later := Prolong(j, events, Strand(Succeeds(op)));
    } else {
      Climbs(t.client, stage);
      ClientMoves(t, Succeeds(op));
      later := Prolong(j, events, Strand(Succeeds(op)));
      later := ClimbUp(j, later, NextStage(stage));
    }
  }

  lemma ConnectUp(j: Joint, events: seq<JointEvent>) returns (later: seq<JointEvent>)
    requires JointPossible(j, events) && Lively(JointRun(j, events)) && !JointRun(j, events).client.connected
    ensures events <= later && JointPossible(j, later) && Rose(JointRun(j, events), JointRun(j, later))
  {
    later := events;
    if JointRun(j, events).client.reconnectScheduled {
      Redials(JointRun(j, events).client);
      ClientMoves(JointRun(j, events), Succeeds(ReconnectWait(false)));
      later := Prolong(j, events, Strand(Succeeds(ReconnectWait(false))));
    }
    var stage := SomeStage(JointRun(j, later).client);
    later := ClimbUp(j, later, stage);
  }

  lemma WriteOut(j: Joint, events: seq<JointEvent>) returns (later: seq<JointEvent>)
    requires JointPossible(j, events) && Lively(JointRun(j, events)) && JointRun(j, events).client.connected
    ensures events <= later && JointPossible(j, later) && Flowed(JointRun(j, events), JointRun(j, later))
    ensures JointRun(j, later).client.queue.entries == []
    decreases |JointRun(j, events).client.queue.entries|
  {
    later := events;
    var t := JointRun(j, events);
    if t.client.queue.entries != [] {
      var id := Writes(t.client);
      ClientMoves(t, Succeeds(Write(t.client.generation, id)));
      later := Prolong(j, events, Strand(Succeeds(Write(t.client.generation, id))));
      later := WriteOut(j, later);
    }
  }

  /** One posted send on an empty queue, written out. */
  lemma PostOne(j: Joint, events: seq<JointEvent>) returns (later: seq<JointEvent>)
    requires JointPossible(j, events) && Lively(JointRun(j, events)) && JointRun(j, events).outbox != []
    requires JointRun(j, events).client.connected && JointRun(j, events).client.queue.entries == []
    ensures events <= later && JointPossible(j, later) && Delivered(JointRun(j, events), JointRun(j, later))
    ensures JointRun(j, later).client.queue.entries == []
    ensures |JointRun(j, later).outbox| == |JointRun(j, events).outbox| - 1
  {
    PostingMoves(JointRun(j, events));
    PostingTaken(JointRun(j, events));
    later := Prolong(j, events, Posted);
    later := WriteOut(j, later);
  }

  lemma PostOut(j: Joint, events: seq<JointEvent>) returns (later: seq<JointEvent>)
    requires JointPossible(j, events) && Lively(JointRun(j, events))
    requires JointRun(j, events).client.connected && JointRun(j, events).client.queue.entries == []
    ensures events <= later && JointPossible(j, later) && Delivered(JointRun(j, events), JointRun(j, later))
    ensures Settled(JointRun(j, later))
    decreases |JointRun(j, events).outbox|
  {
    later := events;
    if JointRun(j, events).outbox != [] {
      later := PostOne(j, events);
      later := PostOut(j, later);
    }
  }

  lemma SettleUp(j: Joint, events: seq<JointEvent>) returns (later: seq<JointEvent>)
    requires JointPossible(j, events) && Lively(JointRun(j, events)) && JointRun(j, events).client.connected
    ensures events <= later && JointPossible(j, later) && Delivered(JointRun(j, events), JointRun(j, later))
    ensures Settled(JointRun(j, later))
  {
    later := WriteOut(j, events);
    later := PostOut(j, later);
  }

  /** The same set is wanted, and nothing more was refused. */
  ghost predicate SameWish(j: Joint, j': Joint) {
    j'.feed.desired == j.feed.desired && j'.refused == j.refused
  }

  lemma RisenWish(j: Joint, j': Joint)
    requires Risen(j, j')
    ensures SameWish(j, j') && j'.client.connected
  {
    assert j'.feed == FeedStep(j.feed, Opening);
  }

  lemma ConnectedAgain(j: Joint, events: seq<JointEvent>) returns (later: seq<JointEvent>)
    requires JointPossible(j, events) && Lively(JointRun(j, events))
    ensures events <= later && JointPossible(j, later) && SameWish(JointRun(j, events), JointRun(j, later))
    ensures Lively(JointRun(j, later)) && JointRun(j, later).client.connected
  {
    if JointRun(j, events).client.connected {
      later := events;
    } else {
      later := ConnectUp(j, events);
      RisenWish(JointRun(j, events), JointRun(j, later));
    }
  }

  lemma SettleFrom(j: Joint, events: seq<JointEvent>) returns (later: seq<JointEvent>)
    requires JointPossible(j, events) && Lively(JointRun(j, events))
    ensures events <= later && JointPossible(j, later) && Settled(JointRun(j, later))
    ensures SameWish(JointRun(j, events), JointRun(j, later))
  {
    var up := ConnectedAgain(j, events);
    later := SettleUp(j, up);
  }

  /**
    From every state that the feed reaches with its client started and not stopped,
    some possible continuation settles, wanting the same set and refusing nothing more.
   */
  lemma FeedCanSettle(creds: Credentials, events: seq<JointEvent>) returns (later: seq<JointEvent>)
    requires JointPossible(NewJoint(creds), events)
    requires var j := JointRun(NewJoint(creds), events); j.client.started && !j.client.stopped
    ensures events <= later && JointPossible(NewJoint(creds), later) && Settled(JointRun(NewJoint(creds), later))
    ensures SameWish(JointRun(NewJoint(creds), events), JointRun(NewJoint(creds), later))
  {
    JointRunKeeps(creds, events);
    later := SettleFrom(NewJoint(creds), events);
  }
}
