/**
  Two possible runs of feed and client that settle on the wrong set: a change made
  while disconnected that the replay undoes, and a change the full queue refused.
 */
module UserLosses {

  import opened WriteQueue
  import opened WsModel
  import opened WsInvariant
  import opened WsSession
  import opened WsProgress
  import opened UserFeed
  import opened UserFrames
  import opened UserSession
  import opened UserProgress

  const M: seq<string> := ["m"]

  /** Subscribing to the one id, and dropping it again. */
  lemma OneId()
    ensures DeltaOps(M, []) == [Subscribe(M)] && DeltaOps([], M) == [Unsubscribe(M)]
  {
    assert M[..0] == [];
    assert Minus(M, []) == M && Minus([], M) == [];
  }

  lemma OneMember()
    ensures "m" in Members(M) && "m" !in Members([])
  {
    assert M[0] == "m";
  }

  // ------------------------------------------------------------------ getting there

  lemma Starts(creds: Credentials)
    ensures var j := NewJoint(creds);
            && JointEnabled(j, Strand(Start(CALM))) && Lively(OnStrand(j, Start(CALM)))
            && OnStrand(j, Start(CALM)) == j.(client := Step(j.client, Start(CALM)))
            && !OnStrand(j, Start(CALM)).client.connected && OnStrand(j, Start(CALM)).client.accepted == []
  {
    var j := NewJoint(creds);
    NewJointInv(creds);
    JointStepKeeps(j, Strand(Start(CALM)));
    StepQuiet(j.client, Start(CALM));
    ConnectShape(j.client.(started := true), CALM);
  }

  /** Connected for the first time, wanting nothing. */
  ghost predicate Idle(j: Joint) {
    && Lively(j) && j.client.connected && j.client.accepted == [] && !j.refused
    && j.feed == Feed([], [], [], [], 0) && j.outbox == [] && j.waiting == [] && j.taken == []
    && ResumedAt(j) == 0
  }

  lemma FirstOpening(creds: Credentials) returns (events: seq<JointEvent>)
    ensures JointPossible(NewJoint(creds), events) && Idle(JointRun(NewJoint(creds), events))
  {
    Starts(creds);
    var started := Prolong(NewJoint(creds), [], Strand(Start(CALM)));
    events := ConnectUp(NewJoint(creds), started);
  }

  lemma SubscribeMoves(j: Joint, ids: seq<string>, online: bool)
    requires Lively(j)
    ensures JointEnabled(j, Subscribing(ids, online)) && Lively(OnSubscribe(j, ids, online))
    ensures OnSubscribe(j, ids, online).client == j.client
  {
    SubscribeKeeps(j, ids, online);
  }

  lemma FailsToBackoff(s: State)
    requires !s.policy && !s.stopped && !s.reconnectScheduled
    ensures var t := Fail(s, s.generation, CALM);
            !t.connected && t.started == s.started && !t.stopped && t.accepted == s.accepted
  {
    assert Fail(s, s.generation, CALM)
        == Scheduled(Disconnect(s), ReconnectDelay(Disconnect(s), CALM));
  }

  lemma ReadFails(s: State)
    requires Alive(s) && s.connected && !s.policy
    ensures var e := Done(Read(s.generation), false, [], CALM);
            Enabled(s, e) && Alive(Step(s, e)) && !Step(s, e).connected
  {
    var e := Done(Read(s.generation), false, [], CALM);
    StepKeeps(s, e);
    var s' := Taken(s, Read(s.generation));
    assert Step(s, e) == Fail(s', s.generation, CALM);
    FailsToBackoff(s');
  }

  lemma LosesConnection(j: Joint)
    requires Lively(j) && j.client.connected
    ensures var e := Done(Read(j.client.generation), false, [], CALM);
            && JointEnabled(j, Strand(e)) && Lively(JointStep(j, Strand(e)))
            && JointStep(j, Strand(e)) == j.(client := JointStep(j, Strand(e)).client)
            && !JointStep(j, Strand(e)).client.connected
            && JointStep(j, Strand(e)).client.accepted == j.client.accepted
  {
    ReadFails(j.client);
    ClientMoves(j, Done(Read(j.client.generation), false, [], CALM));
  }

  // ----------------------------------------------------- a change undone by the replay

  /** Disconnected, wanting nothing, with the subscription to one id still to be sent. */
  ghost predicate Dropped(j: Joint) {
    && !j.client.connected && j.client.accepted == [] && !j.refused
    && j.feed.desired == [] && j.feed.ops == [Subscribe(M)]
  }

  /** Disconnected, with the subscription to one id posted and not sent. */
  ghost predicate CutOff(j: Joint) {
    !j.client.connected && j.client.accepted == [] && !j.refused && j.feed.ops == [Subscribe(M)]
  }

  lemma SubscribeAndLose(creds: Credentials) returns (events: seq<JointEvent>)
    ensures JointPossible(NewJoint(creds), events)
    ensures Lively(JointRun(NewJoint(creds), events)) && CutOff(JointRun(NewJoint(creds), events))
  {
    var idle := FirstOpening(creds);
    OneId();
    SubscribeMoves(JointRun(NewJoint(creds), idle), M, true);
    var posted := Prolong(NewJoint(creds), idle, Subscribing(M, true));
    LosesConnection(JointRun(NewJoint(creds), posted));
    var g := JointRun(NewJoint(creds), posted).client.generation;
    events := Prolong(NewJoint(creds), posted, Strand(Done(Read(g), false, [], CALM)));
  }

  lemma DropOffline(creds: Credentials) returns (events: seq<JointEvent>)
    ensures JointPossible(NewJoint(creds), events)
    ensures Lively(JointRun(NewJoint(creds), events)) && Dropped(JointRun(NewJoint(creds), events))
  {
    var lost := SubscribeAndLose(creds);
    SubscribeMoves(JointRun(NewJoint(creds), lost), [], false);
    events := Prolong(NewJoint(creds), lost, Subscribing([], false));
  }

  lemma ReplayAdds()
    ensures ServeAll(Members([]), [Subscribe(M)]) != Members([])
  {
    OneMember();
    ServeAllMeaning(Members([]), [Subscribe(M)], "m");
    MentionsOne(Subscribe(M), "m");
  }

  /** Connected anew, wanting nothing, with that subscription yet to be replayed or just replayed. */
  ghost predicate Misled(j: Joint) {
    && !j.refused && ResumedAt(j) == 0
    && j.feed.desired == j.feed.active == j.feed.openedWith == [] && j.feed.ops == [Subscribe(M)]
  }

  lemma ReopenedMisled(j: Joint, j': Joint)
    requires Dropped(j) && Risen(j, j')
    ensures Misled(j')
  {
    assert j'.feed == FeedStep(j.feed, Opening);
  }

  lemma DeliveredMisled(j: Joint, j': Joint)
    requires Misled(j) && Passed(j, j')
    ensures Misled(j')
  {
  }

  lemma MisledServes(j: Joint)
    requires JointInv(j) && Misled(j) && Settled(j)
    ensures Served(j) != Members(j.feed.desired)
  {
    SettledServes(j);
    ReplayAdds();
    assert j.taken[0..] == [Subscribe(M)];
  }

  /**
    A possible run in which the id dropped while disconnected is served after all:
    nothing was refused, the feed is settled and wants nothing, and the server serves something.
   */
  lemma OfflineChangeLostInARun(creds: Credentials) returns (events: seq<JointEvent>)
    ensures JointPossible(NewJoint(creds), events)
    ensures var j := JointRun(NewJoint(creds), events);
            && Settled(j) && !j.refused && j.feed.desired == j.feed.active == []
            && Served(j) != Members(j.feed.desired)
  {
    var dropped := DropOffline(creds);
    var up := ConnectUp(NewJoint(creds), dropped);
    ReopenedMisled(JointRun(NewJoint(creds), dropped), JointRun(NewJoint(creds), up));
    events := SettleUp(NewJoint(creds), up);
    DeliveredMisled(JointRun(NewJoint(creds), up), JointRun(NewJoint(creds), events));
    MisledServes(JointRun(NewJoint(creds), events));
  }

  // -------------------------------------------------------- a change the queue refused

  /** The set wanted after n changes, and the operation of the next one. */
  function Wish(n: nat): seq<string> {
    if n % 2 == 0 then [] else M
  }

  function Toggle(n: nat): Operation {
    if n % 2 == 0 then Subscribe(M) else Unsubscribe(M)
  }

  function Toggles(n: nat): (ops: seq<Operation>)
    ensures |ops| == n
  {
    if n == 0 then [] else Toggles(n - 1) + [Toggle(n - 1)]
  }

  lemma ToggleDelta(n: nat)
    ensures DeltaOps(Wish(n + 1), Wish(n)) == [Toggle(n)]
  {
    OneId();
  }

  lemma ServeToggle(n: nat)
    ensures Serve(Members(Wish(n)), Toggle(n)) == Members(Wish(n + 1))
  {
    if n % 2 == 0 {
      assert Members([]) + Members(M) == Members(M);
    } else {
      assert Members(M) - Members(M) == Members([]);
    }
  }

  lemma {:induction false} TogglesServe(n: nat)
    ensures ServeAll(Members([]), Toggles(n)) == Members(Wish(n))
  {
    if n > 0 {
      TogglesServe(n - 1);
      assert Toggles(n)[..n - 1] == Toggles(n - 1);
      ServeToggle(n - 1);
    }
  }

  /** Connected, with n changes sent and taken, and none of them written yet. */
  ghost predicate Piled(j: Joint, n: nat) {
    && j.client.connected && !j.refused && j.outbox == [] && j.waiting == [] && j.taken == Toggles(n)
    && j.feed == Feed(Wish(n), Wish(n), Toggles(n), [], 0) && ResumedAt(j) == 0
  }

  /** A change whose text is posted. */
  ghost predicate Pushing(j: Joint, n: nat) {
    && j.client.connected && !j.refused && j.waiting == [Toggle(n)] && |j.outbox| == 1 && j.taken == Toggles(n)
    && j.feed == Feed(Wish(n + 1), Wish(n + 1), Toggles(n + 1), [], 0) && ResumedAt(j) == 0
  }

  predicate Room(j: Joint)
    requires j.outbox != []
  {
    AddRetained(j.client.queue, j.outbox[0]).1
  }

  /** One more change: its text is posted. */
  lemma OneMorePosted(j: Joint, n: nat)
    requires Piled(j, n)
    ensures Pushing(OnSubscribe(j, Wish(n + 1), true), n) && OnSubscribe(j, Wish(n + 1), true).client == j.client
  {
    ToggleDelta(n);
    assert [] + [Toggle(n)] == [Toggle(n)];
    assert [] + Texts([Toggle(n)]) == Texts([Toggle(n)]);
  }

  /** The queue refused the last change. */
  ghost predicate Overrun(j: Joint, n: nat) {
    && j.client.connected && j.refused && j.outbox == []
    && j.feed == Feed(Wish(n + 1), Wish(n + 1), Toggles(n + 1), [], 0) && j.taken == Toggles(n)
    && ResumedAt(j) == 0
  }

  /** Running the send stays on the connection. */
  lemma RunStays(j: Joint)
    requires j.outbox != [] && j.waiting != []
    ensures OnPosted(j).client.connected == j.client.connected && ResumedAt(OnPosted(j)) == ResumedAt(j)
  {
    PostedFrame(j);
    SendRecords(j.client, j.outbox[0]);
  }

  lemma RunTaken(j: Joint, n: nat)
    requires Pushing(j, n) && Room(j)
    ensures Piled(OnPosted(j), n + 1)
  {
    RunStays(j);
    assert OnPosted(j) == Shifted(j).(taken := j.taken + [Toggle(n)]);
  }

  lemma RunRefused(j: Joint, n: nat)
    requires Pushing(j, n) && !Room(j)
    ensures Overrun(OnPosted(j), n)
  {
    RunStays(j);
    assert OnPosted(j) == Shifted(j).(refused := true);
  }

  /** The queue has at most this many free places. */
  predicate Free(j: Joint, places: int) {
    j.client.queue.capacity - |j.client.queue.entries| <= places
  }

  /** A queue that takes a message has one place less. */
  lemma LessRoom(j: Joint, places: int)
    requires j.outbox != [] && j.waiting != [] && Room(j) && Free(j, places)
    ensures places > 0 && Free(OnPosted(j), places - 1)
  {
    PostedFrame(j);
    SendKeepsRest(j.client, j.outbox[0]);
  }

  /** One change and its send. */
  lemma PushOne(j: Joint, events: seq<JointEvent>, n: nat) returns (later: seq<JointEvent>, u: Joint)
    requires JointPossible(j, events) && Lively(JointRun(j, events)) && Piled(JointRun(j, events), n)
    ensures JointPossible(j, later) && Pushing(u, n) && u.client == JointRun(j, events).client
    ensures JointRun(j, later) == OnPosted(u) && Lively(JointRun(j, later))
  {
    var t := JointRun(j, events);
    OneMorePosted(t, n);
    SubscribeMoves(t, Wish(n + 1), true);
    var pushed := Prolong(j, events, Subscribing(Wish(n + 1), true));
    u := JointRun(j, pushed);
    PostingMoves(u);
    later := Prolong(j, pushed, Posted);
  }

  ghost predicate Running(creds: Credentials, events: seq<JointEvent>) {
    && JointPossible(NewJoint(creds), events)
    && JointRun(NewJoint(creds), events).client.started && !JointRun(NewJoint(creds), events).client.stopped
  }

  lemma {:induction false} RunningLively(creds: Credentials, events: seq<JointEvent>)
    requires Running(creds, events)
    ensures Lively(JointRun(NewJoint(creds), events))
  {
    JointRunKeeps(creds, events);
  }

  /** After n changes, with at most this much room left in the queue. */
  ghost predicate Filling(creds: Credentials, events: seq<JointEvent>, n: nat, places: int) {
    && Running(creds, events)
    && Piled(JointRun(NewJoint(creds), events), n) && Free(JointRun(NewJoint(creds), events), places)
  }

  ghost predicate Overflown(creds: Credentials, events: seq<JointEvent>, n: nat) {
    Running(creds, events) && Overrun(JointRun(NewJoint(creds), events), n)
  }

  /** The change is taken, and the queue has less room, or it is refused. */
  lemma PushOrOverrun(creds: Credentials, events: seq<JointEvent>, n: nat, places: nat)
    returns (later: seq<JointEvent>)
    requires Filling(creds, events, n, places)
    ensures Overflown(creds, later, n) || (places > 0 && Filling(creds, later, n + 1, places - 1))
  {
    var u;
    RunningLively(creds, events);
    later, u := PushOne(NewJoint(creds), events, n);
    if Room(u) {
      RunTaken(u, n);
      LessRoom(u, places);
    } else {
      RunRefused(u, n);
    }
  }

  lemma PileUp(creds: Credentials, events: seq<JointEvent>, n: nat, places: nat)
    returns (later: seq<JointEvent>, m: nat)
    requires Filling(creds, events, n, places)
    ensures Overflown(creds, later, m)
    decreases places
  {
    later := PushOrOverrun(creds, events, n, places);
    if Overflown(creds, later, n) {
      m := n;
    } else {
      later, m := PileUp(creds, later, n + 1, places - 1);
    }
  }

  lemma OverrunServes(j: Joint, n: nat)
    requires JointInv(j) && Overrun(j, n) && Settled(j)
    ensures Served(j) != Members(j.feed.desired)
  {
    SettledServes(j);
    TogglesServe(n);
    WishesDiffer(n);
    assert Toggles(n)[0..] == Toggles(n);
  }

  lemma FlowedOverrun(j: Joint, j': Joint, n: nat)
    requires Overrun(j, n) && j' == j.(client := j'.client) && j'.client.connected
    requires j'.client.generation == j.client.generation && j'.client.openedAt == j.client.openedAt
    ensures Overrun(j', n)
  {
  }

  lemma WishesDiffer(n: nat)
    ensures Members(Wish(n)) != Members(Wish(n + 1))
  {
    OneMember();
  }

  /**
    A possible run on a single connection in which changes come faster than they are
    written: the full queue refuses one, the feed settles, and the server never hears of it.
   */
  lemma RefusedChangeLostInARun(creds: Credentials) returns (events: seq<JointEvent>)
    ensures JointPossible(NewJoint(creds), events)
    ensures var j := JointRun(NewJoint(creds), events);
            && Settled(j) && j.refused && j.feed.desired == j.feed.active
            && Served(j) != Members(j.feed.desired)
  {
    var opened' := FirstOpening(creds);
    var full, n := PileUp(creds, opened', 0, JointRun(NewJoint(creds), opened').client.queue.capacity);
    RunningLively(creds, full);
    events := WriteOut(NewJoint(creds), full);
    FlowedOverrun(JointRun(NewJoint(creds), full), JointRun(NewJoint(creds), events), n);
    OverrunServes(JointRun(NewJoint(creds), events), n);
  }
}
