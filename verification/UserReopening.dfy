/**
  What a new connection of the feed is told: the set last asked for. Replacing the
  set and kicking the client therefore brings the new set to the server.
 */
module UserReopening {

  import opened Results
  import opened WsModel
  import opened WsInvariant
  import opened WsLaws
  import opened WsSession
  import opened WsEffects
  import opened UserFeed
  import opened UserFrames
  import opened UserSession

  // ---------------------------------------------------------------------- what is wanted

  /** The set of the last call that asked for one. */
  function LastAsked(events: seq<JointEvent>): seq<string> {
    if events == [] then []
    else
      match events[|events| - 1]
      case Subscribing(ids, _) => ids
      case Replacing(ids) => ids
      case _ => LastAsked(events[..|events| - 1])
  }

  lemma StepDesires(j: Joint, e: JointEvent)
    ensures JointStep(j, e).feed.desired
         == match e case Subscribing(ids, _) => ids case Replacing(ids) => ids case _ => j.feed.desired
  {
    if Seen(j, e) == [] {
      FeedStays(j, e);
    } else {
      FeedMoves(j, e);
    }
  }

  /** In every run the desired set is the one last asked for, on- or offline. */
  lemma {:induction false} DesiredIsLastAsked(creds: Credentials, events: seq<JointEvent>)
    ensures JointRun(NewJoint(creds), events).feed.desired == LastAsked(events)
  {
    if events != [] {
      DesiredIsLastAsked(creds, events[..|events| - 1]);
      StepDesires(JointRun(NewJoint(creds), events[..|events| - 1]), events[|events| - 1]);
    }
  }

  // ------------------------------------------------------------------------- openings

  /** A generation that was opened is not opened again. */
  lemma OpensOnce(j: Joint, e: Event)
    requires Client(j) && Enabled(j.client, e) && Opens(j.client, e)
    ensures j.client.generation !in j.client.openedAt
  {
    StepMeansConnecting(j.client, WsHandshake);
  }

  ghost predicate OpensHere(j: Joint, e: JointEvent) {
    e.Strand? && Opens(j.client, e.event)
  }

  lemma OpeningOpens(j: Joint, e: Event)
    requires Client(j) && JointEnabled(j, Strand(e)) && Opens(j.client, e)
    ensures var j' := OnStrand(j, e);
            && j.client.generation !in j.client.openedAt
            && j'.client.openedAt.Keys == j.client.openedAt.Keys + {j.client.generation}
            && j'.initials == j.initials[j.client.generation := j.feed.desired]
  {
    DressedEvent(j, e);
    OpensOnce(j, e);
    OpeningRecords(j.client, Dressed(j, e));
  }

  lemma OthersOpenNothing(j: Joint, e: JointEvent)
    requires JointInv(j) && JointEnabled(j, e) && !OpensHere(j, e)
    ensures var j' := JointStep(j, e); j'.client.openedAt == j.client.openedAt && j'.initials == j.initials
  {
    match e
    case Strand(event) =>
      StrandShape(j, event);
      StepQuiet(j.client, event);
    case Posted => PostedOpensNothing(j);
    case _ =>
  }

  lemma PostedOpensNothing(j: Joint)
    requires Sent(j) && j.outbox != []
    ensures var j' := JointStep(j, Posted); j'.client.openedAt == j.client.openedAt && j'.initials == j.initials
  {
    PostedSent(j);
    PostedFrame(j);
    SendRecords(j.client, j.outbox[0]);
  }

  /** A step opens the current generation or none. */
  lemma OpenedBy(j: Joint, e: JointEvent)
    requires JointInv(j) && JointEnabled(j, e)
    ensures var j' := JointStep(j, e);
            if OpensHere(j, e)
            then && j.client.generation !in j.client.openedAt
                 && j'.client.openedAt.Keys == j.client.openedAt.Keys + {j.client.generation}
                 && j'.initials == j.initials[j.client.generation := j.feed.desired]
            else j'.client.openedAt == j.client.openedAt && j'.initials == j.initials
  {
    if OpensHere(j, e) {
      OpeningOpens(j, e.event);
    } else {
      OthersOpenNothing(j, e);
    }
  }

  /** Event k of the run opened generation g. */
  ghost predicate OpenedIn(creds: Credentials, events: seq<JointEvent>, k: nat, g: nat) {
    && k < |events| && events[k].Strand?
    && Opens(JointRun(NewJoint(creds), events[..k]).client, events[k].event)
    && JointRun(NewJoint(creds), events[..k]).client.generation == g
  }

  lemma OpenedEarlier(creds: Credentials, events: seq<JointEvent>, k: nat, g: nat)
    requires events != [] && OpenedIn(creds, events[..|events| - 1], k, g)
    ensures OpenedIn(creds, events, k, g) && LastAsked(events[..k]) == LastAsked(events[..|events| - 1][..k])
  {
    assert events[..|events| - 1][..k] == events[..k];
  }

  /** Each opened generation was opened by one event, with the set last asked for then. */
  lemma OpeningOf(creds: Credentials, events: seq<JointEvent>, g: nat) returns (k: nat)
    requires JointPossible(NewJoint(creds), events) && g in JointRun(NewJoint(creds), events).client.openedAt
    ensures OpenedIn(creds, events, k, g)
    ensures g in JointRun(NewJoint(creds), events).initials
    ensures JointRun(NewJoint(creds), events).initials[g] == LastAsked(events[..k])
  {
    var front, e := events[..|events| - 1], events[|events| - 1];
    var j := JointRun(NewJoint(creds), front);
    assert JointInv(j) by { JointRunKeeps(creds, front); }
    OpenedBy(j, e);
    if g in j.client.openedAt {
      k := OpeningOf(creds, front, g);
      OpenedEarlier(creds, events, k, g);
    } else {
      k := |front|;
      assert events[..k] == front;
      DesiredIsLastAsked(creds, front);
    }
  }

  /**
    In every run, the first frame handed to a connection is the authenticated
    subscription to the set last asked for before its opening.
   */
  lemma OpeningTellsLastAsked(creds: Credentials, events: seq<JointEvent>, g: nat) returns (k: nat)
    requires JointPossible(NewJoint(creds), events) && g in JointRun(NewJoint(creds), events).client.openedAt
    ensures OpenedIn(creds, events, k, g)
    ensures var frames := HandedOn(JointRun(NewJoint(creds), events).client.wire, g);
            frames != [] && FrameOf(frames[0].text) == Some(Full(creds, LastAsked(events[..k])))
  {
    k := OpeningOf(creds, events, g);
    InitialGoesFirst(creds, events, g);
  }

  // ------------------------------------------------------------------------- replacing

  lemma {:induction false} ClientReachable(creds: Credentials, events: seq<JointEvent>)
    requires JointPossible(NewJoint(creds), events)
    ensures Reachable(JointRun(NewJoint(creds), events).client)
  {
    var s := NewJoint(creds).client;
    if events == [] {
      RunsReach(s, []);
    } else {
      var front, e := events[..|events| - 1], events[|events| - 1];
      ClientReachable(creds, front);
      JointRunKeeps(creds, front);
      StepReachable(JointRun(NewJoint(creds), front), e);
    }
  }

  lemma ReachableStep(t: State, e: Event)
    requires Reachable(t) && Enabled(t, e)
    ensures Reachable(Step(t, e))
  {
    var s, events :| Fresh(s) && Possible(s, events) && t == Run(s, events);
    assert (events + [e])[..|events|] == events;
    RunsReach(s, events + [e]);
  }

  lemma StepReachable(j: Joint, e: JointEvent)
    requires Reachable(j.client) && JointInv(j) && JointEnabled(j, e)
    ensures Reachable(JointStep(j, e).client)
  {
    match e
    case Strand(event) =>
      DressedEvent(j, event);
      ReachableStep(j.client, Dressed(j, event));
    case Posted =>
      assert j.waiting != [] by { PostedSent(j); }
      PostedFrame(j);
      ReachableStep(j.client, Send(j.outbox[0]));
    case _ =>
  }

  lemma KickedClient(j: Joint, ids: seq<string>, env: Env)
    ensures var j' := JointStep(JointStep(j, Replacing(ids)), Strand(Kick(env)));
            j' == j.(feed := FeedStep(j.feed, ChangeOffline(ids)), client := Step(j.client, Kick(env)))
  {
    StrandShape(JointStep(j, Replacing(ids)), Kick(env));
  }

  lemma {:induction false} FeedHasNoPolicy(creds: Credentials, events: seq<JointEvent>)
    requires JointPossible(NewJoint(creds), events)
    ensures !JointRun(NewJoint(creds), events).client.policy
  {
    JointRunKeeps(creds, events);
  }

  /** Replacing the set and kicking a connected feed ends its connection and wants the new set. */
  lemma {:induction false} ReplacingLeaves(creds: Credentials, events: seq<JointEvent>, ids: seq<string>, env: Env)
    requires JointPossible(NewJoint(creds), events) && JointRun(NewJoint(creds), events).client.connected
    ensures var j := JointRun(NewJoint(creds), events);
            var j' := JointStep(JointStep(j, Replacing(ids)), Strand(Kick(env)));
            && j'.feed.desired == ids && j'.outbox == j.outbox
            && !j'.client.connected && !j'.client.stopped && InBackoff(j'.client)
            && j'.client.generation > j.client.generation
  {
    var j := JointRun(NewJoint(creds), events);
    ClientReachable(creds, events);
    FeedHasNoPolicy(creds, events);
    KickLeaves(j.client, env);
    KickedClient(j, ids, env);
  }

  /** No call asks for another set. */
  predicate Unasked(events: seq<JointEvent>) {
    forall i :: 0 <= i < |events| ==> !events[i].Subscribing? && !events[i].Replacing?
  }

  lemma {:induction false} StillAsked(events: seq<JointEvent>, later: seq<JointEvent>)
    requires Unasked(later)
    ensures LastAsked(events + later) == LastAsked(events)
  {
    if later == [] {
      assert events + later == events;
    } else {
      var all, front := events + later, later[..|later| - 1];
      assert all[..|all| - 1] == events + front && all[|all| - 1] == later[|later| - 1];
      StillAsked(events, front);
    }
  }

  lemma AskedBy(before: seq<JointEvent>, ids: seq<string>, later: seq<JointEvent>, k: nat)
    requires Unasked(later) && |before| < k <= |before| + 1 + |later|
    ensures LastAsked((before + [Replacing(ids)] + later)[..k]) == ids
  {
    var head := before + [Replacing(ids)];
    assert (head + later)[..k] == head + later[..k - |head|];
    StillAsked(head, later[..k - |head|]);
    assert head[|head| - 1] == Replacing(ids);
  }

  lemma StaysOpened(j: Joint, e: JointEvent, g: nat)
    requires JointInv(j) && JointEnabled(j, e)
    requires g in j.client.openedAt || (OpensHere(j, e) && g == j.client.generation)
    ensures g in JointStep(j, e).client.openedAt
  {
    OpenedBy(j, e);
  }

  lemma {:induction false} PrefixInv(creds: Credentials, events: seq<JointEvent>, n: nat)
    requires JointPossible(NewJoint(creds), events) && n <= |events|
    ensures JointInv(JointRun(NewJoint(creds), events[..n]))
  {
    PrefixPossible(creds, events, n);
    JointRunKeeps(creds, events[..n]);
  }

  lemma PrefixStep(creds: Credentials, events: seq<JointEvent>, n: nat)
    requires 0 < n <= |events|
    ensures JointRun(NewJoint(creds), events[..n])
         == JointStep(JointRun(NewJoint(creds), events[..n - 1]), events[n - 1])
  {
    assert events[..n] == events[..n - 1] + [events[n - 1]];
    RunSnoc(NewJoint(creds), events[..n - 1], events[n - 1]);
  }

  lemma {:induction false} OpenedNext(creds: Credentials, events: seq<JointEvent>, n: nat, g: nat)
    requires JointPossible(NewJoint(creds), events) && 0 < n <= |events|
    requires g in JointRun(NewJoint(creds), events[..n - 1]).client.openedAt || OpenedIn(creds, events, n - 1, g)
    ensures g in JointRun(NewJoint(creds), events[..n]).client.openedAt
  {
    var j := JointRun(NewJoint(creds), events[..n - 1]);
    PrefixInv(creds, events, n - 1);
    assert JointEnabled(j, events[n - 1]) by { PrefixPossible(creds, events, n); }
    PrefixStep(creds, events, n);
    StaysOpened(j, events[n - 1], g);
  }

  /** Once opened, a generation stays on record. */
  lemma {:induction false} OpenedBefore(creds: Credentials, events: seq<JointEvent>, k: nat, n: nat, g: nat)
    requires JointPossible(NewJoint(creds), events) && OpenedIn(creds, events, k, g) && k < n <= |events|
    ensures g in JointRun(NewJoint(creds), events[..n]).client.openedAt
    decreases n
  {
    if k < n - 1 {
      OpenedBefore(creds, events, k, n - 1, g);
    }
    OpenedNext(creds, events, n, g);
  }

  lemma {:induction false} OpenedIsPast(creds: Credentials, events: seq<JointEvent>, g: nat)
    requires JointPossible(NewJoint(creds), events) && g in JointRun(NewJoint(creds), events).client.openedAt
    ensures g <= JointRun(NewJoint(creds), events).client.generation
  {
    JointRunKeeps(creds, events);
  }

  lemma {:induction false} PrefixPossible(creds: Credentials, events: seq<JointEvent>, n: nat)
    requires JointPossible(NewJoint(creds), events) && n <= |events|
    ensures JointPossible(NewJoint(creds), events[..n])
    ensures n > 0 ==> JointEnabled(JointRun(NewJoint(creds), events[..n - 1]), events[n - 1])
  {
    if n < |events| {
      assert events[..|events| - 1][..n] == events[..n];
      PrefixPossible(creds, events[..|events| - 1], n);
      if n > 0 { assert events[..|events| - 1][..n - 1] == events[..n - 1]; }
    } else {
      assert events[..n] == events;
    }
  }

  /**
    After replacing the set of a connected feed and kicking it, and until another
    set is asked for, every connection opened tells the server exactly that set
    first, in every run.
   */
  lemma {:induction false} ReplacedSetIsTold(creds: Credentials, before: seq<JointEvent>, ids: seq<string>, env: Env,
                          later: seq<JointEvent>, g: nat)
    requires var events := before + [Replacing(ids)] + ([Strand(Kick(env))] + later);
             && JointPossible(NewJoint(creds), events) && Unasked(later)
             && g in JointRun(NewJoint(creds), events).client.openedAt
    requires g > JointRun(NewJoint(creds), before).client.generation
    ensures var events := before + [Replacing(ids)] + ([Strand(Kick(env))] + later);
            var frames := HandedOn(JointRun(NewJoint(creds), events).client.wire, g);
            frames != [] && FrameOf(frames[0].text) == Some(Full(creds, ids))
  {
    var rest := [Strand(Kick(env))] + later;
    var events := before + [Replacing(ids)] + rest;
    var k := OpeningTellsLastAsked(creds, events, g);
    assert events[..|before|] == before;
    if k < |before| {
      OpenedBefore(creds, events, k, |before|, g);
      PrefixPossible(creds, events, |before|);
      OpenedIsPast(creds, before, g);
    }
    assert events[|before|] == Replacing(ids);
    AskedBy(before, ids, rest, k);
  }
}
