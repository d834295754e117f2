/** What the websocket client promises over every run, however stale its completions. */
module WsLaws {

  import opened Results
  import opened WriteQueue
  import opened WsModel
  import opened WsInvariant

  /**
    A connection-scoped frame is only ever handed to the socket of the
    generation it was queued for, and while connected every scoped frame in the
    queue carries the current generation.
   */
  lemma {:induction false} ScopedFramesStayHome(s: State, events: seq<Event>)
    requires Fresh(s) && Possible(s, events)
    ensures var t := Run(s, events);
            && (forall h :: h in t.wire ==> h.socket == Some(h.generation))
            && (forall h :: h in t.wire && h.entry.scoped ==> h.entry.generation == h.generation)
            && (t.connected ==> ScopedTo(t.queue.entries, t.generation))
  {
    RunKeeps(s, events);
    var t := Run(s, events);
    forall h | h in t.wire
      ensures Sound(h)
    {
      var i :| 0 <= i < |t.wire| && t.wire[i] == h;
    }
  }

  /**
    Completed retained messages followed by the queued ones are the accepted
    ones, in order; only a stop drops any. No frame is started twice on one
    connection, and the queue never exceeds its bounds.
   */
  lemma {:induction false} RetainedInOrder(s: State, events: seq<Event>)
    requires Fresh(s) && Possible(s, events)
    ensures var t := Run(s, events);
            && (!t.stopped ==> t.accepted == t.completed + Retained(t.queue.entries))
            && t.accepted == t.completed + t.dropped + Retained(t.queue.entries)
            && OncePerGeneration(t.wire)
            && Valid(t.queue)
  {
    RunKeeps(s, events);
    var t := Run(s, events);
    if !t.stopped {
      assert t.completed + [] == t.completed;
    }
  }

  /** The number of writes outstanding for the current generation is never two. */
  ghost predicate OneWrite(s: State, id: nat) {
    && s.pending[Write(s.generation, id)] == 1
    && forall id' :: id' != id ==> Write(s.generation, id') !in s.pending
  }

  /**
    `writing` holds exactly when one write of the current generation is
    outstanding; then the client is connected, the written frame is in the queue
    once, and completing it removes exactly that frame, whatever was pushed
    ahead of it meanwhile.
   */
  lemma {:induction false} WritingMeansOneWrite(s: State, events: seq<Event>)
    requires Fresh(s) && Possible(s, events)
    ensures var t := Run(s, events);
            && (t.writing <==> exists id :: Write(t.generation, id) in t.pending)
            && (t.writing ==> t.connected)
            && (forall id :: Write(t.generation, id) in t.pending ==>
                  OneWrite(t, id) && CompletionIsExact(t.queue.entries, id))
  {
    RunKeeps(s, events);
    var t := Run(s, events);
    if t.writing {
      var k: nat :| InFlight(t, k);
      assert Write(t.generation, t.queue.entries[k].id) in t.pending;
      RemoveAhead(t.queue.entries, k);
      assert CompletionIsExact(t.queue.entries, t.queue.entries[k].id);
    }
  }

  ghost predicate CompletionIsExact(entries: seq<Entry>, id: nat) {
    exists k :: && 0 <= k < |entries| && entries[k].id == id
                && (forall j :: 0 <= j < |entries| && j != k ==> entries[j].id != id)
                && Without(entries, id) == entries[..k] + entries[k + 1..]
  }

  ghost predicate InSession(s: State) {
    s.connected && Reads(s) == 1 && Steps(s) == 0 && Armed(s) == 0
  }

  ghost predicate InHandshake(s: State) {
    !s.connected && Reads(s) == 0 && Steps(s) == 1 && Armed(s) == 0
  }

  ghost predicate InBackoff(s: State) {
    !s.connected && Reads(s) == 0 && Steps(s) == 0 && Armed(s) == 1
  }

  /**
    A client started and not stopped is always in exactly one of three states:
    connected with one read outstanding, connecting with one step outstanding, or
    waiting with one armed timer. While connected it writes whenever it can.
   */
  lemma {:induction false} NeverStranded(s: State, events: seq<Event>)
    requires Fresh(s) && Possible(s, events) && Run(s, events).started && !Run(s, events).stopped
    ensures var t := Run(s, events);
            && (InSession(t) || InHandshake(t) || InBackoff(t))
            && (t.reconnectScheduled <==> InBackoff(t))
            && (t.connected ==> (t.writing <==> t.queue.entries != []))
  {
    RunKeeps(s, events);
  }

  // ------------------------------------------------------------------ stopping

  /** What can still change after a stop: operations drain and the queue refills, nothing else. */
  ghost predicate Retired(s: State, s': State) {
    && s'.stopped && !s'.connected && !s'.writing && !s'.reconnectScheduled
    && s'.wire == s.wire && s'.schedules == s.schedules && s'.completed == s.completed
    && s'.openedAt == s.openedAt && s'.ws == None
    && s'.pending <= s.pending
  }

  lemma NothingArmed(p: multiset<Op>)
    requires p[ReconnectWait(false)] == 0
    ensures CancelWaits(p) == p
  {
  }

  lemma RefillRetires(s: State, queue: Queue, accepted: seq<Entry>)
    requires Live(s, 1) && s.stopped
    ensures Retired(s, Flush(s.(queue := queue, accepted := accepted)))
  {
  }

  lemma StopRetires(s: State)
    requires Live(s, 1) && s.stopped
    ensures Retired(s, StopClient(s))
  {
    NothingArmed(s.pending);
  }

  lemma StoppedActions(s: State, e: Event)
    requires Live(s, 1) && s.stopped && !e.Done?
    ensures Retired(s, Step(s, e))
  {
    match e
    case Start(env) => assert Step(s, e) == s.(started := true);
    case Stop => StopRetires(s);
    case Kick(env) => assert Step(s, e) == s;
    case Send(text) => RefillRetires(s, Accept(s, text).queue, Accept(s, text).accepted);
    case SendFirst(text) => RefillRetires(s, PushFrame(s, text, true).queue, s.accepted);
  }

  /** No operation of a stopped client is of its current generation. */
  lemma StoppedOps(s: State, op: Op)
    requires Inv(s, 1, true) && s.stopped && op in s.pending
    ensures match op
            case Connecting(_, g) => g != s.generation
            case Read(g) => g != s.generation
            case Write(g, _) => g != s.generation
            case _ => true
  {
    if op.Connecting? {
      match op.stage
      case Resolve =>
      case TcpConnect =>
      case TlsHandshake =>
      case WsHandshake =>
    }
  }

  lemma StoppedCompletion(s: State, op: Op, ok: bool, actions: seq<Action>, env: Env)
    requires Inv(s, 1, true) && s.stopped && op in s.pending
    ensures Handle(Taken(s, op), op, ok, actions, env) == Taken(s, op)
  {
    StoppedOps(s, op);
  }

  lemma StoppedStep(s: State, e: Event)
    requires Inv(s, 1, true) && s.stopped && Enabled(s, e)
    ensures Retired(s, Step(s, e))
  {
    if e.Done? {
      StoppedCompletion(s, e.op, e.ok, e.actions, e.env);
    } else {
      StoppedActions(s, e);
    }
  }

  lemma RetiredTransitive(a: State, b: State, c: State)
    requires Retired(a, b) && Retired(b, c)
    ensures Retired(a, c)
  {
  }

  lemma SplitLast(events: seq<Event>, later: seq<Event>)
    requires later != []
    ensures var all := events + later;
            all[..|all| - 1] == events + later[..|later| - 1] && all[|all| - 1] == later[|later| - 1]
  {
  }

  lemma LastStep(s: State, events: seq<Event>, later: seq<Event>)
    requires later != [] && Possible(s, events + later)
    ensures var t := events + later[..|later| - 1];
            && Possible(s, t) && Enabled(Run(s, t), later[|later| - 1])
            && Run(s, events + later) == Step(Run(s, t), later[|later| - 1])
  {
    SplitLast(events, later);
  }

  /**
    Once stopped, whatever completions, calls and callbacks still arrive, the
    client never connects, writes, completes or schedules again.
   */
  lemma {:induction false} StoppedForGood(s: State, events: seq<Event>, later: seq<Event>)
    requires Fresh(s) && Possible(s, events) && Possible(s, events + later) && Run(s, events).stopped
    ensures Retired(Run(s, events), Run(s, events + later))
  {
    if later == [] {
      assert events + later == events;
      RunKeeps(s, events);
    } else {
      var front := later[..|later| - 1];
      LastStep(s, events, later);
      StoppedForGood(s, events, front);
      RunKeeps(s, events + front);
      StoppedStep(Run(s, events + front), later[|later| - 1]);
      RetiredTransitive(Run(s, events), Run(s, events + front), Run(s, events + later));
    }
  }

  // ------------------------------------------------------------------- backoff

  function Pow2(k: nat): nat {
    if k == 0 then 1 else 2 * Pow2(k - 1)
  }

  lemma {:induction false} BackoffClosed(k: nat)
    ensures BackoffBase(k) == Min(500 * Pow2(k), 30000)
  {
    if k > 0 { BackoffClosed(k - 1); }
  }
}
