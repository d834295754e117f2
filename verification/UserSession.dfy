/**
  The user feed on top of its websocket client, as one machine (pm/user_ws.cpp).
  A change of the subscription computes its operations at once and posts their
  sends; the strand runs them later, in order. The opening callback records the
  desired set as active and queues the full subscription first.
 */
module UserSession {

  import opened Results
  import opened WriteQueue
  import opened WsModel
  import opened WsInvariant
  import opened WsResume
  import opened WsSession
  import opened UserFeed
  import opened UserFrames

  datatype Joint = Joint(
    creds: Credentials,
    client: State,
    feed: Feed,
    // the texts whose sends were posted to the strand and have not run yet
    outbox: seq<string>,
    // history: the operations behind the posted texts, those whose texts the queue took, whether
    // it refused any, and the set each connection was opened with
    waiting: seq<Operation>,
    taken: seq<Operation>,
    refused: bool,
    initials: map<nat, seq<string>>)

  datatype JointEvent =
    // `online` is what the caller saw of the connection flag, possibly out of date
    | Subscribing(ids: seq<string>, online: bool)
    | Replacing(ids: seq<string>)
    | Posted
    | Strand(event: Event)

  function NewJoint(creds: Credentials): Joint {
    Joint(creds, Initial(Empty(1024, 16), true, PING, false), FeedRun([]), [], [], [], false, map[])
  }

  /** The wrapper's opening callback queues the full subscription before the application's own one runs. */
  function Dressed(j: Joint, e: Event): Event {
    if Opens(j.client, e) then e.(actions := [Prioritize(Text(Full(j.creds, j.feed.desired)))] + e.actions) else e
  }

  /** The texts of operations, in order. */
  function Texts(ops: seq<Operation>): (texts: seq<string>)
    ensures |texts| == |ops|
  {
    if ops == [] then [] else Texts(ops[..|ops| - 1]) + [Text(Dynamic(ops[|ops| - 1]))]
  }

  function OnSubscribe(j: Joint, ids: seq<string>, online: bool): Joint {
    if online then
      var ops := DeltaOps(ids, j.feed.active);
      j.(feed := FeedStep(j.feed, Change(ids)), outbox := j.outbox + Texts(ops), waiting := j.waiting + ops)
    else j.(feed := FeedStep(j.feed, ChangeOffline(ids)))
  }

  /** The oldest posted send has run. */
  function Shifted(j: Joint): Joint
    requires j.outbox != [] && j.waiting != []
  {
    j.(client := Step(j.client, Send(j.outbox[0])), outbox := j.outbox[1..], waiting := j.waiting[1..])
  }

  /** The queue takes its text or refuses it. */
  function OnPosted(j: Joint): Joint
    requires j.outbox != [] && j.waiting != []
  {
    if AddRetained(j.client.queue, j.outbox[0]).1 then Shifted(j).(taken := j.taken + [j.waiting[0]])
    else Shifted(j).(refused := true)
  }

  function OnStrand(j: Joint, e: Event): Joint {
    var client := Step(j.client, Dressed(j, e));
    if Opens(j.client, e) then
      j.(client := client,
         feed := FeedStep(j.feed, Opening),
         initials := j.initials[j.client.generation := j.feed.desired])
    else j.(client := client)
  }

  function JointStep(j: Joint, e: JointEvent): Joint {
    match e
    case Subscribing(ids, online) => OnSubscribe(j, ids, online)
    case Replacing(ids) => j.(feed := FeedStep(j.feed, ChangeOffline(ids)))
    case Posted => if j.outbox == [] || j.waiting == [] then j else OnPosted(j)
    case Strand(event) => OnStrand(j, event)
  }

  /** The wrapper hands out neither sends nor priority frames: its callbacks can only kick and stop. */
  ghost predicate JointEnabled(j: Joint, e: JointEvent) {
    match e
    case Posted => j.outbox != []
    case Strand(event) =>
      Enabled(j.client, event) && !event.Send? && !event.SendFirst? && (event.Done? ==> Plain(event.actions))
    case _ => true
  }

  function JointRun(j: Joint, events: seq<JointEvent>): Joint {
    if events == [] then j else JointStep(JointRun(j, events[..|events| - 1]), events[|events| - 1])
  }

  ghost predicate JointPossible(j: Joint, events: seq<JointEvent>) {
    events == [] ||
    (JointPossible(j, events[..|events| - 1])
     && JointEnabled(JointRun(j, events[..|events| - 1]), events[|events| - 1]))
  }

  lemma {:induction false} RunSnoc(j: Joint, events: seq<JointEvent>, e: JointEvent)
    ensures JointRun(j, events + [e]) == JointStep(JointRun(j, events), e)
  {
    assert (events + [e])[..|events|] == events;
  }

  lemma {:induction false} PossibleSnoc(j: Joint, events: seq<JointEvent>, e: JointEvent)
    ensures JointPossible(j, events + [e]) <==> JointPossible(j, events) && JointEnabled(JointRun(j, events), e)
  {
    assert (events + [e])[..|events|] == events;
  }

  /** The state after a possible run of a new feed. */
  ghost predicate Reached(creds: Credentials, run: seq<JointEvent>, j: Joint) {
    JointPossible(NewJoint(creds), run) && j == JointRun(NewJoint(creds), run)
  }

  lemma ReachedStep(creds: Credentials, run: seq<JointEvent>, j: Joint, e: JointEvent)
    requires Reached(creds, run, j) && JointEnabled(j, e)
    ensures Reached(creds, run + [e], JointStep(j, e))
  {
    RunSnoc(NewJoint(creds), run, e);
    PossibleSnoc(NewJoint(creds), run, e);
  }

  // ------------------------------------------------------------- the invariant

  function FirstTexts(creds: Credentials, initials: map<nat, seq<string>>): map<nat, string> {
    map g | g in initials :: Text(Full(creds, initials[g]))
  }

  /** Message i is text i after the first k. */
  ghost predicate Spells(messages: seq<Entry>, texts: seq<string>, k: nat) {
    k + |messages| <= |texts| && forall i :: 0 <= i < |messages| ==> messages[i].text == texts[k + i]
  }

  /** The accepted messages are the operations taken, and the posted texts those waiting. */
  ghost predicate Ledger(accepted: seq<Entry>, taken: seq<Operation>, outbox: seq<string>, waiting: seq<Operation>,
                         ops: seq<Operation>, refused: bool)
  {
    && |accepted| == |taken| && Spells(accepted, Texts(taken), 0)
    && outbox == Texts(waiting)
    && |taken| + |waiting| <= |ops|
    && (!refused ==> taken + waiting == ops)
  }

  ghost predicate Sent(j: Joint) {
    Ledger(j.client.accepted, j.taken, j.outbox, j.waiting, j.feed.ops, j.refused)
  }

  /** The feed's last opening is the client's. */
  ghost predicate Coupled(j: Joint) {
    var c := j.client;
    c.connected ==>
      && c.generation in c.openedAt && c.generation in j.initials
      && j.initials[c.generation] == j.feed.openedWith
      && c.openedAt[c.generation] <= j.feed.sentAtOpening
  }

  ghost predicate Client(j: Joint) {
    && Inv(j.client, 1, true) && Resume(j.client) && j.client.keepaliveText == PING && !j.client.policy
    && Fronted(j.client, FirstTexts(j.creds, j.initials))
  }

  ghost predicate JointInv(j: Joint) {
    Client(j) && Sent(j) && Coupled(j) && SinceOpening(j.feed)
  }

  lemma NewJointInv(creds: Credentials)
    ensures JointInv(NewJoint(creds))
  {
    FreshInv(NewJoint(creds).client);
    FeedKeeps([]);
  }

  // ------------------------------------------------------------------ each step

  lemma {:induction false} TextsConcat(a: seq<Operation>, b: seq<Operation>)
    ensures Texts(a + b) == Texts(a) + Texts(b)
  {
    if b == [] {
      assert a + b == a;
    } else {
      assert (a + b)[..|a + b| - 1] == a + b[..|b| - 1];
      TextsConcat(a, b[..|b| - 1]);
    }
  }

  lemma {:induction false} TextAt(ops: seq<Operation>, i: nat)
    requires i < |ops|
    ensures Texts(ops)[i] == Text(Dynamic(ops[i]))
  {
    if i < |ops| - 1 {
      TextAt(ops[..|ops| - 1], i);
    }
  }

  lemma {:induction false} TextsSuffix(ops: seq<Operation>, k: nat)
    requires k <= |ops|
    ensures Texts(ops[k..]) == Texts(ops)[k..]
  {
    TextsConcat(ops[..k], ops[k..]);
    assert ops == ops[..k] + ops[k..];
  }

  lemma AppendBoth(a: seq<Operation>, b: seq<Operation>, c: seq<Operation>)
    ensures a + (b + c) == (a + b) + c
  {
  }

  lemma MoveOne(a: seq<Operation>, b: seq<Operation>)
    requires b != []
    ensures (a + [b[0]]) + b[1..] == a + b
  {
  }

  lemma {:induction false} LedgerGrows(accepted: seq<Entry>, taken: seq<Operation>, outbox: seq<string>,
                                       waiting: seq<Operation>, ops: seq<Operation>, refused: bool,
                                       more: seq<Operation>)
    requires Ledger(accepted, taken, outbox, waiting, ops, refused)
    ensures Ledger(accepted, taken, outbox + Texts(more), waiting + more, ops + more, refused)
  {
    TextsConcat(waiting, more);
    AppendBoth(taken, waiting, more);
  }

  lemma SubscribeSent(j: Joint, ids: seq<string>)
    requires Sent(j)
    ensures Sent(OnSubscribe(j, ids, true))
  {
    LedgerGrows(j.client.accepted, j.taken, j.outbox, j.waiting, j.feed.ops, j.refused, DeltaOps(ids, j.feed.active));
  }

  lemma SubscribeKeeps(j: Joint, ids: seq<string>, online: bool)
    requires JointInv(j)
    ensures JointInv(OnSubscribe(j, ids, online))
  {
    if online {
      SubscribeSent(j, ids);
      FeedStepKeeps(j.feed, Change(ids));
    } else {
      FeedStepKeeps(j.feed, ChangeOffline(ids));
    }
  }

  lemma {:induction false} SpellsGrows(messages: seq<Entry>, m: Entry, ops: seq<Operation>, op: Operation)
    requires |messages| == |ops| && Spells(messages, Texts(ops), 0) && m.text == Text(Dynamic(op))
    ensures Spells(messages + [m], Texts(ops + [op]), 0)
  {
    assert (ops + [op])[..|ops|] == ops;
  }

  /** The oldest posted text is that of the oldest waiting operation. */
  lemma {:induction false} OldestPosted(waiting: seq<Operation>)
    requires waiting != []
    ensures Texts(waiting)[0] == Text(Dynamic(waiting[0])) && Texts(waiting)[1..] == Texts(waiting[1..])
  {
    TextAt(waiting, 0);
    TextsSuffix(waiting, 1);
  }

  lemma LedgerTakes(accepted: seq<Entry>, taken: seq<Operation>, outbox: seq<string>, waiting: seq<Operation>,
                    ops: seq<Operation>, refused: bool, m: Entry)
    requires Ledger(accepted, taken, outbox, waiting, ops, refused) && outbox != [] && m.text == outbox[0]
    ensures waiting != []
    ensures Ledger(accepted + [m], taken + [waiting[0]], outbox[1..], waiting[1..], ops, refused)
  {
    OldestPosted(waiting);
    SpellsGrows(accepted, m, taken, waiting[0]);
    MoveOne(taken, waiting);
  }

  lemma LedgerRefuses(accepted: seq<Entry>, taken: seq<Operation>, outbox: seq<string>, waiting: seq<Operation>,
                      ops: seq<Operation>, refused: bool)
    requires Ledger(accepted, taken, outbox, waiting, ops, refused) && outbox != []
    ensures waiting != [] && Ledger(accepted, taken, outbox[1..], waiting[1..], ops, true)
  {
    OldestPosted(waiting);
  }

  lemma PostedSent(j: Joint)
    requires Sent(j) && j.outbox != []
    ensures j.waiting != [] && Sent(OnPosted(j))
  {
    var text := j.outbox[0];
    SendRecords(j.client, text);
    if AddRetained(j.client.queue, text).1 {
      LedgerTakes(j.client.accepted, j.taken, j.outbox, j.waiting, j.feed.ops, j.refused,
                  Message(j.client.queue, text));
    } else {
      LedgerRefuses(j.client.accepted, j.taken, j.outbox, j.waiting, j.feed.ops, j.refused);
      assert j.client.accepted + [] == j.client.accepted;
    }
  }

  lemma ClientSteps(c: State, e: Event, firsts: map<nat, string>)
    requires Inv(c, 1, true) && Resume(c) && Fronted(c, firsts) && Enabled(c, e) && Disciplined(c, e)
    ensures Inv(Step(c, e), 1, true) && Resume(Step(c, e)) && Fronted(Step(c, e), FirstsAfter(c, e, firsts))
  {
    StepKeeps(c, e);
    StepResumes(c, e);
    StepFronted(c, e, firsts);
  }

  /** Running a posted send touches the client and the ledger only. */
  lemma PostedFrame(j: Joint)
    requires j.outbox != [] && j.waiting != []
    ensures var j' := OnPosted(j);
            && j'.client == SendRetained(j.client, j.outbox[0]) && j'.outbox == j.outbox[1..] && j'.feed == j.feed
            && j'.refused == (j.refused || !AddRetained(j.client.queue, j.outbox[0]).1)
  {
    assert Shifted(j).client == SendRetained(j.client, j.outbox[0]);
  }

  lemma PostedKeeps(j: Joint)
    requires JointInv(j) && j.outbox != []
    ensures j.waiting != [] && JointInv(OnPosted(j))
  {
    PostedSent(j);
    ClientSteps(j.client, Send(j.outbox[0]), FirstTexts(j.creds, j.initials));
    SendRecords(j.client, j.outbox[0]);
  }

  lemma DressedEvent(j: Joint, e: Event)
    requires JointEnabled(j, Strand(e))
    ensures Enabled(j.client, Dressed(j, e)) && Disciplined(j.client, Dressed(j, e))
    ensures Opens(j.client, Dressed(j, e)) == Opens(j.client, e)
    ensures Opens(j.client, e) ==> Dressed(j, e).actions[0].text == Text(Full(j.creds, j.feed.desired))
    ensures !Opens(j.client, e) ==> Dressed(j, e) == e
  {
    if Opens(j.client, e) {
      assert Dressed(j, e).actions[1..] == e.actions;
    }
  }

  /** Other events of the strand move the client alone. */
  lemma StrandShape(j: Joint, e: Event)
    requires !Opens(j.client, e)
    ensures OnStrand(j, e) == j.(client := Step(j.client, e))
  {
    assert Dressed(j, e) == e;
  }

  /** On an opening the client sees the full subscription queued before the application's actions. */
  lemma OpeningShape(j: Joint, actions: seq<Action>, env: Env)
    ensures var op := Connecting(WsHandshake, j.client.generation);
            var first := Prioritize(Text(Full(j.creds, j.feed.desired)));
            OnStrand(j, Done(op, true, actions, env))
            == j.(client := Step(j.client, Done(op, true, [first] + actions, env)),
                  feed := FeedStep(j.feed, Opening),
                  initials := j.initials[j.client.generation := j.feed.desired])
  {
  }

  lemma FirstTextsGrow(creds: Credentials, initials: map<nat, seq<string>>, g: nat, ids: seq<string>)
    ensures FirstTexts(creds, initials[g := ids]) == FirstTexts(creds, initials)[g := Text(Full(creds, ids))]
  {
  }

  lemma OpeningClient(j: Joint, e: Event)
    requires Client(j) && JointEnabled(j, Strand(e)) && Opens(j.client, e)
    ensures Client(OnStrand(j, e)) && Quiet(Opened(j.client, j.client.generation), OnStrand(j, e).client)
  {
    var e', c := Dressed(j, e), j.client;
    DressedEvent(j, e);
    ClientSteps(c, e', FirstTexts(j.creds, j.initials));
    FirstTextsGrow(j.creds, j.initials, c.generation, j.feed.desired);
    OpeningRecords(c, e');
  }

  /** At most the accepted messages were completed, so at most the operations sent. */
  lemma OpeningRest(j: Joint, j': Joint)
    requires Sent(j) && Conserved(j.client) && Quiet(Opened(j.client, j.client.generation), j'.client)
    requires j' == j.(client := j'.client, feed := FeedStep(j.feed, Opening),
                      initials := j.initials[j.client.generation := j.feed.desired])
    ensures Sent(j') && Coupled(j')
  {
  }

  lemma OpeningKeeps(j: Joint, e: Event)
    requires JointInv(j) && JointEnabled(j, Strand(e)) && Opens(j.client, e)
    ensures JointInv(OnStrand(j, e))
  {
    OpeningClient(j, e);
    OpeningRest(j, OnStrand(j, e));
    FeedStepKeeps(j.feed, Opening);
  }

  lemma OtherKeeps(j: Joint, e: Event)
    requires JointInv(j) && JointEnabled(j, Strand(e)) && !Opens(j.client, e)
    ensures JointInv(OnStrand(j, e))
  {
    DressedEvent(j, e);
    ClientSteps(j.client, e, FirstTexts(j.creds, j.initials));
    StepQuiet(j.client, e);
  }

  lemma JointStepKeeps(j: Joint, e: JointEvent)
    requires JointInv(j) && JointEnabled(j, e)
    ensures JointInv(JointStep(j, e))
  {
    match e
    case Subscribing(ids, online) => SubscribeKeeps(j, ids, online);
    case Replacing(ids) => FeedStepKeeps(j.feed, ChangeOffline(ids));
    case Posted => PostedKeeps(j);
    case Strand(event) =>
      if Opens(j.client, event) {
        OpeningKeeps(j, event);
      } else {
        OtherKeeps(j, event);
      }
  }

  lemma {:induction false} JointRunKeeps(creds: Credentials, events: seq<JointEvent>)
    requires JointPossible(NewJoint(creds), events)
    ensures JointInv(JointRun(NewJoint(creds), events)) && JointRun(NewJoint(creds), events).creds == creds
  {
    if events == [] {
      NewJointInv(creds);
    } else {
      var front, e := events[..|events| - 1], events[|events| - 1];
      assert JointEnabled(JointRun(NewJoint(creds), front), e);
      JointRunKeeps(creds, front);
      JointStepKeeps(JointRun(NewJoint(creds), front), e);
    }
  }

  // ---------------------------------------------------------------- every run

  /** In every reached state a posted text has its operation. */
  lemma PostedStep(creds: Credentials, run: seq<JointEvent>, j: Joint)
    requires Reached(creds, run, j) && j.outbox != []
    ensures var j' := JointStep(j, Posted);
            && j'.client == Step(j.client, Send(j.outbox[0])) && j'.outbox == j.outbox[1..]
            && j'.feed == j.feed && j'.creds == j.creds
  {
    assert j.waiting != [] by { JointRunKeeps(creds, run); }
    PostedFrame(j);
  }

  /**
    In every run, the first frame handed to a connection is the authenticated
    subscription to the set desired when it opened, ahead of every retained
    operation, and it is never refused. The only other scoped frames are keepalives.
   */
  lemma {:induction false} InitialGoesFirst(creds: Credentials, events: seq<JointEvent>, g: nat)
    requires JointPossible(NewJoint(creds), events) && g in JointRun(NewJoint(creds), events).client.openedAt
    ensures var j := JointRun(NewJoint(creds), events);
            var frames := HandedOn(j.client.wire, g);
            && g in j.initials && frames != []
            && frames[0].scoped && FrameOf(frames[0].text) == Some(Full(creds, j.initials[g]))
            && forall i :: 1 <= i < |frames| && frames[i].scoped ==> frames[i].text == PING
  {
    JointRunKeeps(creds, events);
    ReadInvertsText(Full(creds, JointRun(NewJoint(creds), events).initials[g]));
  }

  /** The retained frames handed to a connection are its messages. */
  lemma {:induction false} CarriedIsRetained(wire: seq<Handoff>, g: nat)
    ensures Carried(wire, g) == Retained(HandedOn(wire, g))
  {
    if wire != [] {
      var front, h := wire[..|wire| - 1], wire[|wire| - 1];
      CarriedIsRetained(front, g);
      if h.generation == g {
        RetainedSnoc(HandedOn(front, g), h.entry);
      } else {
        assert HandedOn(front, g) + [] == HandedOn(front, g);
        assert Carried(front, g) + [] == Carried(front, g);
      }
    }
  }

  lemma SegmentSpells(accepted: seq<Entry>, texts: seq<string>, k: nat, c: seq<Entry>)
    requires Spells(accepted, texts, 0) && Segment(accepted, k, c)
    ensures Spells(c, texts, k)
  {
    forall i | 0 <= i < |c|
      ensures c[i].text == texts[k + i]
    {
      assert c[i] == accepted[k + i] && accepted[k + i].text == texts[0 + (k + i)];
    }
  }

  lemma {:induction false} HandedSpells(j: Joint, g: nat)
    requires Segments(j.client) && Sent(j) && g in j.client.openedAt
    ensures Spells(Retained(HandedOn(j.client.wire, g)), Texts(j.taken), j.client.openedAt[g])
  {
    var c := j.client;
    assert Segment(c.accepted, c.openedAt[g], Carried(c.wire, g));
    SegmentSpells(c.accepted, Texts(j.taken), c.openedAt[g], Carried(c.wire, g));
    CarriedIsRetained(c.wire, g);
  }

  lemma {:induction false} TextReads(text: string, ops: seq<Operation>, i: nat)
    requires i < |ops| && text == Texts(ops)[i]
    ensures FrameOf(text) == Some(Dynamic(ops[i]))
  {
    TextAt(ops, i);
    ReadInvertsText(Dynamic(ops[i]));
  }

  /** Message i reads as operation i after the first k. */
  ghost predicate ReadAs(messages: seq<Entry>, ops: seq<Operation>, k: nat) {
    && k + |messages| <= |ops|
    && forall i :: 0 <= i < |messages| ==> FrameOf(messages[i].text) == Some(Dynamic(ops[k + i]))
  }

  lemma {:induction false} SpellsReads(messages: seq<Entry>, ops: seq<Operation>, k: nat)
    requires Spells(messages, Texts(ops), k)
    ensures ReadAs(messages, ops, k)
  {
    forall i | 0 <= i < |messages|
      ensures FrameOf(messages[i].text) == Some(Dynamic(ops[k + i]))
    {
      TextReads(messages[i].text, ops, k + i);
    }
  }

  lemma {:induction false} HandedReads(j: Joint, g: nat)
    requires Client(j) && Sent(j) && g in j.client.openedAt
    ensures ReadAs(Retained(HandedOn(j.client.wire, g)), j.taken, j.client.openedAt[g])
  {
    HandedSpells(j, g);
    SpellsReads(Retained(HandedOn(j.client.wire, g)), j.taken, j.client.openedAt[g]);
  }

  /**
    In every run, what each connection is given of retained messages reads as a
    contiguous run of the operations the queue took, from the first one whose
    message was not completed when it opened. Without a refusal these are the
    operations themselves.
   */
  lemma {:induction false} OperationsInOrder(creds: Credentials, events: seq<JointEvent>, g: nat)
    requires JointPossible(NewJoint(creds), events)
    requires g in JointRun(NewJoint(creds), events).client.openedAt
    ensures var j := JointRun(NewJoint(creds), events);
            && ReadAs(Retained(HandedOn(j.client.wire, g)), j.taken, j.client.openedAt[g])
            && (!j.refused ==> j.taken <= j.feed.ops)
  {
    JointRunKeeps(creds, events);
    HandedReads(JointRun(NewJoint(creds), events), g);
  }

  // ----------------------------------------------------------------- the server

  /** What the server makes of one text. */
  function Receive(subscribed: set<string>, text: string): set<string> {
    match FrameOf(text)
    case None => subscribed
    case Some(Full(_, ids)) => Members(ids)
    case Some(Dynamic(op)) => Serve(subscribed, op)
  }

  function ReceiveAll(frames: seq<Entry>): set<string> {
    if frames == [] then {} else Receive(ReceiveAll(frames[..|frames| - 1]), frames[|frames| - 1].text)
  }

  lemma ReceiveOperation(subscribed: set<string>, op: Operation)
    ensures Receive(subscribed, Text(Dynamic(op))) == Serve(subscribed, op)
  {
    ReadInvertsText(Dynamic(op));
  }

  lemma ReceiveFirst(e: Entry, creds: Credentials, ids: seq<string>)
    requires e.text == Text(Full(creds, ids))
    ensures ReceiveAll([e]) == Members(ids)
  {
    ReadInvertsText(Full(creds, ids));
    assert [e][..0] == [];
  }

  lemma LedFront(frames: seq<Entry>, first: string)
    requires Led(frames, first, PING) && |frames| > 1
    ensures Led(frames[..|frames| - 1], first, PING)
  {
  }

  /** A connection led by a full subscription serves that set and then the operations. */
  lemma {:induction false} ServedSet(frames: seq<Entry>, creds: Credentials, ids: seq<string>, ops: seq<Operation>)
    requires Led(frames, Text(Full(creds, ids)), PING)
    requires |Retained(frames)| == |ops| && Spells(Retained(frames), Texts(ops), 0)
    ensures ReceiveAll(frames) == ServeAll(Members(ids), ops)
  {
    var front, last := frames[..|frames| - 1], frames[|frames| - 1];
    if |frames| == 1 {
      assert frames == [last];
      RetainedOne(last);
      ReceiveFirst(last, creds, ids);
    } else {
      LedFront(frames, Text(Full(creds, ids)));
      if last.scoped {
        assert Retained(frames) == Retained(front);
        PingIsNoFrame();
        ServedSet(front, creds, ids, ops);
      } else {
        assert Retained(frames) == Retained(front) + [last];
        LastOperation(Retained(front), last, ops);
        ServedSet(front, creds, ids, ops[..|ops| - 1]);
        ReceiveOperation(ReceiveAll(front), ops[|ops| - 1]);
      }
    }
  }

  lemma {:induction false} LastOperation(messages: seq<Entry>, last: Entry, ops: seq<Operation>)
    requires |messages| + 1 == |ops| && Spells(messages + [last], Texts(ops), 0)
    ensures Spells(messages, Texts(ops[..|ops| - 1]), 0) && last.text == Text(Dynamic(ops[|ops| - 1]))
  {
    var texts := Texts(ops);
    assert last == (messages + [last])[|messages|];
    forall i | 0 <= i < |messages|
      ensures messages[i].text == Texts(ops[..|ops| - 1])[i]
    {
      assert (messages + [last])[i] == messages[i];
    }
  }

  /** Nothing is on its way: connected, nothing queued, nothing posted. */
  ghost predicate Settled(j: Joint) {
    j.client.connected && j.client.queue.entries == [] && j.outbox == []
  }

  /** What the server serves on the current connection, reading the texts it was handed. */
  function Served(j: Joint): set<string> {
    ReceiveAll(HandedOn(j.client.wire, j.client.generation))
  }

  /** How many messages had been completed when the current connection opened. */
  function ResumedAt(j: Joint): nat {
    if j.client.generation in j.client.openedAt then j.client.openedAt[j.client.generation] else 0
  }

  lemma {:induction false} SpellsSuffix(messages: seq<Entry>, ops: seq<Operation>, k: nat)
    requires Spells(messages, Texts(ops), k) && k + |messages| == |ops|
    ensures Spells(messages, Texts(ops[k..]), 0)
  {
    TextsSuffix(ops, k);
  }

  /** A settled connection was handed every message from where it resumed. */
  lemma SettledHanded(j: Joint)
    requires Client(j) && Coupled(j) && Settled(j)
    ensures j.client.generation in j.client.openedAt
    ensures ResumedAt(j) + |Retained(HandedOn(j.client.wire, j.client.generation))| == |j.client.accepted|
  {
    SessionRun(j.client, j.client.generation);
    CarriedIsRetained(j.client.wire, j.client.generation);
  }

  lemma NothingWaits(j: Joint)
    requires Sent(j) && j.outbox == []
    ensures !j.refused ==> j.taken == j.feed.ops
  {
    assert j.waiting == [];
    assert j.taken + [] == j.taken;
  }

  lemma SettledServes(j: Joint)
    requires JointInv(j) && Settled(j)
    ensures ResumedAt(j) <= |j.taken| && ResumedAt(j) <= j.feed.sentAtOpening <= |j.feed.ops|
    ensures Served(j) == ServeAll(Members(j.feed.openedWith), j.taken[ResumedAt(j)..])
    ensures !j.refused ==> j.taken == j.feed.ops
  {
    var frames := HandedOn(j.client.wire, j.client.generation);
    SettledHanded(j);
    HandedSpells(j, j.client.generation);
    SpellsSuffix(Retained(frames), j.taken, ResumedAt(j));
    ServedSet(frames, j.creds, j.feed.openedWith, j.taken[ResumedAt(j)..]);
    NothingWaits(j);
  }

  /**
    In every run, also one in which the queue refused operations, a settled
    connection serves the set it was opened with, changed by the operations the
    queue took from where it resumed, in order.
   */
  lemma {:induction false} SettledServesWhatWasTaken(creds: Credentials, events: seq<JointEvent>)
    requires JointPossible(NewJoint(creds), events) && Settled(JointRun(NewJoint(creds), events))
    ensures var j := JointRun(NewJoint(creds), events);
            && ResumedAt(j) <= |j.taken|
            && Served(j) == ServeAll(Members(j.feed.openedWith), j.taken[ResumedAt(j)..])
  {
    JointRunKeeps(creds, events);
    SettledServes(JointRun(NewJoint(creds), events));
  }

  /** The operations leave the id in the set. */
  predicate Left(openedWith: seq<string>, ops: seq<Operation>, x: string) {
    if Mentions(ops, x) then LastAdds(ops, x) else x in openedWith
  }

  /**
    The exact condition for a settled connection to serve the active set, over
    every run: each id is active exactly when the last operation taken on it since
    the resumption added it, or none named it and the opening had it.
   */
  lemma {:induction false} SettlesExactly(creds: Credentials, events: seq<JointEvent>)
    requires JointPossible(NewJoint(creds), events) && Settled(JointRun(NewJoint(creds), events))
    ensures var j := JointRun(NewJoint(creds), events);
            && ResumedAt(j) <= |j.taken|
            && (Served(j) == Members(j.feed.active)
                <==> forall x :: Left(j.feed.openedWith, j.taken[ResumedAt(j)..], x) <==> x in j.feed.active)
  {
    SettledServesWhatWasTaken(creds, events);
    var j := JointRun(NewJoint(creds), events);
    var ops := j.taken[ResumedAt(j)..];
    forall x
      ensures x in Served(j) <==> Left(j.feed.openedWith, ops, x)
    {
      ServeAllMeaning(Members(j.feed.openedWith), ops, x);
    }
    if forall x :: Left(j.feed.openedWith, ops, x) <==> x in j.feed.active {
      assert forall x :: x in Served(j) <==> x in Members(j.feed.active);
    }
  }

  /**
    In every run of feed and client in which nothing was refused: once a connection
    is settled, the server, reading the texts it was handed, serves the active set exactly when, for every
    id that the operations left over at its opening name and the later ones do not,
    the last of them left it as the opening had it.
   */
  lemma {:induction false} FeedSettles(creds: Credentials, events: seq<JointEvent>)
    requires JointPossible(NewJoint(creds), events)
    requires Settled(JointRun(NewJoint(creds), events)) && !JointRun(NewJoint(creds), events).refused
    ensures var j := JointRun(NewJoint(creds), events);
            var f, k := j.feed, ResumedAt(j);
            && k <= f.sentAtOpening <= |f.ops|
            && (Served(j) == Members(f.active)
                <==> Harmless(Backlog(f, k), Since(f), f.openedWith))
  {
    JointRunKeeps(creds, events);
    var j := JointRun(NewJoint(creds), events);
    SettledServes(j);
    ReplayedSet(j.feed, ResumedAt(j));
  }

  /** With every operation completed before the opening, a settled connection serves the active set. */
  lemma {:induction false} CleanOpeningSettles(creds: Credentials, events: seq<JointEvent>)
    requires JointPossible(NewJoint(creds), events)
    requires Settled(JointRun(NewJoint(creds), events)) && !JointRun(NewJoint(creds), events).refused
    requires var j := JointRun(NewJoint(creds), events); ResumedAt(j) == j.feed.sentAtOpening
    ensures var j := JointRun(NewJoint(creds), events);
            Served(j) == Members(j.feed.active)
  {
    FeedSettles(creds, events);
    var j := JointRun(NewJoint(creds), events);
    assert Backlog(j.feed, ResumedAt(j)) == [];
  }

  // ------------------------------------------------------------ the feed's history

  /** What the feed sees of a step. */
  function Seen(j: Joint, e: JointEvent): seq<FeedEvent> {
    match e
    case Subscribing(ids, online) => [if online then Change(ids) else ChangeOffline(ids)]
    case Replacing(ids) => [ChangeOffline(ids)]
    case Posted => []
    case Strand(event) => if Opens(j.client, event) then [Opening] else []
  }

  function History(creds: Credentials, events: seq<JointEvent>): seq<FeedEvent> {
    if events == [] then []
    else
      var front := events[..|events| - 1];
      History(creds, front) + Seen(JointRun(NewJoint(creds), front), events[|events| - 1])
  }

  lemma {:induction false} FeedRunSnoc(events: seq<FeedEvent>, e: FeedEvent)
    ensures FeedRun(events + [e]) == FeedStep(FeedRun(events), e)
  {
    assert (events + [e])[..|events|] == events;
  }

  lemma FeedStays(j: Joint, e: JointEvent)
    requires Seen(j, e) == []
    ensures JointStep(j, e).feed == j.feed
  {
    match e
    case Posted =>
      if j.outbox != [] && j.waiting != [] {
        assert OnPosted(j).feed == j.feed;
      }
    case Strand(event) => assert OnStrand(j, event).feed == j.feed;
  }

  lemma FeedMoves(j: Joint, e: JointEvent)
    requires Seen(j, e) != []
    ensures JointStep(j, e).feed == FeedStep(j.feed, Seen(j, e)[0])
  {
    match e
    case Subscribing(ids, online) =>
    case Replacing(ids) =>
    case Strand(event) => assert OnStrand(j, event).feed == FeedStep(j.feed, Opening);
  }

  lemma {:induction false} FeedSees(j: Joint, e: JointEvent, history: seq<FeedEvent>)
    requires j.feed == FeedRun(history)
    ensures JointStep(j, e).feed == FeedRun(history + Seen(j, e))
  {
    if Seen(j, e) == [] {
      assert history + [] == history;
      FeedStays(j, e);
    } else {
      FeedRunSnoc(history, Seen(j, e)[0]);
      FeedMoves(j, e);
      assert [Seen(j, e)[0]] == Seen(j, e);
    }
  }

  lemma {:induction false} FeedOfRun(creds: Credentials, events: seq<JointEvent>)
    ensures JointRun(NewJoint(creds), events).feed == FeedRun(History(creds, events))
  {
    if events != [] {
      var front := events[..|events| - 1];
      FeedOfRun(creds, front);
      FeedSees(JointRun(NewJoint(creds), front), events[|events| - 1], History(creds, front));
    }
  }

  /** Every change saw the connection up, and nothing was replaced. */
  predicate AllOnline(events: seq<JointEvent>) {
    forall i :: 0 <= i < |events| ==>
      !events[i].Replacing? && (events[i].Subscribing? ==> events[i].online)
  }

  lemma {:induction false} HistoryOnline(creds: Credentials, events: seq<JointEvent>)
    requires AllOnline(events)
    ensures OnlineOnly(History(creds, events))
  {
    if events != [] {
      HistoryOnline(creds, events[..|events| - 1]);
    }
  }

  /** When the set was only changed while connected, every settled connection serves the desired set. */
  lemma {:induction false} OnlineFeedSettles(creds: Credentials, events: seq<JointEvent>)
    requires JointPossible(NewJoint(creds), events) && AllOnline(events)
    requires Settled(JointRun(NewJoint(creds), events)) && !JointRun(NewJoint(creds), events).refused
    ensures var j := JointRun(NewJoint(creds), events);
            Served(j) == Members(j.feed.desired)
  {
    JointRunKeeps(creds, events);
    var j := JointRun(NewJoint(creds), events);
    SettledServes(j);
    FeedOfRun(creds, events);
    HistoryOnline(creds, events);
    OnlineIsHarmless(History(creds, events), ResumedAt(j));
  }
}
