/**
  The user feed's subscriptions (pm/user_ws.cpp): deltas against the active set,
  the full set on every opening, and what replaying retained operations does.
 */
module UserFeed {

  // -------------------------------------------------------------------- deltas

  /** The members of a that are not in b, in a's order. */
  function Minus(a: seq<string>, b: seq<string>): seq<string> {
    if a == [] then []
    else Minus(a[..|a| - 1], b) + (if a[|a| - 1] in b then [] else [a[|a| - 1]])
  }

  function Members(ids: seq<string>): set<string> {
    set x | x in ids
  }

  lemma {:induction false} MinusMembers(a: seq<string>, b: seq<string>)
    ensures Members(Minus(a, b)) == Members(a) - Members(b)
  {
    if a != [] {
      MinusMembers(a[..|a| - 1], b);
      var last := a[|a| - 1];
      assert Members(a) == Members(a[..|a| - 1]) + {last};
      assert Members(Minus(a, b)) == Members(Minus(a[..|a| - 1], b)) + (if last in b then {} else {last});
    }
  }

  /** The difference keeps every occurrence of what it keeps, and nothing else. */
  lemma {:induction false} MinusCounts(a: seq<string>, b: seq<string>, x: string)
    ensures multiset(Minus(a, b))[x] == if x in b then 0 else multiset(a)[x]
  {
    if a != [] {
      var front, last := a[..|a| - 1], a[|a| - 1];
      MinusCounts(front, b, x);
      assert multiset(a) == multiset(front) + multiset{last} by { assert a == front + [last]; }
    }
  }

  /** It keeps the order: two of its ids come from positions in that order. */
  lemma MinusOrder(a: seq<string>, b: seq<string>, i: nat, j: nat) returns (p: nat, q: nat)
    requires i < j < |Minus(a, b)|
    ensures p < q < |a| && a[p] == Minus(a, b)[i] && a[q] == Minus(a, b)[j]
  {
    var front := a[..|a| - 1];
    if j < |Minus(front, b)| {
      p, q := MinusOrder(front, b, i, j);
    } else {
      p := MinusPlace(front, b, i);
      q := |a| - 1;
    }
  }

  lemma MinusPlace(a: seq<string>, b: seq<string>, i: nat) returns (p: nat)
    requires i < |Minus(a, b)|
    ensures p < |a| && a[p] == Minus(a, b)[i]
  {
    var front := a[..|a| - 1];
    if i < |Minus(front, b)| {
      p := MinusPlace(front, b, i);
    } else {
      p := |a| - 1;
    }
  }

  method Contains(ids: seq<string>, id: string) returns (found: bool)
    ensures found == (id in ids)
  {
    for i := 0 to |ids|
      invariant id !in ids[..i]
    {
      if ids[i] == id {
        return true;
      }
    }
    return false;
  }

  method Difference(a: seq<string>, b: seq<string>) returns (r: seq<string>)
    ensures r == Minus(a, b)
  {
    r := [];
    for i := 0 to |a|
      invariant r == Minus(a[..i], b)
    {
      assert a[..i + 1][..i] == a[..i];
      var found := Contains(b, a[i]);
      if !found {
        r := r + [a[i]];
      }
    }
    assert a[..|a|] == a;
  }

  method Delta(desired: seq<string>, active: seq<string>) returns (add: seq<string>, remove: seq<string>)
    ensures add == Minus(desired, active) && remove == Minus(active, desired)
    ensures (Members(active) + Members(add)) - Members(remove) == Members(desired)
    ensures Members(add) !! Members(remove) && Members(add) !! Members(active) && Members(remove) <= Members(active)
  {
    add := Difference(desired, active);
    remove := Difference(active, desired);
    MinusMembers(desired, active);
    MinusMembers(active, desired);
  }

  // ---------------------------------------------------------------- the server

  /** A dynamic operation on the subscription of one connection. */
  datatype Operation = Subscribe(ids: seq<string>) | Unsubscribe(ids: seq<string>)

  function Serve(subscribed: set<string>, op: Operation): set<string> {
    match op
    case Subscribe(ids) => subscribed + Members(ids)
    case Unsubscribe(ids) => subscribed - Members(ids)
  }

  /** The set a connection ends with, after the initial set and these operations. */
  function ServeAll(subscribed: set<string>, ops: seq<Operation>): set<string> {
    if ops == [] then subscribed else Serve(ServeAll(subscribed, ops[..|ops| - 1]), ops[|ops| - 1])
  }

  /** Some operation names the id. */
  predicate Mentions(ops: seq<Operation>, x: string) {
    ops != [] && (x in ops[|ops| - 1].ids || Mentions(ops[..|ops| - 1], x))
  }

  /** The last operation naming the id subscribes it. */
  predicate LastAdds(ops: seq<Operation>, x: string) {
    ops != [] && (if x in ops[|ops| - 1].ids then ops[|ops| - 1].Subscribe? else LastAdds(ops[..|ops| - 1], x))
  }

  /** Only the last operation naming an id decides about it. */
  lemma {:induction false} ServeAllMeaning(subscribed: set<string>, ops: seq<Operation>, x: string)
    ensures x in ServeAll(subscribed, ops) <==> if Mentions(ops, x) then LastAdds(ops, x) else x in subscribed
  {
    if ops != [] {
      ServeAllMeaning(subscribed, ops[..|ops| - 1], x);
    }
  }

  lemma {:induction false} SuffixMeaning(ops: seq<Operation>, k: nat, x: string)
    requires k <= |ops|
    ensures Mentions(ops[k..], x) ==> Mentions(ops, x) && LastAdds(ops[k..], x) == LastAdds(ops, x)
  {
    if k < |ops| {
      var front := ops[..|ops| - 1];
      assert ops[k..][..|ops[k..]| - 1] == front[k..];
      SuffixMeaning(front, k, x);
    }
  }

  // ------------------------------------------------------------------ the feed

  /**
    The wrapper's two lists, the operations sent so far, and how the current
    connection was opened: with which set and after how many operations.
   */
  datatype Feed = Feed(
    desired: seq<string>,
    active: seq<string>,
    ops: seq<Operation>,
    openedWith: seq<string>,
    sentAtOpening: nat)

  datatype FeedEvent =
    | Change(ids: seq<string>)
    | ChangeOffline(ids: seq<string>)
    | Opening

  /** The operations a change sends: additions, then removals, each only if any. */
  function DeltaOps(desired: seq<string>, active: seq<string>): seq<Operation> {
    var add, remove := Minus(desired, active), Minus(active, desired);
    (if add == [] then [] else [Subscribe(add)]) + (if remove == [] then [] else [Unsubscribe(remove)])
  }

  function FeedStep(f: Feed, e: FeedEvent): Feed {
    match e
    case Change(ids) => f.(ops := f.ops + DeltaOps(ids, f.active), desired := ids, active := ids)
    case ChangeOffline(ids) => f.(desired := ids)
    case Opening => f.(active := f.desired, openedWith := f.desired, sentAtOpening := |f.ops|)
  }

  function FeedRun(events: seq<FeedEvent>): Feed {
    if events == [] then Feed([], [], [], [], 0)
    else FeedStep(FeedRun(events[..|events| - 1]), events[|events| - 1])
  }

  /** The desired set was only changed while connected. */
  predicate OnlineOnly(events: seq<FeedEvent>) {
    forall i :: 0 <= i < |events| ==> !events[i].ChangeOffline?
  }

  /** Every named id is active exactly when its last operation subscribed it. */
  ghost predicate Agrees(ops: seq<Operation>, active: set<string>) {
    forall x :: Mentions(ops, x) ==> (LastAdds(ops, x) <==> x in active)
  }

  /** Ids that no operation names are active exactly when they were to begin with. */
  ghost predicate Untouched(ops: seq<Operation>, before: seq<string>, active: seq<string>) {
    forall x :: !Mentions(ops, x) ==> (x in before <==> x in active)
  }

  /** The operations sent since the opening. */
  function Since(f: Feed): seq<Operation>
    requires f.sentAtOpening <= |f.ops|
  {
    f.ops[f.sentAtOpening..]
  }

  /** The operations from a position up to the opening. */
  function Backlog(f: Feed, k: nat): seq<Operation>
    requires k <= f.sentAtOpening <= |f.ops|
  {
    f.ops[k..f.sentAtOpening]
  }

  /** The opening and what was sent since account for the active set. */
  ghost predicate SinceOpening(f: Feed) {
    f.sentAtOpening <= |f.ops|
    && Agrees(Since(f), Members(f.active)) && Untouched(Since(f), f.openedWith, f.active)
  }

  lemma {:induction false} MentionsConcat(a: seq<Operation>, b: seq<Operation>, x: string)
    ensures Mentions(a + b, x) <==> Mentions(a, x) || Mentions(b, x)
    ensures Mentions(b, x) ==> LastAdds(a + b, x) == LastAdds(b, x)
    ensures !Mentions(b, x) ==> LastAdds(a + b, x) == LastAdds(a, x)
  {
    if b == [] {
      assert a + b == a;
    } else {
      assert (a + b)[..|a + b| - 1] == a + b[..|b| - 1];
      MentionsConcat(a, b[..|b| - 1], x);
    }
  }

  lemma {:induction false} MentionsOne(op: Operation, x: string)
    ensures Mentions([op], x) <==> x in op.ids
    ensures Mentions([op], x) ==> LastAdds([op], x) == op.Subscribe?
  {
    assert [op][..0] == [];
  }

  /** A delta names exactly the ids whose membership changes, and sets them as desired. */
  lemma {:induction false} DeltaOpsMeaning(desired: seq<string>, active: seq<string>, x: string)
    ensures Mentions(DeltaOps(desired, active), x) <==> (x in desired) != (x in active)
    ensures Mentions(DeltaOps(desired, active), x) ==> (LastAdds(DeltaOps(desired, active), x) <==> x in desired)
  {
    var add, remove := Minus(desired, active), Minus(active, desired);
    MinusMembers(desired, active);
    MinusMembers(active, desired);
    assert x in add <==> x in Members(add);
    assert x in remove <==> x in Members(remove);
    assert x in desired <==> x in Members(desired);
    assert x in active <==> x in Members(active);
    var a := if add == [] then [] else [Subscribe(add)];
    var b := if remove == [] then [] else [Unsubscribe(remove)];
    MentionsConcat(a, b, x);
    MentionsOne(Subscribe(add), x);
    MentionsOne(Unsubscribe(remove), x);
  }

  /** Subscriptions come before unsubscriptions, one of each at most, and none names nothing. */
  lemma AdditionsFirst(desired: seq<string>, active: seq<string>)
    ensures var ops := DeltaOps(desired, active);
            && |ops| <= 2 && (forall i :: 0 <= i < |ops| ==> ops[i].ids != [])
            && (|ops| == 2 ==> ops[0].Subscribe? && ops[1].Unsubscribe?)
  {
  }

  lemma ChangeAgrees(ops: seq<Operation>, active: seq<string>, ids: seq<string>)
    requires Agrees(ops, Members(active))
    ensures Agrees(ops + DeltaOps(ids, active), Members(ids))
  {
    forall x | Mentions(ops + DeltaOps(ids, active), x)
      ensures LastAdds(ops + DeltaOps(ids, active), x) <==> x in Members(ids)
    {
      MentionsConcat(ops, DeltaOps(ids, active), x);
      DeltaOpsMeaning(ids, active, x);
    }
  }

  lemma ChangeUntouched(ops: seq<Operation>, before: seq<string>, active: seq<string>, ids: seq<string>)
    requires Untouched(ops, before, active)
    ensures Untouched(ops + DeltaOps(ids, active), before, ids)
  {
    forall x | !Mentions(ops + DeltaOps(ids, active), x)
      ensures x in before <==> x in ids
    {
      MentionsConcat(ops, DeltaOps(ids, active), x);
      DeltaOpsMeaning(ids, active, x);
    }
  }

  lemma ChangeKeeps(f: Feed, ids: seq<string>)
    requires SinceOpening(f)
    ensures SinceOpening(FeedStep(f, Change(ids)))
  {
    ChangeAgrees(Since(f), f.active, ids);
    ChangeUntouched(Since(f), f.openedWith, f.active, ids);
    assert Since(FeedStep(f, Change(ids))) == Since(f) + DeltaOps(ids, f.active);
  }

  lemma FeedStepKeeps(f: Feed, e: FeedEvent)
    requires SinceOpening(f)
    ensures SinceOpening(FeedStep(f, e))
  {
    match e
    case Change(ids) => ChangeKeeps(f, ids);
    case ChangeOffline(ids) => assert Since(FeedStep(f, e)) == Since(f);
    case Opening => assert Since(FeedStep(f, e)) == [];
  }

  /** In every history the opening and what was sent since account for the active set. */
  lemma {:induction false} FeedKeeps(events: seq<FeedEvent>)
    ensures SinceOpening(FeedRun(events))
  {
    if events != [] {
      FeedKeeps(events[..|events| - 1]);
      FeedStepKeeps(FeedRun(events[..|events| - 1]), events[|events| - 1]);
    }
  }

  /** Without offline changes all operations ever sent agree with the active set, which is the desired one. */
  lemma {:induction false} OnlineAgrees(events: seq<FeedEvent>)
    requires OnlineOnly(events)
    ensures Agrees(FeedRun(events).ops, Members(FeedRun(events).active))
    ensures FeedRun(events).active == FeedRun(events).desired
  {
    if events != [] {
      OnlineAgrees(events[..|events| - 1]);
      var f, e := FeedRun(events[..|events| - 1]), events[|events| - 1];
      if e.Change? {
        ChangeAgrees(f.ops, f.active, e.ids);
      }
    }
  }

  /** The set of the last change made while connected, or of a later opening. */
  function LastTold(events: seq<FeedEvent>): seq<string> {
    if events == [] then []
    else
      match events[|events| - 1]
      case Change(ids) => ids
      case Opening => LastWanted(events)
      case ChangeOffline(_) => LastTold(events[..|events| - 1])
  }

  /** The set of the last change. */
  function LastWanted(events: seq<FeedEvent>): seq<string> {
    if events == [] then []
    else if events[|events| - 1].Opening? then LastWanted(events[..|events| - 1])
    else events[|events| - 1].ids
  }

  /** Desired is what was last wanted, and active what the server was last told. */
  lemma {:induction false} FeedFollows(events: seq<FeedEvent>)
    ensures FeedRun(events).desired == LastWanted(events) && FeedRun(events).active == LastTold(events)
  {
    if events != [] {
      FeedFollows(events[..|events| - 1]);
    }
  }

  // -------------------------------------------------------------------- replay

  /**
    Replaying the operations from any position onto a set is harmless exactly
    when, for every id they name, the set has it as the last operation on it left it.
   */
  lemma {:induction false} ReplayExact(ops: seq<Operation>, k: nat, desired: set<string>)
    requires k <= |ops|
    ensures ServeAll(desired, ops[k..]) == desired
       <==> forall x :: Mentions(ops[k..], x) ==> (LastAdds(ops, x) <==> x in desired)
  {
    forall x
      ensures (x in ServeAll(desired, ops[k..]) <==> x in desired)
         <==> (Mentions(ops[k..], x) ==> (LastAdds(ops, x) <==> x in desired))
    {
      ServeAllMeaning(desired, ops[k..], x);
      SuffixMeaning(ops, k, x);
    }
    if forall x :: Mentions(ops[k..], x) ==> (LastAdds(ops, x) <==> x in desired) {
      assert forall x :: x in ServeAll(desired, ops[k..]) <==> x in desired;
    }
  }

  /**
    After any history, opening anew with any set and replaying what was sent on
    the current connection, from any position, leaves that set exactly when it
    agrees with the active set on every id those operations name.
   */
  lemma {:induction false} ReplayAfterOfflineChange(events: seq<FeedEvent>, k: nat, wanted: seq<string>)
    requires FeedRun(events).sentAtOpening <= k <= |FeedRun(events).ops|
    ensures var f := FeedRun(events);
            ServeAll(Members(wanted), f.ops[k..]) == Members(wanted)
            <==> forall x :: Mentions(f.ops[k..], x) ==> (x in f.active <==> x in wanted)
  {
    var f := FeedRun(events);
    FeedKeeps(events);
    ReplayExact(f.ops, k, Members(wanted));
    assert f.ops[k..] == Since(f)[k - f.sentAtOpening..];
    forall x | Mentions(f.ops[k..], x)
      ensures LastAdds(f.ops, x) <==> x in Members(f.active)
    {
      SuffixMeaning(f.ops, k, x);
      SuffixMeaning(Since(f), k - f.sentAtOpening, x);
    }
  }

  /** What the backlog says last about an id that nothing sent since names is what the opening said. */
  ghost predicate Harmless(backlog: seq<Operation>, since: seq<Operation>, openedWith: seq<string>) {
    forall x :: Mentions(backlog, x) && !Mentions(since, x) ==> (LastAdds(backlog, x) <==> x in openedWith)
  }

  /** One id of a connection that replayed a backlog. */
  lemma {:induction false} ReplayedId(f: Feed, k: nat, x: string)
    requires SinceOpening(f) && k <= f.sentAtOpening
    ensures (x in ServeAll(Members(f.openedWith), f.ops[k..]) <==> x in Members(f.active))
       <==> (Mentions(Backlog(f, k), x) && !Mentions(Since(f), x)
             ==> (LastAdds(Backlog(f, k), x) <==> x in f.openedWith))
  {
    assert f.ops[k..] == Backlog(f, k) + Since(f);
    ServeAllMeaning(Members(f.openedWith), f.ops[k..], x);
    MentionsConcat(Backlog(f, k), Since(f), x);
  }

  lemma ReplayedSet(f: Feed, k: nat)
    requires SinceOpening(f) && k <= f.sentAtOpening
    ensures ServeAll(Members(f.openedWith), f.ops[k..]) == Members(f.active)
       <==> Harmless(Backlog(f, k), Since(f), f.openedWith)
  {
    var served, active := ServeAll(Members(f.openedWith), f.ops[k..]), Members(f.active);
    forall x
      ensures (x in served <==> x in active)
         <==> (Mentions(Backlog(f, k), x) && !Mentions(Since(f), x)
               ==> (LastAdds(Backlog(f, k), x) <==> x in f.openedWith))
    {
      ReplayedId(f, k, x);
    }
    if Harmless(Backlog(f, k), Since(f), f.openedWith) {
      assert forall x :: x in served <==> x in active;
    }
  }

  /**
    After every history: a connection opened with the full desired set, then given
    the operations from any position up to its opening and everything sent since,
    ends with the active set exactly when, for every id that the operations from
    before the opening name and the later ones do not, the last of them left it as
    the opening had it.
   */
  lemma {:induction false} ConnectionConverges(events: seq<FeedEvent>, k: nat)
    requires k <= FeedRun(events).sentAtOpening
    ensures var f := FeedRun(events);
            && f.sentAtOpening <= |f.ops|
            && (ServeAll(Members(f.openedWith), f.ops[k..]) == Members(f.active)
                <==> Harmless(Backlog(f, k), Since(f), f.openedWith))
  {
    FeedKeeps(events);
    ReplayedSet(FeedRun(events), k);
  }

  /** With nothing left over at the opening, a connection always ends with the active set. */
  lemma {:induction false} NothingLeftOver(events: seq<FeedEvent>)
    ensures var f := FeedRun(events);
            && f.sentAtOpening <= |f.ops|
            && ServeAll(Members(f.openedWith), f.ops[f.sentAtOpening..]) == Members(f.active)
  {
    var f := FeedRun(events);
    FeedKeeps(events);
    assert Backlog(f, f.sentAtOpening) == [];
    ReplayedSet(f, f.sentAtOpening);
  }

  /** In agreement, the backlog says last what the opening said, where nothing later spoke. */
  lemma AgreementIsHarmless(backlog: seq<Operation>, since: seq<Operation>, earlier: seq<Operation>,
                            openedWith: seq<string>, active: seq<string>)
    requires Agrees(earlier + (backlog + since), Members(active)) && Untouched(since, openedWith, active)
    ensures Harmless(backlog, since, openedWith)
  {
    forall x | Mentions(backlog, x) && !Mentions(since, x)
      ensures LastAdds(backlog, x) <==> x in openedWith
    {
      MentionsConcat(backlog, since, x);
      MentionsConcat(earlier, backlog + since, x);
      assert x in active <==> x in Members(active);
    }
  }

  /** When the desired set was only changed while connected, any backlog is harmless. */
  lemma {:induction false} OnlineIsHarmless(events: seq<FeedEvent>, k: nat)
    requires OnlineOnly(events) && k <= FeedRun(events).sentAtOpening
    ensures var f := FeedRun(events);
            && f.sentAtOpening <= |f.ops|
            && Harmless(Backlog(f, k), Since(f), f.openedWith)
            && ServeAll(Members(f.openedWith), f.ops[k..]) == Members(f.desired)
  {
    var f := FeedRun(events);
    FeedKeeps(events);
    OnlineAgrees(events);
    assert f.ops == f.ops[..k] + (Backlog(f, k) + Since(f));
    AgreementIsHarmless(Backlog(f, k), Since(f), f.ops[..k], f.openedWith, f.active);
    ReplayedSet(f, k);
  }

  /** Online changes after an opening keep the active set at the desired one, whatever came before. */
  lemma {:induction false} OpeningCatchesUp(before: seq<FeedEvent>, after: seq<FeedEvent>)
    requires OnlineOnly(after)
    ensures FeedRun(before + [Opening] + after).active == FeedRun(before + [Opening] + after).desired
  {
    var all := before + [Opening] + after;
    if after == [] {
      assert all[|all| - 1] == Opening;
    } else {
      var front := after[..|after| - 1];
      assert all[..|all| - 1] == before + [Opening] + front && all[|all| - 1] == after[|after| - 1];
      OpeningCatchesUp(before, front);
    }
  }
}
