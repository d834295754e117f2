/**
  The bounded write queue of the websocket client (net/ws_write_queue.hpp).
  Retained messages survive reconnects; connection-scoped frames belong to one
  socket generation.
 */
module WriteQueue {

  /** A queued frame. The id stands for the identity of the shared payload. */
  datatype Entry = Entry(id: nat, text: string, scoped: bool, generation: nat)

  datatype Queue = Queue(capacity: nat, reserve: nat, entries: seq<Entry>, nextId: nat)

  /** Swept away: a scoped frame of this generation, or of any other one. */
  predicate Swept(e: Entry, generation: nat, stale: bool) {
    e.scoped && (e.generation != generation) == stale
  }

  function Sweep(entries: seq<Entry>, generation: nat, stale: bool): seq<Entry> {
    if entries == [] then []
    else
      Sweep(entries[..|entries| - 1], generation, stale) + Spared(entries[|entries| - 1], generation, stale)
  }

  function Spared(e: Entry, generation: nat, stale: bool): seq<Entry> {
    if Swept(e, generation, stale) then [] else [e]
  }

  /** The retained messages, in queue order. */
  function Retained(entries: seq<Entry>): seq<Entry> {
    if entries == [] then []
    else Retained(entries[..|entries| - 1]) + Mark(entries[|entries| - 1])
  }

  function Mark(e: Entry): seq<Entry> {
    if e.scoped then [] else [e]
  }

  predicate Holds(entries: seq<Entry>, id: nat) {
    exists k :: 0 <= k < |entries| && entries[k].id == id
  }

  /** Every scoped entry belongs to this generation. */
  ghost predicate ScopedTo(entries: seq<Entry>, generation: nat) {
    forall k :: 0 <= k < |entries| && entries[k].scoped ==> entries[k].generation == generation
  }

  ghost predicate Distinct(entries: seq<Entry>) {
    forall i, j :: 0 <= i < j < |entries| ==> entries[i].id != entries[j].id
  }

  ghost predicate IdsBelow(entries: seq<Entry>, bound: nat) {
    forall k :: 0 <= k < |entries| ==> entries[k].id < bound
  }

  /** The bounds: room is always kept for `reserve` connection frames. */
  ghost predicate Valid(q: Queue) {
    && q.reserve <= q.capacity
    && |q.entries| <= q.capacity
    && |Retained(q.entries)| <= q.capacity - q.reserve
    && Distinct(q.entries)
    && IdsBelow(q.entries, q.nextId)
  }

  function FirstWith(entries: seq<Entry>, id: nat): (k: nat)
    ensures k <= |entries|
    ensures k < |entries| ==> entries[k].id == id
    ensures forall i :: 0 <= i < k ==> entries[i].id != id
  {
    if entries == [] || entries[0].id == id then 0 else 1 + FirstWith(entries[1..], id)
  }

  function Dropped(entries: seq<Entry>, k: nat): seq<Entry>
    requires k < |entries|
  {
    entries[..k] + entries[k + 1..]
  }

  function Without(entries: seq<Entry>, id: nat): seq<Entry> {
    var k := FirstWith(entries, id);
    if k == |entries| then entries else Dropped(entries, k)
  }

  // -------------------------------------------------------------- operations

  /** The next retained message. */
  function Message(q: Queue, text: string): Entry {
    Entry(q.nextId, text, false, 0)
  }

  function AddRetained(q: Queue, text: string): (r: (Queue, bool)) {
    // capacity - reserve never wraps: the constructor caps the reserve
    if |q.entries| + q.reserve >= q.capacity then (q, false)
    else
      (q.(entries := q.entries + [Entry(q.nextId, text, false, 0)], nextId := q.nextId + 1), true)
  }

  function AddConnection(q: Queue, text: string, generation: nat, priority: bool): (r: (Queue, bool)) {
    var entries := Sweep(q.entries, generation, true);
    if |entries| >= q.capacity then (q.(entries := entries), false)
    else
      var e := Entry(q.nextId, text, true, generation);
      (q.(entries := if priority then [e] + entries else entries + [e], nextId := q.nextId + 1), true)
  }

  function DiscardConnection(q: Queue, generation: nat): Queue {
    q.(entries := Sweep(q.entries, generation, false))
  }

  function DiscardStale(q: Queue, generation: nat): Queue {
    q.(entries := Sweep(q.entries, generation, true))
  }

  function Complete(q: Queue, id: nat): Queue {
    q.(entries := Without(q.entries, id))
  }

  function Clear(q: Queue): Queue {
    q.(entries := [])
  }

  // ---------------------------------------------------------- facts on sweeps

  lemma {:induction false} SweepKeeps(entries: seq<Entry>, generation: nat, stale: bool)
    ensures var s := Sweep(entries, generation, stale);
            && |s| <= |entries|
            && (forall k :: 0 <= k < |s| ==> s[k] in entries && !Swept(s[k], generation, stale))
            && (forall k :: 0 <= k < |entries| && !Swept(entries[k], generation, stale) ==> entries[k] in s)
  {
    if entries != [] {
      var front := entries[..|entries| - 1];
      SweepKeeps(front, generation, stale);
      assert entries == front + [entries[|entries| - 1]];
    }
  }

  lemma {:induction false} SweepRetained(entries: seq<Entry>, generation: nat, stale: bool)
    ensures Retained(Sweep(entries, generation, stale)) == Retained(entries)
  {
    if entries != [] {
      var front, last := entries[..|entries| - 1], entries[|entries| - 1];
      SweepRetained(front, generation, stale);
      RetainedConcat(Sweep(front, generation, stale), Spared(last, generation, stale));
      RetainedSpared(last, generation, stale);
    }
  }

  lemma RetainedSpared(e: Entry, generation: nat, stale: bool)
    ensures Retained(Spared(e, generation, stale)) == Mark(e)
  {
    RetainedOne(e);
  }

  lemma Assoc(x: seq<Entry>, y: seq<Entry>, z: seq<Entry>)
    ensures (x + y) + z == x + (y + z)
  {
  }

  lemma {:induction false} RetainedSnoc(a: seq<Entry>, e: Entry)
    ensures Retained(a + [e]) == Retained(a) + Mark(e)
  {
    assert (a + [e])[..|a|] == a;
  }

  lemma {:induction false} RetainedConcat(a: seq<Entry>, b: seq<Entry>)
    ensures Retained(a + b) == Retained(a) + Retained(b)
  {
    if b == [] {
      assert a + b == a;
    } else {
      var front, last := b[..|b| - 1], b[|b| - 1];
      RetainedConcat(a, front);
      assert a + b == (a + front) + [last];
      RetainedSnoc(a + front, last);
      Assoc(Retained(a), Retained(front), Mark(last));
    }
  }

  lemma {:induction false} SweepDistinct(entries: seq<Entry>, generation: nat, stale: bool)
    requires Distinct(entries)
    ensures Distinct(Sweep(entries, generation, stale))
  {
    if entries != [] {
      var front, last := entries[..|entries| - 1], entries[|entries| - 1];
      SweepDistinct(front, generation, stale);
      SweepKeeps(front, generation, stale);
    }
  }

  lemma {:induction false} SweepNothing(entries: seq<Entry>, generation: nat)
    requires ScopedTo(entries, generation)
    ensures Sweep(entries, generation, true) == entries
  {
    if entries != [] {
      SweepNothing(entries[..|entries| - 1], generation);
      assert entries == entries[..|entries| - 1] + [entries[|entries| - 1]];
    }
  }

  lemma {:induction false} RetainedLength(entries: seq<Entry>)
    ensures |Retained(entries)| <= |entries|
  {
    if entries != [] { RetainedLength(entries[..|entries| - 1]); }
  }

  lemma {:induction false} SweepValid(q: Queue, generation: nat, stale: bool)
    requires Valid(q)
    ensures Valid(q.(entries := Sweep(q.entries, generation, stale)))
    ensures stale ==> ScopedTo(Sweep(q.entries, generation, stale), generation)
  {
    SweepKeeps(q.entries, generation, stale);
    SweepRetained(q.entries, generation, stale);
    SweepDistinct(q.entries, generation, stale);
  }

  lemma {:induction false} AllScoped(entries: seq<Entry>)
    requires forall k :: 0 <= k < |entries| ==> entries[k].scoped
    ensures Retained(entries) == []
  {
    if entries != [] { AllScoped(entries[..|entries| - 1]); }
  }

  lemma RetainedOne(e: Entry)
    ensures Retained([e]) == Mark(e)
  {
    assert [e][..0] == [];
  }

  lemma {:induction false} RetainedAround(a: seq<Entry>, e: Entry, b: seq<Entry>)
    ensures Retained(a + ([e] + b)) == Retained(a) + (Mark(e) + Retained(b))
  {
    RetainedConcat(a, [e] + b);
    RetainedConcat([e], b);
    RetainedOne(e);
  }

  lemma {:induction false} FewerMessages(a: seq<Entry>, e: Entry, b: seq<Entry>)
    ensures |Retained(a + b)| <= |Retained(a + ([e] + b))|
  {
    RetainedAround(a, e, b);
    RetainedConcat(a, b);
  }

  lemma {:induction false} OneMessageLess(a: seq<Entry>, e: Entry, b: seq<Entry>)
    requires Retained(a) == []
    ensures Retained(a + ([e] + b)) == Mark(e) + Retained(a + b)
  {
    RetainedAround(a, e, b);
    RetainedConcat(a, b);
    assert [] + Retained(b) == Retained(b);
    assert [] + (Mark(e) + Retained(b)) == Mark(e) + Retained(b);
  }

  /** An entry and what is around it. */
  lemma SplitAt(entries: seq<Entry>, k: nat) returns (a: seq<Entry>, e: Entry, b: seq<Entry>)
    requires k < |entries|
    ensures entries == a + ([e] + b) && e == entries[k] && |a| == k && Dropped(entries, k) == a + b
    ensures forall j :: 0 <= j < k ==> a[j] == entries[j]
  {
    a, e, b := entries[..k], entries[k], entries[k + 1..];
  }

  lemma {:induction false} DroppedAhead(entries: seq<Entry>, k: nat)
    requires k < |entries| && forall j :: 0 <= j < k ==> entries[j].scoped
    ensures Retained(entries) == Mark(entries[k]) + Retained(Dropped(entries, k))
  {
    var a, e, b := SplitAt(entries, k);
    AllScoped(a);
    OneMessageLess(a, e, b);
  }

  /** Removing an entry with only scoped ones ahead removes the first retained message, or none. */
  lemma {:induction false} RemoveAhead(entries: seq<Entry>, k: nat)
    requires k < |entries| && Distinct(entries)
    requires forall j :: 0 <= j < k ==> entries[j].scoped
    ensures Without(entries, entries[k].id) == Dropped(entries, k)
    ensures Retained(entries) == Mark(entries[k]) + Retained(Without(entries, entries[k].id))
  {
    FirstIs(entries, k);
    DroppedAhead(entries, k);
  }

  lemma {:induction false} FirstIs(entries: seq<Entry>, k: nat)
    requires k < |entries| && Distinct(entries)
    ensures FirstWith(entries, entries[k].id) == k
  {
    var f := FirstWith(entries, entries[k].id);
    assert !(k < f);
    assert entries[f].id == entries[k].id;
  }

  lemma WithoutDistinct(entries: seq<Entry>, id: nat)
    requires Distinct(entries)
    ensures var w := Without(entries, id);
            && |w| <= |entries| && Distinct(w) && !Holds(w, id)
            && forall k :: 0 <= k < |w| ==> w[k] in entries
  {
  }

  lemma {:induction false} WithoutRetained(entries: seq<Entry>, id: nat)
    ensures |Retained(Without(entries, id))| <= |Retained(entries)|
  {
    var k := FirstWith(entries, id);
    if k < |entries| {
      var a, e, b := SplitAt(entries, k);
      FewerMessages(a, e, b);
    }
  }

  lemma WithoutValid(q: Queue, id: nat)
    requires Valid(q)
    ensures Valid(Complete(q, id))
  {
    WithoutDistinct(q.entries, id);
    WithoutRetained(q.entries, id);
  }

  lemma AddRetainedValid(q: Queue, text: string)
    requires Valid(q)
    ensures Valid(AddRetained(q, text).0)
    ensures Retained(AddRetained(q, text).0.entries)
         == Retained(q.entries) + (if AddRetained(q, text).1 then [Message(q, text)] else [])
  {
    RetainedSnoc(q.entries, Message(q, text));
    RetainedLength(q.entries);
  }

  lemma {:induction false} PushScopedRetained(entries: seq<Entry>, e: Entry)
    requires e.scoped
    ensures Retained([e] + entries) == Retained(entries) == Retained(entries + [e])
  {
    RetainedConcat([e], entries);
    RetainedConcat(entries, [e]);
    RetainedOne(e);
  }

  lemma PushScoped(entries: seq<Entry>, e: Entry, generation: nat)
    requires ScopedTo(entries, generation) && e.scoped && e.generation == generation
    requires Distinct(entries) && IdsBelow(entries, e.id)
    ensures ScopedTo([e] + entries, generation) && ScopedTo(entries + [e], generation)
    ensures Distinct([e] + entries) && Distinct(entries + [e])
    ensures IdsBelow([e] + entries, e.id + 1) && IdsBelow(entries + [e], e.id + 1)
  {
  }

  lemma AddConnectionValid(q: Queue, text: string, generation: nat, priority: bool)
    requires Valid(q)
    ensures Valid(AddConnection(q, text, generation, priority).0)
    ensures ScopedTo(AddConnection(q, text, generation, priority).0.entries, generation)
    ensures Retained(AddConnection(q, text, generation, priority).0.entries) == Retained(q.entries)
  {
    SweepValid(q, generation, true);
    SweepRetained(q.entries, generation, true);
    var entries, e := Sweep(q.entries, generation, true), Entry(q.nextId, text, true, generation);
    PushScoped(entries, e, generation);
    PushScopedRetained(entries, e);
  }

  // ------------------------------------------------- every sequence of operations

  datatype QueueOp =
    | Retain(text: string)
    | Connection(text: string, generation: nat, priority: bool)
    | Discard(generation: nat)
    | Refresh(generation: nat)
    | Finish(id: nat)
    | Reset

  function Apply(q: Queue, op: QueueOp): Queue {
    match op
    case Retain(text) => AddRetained(q, text).0
    case Connection(text, generation, priority) => AddConnection(q, text, generation, priority).0
    case Discard(generation) => DiscardConnection(q, generation)
    case Refresh(generation) => DiscardStale(q, generation)
    case Finish(id) => Complete(q, id)
    case Reset => Clear(q)
  }

  function ApplyAll(q: Queue, ops: seq<QueueOp>): Queue {
    if ops == [] then q else Apply(ApplyAll(q, ops[..|ops| - 1]), ops[|ops| - 1])
  }

  function Empty(capacity: nat, reserve: nat): Queue {
    Queue(capacity, if reserve <= capacity then reserve else capacity, [], 0)
  }

  /** Size and retained bounds hold after any sequence of operations on a new queue. */
  lemma {:induction false} BoundsAlways(capacity: nat, reserve: nat, ops: seq<QueueOp>)
    ensures Valid(ApplyAll(Empty(capacity, reserve), ops))
    ensures ApplyAll(Empty(capacity, reserve), ops).capacity == capacity
    ensures ApplyAll(Empty(capacity, reserve), ops).reserve == Empty(capacity, reserve).reserve
  {
    if ops != [] {
      BoundsAlways(capacity, reserve, ops[..|ops| - 1]);
      var q := ApplyAll(Empty(capacity, reserve), ops[..|ops| - 1]);
      match ops[|ops| - 1]
      case Retain(text) => AddRetainedValid(q, text);
      case Connection(text, generation, priority) => AddConnectionValid(q, text, generation, priority);
      case Discard(generation) => SweepValid(q, generation, false);
      case Refresh(generation) => SweepValid(q, generation, true);
      case Finish(id) => WithoutValid(q, id);
      case Reset =>
    }
  }

  /** The number of queued frames of one generation. */
  ghost function Frames(entries: seq<Entry>, generation: nat): nat {
    if entries == [] then 0
    else
      var last := entries[|entries| - 1];
      Frames(entries[..|entries| - 1], generation)
      + (if last.scoped && last.generation == generation then 1 else 0)
  }

  /** Sweeping stale frames leaves the retained messages and the frames of the generation. */
  lemma {:induction false} SweepCount(entries: seq<Entry>, generation: nat)
    ensures |Sweep(entries, generation, true)| == |Retained(entries)| + Frames(entries, generation)
  {
    if entries != [] { SweepCount(entries[..|entries| - 1], generation); }
  }

  /**
    In every reachable queue a connection frame is refused exactly when the
    retained messages and the frames of its own generation fill the capacity,
    and then at least `reserve` of them are frames of its own generation.
   */
  lemma {:induction false} RejectionMeansReserveUsed(capacity: nat, reserve: nat, ops: seq<QueueOp>,
                                  text: string, generation: nat, priority: bool)
    ensures var q := ApplyAll(Empty(capacity, reserve), ops);
            var accepted := AddConnection(q, text, generation, priority).1;
            && (!accepted <==> |Retained(q.entries)| + Frames(q.entries, generation) >= capacity)
            && (!accepted ==> Frames(q.entries, generation) >= q.reserve)
  {
    BoundsAlways(capacity, reserve, ops);
    SweepCount(ApplyAll(Empty(capacity, reserve), ops).entries, generation);
  }

  /** A message is taken exactly while fewer than capacity minus reserve entries are queued, and goes last. */
  lemma RetainedTakenExactly(q: Queue, text: string)
    requires q.reserve <= q.capacity
    ensures var (q', ok) := AddRetained(q, text);
            && (ok <==> |q.entries| < q.capacity - q.reserve)
            && (ok ==> |q'.entries| == |q.entries| + 1 && q'.entries[..|q.entries|] == q.entries
                       && q'.entries[|q.entries|].text == text && !q'.entries[|q.entries|].scoped)
            && (!ok ==> q' == q)
  {
  }

  /** A taken connection frame stands first or last among what the sweep left, as its priority says. */
  lemma {:induction false} FrameTakesItsPlace(q: Queue, text: string, generation: nat, priority: bool)
    requires AddConnection(q, text, generation, priority).1
    ensures var entries := AddConnection(q, text, generation, priority).0.entries;
            var k := if priority then 0 else |entries| - 1;
            && entries != [] && entries[k].text == text && entries[k].scoped && entries[k].generation == generation
            && (if priority then entries[1..] else entries[..|entries| - 1]) == Sweep(q.entries, generation, true)
  {
  }

  // ---------------------------------------------------------------- the queue

  class WsWriteQueue {
    const capacity: nat
    const reserve: nat
    var entries: seq<Entry>
    // allocates payload identities
    var nextId: nat

    ghost function View(): Queue
      reads this
    {
      Queue(capacity, reserve, entries, nextId)
    }

    constructor (capacity: nat, connectionReserve: nat)
      ensures View() == Empty(capacity, connectionReserve) && Valid(View())
    {
      this.capacity := capacity;
      this.reserve := if connectionReserve <= capacity then connectionReserve else capacity;
      this.entries := [];
      this.nextId := 0;
    }

    method PushRetained(text: string) returns (ok: bool)
      requires Valid(View())
      modifies this
      ensures (View(), ok) == AddRetained(old(View()), text)
      ensures Valid(View())
    {
      AddRetainedValid(View(), text);
      if |entries| >= capacity - reserve {
        return false;
      }
      entries := entries + [Entry(nextId, text, false, 0)];
      nextId := nextId + 1;
      return true;
    }

    /** Erases in place every entry the sweep names, keeping the order of the rest. */
    method EraseIf(generation: nat, stale: bool)
      modifies this`entries
      ensures entries == Sweep(old(entries), generation, stale)
    {
      ghost var before := entries;
      var kept: seq<Entry> := [];
      for i := 0 to |entries|
        invariant entries == before
        invariant kept == Sweep(before[..i], generation, stale)
      {
        assert before[..i + 1][..i] == before[..i];
        if !Swept(entries[i], generation, stale) {
          kept := kept + [entries[i]];
        }
      }
      assert before[..|before|] == before;
      entries := kept;
    }

    method PushConnection(text: string, generation: nat, priority: bool) returns (ok: bool)
      requires Valid(View())
      modifies this
      ensures (View(), ok) == AddConnection(old(View()), text, generation, priority)
      ensures Valid(View())
    {
      ghost var after := AddConnection(View(), text, generation, priority).0;
      assert Valid(after) by { AddConnectionValid(View(), text, generation, priority); }
      DiscardStaleConnectionWrites(generation);
      if |entries| >= capacity {
        return false;
      }
      var value := Entry(nextId, text, true, generation);
      nextId := nextId + 1;
      if priority {
        entries := [value] + entries;
      } else {
        entries := entries + [value];
      }
      return true;
    }

    method DiscardConnectionWrites(generation: nat)
      requires Valid(View())
      modifies this`entries
      ensures View() == DiscardConnection(old(View()), generation) && Valid(View())
    {
      SweepValid(View(), generation, false);
      EraseIf(generation, false);
    }

    method DiscardStaleConnectionWrites(generation: nat)
      requires Valid(View())
      modifies this`entries
      ensures View() == DiscardStale(old(View()), generation) && Valid(View())
    {
      SweepValid(View(), generation, true);
      EraseIf(generation, true);
    }

    method Front() returns (front: Entry)
      requires entries != []
      ensures front == View().entries[0]
    {
      front := entries[0];
    }

    /** Erases the first entry with this payload; entries may have been pushed ahead of it. */
    method CompletePayload(id: nat)
      requires Valid(View())
      modifies this`entries
      ensures View() == Complete(old(View()), id) && Valid(View())
    {
      WithoutValid(View(), id);
      var k := 0;
      while k < |entries| && entries[k].id != id
        invariant 0 <= k <= |entries|
        invariant forall i :: 0 <= i < k ==> entries[i].id != id
      {
        k := k + 1;
      }
      assert FirstWith(entries, id) == k;
      if k < |entries| {
        entries := entries[..k] + entries[k + 1..];
      }
    }

    method ClearAll()
      modifies this`entries
      ensures View() == Clear(old(View()))
    {
      entries := [];
    }
  }
}
