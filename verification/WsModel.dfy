/**
  The reconnecting websocket client as a state machine (net/ws_client.cpp).
  All handlers run on one strand, so each is one atomic step. The outstanding
  asynchronous operations carry the generation they captured; any of them may
  complete at any time, successfully or not, however stale.
 */
module WsModel {

  import opened Results
  import opened WriteQueue

  datatype Stage = Resolve | TcpConnect | TlsHandshake | WsHandshake

  /** An asynchronous operation whose completion handler has not run yet. */
  datatype Op =
    | Connecting(stage: Stage, generation: nat)
    | Deadline(generation: nat)
    | Read(generation: nat)
    | Write(generation: nat, id: nat)
    | ReconnectWait(cancelled: bool)
    | KeepaliveWait

  /** A frame given to a socket. A socket is named by the generation that created it. */
  datatype Handoff = Handoff(socket: Option<nat>, generation: nat, entry: Entry)

  /** A scheduled reconnect: the backoff base, the delay armed, the reconnects since a frame. */
  datatype Schedule = Schedule(base: nat, delay: nat, byPolicy: bool, earlier: nat)

  const FIRST_DELAY: nat := 500
  const LAST_DELAY: nat := 30000

  datatype State = State(
    // the client's own fields
    stopped: bool,
    connected: bool,
    writing: bool,
    reconnectScheduled: bool,
    generation: nat,
    delay: nat,
    ws: Option<nat>,
    queue: Queue,
    keepalive: bool,
    keepaliveText: string,
    policy: bool,
    // the executor
    started: bool,
    pending: multiset<Op>,
    // history
    accepted: seq<Entry>,
    completed: seq<Entry>,
    dropped: seq<Entry>,
    wire: seq<Handoff>,
    schedules: seq<Schedule>,
    sinceFrame: nat,
    openedAt: map<nat, nat>)

  /** What the surroundings decide during a step: policy, hash seed and TLS setup. */
  datatype Env = Env(verdict: Option<int>, seed: nat, setupOk: bool)

  /** What an application callback may do on the strand. */
  datatype Action = Prioritize(text: string) | Drop | Retire

  datatype Event =
    | Start(env: Env)
    | Stop
    | Kick(env: Env)
    | Send(text: string)
    | SendFirst(text: string)
    | Done(op: Op, ok: bool, actions: seq<Action>, env: Env)

  function Initial(queue: Queue, keepalive: bool, keepaliveText: string, policy: bool): State {
    State(false, false, false, false, 0, FIRST_DELAY, None, queue, keepalive, keepaliveText, policy,
          false, multiset{}, [], [], [], [], [], 0, map[])
  }

  // ------------------------------------------------------------ building blocks

  function Min(a: nat, b: nat): nat {
    if a <= b then a else b
  }

  function Max(a: nat, b: nat): nat {
    if a >= b then a else b
  }

  /** Cancelling the reconnect timer: its waits will report an error, or have already expired. */
  function CancelWaits(pending: multiset<Op>): multiset<Op> {
    var armed, cancelled := pending[ReconnectWait(false)], pending[ReconnectWait(true)];
    pending[ReconnectWait(false) := 0][ReconnectWait(true) := cancelled + armed]
  }

  /** One more operation is outstanding. */
  function Await(s: State, op: Op): State {
    s.(pending := s.pending + multiset{op})
  }

  function StopClient(s: State): State {
    s.(stopped := true,
       connected := false,
       writing := false,
       queue := Clear(s.queue),
       generation := s.generation + 1,
       reconnectScheduled := false,
       pending := CancelWaits(s.pending),
       ws := None,
       policy := false,
       dropped := s.dropped + Retained(s.queue.entries))
  }

  function JitterWindow(base: nat): nat {
    Max(25, base / 5)
  }

  function BackoffDelay(base: nat, seed: nat): nat {
    Min(LAST_DELAY, base + seed % (JitterWindow(base) + 1))
  }

  /** The failure policy gives the client up. */
  predicate GivenUp(s: State, env: Env) {
    s.policy && (env.verdict.None? || env.verdict.value < 0)
  }

  function ReconnectDelay(s: State, env: Env): nat
    requires !GivenUp(s, env)
  {
    if s.policy then env.verdict.value else BackoffDelay(s.delay, env.seed)
  }

  function ScheduleReconnect(s: State, env: Env): State {
    if s.stopped || s.reconnectScheduled then s
    else if GivenUp(s, env) then StopClient(s)
    else Scheduled(s, ReconnectDelay(s, env))
  }

  /** The socket goes and the timer is armed; the next base doubles. */
  function Scheduled(s: State, delay: nat): State {
    s.(reconnectScheduled := true,
       ws := None,
       schedules := s.schedules + [Schedule(s.delay, delay, s.policy, s.sinceFrame)],
       sinceFrame := s.sinceFrame + 1,
       delay := Min(s.delay * 2, LAST_DELAY),
       pending := CancelWaits(s.pending) + multiset{ReconnectWait(false)})
  }

  /** Leaves the current connection: its frames go, and its operations become stale. */
  function Disconnect(s: State): State {
    s.(connected := false,
       writing := false,
       queue := DiscardConnection(s.queue, s.generation),
       generation := s.generation + 1)
  }

  function KickClient(s: State, env: Env): State {
    if s.ws.None? || s.stopped || !s.connected then s
    else ScheduleReconnect(Disconnect(s), env)
  }

  function Fail(s: State, generation: nat, env: Env): State {
    if s.stopped || generation != s.generation then s
    else ScheduleReconnect(Disconnect(s), env)
  }

  predicate CanWrite(s: State, generation: nat) {
    generation == s.generation && s.queue.entries != [] && s.connected
  }

  function Hand(s: State, socket: Option<nat>, generation: nat, front: Entry): State {
    s.(writing := true,
       pending := s.pending + multiset{Write(generation, front.id)},
       wire := s.wire + [Handoff(socket, generation, front)])
  }

  function DoWrite(s: State, socket: Option<nat>, generation: nat): State {
    if CanWrite(s, generation) then Hand(s, socket, generation, s.queue.entries[0]) else s.(writing := false)
  }

  function Flush(s: State): State {
    if s.connected && !s.writing then DoWrite(s, s.ws, s.generation) else s
  }

  /** The message is queued, and recorded as accepted. */
  function Accept(s: State, text: string): State {
    s.(queue := AddRetained(s.queue, text).0, accepted := s.accepted + [Message(s.queue, text)])
  }

  function SendRetained(s: State, text: string): State {
    if AddRetained(s.queue, text).1 then Flush(Accept(s, text)) else s
  }

  /** The frame is queued for the current connection, if there is room. */
  function PushFrame(s: State, text: string, priority: bool): State {
    s.(queue := AddConnection(s.queue, text, s.generation, priority).0)
  }

  function SendPriority(s: State, text: string): State {
    var pushed := PushFrame(s, text, true);
    if AddConnection(s.queue, text, s.generation, true).1 then Flush(pushed) else pushed
  }

  /** A new generation with a new socket. */
  function Renew(s: State): State {
    s.(reconnectScheduled := false,
       connected := false,
       writing := false,
       generation := s.generation + 1,
       ws := Some(s.generation + 1))
  }

  /** The connect stage's deadline and its first operation. */
  function FirstStep(s: State): State {
    s.(pending := s.pending + multiset{Deadline(s.generation), Connecting(Resolve, s.generation)})
  }

  function Skip(s: State): State {
    s.(generation := s.generation + 1)
  }

  function Connect(s: State, env: Env): State {
    if s.stopped then s
    else if !env.setupOk then ScheduleReconnect(Skip(Renew(s)), env)
    else FirstStep(Renew(s))
  }

  function ArmKeepalive(s: State): State {
    if s.keepalive then Await(s, KeepaliveWait) else s
  }

  function Perform(s: State, a: Action, env: Env): State {
    match a
    case Prioritize(text) => SendPriority(s, text)
    case Drop => KickClient(s, env)
    case Retire => StopClient(s)
  }

  function PerformAll(s: State, actions: seq<Action>, env: Env): State {
    if actions == [] then s
    else Perform(PerformAll(s, actions[..|actions| - 1], env), actions[|actions| - 1], env)
  }

  // ---------------------------------------------------------- completion handlers

  function OnConnecting(s: State, stage: Stage, g: nat, ok: bool, actions: seq<Action>, env: Env): State {
    if g != s.generation then s
    else if !ok then Fail(s, g, env)
    else
      match stage
      case Resolve => Await(s, Connecting(TcpConnect, g))
      case TcpConnect => Await(s, Connecting(TlsHandshake, g))
      case TlsHandshake => Await(s, Connecting(WsHandshake, g))
      case WsHandshake => OnOpened(s, g, actions, env)
  }

  /** The connection is up: stale frames go, the application reacts, then writing and reading begin. */
  function OnOpened(s: State, g: nat, actions: seq<Action>, env: Env): State {
    var s' := PerformAll(Opened(s, g), actions, env);
    if s'.stopped || g != s'.generation then s' else BeginSession(s', g)
  }

  function Opened(s: State, g: nat): State {
    s.(connected := true, queue := DiscardStale(s.queue, g), openedAt := s.openedAt[g := |s.completed|])
  }

  /** The write an opened client starts with, if none is outstanding. */
  function FirstWrite(s: State, g: nat): State {
    if s.queue.entries != [] && !s.writing then DoWrite(s, Some(g), g) else s
  }

  function BeginSession(s: State, g: nat): State {
    Await(ArmKeepalive(FirstWrite(s, g)), Read(g))
  }

  function OnDeadline(s: State, g: nat, ok: bool, env: Env): State {
    if !ok || s.stopped || g != s.generation || s.connected then s
    else ScheduleReconnect(Expire(s), env)
  }

  /** The connect stage ran out of time; queued frames stay until the next opening. */
  function Expire(s: State): State {
    s.(writing := false, generation := s.generation + 1)
  }

  function OnRead(s: State, g: nat, ok: bool, actions: seq<Action>, env: Env): State {
    if g != s.generation then s
    else if !ok then Fail(s, g, env)
    else
      var s' := PerformAll(Refreshed(s), actions, env);
      if s'.stopped || g != s'.generation then s' else Await(s', Read(g))
  }

  /** An application frame resets the backoff. */
  function Refreshed(s: State): State {
    s.(delay := FIRST_DELAY, sinceFrame := 0)
  }

  /** The history records a completed retained message. */
  function CompleteEntry(s: State, id: nat): State {
    var k := FirstWith(s.queue.entries, id);
    s.(queue := Complete(s.queue, id),
       completed := s.completed + (if k < |s.queue.entries| then Mark(s.queue.entries[k]) else []))
  }

  function OnWritten(s: State, g: nat, id: nat, ok: bool, env: Env): State {
    if g != s.generation then s
    else if !ok then Fail(s, g, env)
    else DoWrite(CompleteEntry(s, id), Some(g), g)
  }

  /** The timer is free again. */
  function Fired(s: State): State {
    s.(reconnectScheduled := false)
  }

  function OnReconnect(s: State, ok: bool, env: Env): State {
    if ok && !s.stopped then Connect(Fired(s), env) else s
  }

  function OnKeepalive(s: State, ok: bool): State {
    if !ok || s.stopped || !s.connected then s
    else ArmKeepalive(Flush(PushFrame(s, s.keepaliveText, false)))
  }

  // --------------------------------------------------------------------- runs

  /** Waits that nobody cancelled end without an error; everything else is free. */
  ghost predicate Enabled(s: State, e: Event) {
    match e
    case Start(_) => !s.started
    case Done(op, ok, _, _) => op in s.pending && (op == ReconnectWait(false) ==> ok)
    case _ => true
  }

  function Step(s: State, e: Event): State {
    match e
    case Start(env) => Connect(s.(started := true), env)
    case Stop => StopClient(s)
    case Kick(env) => KickClient(s, env)
    case Send(text) => SendRetained(s, text)
    case SendFirst(text) => SendPriority(s, text)
    case Done(op, ok, actions, env) => Handle(Taken(s, op), op, ok, actions, env)
  }

  /** The state with one outstanding operation taken out. */
  function Taken(s: State, op: Op): State {
    s.(pending := s.pending - multiset{op})
  }

  function Handle(s: State, op: Op, ok: bool, actions: seq<Action>, env: Env): State {
    match op
    case Connecting(stage, g) => OnConnecting(s, stage, g, ok, actions, env)
    case Deadline(g) => OnDeadline(s, g, ok, env)
    case Read(g) => OnRead(s, g, ok, actions, env)
    case Write(g, id) => OnWritten(s, g, id, ok, env)
    case ReconnectWait(_) => OnReconnect(s, ok, env)
    case KeepaliveWait => OnKeepalive(s, ok)
  }

  function Run(s: State, events: seq<Event>): State {
    if events == [] then s else Step(Run(s, events[..|events| - 1]), events[|events| - 1])
  }

  /** Every event of the run could happen when it did. */
  ghost predicate Possible(s: State, events: seq<Event>) {
    events == [] ||
    (Possible(s, events[..|events| - 1]) && Enabled(Run(s, events[..|events| - 1]), events[|events| - 1]))
  }

  /** A client as constructed, before anything ran. */
  ghost predicate Fresh(s: State) {
    s == Initial(Empty(s.queue.capacity, s.queue.reserve), s.keepalive, s.keepaliveText, s.policy)
  }
}
