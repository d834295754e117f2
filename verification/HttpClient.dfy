/**
  The retry loops of the HTTPS client (net/http_client.cpp) against any
  behaviour of the network. Signed writes must never be replayed once a byte of
  them may have left.
 */
module HttpClient {

  datatype WriteResult = Written(bytes: nat) | WriteFailed(bytes: nat)

  datatype ReadResult = Response(status: int, keepAlive: bool) | ReadFailed(bytes: nat) | BodyTooLarge

  /** What the network would do in one attempt: connect if asked, take the request, answer. */
  datatype Network = Network(connects: bool, write: WriteResult, read: ReadResult)

  datatype TransferStage = WriteStage | ReadStage

  /** The two kinds of exception the loops tell apart. */
  datatype Failure = TransferFailure(stage: TransferStage, transferred: nat) | OtherFailure

  datatype Outcome = Answered(status: int) | Thrown(failure: Failure)

  /** One attempt: the request bytes that left the process, and how it ended. */
  datatype Attempt = Attempt(sent: nat, outcome: Outcome)

  /** An attempt and whether a stream object is left behind. */
  datatype Tried = Tried(attempt: Attempt, open: bool)

  /** A connect that fails has already created its stream object. */
  function Try(open: bool, net: Network): Tried {
    if !open && !net.connects then Tried(Attempt(0, Thrown(OtherFailure)), true)
    else
      match net.write
      case WriteFailed(n) => Tried(Attempt(n, Thrown(TransferFailure(WriteStage, n))), true)
      case Written(n) =>
        match net.read
        case ReadFailed(m) => Tried(Attempt(n, Thrown(TransferFailure(ReadStage, m))), true)
        case BodyTooLarge => Tried(Attempt(n, Thrown(OtherFailure)), true)
        case Response(status, keepAlive) => Tried(Attempt(n, Answered(status)), keepAlive)
  }

  /** The attempts of one call, in order, and the stream it leaves. */
  datatype Trace = Trace(attempts: seq<Attempt>, open: bool) {
    function Result(): Outcome
      requires attempts != []
    {
      attempts[|attempts| - 1].outcome
    }
  }

  /** A failure of this kind is reported before any request byte was written. */
  predicate Unsent(o: Outcome) {
    o == Thrown(TransferFailure(WriteStage, 0))
  }

  /** The attempts of the loop from a given one on; `again` says which failures repeat. */
  function Loop(env: nat -> Network, open: bool, attempt: nat, last: nat, unsentOnly: bool): Trace
    requires attempt <= last
    decreases last - attempt
  {
    var t := Try(open, env(attempt));
    if t.attempt.outcome.Answered? then Trace([t.attempt], t.open)
    else if attempt < last && (unsentOnly ==> Unsent(t.attempt.outcome)) then
      var rest := Loop(env, false, attempt + 1, last, unsentOnly);
      Trace([t.attempt] + rest.attempts, rest.open)
    else Trace([t.attempt], false)
  }

  /** request_once: one more attempt, and only after an unsent write. */
  function Once(env: nat -> Network, open: bool): Trace {
    Loop(env, open, 0, 1, true)
  }

  /** request: up to retryCount more attempts, after any failure. */
  function Many(env: nat -> Network, open: bool, retryCount: nat): Trace {
    Loop(env, open, 0, retryCount, false)
  }

  /** Two attempts put bytes of the request on the wire. */
  ghost predicate Replays(t: Trace) {
    exists i, j :: 0 <= i < j < |t.attempts| && t.attempts[i].sent > 0 && t.attempts[j].sent > 0
  }

  // ---------------------------------------------------------------------- laws

  /** The shape of every trace: failures, then one final attempt. */
  lemma {:induction false} LoopShape(env: nat -> Network, open: bool, attempt: nat, last: nat, unsentOnly: bool)
    requires attempt <= last
    ensures var t := Loop(env, open, attempt, last, unsentOnly);
            && 1 <= |t.attempts| <= last - attempt + 1
            && (forall i :: 0 <= i < |t.attempts| - 1 ==>
                  t.attempts[i].outcome.Thrown? && (unsentOnly ==> Unsent(t.attempts[i].outcome)))
            && (t.Result().Thrown? ==> !t.open)
            && (t.Result().Thrown? ==>
                  |t.attempts| == last - attempt + 1 || (unsentOnly && !Unsent(t.Result())))
    decreases last - attempt
  {
    var t := Try(open, env(attempt));
    if !t.attempt.outcome.Answered? && attempt < last && (unsentOnly ==> Unsent(t.attempt.outcome)) {
      LoopShape(env, false, attempt + 1, last, unsentOnly);
    }
  }

  /** An unsent attempt put nothing on the wire. */
  lemma {:induction false} UnsentSendsNothing(env: nat -> Network, open: bool, attempt: nat, last: nat,
                                              unsentOnly: bool, i: nat)
    requires attempt <= last && i < |Loop(env, open, attempt, last, unsentOnly).attempts|
    requires Unsent(Loop(env, open, attempt, last, unsentOnly).attempts[i].outcome)
    ensures Loop(env, open, attempt, last, unsentOnly).attempts[i].sent == 0
    decreases last - attempt
  {
    var t := Try(open, env(attempt));
    if i > 0 {
      UnsentSendsNothing(env, false, attempt + 1, last, unsentOnly, i - 1);
    }
  }

  /**
    A signed write is never replayed: at most two attempts, at most one of which
    puts bytes on the wire, no attempt after a read failure or a partial write,
    and no stream left behind by a throwing exit.
   */
  lemma NoReplay(env: nat -> Network, open: bool)
    ensures var t := Once(env, open);
            && 1 <= |t.attempts| <= 2
            && (forall i :: 0 <= i < |t.attempts| - 1 ==> t.attempts[i].sent == 0 && Unsent(t.attempts[i].outcome))
            && !Replays(t)
            && (t.Result().Thrown? ==> !t.open)
  {
    var t := Once(env, open);
    LoopShape(env, open, 0, 1, true);
    forall i | 0 <= i < |t.attempts| - 1
      ensures t.attempts[i].sent == 0
    {
      UnsentSendsNothing(env, open, 0, 1, true, i);
    }
  }

  /** The second attempt happens exactly when the first write failed with nothing sent. */
  lemma RetriesExactlyWhenUnsent(env: nat -> Network, open: bool)
    ensures |Once(env, open).attempts| == 2
       <==> (open || env(0).connects) && env(0).write == WriteFailed(0)
  {
    var first := Try(open, env(0));
    if Unsent(first.attempt.outcome) {
      LoopShape(env, false, 1, 1, true);
      assert |Loop(env, false, 1, 1, true).attempts| == 1;
    }
  }

  /** The attempt is what this network does to a connected or unconnected client. */
  ghost predicate Explains(a: Attempt, net: Network, open: bool) {
    match a.outcome
    case Answered(status) =>
      && (open || net.connects) && net.read.Response? && net.read.status == status
      && net.write == Written(a.sent)
    case Thrown(OtherFailure) =>
      || (!open && !net.connects && a.sent == 0)
      || ((open || net.connects) && net.write == Written(a.sent) && net.read == BodyTooLarge)
    case Thrown(TransferFailure(WriteStage, n)) => (open || net.connects) && net.write == WriteFailed(n) && a.sent == n
    case Thrown(TransferFailure(ReadStage, n)) =>
      (open || net.connects) && net.write == Written(a.sent) && net.read == ReadFailed(n)
  }

  lemma AttemptExplained(open: bool, net: Network)
    ensures Explains(Try(open, net).attempt, net, open)
  {
  }

  /** Every attempt is explained by the network of its number; only the first may find a stream open. */
  lemma {:induction false} AttemptsExplained(env: nat -> Network, open: bool, attempt: nat, last: nat, unsentOnly: bool,
                          i: nat)
    requires attempt <= last && i < |Loop(env, open, attempt, last, unsentOnly).attempts|
    ensures Explains(Loop(env, open, attempt, last, unsentOnly).attempts[i], env(attempt + i), open && i == 0)
    decreases last - attempt
  {
    AttemptExplained(open, env(attempt));
    if i > 0 {
      AttemptsExplained(env, false, attempt + 1, last, unsentOnly, i - 1);
    }
  }

  /** An answer is the network's own, and its stream stays open exactly when it may be kept alive. */
  lemma {:induction false} AnswerIsTheNetworks(env: nat -> Network, open: bool, attempt: nat, last: nat,
                            unsentOnly: bool)
    requires attempt <= last && Loop(env, open, attempt, last, unsentOnly).attempts != []
    requires Loop(env, open, attempt, last, unsentOnly).Result().Answered?
    ensures var t := Loop(env, open, attempt, last, unsentOnly);
            env(attempt + |t.attempts| - 1).read == Response(t.Result().status, t.open)
    decreases last - attempt
  {
    var t := Try(open, env(attempt));
    if !t.attempt.outcome.Answered? && attempt < last && (unsentOnly ==> Unsent(t.attempt.outcome)) {
      LoopShape(env, false, attempt + 1, last, unsentOnly);
      AnswerIsTheNetworks(env, false, attempt + 1, last, unsentOnly);
    }
  }

  /** The general loop stops at the first answer, or after retryCount + 1 failures with the stream closed. */
  lemma BoundedRetries(env: nat -> Network, open: bool, retryCount: nat)
    ensures var t := Many(env, open, retryCount);
            && 1 <= |t.attempts| <= retryCount + 1
            && (forall i :: 0 <= i < |t.attempts| - 1 ==> t.attempts[i].outcome.Thrown?)
            && (t.Result().Thrown? ==> |t.attempts| == retryCount + 1 && !t.open)
  {
    LoopShape(env, open, 0, retryCount, false);
  }

  /** The network that takes every request and loses every answer. */
  const LOSSY := Network(true, Written(80), ReadFailed(0))

  lemma {:induction false} LostAttempt(env: nat -> Network, open: bool, attempt: nat, last: nat)
    requires attempt <= last && env(attempt) == LOSSY
    ensures Loop(env, open, attempt, last, false).attempts != []
    ensures Loop(env, open, attempt, last, false).attempts[0].sent == 80
  {
  }

  /** The general loop does replay with any retry allowed: a lost answer sends the same request again. */
  lemma RetryCanReplay(open: bool, retryCount: nat)
    requires retryCount > 0
    ensures Replays(Many((_: nat) => LOSSY, open, retryCount))
  {
    var env := (_: nat) => LOSSY;
    var t, rest := Many(env, open, retryCount), Loop(env, false, 1, retryCount, false);
    LostAttempt(env, false, 1, retryCount);
    assert t.attempts == [Try(open, LOSSY).attempt] + rest.attempts;
    assert t.attempts[0].sent > 0 && t.attempts[1].sent > 0;
  }

  /**
    The general loop sends a request at most once, whatever the network does and
    whether or not a stream is open, exactly when no retry is allowed.
   */
  lemma SentOnceExactlyWithoutRetries(open: bool, retryCount: nat)
    ensures (forall env: nat -> Network :: !Replays(Many(env, open, retryCount))) <==> retryCount == 0
  {
    if retryCount == 0 {
      forall env: nat -> Network
        ensures !Replays(Many(env, open, retryCount))
      {
        LoopShape(env, open, 0, 0, false);
      }
    } else {
      RetryCanReplay(open, retryCount);
    }
  }

  // ---------------------------------------------------------------- the client

  /** What was attempted so far, followed by the rest, is the whole trace. */
  ghost predicate Ahead(whole: Trace, done: seq<Attempt>, rest: Trace) {
    whole == Trace(done + rest.attempts, rest.open)
  }

  lemma Nothing(whole: Trace)
    ensures Ahead(whole, [], whole)
  {
    assert [] + whole.attempts == whole.attempts;
  }

  /** The loop tries again after this attempt. */
  predicate Repeats(outcome: Outcome, attempt: nat, last: nat, unsentOnly: bool) {
    outcome.Thrown? && attempt < last && (unsentOnly ==> Unsent(outcome))
  }

  /** One attempt: the trace ends with it, or goes on behind it. */
  lemma OneMore(env: nat -> Network, open: bool, attempt: nat, last: nat, unsentOnly: bool,
                whole: Trace, done: seq<Attempt>)
    requires attempt <= last && Ahead(whole, done, Loop(env, open, attempt, last, unsentOnly))
    ensures var t := Try(open, env(attempt));
            if Repeats(t.attempt.outcome, attempt, last, unsentOnly)
            then Ahead(whole, done + [t.attempt], Loop(env, false, attempt + 1, last, unsentOnly))
            else whole == Trace(done + [t.attempt], t.attempt.outcome.Answered? && t.open)
  {
    var a := Try(open, env(attempt)).attempt;
    if Repeats(a.outcome, attempt, last, unsentOnly) {
      var rest := Loop(env, false, attempt + 1, last, unsentOnly);
      assert done + ([a] + rest.attempts) == (done + [a]) + rest.attempts;
    }
  }

  class HttpsClient {
    var stream: bool
    const retryCount: nat

    constructor (retryCount: nat)
      ensures !stream && this.retryCount == retryCount
    {
      stream := false;
      this.retryCount := retryCount;
    }

    method Connect(connects: bool) returns (ok: bool)
      modifies this
      ensures stream && ok == connects
    {
      Close();
      stream := true;
      ok := connects;
    }

    method Close()
      modifies this
      ensures !stream
    {
      if stream {
        stream := false;
      }
    }

    method DoRequest(net: Network) returns (attempt: Attempt)
      modifies this
      ensures Tried(attempt, stream) == Try(old(stream), net)
    {
      if !stream {
        var ok := Connect(net.connects);
        if !ok {
          return Attempt(0, Thrown(OtherFailure));
        }
      }
      match net.write {
        case WriteFailed(n) => return Attempt(n, Thrown(TransferFailure(WriteStage, n)));
        case Written(n) =>
          match net.read {
            case BodyTooLarge => return Attempt(n, Thrown(OtherFailure));
            case ReadFailed(m) => return Attempt(n, Thrown(TransferFailure(ReadStage, m)));
            case Response(status, keepAlive) =>
              if !keepAlive {
                Close();
              }
              return Attempt(n, Answered(status));
          }
      }
    }

    method Request(env: nat -> Network) returns (attempts: seq<Attempt>)
      modifies this
      ensures Trace(attempts, stream) == Many(env, old(stream), retryCount)
    {
      ghost var whole := Many(env, stream, retryCount);
      attempts := [];
      var attempt := 0;
      Nothing(whole);
      while true
        invariant 0 <= attempt <= retryCount
        invariant Ahead(whole, attempts, Loop(env, stream, attempt, retryCount, false))
        decreases retryCount - attempt
      {
        ghost var was := stream;
        var a := DoRequest(env(attempt));
        OneMore(env, was, attempt, retryCount, false, whole, attempts);
        attempts := attempts + [a];
        if a.outcome.Answered? {
          return;
        }
        Close();
        if attempt >= retryCount {
          return;
        }
        attempt := attempt + 1;
      }
    }

    method RequestOnce(env: nat -> Network) returns (attempts: seq<Attempt>)
      modifies this
      ensures Trace(attempts, stream) == Once(env, old(stream))
    {
      ghost var whole := Once(env, stream);
      attempts := [];
      var attempt := 0;
      Nothing(whole);
      while true
        invariant 0 <= attempt <= 1
        invariant Ahead(whole, attempts, Loop(env, stream, attempt, 1, true))
        decreases 1 - attempt
      {
        ghost var was := stream;
        var a := DoRequest(env(attempt));
        OneMore(env, was, attempt, 1, true, whole, attempts);
        attempts := attempts + [a];
        if a.outcome.Answered? {
          return;
        }
        Close();
        match a.outcome.failure {
          case TransferFailure(stage, transferred) =>
            if attempt == 0 && stage == WriteStage && transferred == 0 {
              attempt := attempt + 1;
              continue;
            }
            return;
          case OtherFailure => return;
        }
      }
    }
  }
}
