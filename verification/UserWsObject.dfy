/**
  The user feed's wrapper as an object on top of its websocket client. Every
  method is a step of the joint machine, so the laws over its runs hold of the
  object.
 */
module UserWsObject {

  import opened Results
  import opened WsModel
  import opened WsSession
  import opened WsClientObject
  import opened UserFeed
  import opened UserFrames
  import opened UserSession

  /** The texts a change posts. */
  function Posts(add: seq<string>, remove: seq<string>): seq<string> {
    (if add == [] then [] else [Text(Dynamic(Subscribe(add)))])
    + (if remove == [] then [] else [Text(Dynamic(Unsubscribe(remove)))])
  }

  lemma {:induction false} TextsOfDelta(desired: seq<string>, active: seq<string>)
    ensures Texts(DeltaOps(desired, active)) == Posts(Minus(desired, active), Minus(active, desired))
  {
    var add, remove := Minus(desired, active), Minus(active, desired);
    TextsConcat(if add == [] then [] else [Subscribe(add)], if remove == [] then [] else [Unsubscribe(remove)]);
    TextsOfOne(Subscribe(add));
    TextsOfOne(Unsubscribe(remove));
  }

  lemma TextsOfOne(op: Operation)
    ensures Texts([op]) == [Text(Dynamic(op))]
  {
    assert [op][..0] == [];
  }

  class UserWs {
    const ws: WsClient
    const creds: Credentials
    var desired: seq<string>
    var active: seq<string>
    // posted to the client's strand
    var outbox: seq<string>
    // the joint machine, and the run that led here
    ghost var joint: Joint
    ghost var run: seq<JointEvent>

    ghost predicate Tied()
      reads this, ws, ws.queue
    {
      && ws.Sane()
      && Reached(creds, run, joint)
      && joint.client == ws.model && joint.creds == creds && joint.outbox == outbox
      && joint.feed.desired == desired && joint.feed.active == active
    }

    constructor (creds: Credentials)
      ensures Tied() && joint == NewJoint(creds) && fresh(ws) && fresh(ws.queue)
    {
      ws := new WsClient(true, PING, false);
      this.creds := creds;
      desired, active, outbox := [], [], [];
      joint, run := NewJoint(creds), [];
    }

    /** The machine makes a possible step. */
    ghost method Record(e: JointEvent)
      requires Reached(creds, run, joint) && JointEnabled(joint, e)
      modifies this`joint, this`run
      ensures Reached(creds, run, joint) && joint == JointStep(old(joint), e)
    {
      ReachedStep(creds, run, joint, e);
      joint := JointStep(joint, e);
      run := run + [e];
    }

    /** The full desired set becomes active; returns the frame to queue first. */
    method SendInitial() returns (text: string)
      requires Tied()
      modifies this`active
      ensures active == desired == old(desired) && FrameOf(text) == Some(Full(creds, desired))
      ensures text == Text(Full(creds, desired))
    {
      active := desired;
      text := Text(Full(creds, desired));
      ReadInvertsText(Full(creds, desired));
    }

    method Post(text: string)
      modifies this`outbox
      ensures outbox == old(outbox) + [text]
    {
      outbox := outbox + [text];
    }

    /** Additions first, each operation only if it names anything. */
    method PostDelta(add: seq<string>, remove: seq<string>)
      modifies this`outbox
      ensures outbox == old(outbox) + Posts(add, remove)
    {
      if add != [] {
        Post(Text(Dynamic(Subscribe(add))));
      }
      if remove != [] {
        Post(Text(Dynamic(Unsubscribe(remove))));
      }
    }

    /** While connected the difference to the active set is posted. */
    method SubscribeTo(ids: seq<string>)
      requires Tied()
      modifies this
      ensures Tied() && joint == JointStep(old(joint), Subscribing(ids, ws.connected))
    {
      if !ws.connected {
        Record(Subscribing(ids, false));
        desired := ids;
        return;
      }
      Record(Subscribing(ids, true));
      var add, remove := Delta(ids, active);
      TextsOfDelta(ids, active);
      desired := ids;
      active := ids;
      PostDelta(add, remove);
    }

    method Kick(env: Env)
      requires Tied()
      modifies this, ws, ws.queue
      ensures Tied() && joint == JointStep(old(joint), Strand(Event.Kick(env)))
    {
      StrandShape(joint, Event.Kick(env));
      ws.Kick(env);
      Record(Strand(Event.Kick(env)));
    }

    /** Changes the desired set without operations, then forces a reconnect. */
    method ReplaceSubscriptionAndReconnect(ids: seq<string>, env: Env)
      requires Tied()
      modifies this, ws, ws.queue
      ensures Tied()
      ensures joint == JointStep(JointStep(old(joint), Replacing(ids)), Strand(Event.Kick(env)))
    {
      Replace(ids);
      Kick(env);
    }

    method Replace(ids: seq<string>)
      requires Tied()
      modifies this
      ensures Tied() && joint == JointStep(old(joint), Replacing(ids))
    {
      Record(Replacing(ids));
      desired := ids;
    }

    /** The strand runs the oldest posted send. */
    method RunPosted()
      requires Tied() && outbox != []
      modifies this, ws, ws.queue
      ensures Tied() && joint == JointStep(old(joint), Posted)
    {
      PostedStep(creds, run, joint);
      ws.Send(outbox[0]);
      Record(Posted);
      outbox := outbox[1..];
    }

    method Start(env: Env)
      requires Tied() && !joint.client.started
      modifies this, ws, ws.queue
      ensures Tied() && joint == JointStep(old(joint), Strand(Event.Start(env)))
    {
      StrandShape(joint, Event.Start(env));
      ws.Start(env);
      Record(Strand(Event.Start(env)));
    }

    method Stop()
      requires Tied()
      modifies this, ws, ws.queue
      ensures Tied() && joint == JointStep(old(joint), Strand(Event.Stop))
    {
      StrandShape(joint, Event.Stop);
      ws.Stop();
      Record(Strand(Event.Stop));
    }

    /** The handshake succeeded: the wrapper's callback comes first. */
    method Open(actions: seq<Action>, env: Env)
      requires Tied() && Connecting(WsHandshake, ws.generation) in joint.client.pending && Plain(actions)
      modifies this, ws, ws.queue
      ensures Tied()
      ensures joint == OnStrand(old(joint), Done(Connecting(WsHandshake, old(ws.generation)), true, actions, env))
    {
      ghost var e := Done(Connecting(WsHandshake, ws.generation), true, actions, env);
      OpeningShape(joint, actions, env);
      var text := SendInitial();
      ws.Deliver(Connecting(WsHandshake, ws.generation), true, [Prioritize(text)] + actions, env);
      Record(Strand(e));
    }

    /** A completion of the client; the application's callbacks can kick and stop. */
    method Deliver(op: Op, ok: bool, actions: seq<Action>, env: Env)
      requires Tied() && op in joint.client.pending && (op == ReconnectWait(false) ==> ok) && Plain(actions)
      modifies this, ws, ws.queue
      ensures Tied() && joint == JointStep(old(joint), Strand(Done(op, ok, actions, env)))
    {
      if ok && op == Connecting(WsHandshake, ws.generation) {
        Open(actions, env);
      } else {
        ws.Deliver(op, ok, actions, env);
        Record(Strand(Done(op, ok, actions, env)));
      }
    }
  }
}
