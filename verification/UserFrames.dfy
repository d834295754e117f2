/**
  The texts of the user feed (pm/user_ws.cpp): the authenticated subscription to
  a full set and the dynamic operations, each a record written member by member,
  and what a server that looks members up by key makes of a text.
 */
module UserFrames {

  import opened Results
  import opened Json
  import opened UserFeed

  datatype Credentials = Credentials(apiKey: string, secret: string, passphrase: string)

  datatype Frame =
    | Full(creds: Credentials, ids: seq<string>)
    | Dynamic(op: Operation)

  // ------------------------------------------------------------------- printing

  function Strings(ids: seq<string>): (items: seq<Json>)
    ensures |items| == |ids| && forall i :: 0 <= i < |ids| ==> items[i] == Str(ids[i])
  {
    if ids == [] then [] else Strings(ids[..|ids| - 1]) + [Str(ids[|ids| - 1])]
  }

  function Auth(c: Credentials): Json {
    Object([Member("apiKey", Str(c.apiKey)), Member("secret", Str(c.secret)), Member("passphrase", Str(c.passphrase))])
  }

  function InitialSub(c: Credentials, ids: seq<string>): Json {
    Object([Member("auth", Auth(c)), Member("markets", List(Strings(ids))), Member("type", Str("user"))])
  }

  function Operate(operation: string, ids: seq<string>): Json {
    Object([Member("operation", Str(operation)), Member("markets", List(Strings(ids)))])
  }

  function JsonOf(frame: Frame): Json {
    match frame
    case Full(creds, ids) => InitialSub(creds, ids)
    case Dynamic(Subscribe(ids)) => Operate("subscribe", ids)
    case Dynamic(Unsubscribe(ids)) => Operate("unsubscribe", ids)
  }

  function Text(frame: Frame): string {
    Write(JsonOf(frame), "")
  }

  // -------------------------------------------------------------------- reading

  function TextOf(v: Option<Json>): Option<string> {
    if v.Some? && v.value.Str? then Some(v.value.text) else None
  }

  function TextsOf(items: seq<Json>): Option<seq<string>> {
    if items == [] then Some([])
    else
      var front, last := TextsOf(items[..|items| - 1]), items[|items| - 1];
      if front.None? || !last.Str? then None else Some(front.value + [last.text])
  }

  function IdsOf(v: Option<Json>): Option<seq<string>> {
    if v.Some? && v.value.List? then TextsOf(v.value.items) else None
  }

  function CredentialsOf(v: Option<Json>): Option<Credentials> {
    if v.None? then None
    else
      var k, s, p := TextOf(Get(v.value, "apiKey")), TextOf(Get(v.value, "secret")),
                     TextOf(Get(v.value, "passphrase"));
      if k.Some? && s.Some? && p.Some? then Some(Credentials(k.value, s.value, p.value)) else None
  }

  /** Members are looked up by key; an operation names itself, a full subscription has a type. */
  function Interpret(v: Json): Option<Frame> {
    var ids := IdsOf(Get(v, "markets"));
    var operation, kind := TextOf(Get(v, "operation")), TextOf(Get(v, "type"));
    var creds := CredentialsOf(Get(v, "auth"));
    if ids.None? then None
    else if operation == Some("subscribe") then Some(Dynamic(Subscribe(ids.value)))
    else if operation == Some("unsubscribe") then Some(Dynamic(Unsubscribe(ids.value)))
    else if kind == Some("user") && creds.Some? then Some(Full(creds.value, ids.value))
    else None
  }

  function FrameOf(text: string): Option<Frame> {
    var v := Parse(text);
    if v.None? then None else Interpret(v.value)
  }

  // ----------------------------------------------------------------------- laws

  lemma {:induction false} TextsBack(ids: seq<string>)
    ensures TextsOf(Strings(ids)) == Some(ids)
  {
    if ids != [] {
      var front := ids[..|ids| - 1];
      TextsBack(front);
      assert Strings(ids)[..|ids| - 1] == Strings(front);
      assert front + [ids[|ids| - 1]] == ids;
    }
  }

  lemma {:induction false} LookupHead(m: Member, rest: seq<Member>, key: string)
    ensures Lookup([m] + rest, key) == if m.key == key then Some(m.value) else Lookup(rest, key)
  {
    assert ([m] + rest)[1..] == rest;
  }

  lemma TwoMembers(a: Member, b: Member, key: string)
    ensures Get(Object([a, b]), key)
         == if a.key == key then Some(a.value) else if b.key == key then Some(b.value) else None
  {
    assert [a, b] == [a] + ([b] + []);
    LookupHead(a, [b] + [], key);
    LookupHead(b, [], key);
  }

  lemma ThreeMembers(a: Member, b: Member, c: Member, key: string)
    ensures Get(Object([a, b, c]), key)
         == if a.key == key then Some(a.value) else if b.key == key then Some(b.value)
            else if c.key == key then Some(c.value) else None
  {
    assert [a, b, c] == [a] + ([b] + ([c] + []));
    LookupHead(a, [b] + ([c] + []), key);
    LookupHead(b, [c] + [], key);
    LookupHead(c, [], key);
  }

  lemma {:induction false} OperateMembers(operation: string, ids: seq<string>)
    ensures var v := Operate(operation, ids);
            && Get(v, "operation") == Some(Str(operation)) && Get(v, "markets") == Some(List(Strings(ids)))
            && Get(v, "type") == None && Get(v, "auth") == None
  {
    var a, b := Member("operation", Str(operation)), Member("markets", List(Strings(ids)));
    TwoMembers(a, b, "operation");
    TwoMembers(a, b, "markets");
    TwoMembers(a, b, "type");
    TwoMembers(a, b, "auth");
  }

  lemma AuthMembers(c: Credentials)
    ensures Get(Auth(c), "apiKey") == Some(Str(c.apiKey)) && Get(Auth(c), "secret") == Some(Str(c.secret))
    ensures Get(Auth(c), "passphrase") == Some(Str(c.passphrase))
  {
    var k, s, p := Member("apiKey", Str(c.apiKey)), Member("secret", Str(c.secret)),
                   Member("passphrase", Str(c.passphrase));
    assert "apiKey"[0] != "secret"[0];
    ThreeMembers(k, s, p, "apiKey");
    ThreeMembers(k, s, p, "secret");
    ThreeMembers(k, s, p, "passphrase");
  }

  lemma {:induction false} InitialMembers(c: Credentials, ids: seq<string>)
    ensures var v := InitialSub(c, ids);
            && Get(v, "auth") == Some(Auth(c)) && Get(v, "markets") == Some(List(Strings(ids)))
            && Get(v, "type") == Some(Str("user")) && Get(v, "operation") == None
  {
    var a, b, t := Member("auth", Auth(c)), Member("markets", List(Strings(ids))), Member("type", Str("user"));
    assert "auth"[0] != "type"[0];
    ThreeMembers(a, b, t, "auth");
    ThreeMembers(a, b, t, "markets");
    ThreeMembers(a, b, t, "type");
    ThreeMembers(a, b, t, "operation");
  }

  /**
    What any JSON reader finds in the text of an operation: its own name under
    "operation" and exactly its ids under "markets".
   */
  lemma OperationSays(op: Operation)
    ensures var v := Parse(Text(Dynamic(op)));
            && v.Some?
            && Get(v.value, "operation") == Some(Str(if op.Subscribe? then "subscribe" else "unsubscribe"))
            && Get(v.value, "markets") == Some(List(Strings(op.ids)))
  {
    ParseInvertsWrite(JsonOf(Dynamic(op)));
    OperateMembers(if op.Subscribe? then "subscribe" else "unsubscribe", op.ids);
  }

  /** And in a full subscription: the three credentials, the ids and the channel. */
  lemma {:induction false} SubscriptionSays(c: Credentials, ids: seq<string>)
    ensures var v := Parse(Text(Full(c, ids)));
            && v.Some? && Get(v.value, "auth").Some?
            && Get(Get(v.value, "auth").value, "apiKey") == Some(Str(c.apiKey))
            && Get(Get(v.value, "auth").value, "secret") == Some(Str(c.secret))
            && Get(Get(v.value, "auth").value, "passphrase") == Some(Str(c.passphrase))
            && Get(v.value, "markets") == Some(List(Strings(ids)))
            && Get(v.value, "type") == Some(Str("user"))
  {
    ParseInvertsWrite(InitialSub(c, ids));
    InitialMembers(c, ids);
    AuthMembers(c);
  }

  lemma InterpretOperation(op: Operation)
    ensures Interpret(JsonOf(Dynamic(op))) == Some(Dynamic(op))
  {
    OperateMembers(if op.Subscribe? then "subscribe" else "unsubscribe", op.ids);
    TextsBack(op.ids);
  }

  lemma AuthBack(c: Credentials)
    ensures CredentialsOf(Some(Auth(c))) == Some(c)
  {
    AuthMembers(c);
  }

  lemma InterpretFull(c: Credentials, ids: seq<string>)
    ensures Interpret(InitialSub(c, ids)) == Some(Full(c, ids))
  {
    InitialMembers(c, ids);
    AuthBack(c);
    TextsBack(ids);
  }

  /** The server reads every printed frame back, for all credentials and all lists of ids. */
  lemma ReadInvertsText(frame: Frame)
    ensures FrameOf(Text(frame)) == Some(frame)
  {
    ParseInvertsWrite(JsonOf(frame));
    match frame
    case Full(creds, ids) => InterpretFull(creds, ids);
    case Dynamic(op) => InterpretOperation(op);
  }

  const PING := "PING"

  /** A keepalive is no frame of the feed. */
  lemma PingIsNoFrame()
    ensures PING == "PING" && FrameOf(PING) == None
  {
    assert PING[0] == 'P';
  }

  // ----------------------------------------------------------------------- bytes

  lemma PlainNames()
    ensures forall i :: 0 <= i < |"operation"| ==> "operation"[i] !in ESCAPES
    ensures forall i :: 0 <= i < |"markets"| ==> "markets"[i] !in ESCAPES
    ensures forall i :: 0 <= i < |"subscribe"| ==> "subscribe"[i] !in ESCAPES
    ensures forall i :: 0 <= i < |"unsubscribe"| ==> "unsubscribe"[i] !in ESCAPES
  {
  }

  /** Two string members and a list, as bytes. */
  function Bytes(key: string, name: string, key': string, list: string): string {
    "{\"" + (key + ("\":\"" + (name + ("\",\"" + (key' + ("\":" + list))))))
  }

  lemma Glue(rest: string)
    ensures "\"" + (":" + rest) == "\":" + rest
    ensures "\"" + ("," + ("\"" + rest)) == "\",\"" + rest
    ensures "\"" + (":" + ("\"" + rest)) == "\":\"" + rest
    ensures "{" + ("\"" + rest) == "{\"" + rest
  {
  }

  lemma WriteTwo(a: Member, b: Member)
    ensures Write(Object([a, b]), "")
         == "{" + Quoted(a.key, ":" + Write(a.value, "," + Quoted(b.key, ":" + Write(b.value, "}"))))
  {
    assert [a, b][1..] == [b];
    assert ['}'] + "" == "}";
    assert WriteMembers([b], "") == Quoted(b.key, ":" + Write(b.value, "}"));
  }

  lemma PlainBytes(key: string, name: string, key': string, list: string)
    requires forall i :: 0 <= i < |key| ==> key[i] !in ESCAPES
    requires forall i :: 0 <= i < |name| ==> name[i] !in ESCAPES
    requires forall i :: 0 <= i < |key'| ==> key'[i] !in ESCAPES
    ensures "{" + Quoted(key, ":" + Quoted(name, "," + Quoted(key', ":" + list))) == Bytes(key, name, key', list)
  {
    var tail := key' + ("\":" + list);
    PlainText(key', ":" + list);
    Glue(list);
    var middle := name + ("\",\"" + tail);
    PlainText(name, "," + ("\"" + tail));
    Glue(tail);
    var head := key + ("\":\"" + middle);
    PlainText(key, ":" + ("\"" + middle));
    Glue(middle);
    Glue(head);
  }

  /** The exact bytes of an operation around its list of ids. */
  lemma OperationBytes(op: Operation)
    ensures Text(Dynamic(op))
         == Bytes("operation", if op.Subscribe? then "subscribe" else "unsubscribe", "markets",
                  Write(List(Strings(op.ids)), "}"))
  {
    var name := if op.Subscribe? then "subscribe" else "unsubscribe";
    WriteTwo(Member("operation", Str(name)), Member("markets", List(Strings(op.ids))));
    PlainNames();
    PlainBytes("operation", name, "markets", Write(List(Strings(op.ids)), "}"));
  }
}
