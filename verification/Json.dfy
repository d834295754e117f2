/**
  JSON texts of strings, lists and objects (RFC 8259): a writer and a reader that
  know nothing of any message. The writer takes the text that follows.
 */
module Json {

  import opened Results

  datatype Json = Str(text: string) | List(items: seq<Json>) | Object(members: seq<Member>)

  datatype Member = Member(key: string, value: Json)

  /** The value of the first member with this key. */
  function Get(v: Json, key: string): Option<Json> {
    if v.Object? then Lookup(v.members, key) else None
  }

  function Lookup(members: seq<Member>, key: string): Option<Json> {
    if members == [] then None
    else if members[0].key == key then Some(members[0].value)
    else Lookup(members[1..], key)
  }

  // -------------------------------------------------------------------- writing

  /** The letter after the backslash, for the characters that are escaped. */
  const ESCAPES: map<char, char> :=
    map['\"' := '\"', '\\' := '\\', 8 as char := 'b', 12 as char := 'f', '\n' := 'n', '\r' := 'r', '\t' := 't']

  function Chars(s: string, rest: string): string {
    if s == "" then ['\"'] + rest
    else (if s[0] in ESCAPES then ['\\', ESCAPES[s[0]]] else [s[0]]) + Chars(s[1..], rest)
  }

  function Quoted(s: string, rest: string): string {
    ['\"'] + Chars(s, rest)
  }

  function Write(v: Json, rest: string): string
    decreases v
  {
    match v
    case Str(s) => Quoted(s, rest)
    case List(items) => ['['] + (if items == [] then [']'] + rest else WriteItems(items, rest))
    case Object(members) => ['{'] + (if members == [] then ['}'] + rest else WriteMembers(members, rest))
  }

  function WriteItems(items: seq<Json>, rest: string): string
    requires items != []
    decreases items
  {
    Write(items[0], if |items| == 1 then [']'] + rest else [','] + WriteItems(items[1..], rest))
  }

  function WriteMembers(members: seq<Member>, rest: string): string
    requires members != []
    decreases members
  {
    var more := if |members| == 1 then ['}'] + rest else [','] + WriteMembers(members[1..], rest);
    Quoted(members[0].key, [':'] + Write(members[0].value, more))
  }

  // -------------------------------------------------------------------- reading

  /** What was read, and the text after it. */
  datatype Reading<T> = Reading(value: T, rest: string)

  /** Section 7: what a letter after a backslash stands for. */
  function Unescape(c: char): Option<char> {
    if c == '\"' || c == '\\' || c == '/' then Some(c)
    else if c == 'b' then Some(0x08 as char)
    else if c == 'f' then Some(0x0C as char)
    else if c == 'n' then Some(0x0A as char)
    else if c == 'r' then Some(0x0D as char)
    else if c == 't' then Some(0x09 as char)
    else None
  }

  /** Up to the closing quote. */
  function ReadChars(t: string): (r: Option<Reading<string>>)
    ensures r.Some? ==> |r.value.rest| < |t|
  {
    if t == "" then None
    else if t[0] == '\"' then Some(Reading("", t[1..]))
    else if t[0] != '\\' then Push(t[0], ReadChars(t[1..]))
    else if |t| >= 2 && Unescape(t[1]).Some? then Push(Unescape(t[1]).value, ReadChars(t[2..]))
    else None
  }

  function Push(c: char, r: Option<Reading<string>>): Option<Reading<string>> {
    if r.None? then None else Some(Reading([c] + r.value.value, r.value.rest))
  }

  function ReadQuoted(t: string): (r: Option<Reading<string>>)
    ensures r.Some? ==> |r.value.rest| < |t|
  {
    if t != "" && t[0] == '\"' then ReadChars(t[1..]) else None
  }

  function ReadValue(t: string): (r: Option<Reading<Json>>)
    ensures r.Some? ==> |r.value.rest| < |t|
    decreases |t|, 0
  {
    if t == "" then None
    else if t[0] == '\"' then
      var s := ReadQuoted(t);
      if s.None? then None else Some(Reading(Str(s.value.value), s.value.rest))
    else if t[0] == '[' then
      if |t| >= 2 && t[1] == ']' then Some(Reading(List([]), t[2..]))
      else
        var l := ReadItems(t[1..]);
        if l.None? then None else Some(Reading(List(l.value.value), l.value.rest))
    else if t[0] == '{' then
      if |t| >= 2 && t[1] == '}' then Some(Reading(Object([]), t[2..]))
      else
        var o := ReadMembers(t[1..]);
        if o.None? then None else Some(Reading(Object(o.value.value), o.value.rest))
    else None
  }

  function ReadItems(t: string): (r: Option<Reading<seq<Json>>>)
    ensures r.Some? ==> |r.value.rest| < |t|
    decreases |t|, 1
  {
    var first := ReadValue(t);
    if first.None? || first.value.rest == "" then None
    else if first.value.rest[0] == ']' then Some(Reading([first.value.value], first.value.rest[1..]))
    else if first.value.rest[0] != ',' then None
    else
      var more := ReadItems(first.value.rest[1..]);
      if more.None? then None else Some(Reading([first.value.value] + more.value.value, more.value.rest))
  }

  function ReadMember(t: string): (r: Option<Reading<Member>>)
    ensures r.Some? ==> |r.value.rest| < |t|
    decreases |t|, 1
  {
    var key := ReadQuoted(t);
    if key.None? || key.value.rest == "" || key.value.rest[0] != ':' then None
    else
      var v := ReadValue(key.value.rest[1..]);
      if v.None? then None else Some(Reading(Member(key.value.value, v.value.value), v.value.rest))
  }

  function ReadMembers(t: string): (r: Option<Reading<seq<Member>>>)
    ensures r.Some? ==> |r.value.rest| < |t|
    decreases |t|, 2
  {
    var first := ReadMember(t);
    if first.None? || first.value.rest == "" then None
    else if first.value.rest[0] == '}' then Some(Reading([first.value.value], first.value.rest[1..]))
    else if first.value.rest[0] != ',' then None
    else
      var more := ReadMembers(first.value.rest[1..]);
      if more.None? then None else Some(Reading([first.value.value] + more.value.value, more.value.rest))
  }

  /** A text that is one value and nothing more. */
  function Parse(t: string): Option<Json> {
    var r := ReadValue(t);
    if r.Some? && r.value.rest == "" then Some(r.value.value) else None
  }

  // ------------------------------------------------------------------ round trip

  lemma EscapeInverts(c: char)
    requires c in ESCAPES
    ensures Unescape(ESCAPES[c]) == Some(c)
  {
  }

  lemma PlainChar(c: char)
    requires c !in ESCAPES
    ensures c != '\"' && c != '\\'
  {
  }

  lemma {:induction false} ReadCharsBack(s: string, rest: string)
    ensures ReadChars(Chars(s, rest)) == Some(Reading(s, rest))
  {
    var t := Chars(s, rest);
    if s == "" {
      assert t[1..] == rest;
    } else {
      var more := Chars(s[1..], rest);
      ReadCharsBack(s[1..], rest);
      assert [s[0]] + s[1..] == s;
      if s[0] in ESCAPES {
        EscapeInverts(s[0]);
        assert t[2..] == more;
      } else {
        PlainChar(s[0]);
        assert t[1..] == more;
      }
    }
  }

  lemma ReadQuotedBack(s: string, rest: string)
    ensures ReadQuoted(Quoted(s, rest)) == Some(Reading(s, rest))
  {
    assert Quoted(s, rest)[1..] == Chars(s, rest);
    ReadCharsBack(s, rest);
  }

  /** A value starts with a quote or an opening bracket. */
  lemma {:induction false} Starts(v: Json, rest: string)
    ensures Write(v, rest) != ""
    ensures Write(v, rest)[0] == match v case Str(_) => '\"' case List(_) => '[' case Object(_) => '{'
  {
  }

  lemma {:induction false} ItemsStart(items: seq<Json>, rest: string)
    requires items != []
    ensures WriteItems(items, rest) != "" && WriteItems(items, rest)[0] in {'\"', '[', '{'}
  {
    Starts(items[0], if |items| == 1 then [']'] + rest else [','] + WriteItems(items[1..], rest));
  }

  lemma {:induction false} ReadListBack(items: seq<Json>, rest: string)
    requires items != [] && ReadItems(WriteItems(items, rest)) == Some(Reading(items, rest))
    ensures ReadValue(Write(List(items), rest)) == Some(Reading(List(items), rest))
  {
    ItemsStart(items, rest);
    assert Write(List(items), rest)[1..] == WriteItems(items, rest);
  }

  lemma {:induction false} ReadObjectBack(members: seq<Member>, rest: string)
    requires members != [] && ReadMembers(WriteMembers(members, rest)) == Some(Reading(members, rest))
    ensures ReadValue(Write(Object(members), rest)) == Some(Reading(Object(members), rest))
  {
    assert Write(Object(members), rest)[1..] == WriteMembers(members, rest);
    assert WriteMembers(members, rest)[0] == '\"';
  }

  lemma {:induction false} ReadWritten(v: Json, rest: string)
    ensures ReadValue(Write(v, rest)) == Some(Reading(v, rest))
    decreases v
  {
    match v
    case Str(s) => ReadQuotedBack(s, rest);
    case List(items) =>
      if items == [] {
        assert Write(v, rest)[2..] == rest;
      } else {
        ReadItemsBack(items, rest);
        ReadListBack(items, rest);
      }
    case Object(members) =>
      if members == [] {
        assert Write(v, rest)[2..] == rest;
      } else {
        ReadMembersBack(members, rest);
        ReadObjectBack(members, rest);
      }
  }

  lemma {:induction false} ReadItemsBack(items: seq<Json>, rest: string)
    requires items != []
    ensures ReadItems(WriteItems(items, rest)) == Some(Reading(items, rest))
    decreases items
  {
    if |items| == 1 {
      ReadWritten(items[0], [']'] + rest);
      assert ([']'] + rest)[1..] == rest;
      assert items == [items[0]];
    } else {
      var more := WriteItems(items[1..], rest);
      ReadWritten(items[0], [','] + more);
      assert ([','] + more)[1..] == more;
      ReadItemsBack(items[1..], rest);
      assert items == [items[0]] + items[1..];
    }
  }

  lemma {:induction false} ReadMemberBack(m: Member, rest: string)
    requires ReadValue(Write(m.value, rest)) == Some(Reading(m.value, rest))
    ensures ReadMember(Quoted(m.key, [':'] + Write(m.value, rest))) == Some(Reading(m, rest))
  {
    ReadQuotedBack(m.key, [':'] + Write(m.value, rest));
    assert ([':'] + Write(m.value, rest))[1..] == Write(m.value, rest);
  }

  lemma {:induction false} LastMember(m: Member, rest: string)
    requires ReadMember(WriteMembers([m], rest)) == Some(Reading(m, ['}'] + rest))
    ensures ReadMembers(WriteMembers([m], rest)) == Some(Reading([m], rest))
  {
    assert (['}'] + rest)[1..] == rest;
  }

  lemma {:induction false} FirstMember(t: string, m: Member, members: seq<Member>, more: string, rest: string)
    requires ReadMember(t) == Some(Reading(m, [','] + more))
    requires ReadMembers(more) == Some(Reading(members, rest))
    ensures ReadMembers(t) == Some(Reading([m] + members, rest))
  {
    assert ([','] + more)[1..] == more;
  }

  lemma {:induction false} ReadMembersBack(members: seq<Member>, rest: string)
    requires members != []
    ensures ReadMembers(WriteMembers(members, rest)) == Some(Reading(members, rest))
    decreases members
  {
    var m, t := members[0], WriteMembers(members, rest);
    if |members| == 1 {
      assert members == [m];
      ReadWritten(m.value, ['}'] + rest);
      ReadMemberBack(m, ['}'] + rest);
      LastMember(m, rest);
    } else {
      var more := WriteMembers(members[1..], rest);
      ReadWritten(m.value, [','] + more);
      ReadMemberBack(m, [','] + more);
      ReadMembersBack(members[1..], rest);
      FirstMember(t, m, members[1..], more, rest);
      assert members == [m] + members[1..];
    }
  }

  /** Reading inverts writing, for every value. */
  lemma {:induction false} ParseInvertsWrite(v: Json)
    ensures Parse(Write(v, "")) == Some(v)
  {
    ReadWritten(v, "");
  }

  // ----------------------------------------------------------------------- bytes

  /** A string without escapes is written as it is. */
  lemma PlainText(s: string, rest: string)
    requires forall i :: 0 <= i < |s| ==> s[i] !in ESCAPES
    ensures Quoted(s, rest) == "\"" + (s + ("\"" + rest))
  {
    PlainChars(s, rest);
  }

  lemma {:induction false} PlainChars(s: string, rest: string)
    requires forall i :: 0 <= i < |s| ==> s[i] !in ESCAPES
    ensures Chars(s, rest) == s + ("\"" + rest)
  {
    if s != "" {
      PlainChars(s[1..], rest);
      assert s == [s[0]] + s[1..];
    }
  }
}
