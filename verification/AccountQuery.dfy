/**
  Request targets of the account client (pm/account_rest.cpp): a query printer
  with percent-encoding, and the parser that inverts it (sections 2.1, 2.3 and
  3.4 of RFC 3986).
 */
module AccountQuery {

  import opened Results

  /** A byte, written as the character with its code. */
  type Octet = c: char | c as int < 256 witness 'a'
  type Text = seq<Octet>

  // ----------------------------------------------------------- percent encoding

  predicate Unreserved(c: Octet) {
    '0' <= c <= '9' || 'a' <= c <= 'z' || 'A' <= c <= 'Z' || c == '-' || c == '_' || c == '.' || c == '~'
  }

  function HexChar(n: nat): Octet
    requires n < 16
  {
    if n < 10 then ('0' as int + n) as char else ('A' as int + (n - 10)) as char
  }

  function HexOf(c: Octet): Option<nat> {
    if '0' <= c <= '9' then Some(c as int - '0' as int)
    else if 'A' <= c <= 'F' then Some(c as int - 'A' as int + 10)
    else if 'a' <= c <= 'f' then Some(c as int - 'a' as int + 10)
    else None
  }

  function EncodeOctet(c: Octet): Text {
    if Unreserved(c) then [c] else ['%', HexChar(c as int / 16), HexChar(c as int % 16)]
  }

  function Encode(value: Text): Text {
    if value == [] then [] else Encode(value[..|value| - 1]) + EncodeOctet(value[|value| - 1])
  }

  /** Section 2.3: letters, digits, hyphen, period, underscore and tilde, by their codes. */
  predicate UnreservedCode(n: nat) {
    65 <= n <= 90 || 97 <= n <= 122 || 48 <= n <= 57 || n == 45 || n == 46 || n == 95 || n == 126
  }

  const HEX_DIGITS: string := "0123456789ABCDEF"

  /** Exactly the unreserved characters are copied; any other is escaped with upper-case digits. */
  lemma EncodingExactly(c: Octet)
    ensures Encode([c]) == if UnreservedCode(c as int) then [c]
                           else ['%', HEX_DIGITS[c as int / 16], HEX_DIGITS[c as int % 16]]
  {
    assert [c][..0] == [];
    HexDigit(c as int / 16);
    HexDigit(c as int % 16);
  }

  lemma HexDigit(n: nat)
    requires n < 16
    ensures HexChar(n) == HEX_DIGITS[n]
  {
  }

  /** Section 2.1: an escape stands for the octet its two hex digits name. */
  function Decode(s: Text): Option<Text> {
    if s == [] then Some([])
    else if s[0] != '%' then
      match Decode(s[1..]) case None => None case Some(rest) => Some([s[0]] + rest)
    else if |s| < 3 || HexOf(s[1]).None? || HexOf(s[2]).None? then None
    else
      var c := OctetOf(HexOf(s[1]).value, HexOf(s[2]).value);
      match Decode(s[3..]) case None => None case Some(rest) => Some([c] + rest)
  }

  function OctetOf(hi: nat, lo: nat): Octet {
    var n := 16 * hi + lo;
    if n < 256 then n as char else '0'
  }

  lemma HexRoundTrip(n: nat)
    requires n < 16
    ensures HexOf(HexChar(n)) == Some(n)
  {
  }

  /** Decoded text behind other text. */
  function Behind(a: Text, rest: Option<Text>): Option<Text> {
    match rest case None => None case Some(d) => Some(a + d)
  }

  lemma BehindTwo(a: Text, b: Text, rest: Option<Text>)
    ensures Behind(a, Behind(b, rest)) == Behind(a + b, rest)
  {
    if rest.Some? { assert a + (b + rest.value) == (a + b) + rest.value; }
  }

  /** Decoding reads exactly one encoded octet at a time. */
  lemma {:induction false} DecodeOctet(c: Octet, rest: Text)
    ensures Decode(EncodeOctet(c) + rest) == Behind([c], Decode(rest))
  {
    var s := EncodeOctet(c) + rest;
    if Unreserved(c) {
      assert s[1..] == rest;
    } else {
      HexRoundTrip(c as int / 16);
      HexRoundTrip(c as int % 16);
      assert s[3..] == rest;
    }
  }

  lemma {:induction false} EncodeLast(value: Text, rest: Text)
    requires value != []
    ensures Encode(value) + rest == Encode(value[..|value| - 1]) + (EncodeOctet(value[|value| - 1]) + rest)
  {
  }

  lemma {:induction false} DecodeEncodeThen(value: Text, rest: Text)
    ensures Decode(Encode(value) + rest) == Behind(value, Decode(rest))
  {
    if value == [] {
      assert Encode(value) + rest == rest;
      if Decode(rest).Some? { assert value + Decode(rest).value == Decode(rest).value; }
    } else {
      var front, c := value[..|value| - 1], value[|value| - 1];
      EncodeLast(value, rest);
      DecodeEncodeThen(front, EncodeOctet(c) + rest);
      DecodeOctet(c, rest);
      BehindTwo(front, [c], Decode(rest));
      assert front + [c] == value;
    }
  }

  /** Percent-encoding decodes back to the original bytes, all of them. */
  lemma {:induction false} EncodingRoundTrip(value: Text)
    ensures Decode(Encode(value)) == Some(value)
  {
    assert Encode(value) + [] == Encode(value);
    DecodeEncodeThen(value, []);
    assert value + [] == value;
  }

  /** Only unreserved characters and escapes are emitted. */
  predicate Plain(s: Text) {
    forall i :: 0 <= i < |s| ==> Unreserved(s[i]) || s[i] == '%'
  }

  lemma {:induction false} EncodingIsPlain(value: Text)
    ensures Plain(Encode(value))
  {
    if value != [] {
      EncodingIsPlain(value[..|value| - 1]);
    }
  }

  method PercentEncode(value: Text) returns (encoded: Text)
    ensures encoded == Encode(value)
    ensures Decode(encoded) == Some(value) && Plain(encoded)
  {
    encoded := [];
    for i := 0 to |value|
      invariant encoded == Encode(value[..i])
    {
      assert value[..i + 1][..i] == value[..i];
      var c := value[i];
      if Unreserved(c) {
        encoded := encoded + [c];
      } else {
        encoded := encoded + ['%', HexChar(c as int / 16), HexChar(c as int % 16)];
      }
    }
    assert value[..|value|] == value;
    EncodingRoundTrip(value);
    EncodingIsPlain(value);
  }

  // ------------------------------------------------------- printing and parsing

  datatype Field = Field(name: Text, value: Text)

  function Printed(f: Field): Text {
    f.name + ['='] + Encode(f.value)
  }

  function AppendQuery(target: Text, f: Field): Text {
    target + [if '?' in target then '&' else '?'] + Printed(f)
  }

  function Build(path: Text, fields: seq<Field>): Text {
    if fields == [] then path else AppendQuery(Build(path, fields[..|fields| - 1]), fields[|fields| - 1])
  }

  /** Where the separator first occurs, or the length. */
  function Find(s: Text, sep: Octet): (k: nat)
    ensures k <= |s|
    ensures forall i :: 0 <= i < k ==> s[i] != sep
    ensures k < |s| ==> s[k] == sep
  {
    if s == [] || s[0] == sep then 0 else 1 + Find(s[1..], sep)
  }

  function Split(s: Text, sep: Octet): seq<Text>
    decreases |s|
  {
    var k := Find(s, sep);
    if k == |s| then [s] else [s[..k]] + Split(s[k + 1..], sep)
  }

  function ParseField(s: Text): Option<Field> {
    var k := Find(s, '=');
    if k == |s| then None
    else
      match Decode(s[k + 1..])
      case None => None
      case Some(value) => Some(Field(s[..k], value))
  }

  function ParseFields(parts: seq<Text>): Option<seq<Field>> {
    if parts == [] then Some([])
    else
      match ParseFields(parts[..|parts| - 1])
      case None => None
      case Some(front) =>
        match ParseField(parts[|parts| - 1])
        case None => None
        case Some(f) => Some(front + [f])
  }

  datatype Target = Target(path: Text, fields: seq<Field>)

  /** Section 3.4: the query starts at the first question mark. */
  function Parse(s: Text): Option<Target> {
    var k := Find(s, '?');
    if k == |s| then Some(Target(s, []))
    else
      match ParseFields(Split(s[k + 1..], '&'))
      case None => None
      case Some(fields) => Some(Target(s[..k], fields))
  }

  lemma {:induction false} FindIs(s: Text, sep: Octet, k: nat)
    requires k <= |s| && (forall i :: 0 <= i < k ==> s[i] != sep) && (k < |s| ==> s[k] == sep)
    ensures Find(s, sep) == k
  {
    var m := Find(s, sep);
    assert !(m < k);
    assert !(k < m);
  }

  lemma {:induction false} SplitOne(s: Text, sep: Octet)
    requires sep !in s
    ensures Split(s, sep) == [s]
  {
    FindIs(s, sep, |s|);
  }

  lemma {:induction false} SplitSnoc(s: Text, last: Text, sep: Octet)
    requires sep !in last
    ensures Split(s + [sep] + last, sep) == Split(s, sep) + [last]
    decreases |s|
  {
    var t := s + [sep] + last;
    var k := Find(s, sep);
    FindIs(t, sep, k);
    assert t[..k] == s[..k];
    if k == |s| {
      assert t[k + 1..] == last;
      SplitOne(last, sep);
      assert s[..k] == s;
    } else {
      assert t[k + 1..] == s[k + 1..] + [sep] + last;
      SplitSnoc(s[k + 1..], last, sep);
      assert [s[..k]] + (Split(s[k + 1..], sep) + [last]) == ([s[..k]] + Split(s[k + 1..], sep)) + [last];
    }
  }

  /** A field name of letters, digits and underscores, as every caller uses. */
  predicate NameOk(name: Text) {
    forall i :: 0 <= i < |name| ==> Unreserved(name[i])
  }

  predicate NamesOk(fields: seq<Field>) {
    forall i :: 0 <= i < |fields| ==> NameOk(fields[i].name)
  }

  lemma NoSeparators(s: Text)
    requires Plain(s)
    ensures '&' !in s && '?' !in s && '=' !in s
  {
  }

  lemma NameIsPlain(name: Text)
    requires NameOk(name)
    ensures Plain(name)
  {
  }

  lemma PrintedParts(f: Field)
    requires NameOk(f.name)
    ensures '&' !in f.name && '?' !in f.name && '=' !in f.name
    ensures '&' !in Encode(f.value) && '?' !in Encode(f.value) && '=' !in Encode(f.value)
  {
    NameIsPlain(f.name);
    NoSeparators(f.name);
    EncodingIsPlain(f.value);
    NoSeparators(Encode(f.value));
  }

  /** A separator that occurs nowhere before it is found where it is. */
  lemma {:induction false} FindBetween(a: Text, sep: Octet, b: Text)
    requires sep !in a
    ensures Find(a + [sep] + b, sep) == |a|
    ensures (a + [sep] + b)[..|a|] == a && (a + [sep] + b)[|a| + 1..] == b
  {
    FindIs(a + [sep] + b, sep, |a|);
  }

  lemma PrintedParses(f: Field)
    requires NameOk(f.name)
    ensures ParseField(Printed(f)) == Some(f)
    ensures '&' !in Printed(f) && '?' !in Printed(f)
  {
    PrintedParts(f);
    FindBetween(f.name, '=', Encode(f.value));
    EncodingRoundTrip(f.value);
  }

  /** The query part: the printed fields, joined by ampersands. */
  ghost function Query(fields: seq<Field>): Text {
    if fields == [] then []
    else if |fields| == 1 then Printed(fields[0])
    else Query(fields[..|fields| - 1]) + ['&'] + Printed(fields[|fields| - 1])
  }

  lemma {:induction false} BuildShape(path: Text, fields: seq<Field>)
    requires '?' !in path && fields != []
    ensures Build(path, fields) == path + ['?'] + Query(fields)
  {
    var front, last := fields[..|fields| - 1], fields[|fields| - 1];
    if front == [] {
      assert Build(path, front) == path;
    } else {
      BuildShape(path, front);
      assert '?' in Build(path, front) by { assert Build(path, front)[|path|] == '?'; }
      assert path + ['?'] + Query(front) + ['&'] + Printed(last)
          == path + ['?'] + (Query(front) + ['&'] + Printed(last));
    }
  }

  function Parts(fields: seq<Field>): seq<Text> {
    if fields == [] then [] else Parts(fields[..|fields| - 1]) + [Printed(fields[|fields| - 1])]
  }

  lemma {:induction false} QuerySplits(fields: seq<Field>)
    requires fields != [] && NamesOk(fields)
    ensures Split(Query(fields), '&') == Parts(fields)
  {
    var front, last := fields[..|fields| - 1], fields[|fields| - 1];
    PrintedParses(last);
    if front == [] {
      assert fields == [last];
      SplitOne(Printed(last), '&');
      assert Parts(front) == [];
    } else {
      QuerySplits(front);
      SplitSnoc(Query(front), Printed(last), '&');
    }
  }

  lemma {:induction false} ParseFieldsSnoc(parts: seq<Text>, last: Text)
    requires ParseFields(parts).Some? && ParseField(last).Some?
    ensures ParseFields(parts + [last]) == Some(ParseFields(parts).value + [ParseField(last).value])
  {
    assert (parts + [last])[..|parts|] == parts;
  }

  lemma {:induction false} PartsParse(fields: seq<Field>)
    requires NamesOk(fields)
    ensures ParseFields(Parts(fields)) == Some(fields)
  {
    if fields != [] {
      var front, last := fields[..|fields| - 1], fields[|fields| - 1];
      PartsParse(front);
      PrintedParses(last);
      ParseFieldsSnoc(Parts(front), Printed(last));
      assert front + [last] == fields;
    }
  }

  /**
    Parsing any built target recovers its path and its ordered fields, for all
    field values.
   */
  lemma {:induction false} ParseInvertsBuild(path: Text, fields: seq<Field>)
    requires '?' !in path && NamesOk(fields)
    ensures Parse(Build(path, fields)) == Some(Target(path, fields))
  {
    if fields == [] {
      FindIs(path, '?', |path|);
    } else {
      BuildShape(path, fields);
      var s := path + ['?'] + Query(fields);
      FindIs(s, '?', |path|);
      assert s[|path| + 1..] == Query(fields);
      assert s[..|path|] == path;
      QuerySplits(fields);
      PartsParse(fields);
    }
  }

  ghost function Count(s: Text, c: Octet): nat {
    if s == [] then 0 else Count(s[..|s| - 1], c) + (if s[|s| - 1] == c then 1 else 0)
  }

  lemma {:induction false} CountConcat(a: Text, b: Text, c: Octet)
    ensures Count(a + b, c) == Count(a, c) + Count(b, c)
  {
    if b == [] {
      assert a + b == a;
    } else {
      assert (a + b)[..|a + b| - 1] == a + b[..|b| - 1];
      CountConcat(a, b[..|b| - 1], c);
    }
  }

  lemma {:induction false} CountNone(s: Text, c: Octet)
    requires c !in s
    ensures Count(s, c) == 0
  {
    if s != [] { CountNone(s[..|s| - 1], c); }
  }

  lemma {:induction false} CountOne(d: Octet, c: Octet)
    ensures Count([d], c) == if d == c then 1 else 0
  {
    assert [d][..0] == [];
  }

  lemma {:induction false} CountBetween(a: Text, sep: Octet, b: Text, c: Octet)
    ensures Count(a + [sep] + b, c) == Count(a, c) + (if sep == c then 1 else 0) + Count(b, c)
  {
    CountConcat(a + [sep], b, c);
    CountConcat(a, [sep], c);
    CountOne(sep, c);
  }

  lemma {:induction false} PrintedCount(f: Field, c: Octet)
    requires c !in f.name && c !in Encode(f.value)
    ensures Count(Printed(f), c) == if c == '=' then 1 else 0
  {
    CountBetween(f.name, '=', Encode(f.value), c);
    CountNone(f.name, c);
    CountNone(Encode(f.value), c);
  }

  lemma PrintedCounts(f: Field)
    requires NameOk(f.name)
    ensures Count(Printed(f), '?') == 0 && Count(Printed(f), '&') == 0 && Count(Printed(f), '=') == 1
  {
    PrintedParts(f);
    PrintedCount(f, '?');
    PrintedCount(f, '&');
    PrintedCount(f, '=');
  }

  /** A built target has one question mark and no stray separator. */
  lemma {:induction false} NoStraySeparators(path: Text, fields: seq<Field>)
    requires fields != [] && NamesOk(fields)
    requires '?' !in path && '&' !in path && '=' !in path
    ensures Count(Build(path, fields), '?') == 1
    ensures Count(Build(path, fields), '&') == |fields| - 1
    ensures Count(Build(path, fields), '=') == |fields|
  {
    var front, last := fields[..|fields| - 1], fields[|fields| - 1];
    var target := Build(path, front);
    PrintedCounts(last);
    if front == [] {
      CountNone(path, '?');
      CountNone(path, '&');
      CountNone(path, '=');
    } else {
      NoStraySeparators(path, front);
      BuildShape(path, front);
      assert target[|path|] == '?';
    }
    var sep: Octet := if '?' in target then '&' else '?';
    CountBetween(target, sep, Printed(last), '?');
    CountBetween(target, sep, Printed(last), '&');
    CountBetween(target, sep, Printed(last), '=');
  }

  method Append(target: Text, name: Text, value: Text) returns (r: Text)
    ensures r == AppendQuery(target, Field(name, value))
  {
    r := target + [if '?' in target then '&' else '?'];
    var encoded := PercentEncode(value);
    r := r + (name + ['='] + encoded);
  }
}
