/** The validated target builders of the account client (pm/account_rest.cpp). */
module AccountTargets {

  import opened Results
  import opened Numerals
  import opened AccountQuery

  datatype QueryError = InvalidQuery | InvalidCursor | InvalidCondition | DuplicateCondition

  // ---------------------------------------------------------------- validators

  predicate DecimalText(value: Text) {
    value != [] && |value| <= 80 && forall i :: 0 <= i < |value| ==> '0' <= value[i] <= '9'
  }

  predicate IsHex(c: Octet) {
    '0' <= c <= '9' || 'a' <= c <= 'f' || 'A' <= c <= 'F'
  }

  predicate HexValue(value: Text, digits: nat) {
    |value| == digits + 2 && value[0] == '0' && value[1] == 'x'
    && forall i :: 2 <= i < |value| ==> IsHex(value[i])
  }

  predicate CursorText(value: Text) {
    value != [] && |value| <= 256
    && forall i :: 0 <= i < |value| ==>
         '0' <= value[i] <= '9' || 'a' <= value[i] <= 'z' || 'A' <= value[i] <= 'Z'
         || value[i] in {'+', '/', '=', '-', '_'}
  }

  /** A market or condition identifier: 32 or 31 bytes of hex. */
  predicate ConditionId(value: Text) {
    HexValue(value, 64) || HexValue(value, 62)
  }

  predicate AbsentOr(value: Text, ok: bool) {
    value == [] || ok
  }

  // -------------------------------------------------------------------- fields

  function Optional(name: Text, value: Text): seq<Field> {
    if value == [] then [] else [Field(name, value)]
  }

  /** The value of a named field, empty when absent. */
  function Lookup(fields: seq<Field>, name: Text): Text {
    if fields == [] then []
    else if fields[0].name == name then fields[0].value
    else Lookup(fields[1..], name)
  }

  lemma {:induction false} LookupOptional(name: Text, value: Text, rest: seq<Field>, wanted: Text)
    requires name == wanted ==> Lookup(rest, wanted) == []
    ensures Lookup(Optional(name, value) + rest, wanted) == if name == wanted then value else Lookup(rest, wanted)
  {
    if value == [] {
      assert Optional(name, value) + rest == rest;
    } else {
      assert (Optional(name, value) + rest)[1..] == rest;
    }
  }

  lemma OptionalNames(name: Text, value: Text, rest: seq<Field>)
    requires NameOk(name) && NamesOk(rest)
    ensures NamesOk(Optional(name, value) + rest)
  {
  }

  // --------------------------------------------------------------- open orders

  datatype OpenOrderParams = OpenOrderParams(market: Text, assetId: Text, id: Text)

  const ORDERS: Text := "/data/orders"

  predicate OpenOrdersValid(p: OpenOrderParams) {
    && AbsentOr(p.market, ConditionId(p.market))
    && AbsentOr(p.assetId, DecimalText(p.assetId))
    && AbsentOr(p.id, HexValue(p.id, 64))
  }

  function OpenOrderFields(p: OpenOrderParams, cursor: Text): seq<Field> {
    Optional("market", p.market)
    + (Optional("asset_id", p.assetId)
       + (Optional("id", p.id) + [Field("next_cursor", cursor)]))
  }

  method AppendOptional(target: Text, name: Text, value: Text) returns (r: Text)
    ensures r == if value == [] then target else AppendQuery(target, Field(name, value))
  {
    if |value| == 0 {
      return target;
    }
    r := Append(target, name, value);
  }

  method AppendField(target: Text, f: Field) returns (r: Text)
    ensures r == AppendQuery(target, f)
  {
    r := Append(target, f.name, f.value);
  }

  lemma {:induction false} BuildConcat(path: Text, a: seq<Field>, b: seq<Field>)
    ensures Build(path, a + b) == Build(Build(path, a), b)
  {
    if b == [] {
      assert a + b == a;
    } else {
      assert (a + b)[..|a + b| - 1] == a + b[..|b| - 1];
      BuildConcat(path, a, b[..|b| - 1]);
    }
  }

  lemma {:induction false} BuildOptional(path: Text, name: Text, value: Text, rest: seq<Field>)
    ensures Build(path, Optional(name, value) + rest)
         == Build(if value == [] then path else AppendQuery(path, Field(name, value)), rest)
  {
    BuildConcat(path, Optional(name, value), rest);
    BuildOne(path, Field(name, value));
    BuildNone(path);
  }

  lemma {:induction false} BuildOne(path: Text, f: Field)
    ensures Build(path, [f]) == AppendQuery(path, f)
  {
    assert [f][..0] == [];
    BuildNone(path);
  }

  lemma {:induction false} BuildNone(path: Text)
    ensures Build(path, []) == path
  {
  }

  method OpenOrdersTarget(p: OpenOrderParams, cursor: Text) returns (r: Result<Text, QueryError>)
    ensures !OpenOrdersValid(p) ==> r == Err(InvalidQuery)
    ensures OpenOrdersValid(p) && !CursorText(cursor) ==> r == Err(InvalidCursor)
    ensures OpenOrdersValid(p) && CursorText(cursor) ==> r == Ok(Build(ORDERS, OpenOrderFields(p, cursor)))
  {
    if !OpenOrdersValid(p) {
      return Err(InvalidQuery);
    }
    if !CursorText(cursor) {
      return Err(InvalidCursor);
    }
    var target := ORDERS;
    var rest2 := [Field("next_cursor", cursor)];
    var rest1 := Optional("id", p.id) + rest2;
    var rest0 := Optional("asset_id", p.assetId) + rest1;
    BuildOptional(target, "market", p.market, rest0);
    target := AppendOptional(target, "market", p.market);
    BuildOptional(target, "asset_id", p.assetId, rest1);
    target := AppendOptional(target, "asset_id", p.assetId);
    BuildOptional(target, "id", p.id, rest2);
    target := AppendOptional(target, "id", p.id);
    BuildOne(target, Field("next_cursor", cursor));
    target := Append(target, "next_cursor", cursor);
    return Ok(target);
  }

  lemma OpenOrdersParsed(p: OpenOrderParams, cursor: Text)
    ensures Parse(Build(ORDERS, OpenOrderFields(p, cursor))) == Some(Target(ORDERS, OpenOrderFields(p, cursor)))
  {
    var rest2 := [Field("next_cursor", cursor)];
    var rest1 := Optional("id", p.id) + rest2;
    var rest0 := Optional("asset_id", p.assetId) + rest1;
    OptionalNames("id", p.id, rest2);
    OptionalNames("asset_id", p.assetId, rest1);
    OptionalNames("market", p.market, rest0);
    ParseInvertsBuild(ORDERS, OpenOrderFields(p, cursor));
  }

  /** A target determines the parameters and the cursor it was built from. */
  lemma OpenOrdersInjective(p: OpenOrderParams, cursor: Text, p': OpenOrderParams, cursor': Text)
    requires Build(ORDERS, OpenOrderFields(p, cursor)) == Build(ORDERS, OpenOrderFields(p', cursor'))
    ensures p == p' && cursor == cursor'
  {
    OpenOrdersParsed(p, cursor);
    OpenOrdersParsed(p', cursor');
    OpenOrderLookups(p, cursor);
    OpenOrderLookups(p', cursor');
  }

  lemma OpenOrderLookups(p: OpenOrderParams, cursor: Text)
    ensures var fields := OpenOrderFields(p, cursor);
            && Lookup(fields, "market") == p.market
            && Lookup(fields, "asset_id") == p.assetId
            && Lookup(fields, "id") == p.id
            && Lookup(fields, "next_cursor") == cursor
  {
    OpenOrderLookup(p, cursor, "market");
    OpenOrderLookup(p, cursor, "asset_id");
    OpenOrderLookup(p, cursor, "id");
    OpenOrderLookup(p, cursor, "next_cursor");
  }

  lemma {:induction false} OpenOrderLookup(p: OpenOrderParams, cursor: Text, name: Text)
    requires name in {"market", "asset_id", "id", "next_cursor"}
    ensures Lookup(OpenOrderFields(p, cursor), name)
         == if name == "market" then p.market
            else if name == "asset_id" then p.assetId
            else if name == "id" then p.id
            else cursor
  {
    var rest2 := [Field("next_cursor", cursor)];
    var rest1 := Optional("id", p.id) + rest2;
    var rest0 := Optional("asset_id", p.assetId) + rest1;
    assert Lookup(rest2, name) == if name == "next_cursor" then cursor else [];
    LookupOptional("id", p.id, rest2, name);
    LookupOptional("asset_id", p.assetId, rest1, name);
    LookupOptional("market", p.market, rest0, name);
  }

  /** A reader finds this value under this name. */
  ghost predicate Says(target: Text, name: Text, value: Text) {
    var r := Parse(target);
    r.Some? && Lookup(r.value.fields, name) == value
  }

  ghost predicate AsksFor(target: Text, path: Text) {
    var r := Parse(target);
    r.Some? && r.value.path == path
  }

  ghost predicate OrdersSaid(target: Text, p: OpenOrderParams, cursor: Text) {
    var path: Text, id: Text, next: Text := "/data/orders", "id", "next_cursor";
    var market: Text, asset: Text := "market", "asset_id";
    && AsksFor(target, path) && Says(target, id, p.id) && Says(target, next, cursor)
    && Says(target, market, p.market) && Says(target, asset, p.assetId)
  }

  /** A reader of an open-orders target finds its path, its parameters and its cursor. */
  lemma OpenOrdersSay(p: OpenOrderParams, cursor: Text, target: Text)
    requires target == Build(ORDERS, OpenOrderFields(p, cursor))
    ensures OrdersSaid(target, p, cursor)
  {
    OpenOrdersParsed(p, cursor);
    OpenOrderLookups(p, cursor);
  }

  const HEX: string := "0123456789abcdefABCDEF"

  lemma HexAt(c: Octet)
    ensures IsHex(c) <==> c in HEX
  {
    if '0' <= c <= '9' { assert HEX[c as int - '0' as int] == c; }
    if 'a' <= c <= 'f' { assert HEX[10 + c as int - 'a' as int] == c; }
    if 'A' <= c <= 'F' { assert HEX[16 + c as int - 'A' as int] == c; }
  }

  /** That many hex digits of either case behind 0x. */
  ghost predicate Hexadecimal(value: Text, digits: nat) {
    |value| == digits + 2 && value[..2] == "0x" && forall i :: 2 <= i < |value| ==> value[i] in HEX
  }

  lemma HexExactly(value: Text, digits: nat)
    ensures HexValue(value, digits) <==> Hexadecimal(value, digits)
  {
    forall i | 0 <= i < |value|
      ensures IsHex(value[i]) <==> value[i] in HEX
    {
      HexAt(value[i]);
    }
    if |value| == digits + 2 {
      assert value[..2] == [value[0], value[1]];
    }
  }

  /** Open-orders parameters are accepted exactly when each is absent or of its form. */
  lemma OpenOrdersAccepted(p: OpenOrderParams)
    ensures OpenOrdersValid(p)
       <==> && (p.market == [] || Hexadecimal(p.market, 64) || Hexadecimal(p.market, 62))
            && (p.assetId == [] || (|p.assetId| <= 80 && forall i :: 0 <= i < |p.assetId| ==> IsDigit(p.assetId[i])))
            && (p.id == [] || Hexadecimal(p.id, 64))
  {
    HexExactly(p.market, 64);
    HexExactly(p.market, 62);
    HexExactly(p.id, 64);
  }

  // ------------------------------------------------------------------ positions

  datatype PositionParams = PositionParams(
    user: Text,
    conditions: seq<Text>,
    closed: bool,
    includeArchived: bool,
    limit: nat)

  const POSITIONS: Text := "/v2/positions"

  const USER: Text := "user"
  const CONDITION: Text := "condition_id"
  const STATUS: Text := "status"
  const ARCHIVED: Text := "include_archived"
  const LIMIT: Text := "limit"
  const CURSOR: Text := "cursor"
  const FILTER_TYPE: Field := Field("filter_type", "TOKENS")
  const FILTER_AMOUNT: Field := Field("filter_amount", "0")
  const SORT_BY: Field := Field("sort_by", "TOKENS")
  const SORT_DIRECTION: Field := Field("sort_direction", "DESC")

  lemma PositionNameChars()
    ensures NameOk(USER) && NameOk(CONDITION) && NameOk(STATUS) && NameOk(ARCHIVED) && NameOk(LIMIT) && NameOk(CURSOR)
  {
  }

  lemma FixedNameChars()
    ensures NameOk(FILTER_TYPE.name) && NameOk(FILTER_AMOUNT.name)
    ensures NameOk(SORT_BY.name) && NameOk(SORT_DIRECTION.name)
  {
  }

  predicate PositionsValid(p: PositionParams, cursor: Text) {
    && HexValue(p.user, 40)
    && 0 < p.limit <= 1000
    && |p.conditions| <= 20
    && !(p.closed && p.includeArchived)
    && |cursor| <= 4096
    && forall i :: 0 <= i < |cursor| ==> cursor[i] as int >= 32 && cursor[i] as int != 127
  }

  function Lower(c: Octet): Octet {
    if 'A' <= c <= 'F' then (c as int + 32) as char else c
  }

  /** Lower case, and 31-byte identifiers padded to 32 bytes. */
  function Normalized(condition: Text): Text {
    var lower := seq(|condition|, i requires 0 <= i < |condition| => Lower(condition[i]));
    if |condition| == 64 then lower + "00" else lower
  }

  function Seen(conditions: seq<Text>): set<Text> {
    set i | 0 <= i < |conditions| :: Normalized(conditions[i])
  }

  /** Conditions are checked in order: each well formed, and new after normalization. */
  function CheckConditions(conditions: seq<Text>): Result<(), QueryError> {
    if conditions == [] then Ok(())
    else
      var front, last := conditions[..|conditions| - 1], conditions[|conditions| - 1];
      var _ :- CheckConditions(front);
      if !ConditionId(last) then Err(InvalidCondition)
      else if Normalized(last) in Seen(front) then Err(DuplicateCondition)
      else Ok(())
  }

  function JoinComma(conditions: seq<Text>): Text {
    if conditions == [] then []
    else if |conditions| == 1 then conditions[0]
    else JoinComma(conditions[..|conditions| - 1]) + [','] + conditions[|conditions| - 1]
  }

  ghost predicate AllDistinct(conditions: seq<Text>) {
    && (forall i :: 0 <= i < |conditions| ==> ConditionId(conditions[i]))
    && (forall i, j :: 0 <= i < j < |conditions| ==> Normalized(conditions[i]) != Normalized(conditions[j]))
  }

  /** The check passes exactly for well-formed conditions that name different things. */
  lemma {:induction false} CheckedExactly(conditions: seq<Text>)
    ensures CheckConditions(conditions).Ok? <==> AllDistinct(conditions)
  {
    if conditions != [] {
      var front, last := conditions[..|conditions| - 1], conditions[|conditions| - 1];
      CheckedExactly(front);
      DistinctSnoc(front, last);
      assert conditions == front + [last];
    }
  }

  lemma DistinctSnoc(front: seq<Text>, last: Text)
    ensures AllDistinct(front + [last]) <==> AllDistinct(front) && ConditionId(last) && Normalized(last) !in Seen(front)
  {
    var all := front + [last];
    assert forall i :: 0 <= i < |front| ==> all[i] == front[i];
    assert all[|front|] == last;
    if AllDistinct(all) {
      forall i | 0 <= i < |front|
        ensures ConditionId(front[i]) && Normalized(front[i]) != Normalized(last)
      {
        assert ConditionId(all[i]);
      }
    }
  }

  method JoinConditions(conditions: seq<Text>) returns (r: Result<Text, QueryError>)
    ensures CheckConditions(conditions).Err? ==> r == Err(CheckConditions(conditions).error)
    ensures CheckConditions(conditions).Ok? ==> r == Ok(JoinComma(conditions))
  {
    var unique: set<Text> := {};
    var joined: Text := [];
    for i := 0 to |conditions|
      invariant CheckConditions(conditions[..i]).Ok?
      invariant unique == Seen(conditions[..i])
      invariant joined == JoinComma(conditions[..i])
    {
      var condition := conditions[i];
      Prefix(conditions, i);
      if !ConditionId(condition) {
        CheckPrefix(conditions, i + 1);
        return Err(InvalidCondition);
      }
      var normalized := Normalized(condition);
      if normalized in unique {
        CheckPrefix(conditions, i + 1);
        return Err(DuplicateCondition);
      }
      unique := unique + {normalized};
      JoinedNonempty(conditions[..i]);
      if |joined| > 0 {
        joined := joined + [','];
      }
      joined := joined + condition;
    }
    assert conditions[..|conditions|] == conditions;
    return Ok(joined);
  }

  lemma Prefix(conditions: seq<Text>, i: nat)
    requires i < |conditions|
    ensures conditions[..i + 1][..i] == conditions[..i] && conditions[..i + 1][i] == conditions[i]
    ensures Seen(conditions[..i + 1]) == Seen(conditions[..i]) + {Normalized(conditions[i])}
  {
    var a, b := conditions[..i], conditions[..i + 1];
    assert forall k :: 0 <= k < i ==> a[k] == b[k];
    forall t
      ensures t in Seen(b) <==> t in Seen(a) + {Normalized(conditions[i])}
    {
      if t in Seen(b) {
        var k :| 0 <= k < |b| && t == Normalized(b[k]);
        if k < i { assert Normalized(a[k]) in Seen(a); }
      }
      if t in Seen(a) {
        var k :| 0 <= k < |a| && t == Normalized(a[k]);
        assert Normalized(b[k]) in Seen(b);
      }
      assert Normalized(b[i]) in Seen(b);
    }
  }

  /** The first error found is the error of the whole list. */
  lemma {:induction false} CheckPrefix(conditions: seq<Text>, i: nat)
    requires i <= |conditions| && CheckConditions(conditions[..i]).Err?
    ensures CheckConditions(conditions) == CheckConditions(conditions[..i])
  {
    if i < |conditions| {
      var front := conditions[..|conditions| - 1];
      assert front[..i] == conditions[..i];
      CheckPrefix(front, i);
    } else {
      assert conditions[..i] == conditions;
    }
  }

  lemma {:induction false} JoinedNonempty(conditions: seq<Text>)
    requires CheckConditions(conditions).Ok?
    ensures JoinComma(conditions) == [] <==> conditions == []
  {
    if conditions != [] {
      JoinedNonempty(conditions[..|conditions| - 1]);
    }
  }

  lemma NoComma(condition: Text)
    requires ConditionId(condition)
    ensures ',' !in condition
  {
  }

  /** Splitting at commas recovers the conditions. */
  lemma {:induction false} ConditionsRecovered(conditions: seq<Text>)
    requires CheckConditions(conditions).Ok? && conditions != []
    ensures Split(JoinComma(conditions), ',') == conditions
  {
    var front, last := conditions[..|conditions| - 1], conditions[|conditions| - 1];
    NoComma(last);
    if front == [] {
      SplitOne(last, ',');
      assert conditions == [last];
    } else {
      ConditionsRecovered(front);
      SplitSnoc(JoinComma(front), last, ',');
      assert front + [last] == conditions;
    }
  }

  function LimitText(limit: nat): Text {
    var s := ToDec(limit);
    assert forall i :: 0 <= i < |s| ==> IsDigit(s[i]);
    s
  }

  function Status(closed: bool): Text {
    if closed then "CLOSED" else "OPEN"
  }

  function Flag(on: bool): Text {
    if on then "true" else ""
  }

  /** The last fields: order, page size and cursor. */
  function PageFields(limit: nat, cursor: Text): seq<Field> {
    [SORT_BY]
    + ([SORT_DIRECTION]
       + ([Field(LIMIT, LimitText(limit))] + (Optional(CURSOR, cursor) + [])))
  }

  function PositionFields(p: PositionParams, cursor: Text): seq<Field> {
    [Field(USER, p.user)]
    + (Optional(CONDITION, JoinComma(p.conditions))
       + ([Field(STATUS, Status(p.closed))]
          + ([FILTER_TYPE]
             + ([FILTER_AMOUNT]
                + (Optional(ARCHIVED, Flag(p.includeArchived)) + PageFields(p.limit, cursor))))))
  }

  lemma {:induction false} BuildCons(path: Text, f: Field, rest: seq<Field>)
    ensures Build(path, [f] + rest) == Build(AppendQuery(path, f), rest)
  {
    BuildConcat(path, [f], rest);
    BuildOne(path, f);
  }

  method AppendPage(base: Text, limit: nat, cursor: Text) returns (target: Text)
    ensures target == Build(base, PageFields(limit, cursor))
  {
    var rest2 := Optional(CURSOR, cursor) + [];
    var rest1 := [Field(LIMIT, LimitText(limit))] + rest2;
    var rest0 := [SORT_DIRECTION] + rest1;
    BuildCons(base, SORT_BY, rest0);
    target := AppendField(base, SORT_BY);
    BuildCons(target, SORT_DIRECTION, rest1);
    target := AppendField(target, SORT_DIRECTION);
    BuildCons(target, Field(LIMIT, LimitText(limit)), rest2);
    target := Append(target, LIMIT, LimitText(limit));
    BuildOptional(target, CURSOR, cursor, []);
    target := AppendOptional(target, CURSOR, cursor);
    BuildNone(target);
  }

  method PositionsTarget(p: PositionParams, cursor: Text) returns (r: Result<Text, QueryError>)
    ensures !PositionsValid(p, cursor) ==> r == Err(InvalidQuery)
    ensures PositionsValid(p, cursor) && CheckConditions(p.conditions).Err?
            ==> r == Err(CheckConditions(p.conditions).error)
    ensures PositionsValid(p, cursor) && CheckConditions(p.conditions).Ok?
            ==> r == Ok(Build(POSITIONS, PositionFields(p, cursor)))
  {
    if !PositionsValid(p, cursor) {
      return Err(InvalidQuery);
    }
    var conditions :- JoinConditions(p.conditions);
    var target := AppendFilters(p, conditions, PageFields(p.limit, cursor));
    target := AppendPage(target, p.limit, cursor);
    return Ok(target);
  }

  /** The user, the conditions and the fixed filters, up to the page fields. */
  method AppendFilters(p: PositionParams, conditions: Text, ghost page: seq<Field>) returns (target: Text)
    requires conditions == JoinComma(p.conditions)
    ensures Build(target, page)
         == Build(POSITIONS,
                  [Field(USER, p.user)]
                  + (Optional(CONDITION, conditions)
                     + ([Field(STATUS, Status(p.closed))]
                        + ([FILTER_TYPE]
                           + ([FILTER_AMOUNT]
                              + (Optional(ARCHIVED, Flag(p.includeArchived)) + page))))))
  {
    ghost var rest4 := Optional(ARCHIVED, Flag(p.includeArchived)) + page;
    ghost var rest3 := [FILTER_AMOUNT] + rest4;
    ghost var rest2 := [FILTER_TYPE] + rest3;
    ghost var rest1 := [Field(STATUS, Status(p.closed))] + rest2;
    ghost var rest0 := Optional(CONDITION, conditions) + rest1;
    BuildCons(POSITIONS, Field(USER, p.user), rest0);
    target := Append(POSITIONS, USER, p.user);
    BuildOptional(target, CONDITION, conditions, rest1);
    target := AppendOptional(target, CONDITION, conditions);
    BuildCons(target, Field(STATUS, Status(p.closed)), rest2);
    target := Append(target, STATUS, Status(p.closed));
    BuildCons(target, FILTER_TYPE, rest3);
    target := AppendField(target, FILTER_TYPE);
    BuildCons(target, FILTER_AMOUNT, rest4);
    target := AppendField(target, FILTER_AMOUNT);
    BuildOptional(target, ARCHIVED, Flag(p.includeArchived), page);
    target := AppendOptional(target, ARCHIVED, Flag(p.includeArchived));
  }

  lemma ConsNames(f: Field, rest: seq<Field>)
    requires NameOk(f.name) && NamesOk(rest)
    ensures NamesOk([f] + rest)
  {
  }

  lemma {:induction false} LookupCons(f: Field, rest: seq<Field>, wanted: Text)
    ensures Lookup([f] + rest, wanted) == if f.name == wanted then f.value else Lookup(rest, wanted)
  {
    assert ([f] + rest)[1..] == rest;
  }

  lemma PageNames(limit: nat, cursor: Text)
    ensures NamesOk(PageFields(limit, cursor))
  {
    var rest2 := Optional(CURSOR, cursor) + [];
    var rest1 := [Field(LIMIT, LimitText(limit))] + rest2;
    PositionNameChars();
    FixedNameChars();
    OptionalNames(CURSOR, cursor, []);
    ConsNames(Field(LIMIT, LimitText(limit)), rest2);
    ConsNames(SORT_DIRECTION, rest1);
    ConsNames(SORT_BY, [SORT_DIRECTION] + rest1);
  }

  lemma {:induction false} PageLookup(limit: nat, cursor: Text, wanted: Text)
    requires wanted != SORT_BY.name && wanted != SORT_DIRECTION.name
    ensures Lookup(PageFields(limit, cursor), wanted)
         == if wanted == LIMIT then LimitText(limit) else if wanted == CURSOR then cursor else []
  {
    var rest2 := Optional(CURSOR, cursor) + [];
    var rest1 := [Field(LIMIT, LimitText(limit))] + rest2;
    LookupOptional(CURSOR, cursor, [], wanted);
    LookupCons(Field(LIMIT, LimitText(limit)), rest2, wanted);
    LookupCons(SORT_DIRECTION, rest1, wanted);
    LookupCons(SORT_BY, [SORT_DIRECTION] + rest1, wanted);
  }

  lemma PositionNames(p: PositionParams, cursor: Text)
    ensures NamesOk(PositionFields(p, cursor))
  {
    var page := PageFields(p.limit, cursor);
    var rest4 := Optional(ARCHIVED, Flag(p.includeArchived)) + page;
    var rest3 := [FILTER_AMOUNT] + rest4;
    var rest2 := [FILTER_TYPE] + rest3;
    var rest1 := [Field(STATUS, Status(p.closed))] + rest2;
    var rest0 := Optional(CONDITION, JoinComma(p.conditions)) + rest1;
    PageNames(p.limit, cursor);
    PositionNameChars();
    FixedNameChars();
    OptionalNames(ARCHIVED, Flag(p.includeArchived), page);
    ConsNames(FILTER_AMOUNT, rest4);
    ConsNames(FILTER_TYPE, rest3);
    ConsNames(Field(STATUS, Status(p.closed)), rest2);
    OptionalNames(CONDITION, JoinComma(p.conditions), rest1);
    ConsNames(Field(USER, p.user), rest0);
  }

  lemma {:induction false} PositionLookup(p: PositionParams, cursor: Text, wanted: Text)
    requires wanted in {USER, CONDITION, STATUS, ARCHIVED, LIMIT, CURSOR}
    ensures Lookup(PositionFields(p, cursor), wanted)
         == if wanted == USER then p.user
            else if wanted == CONDITION then JoinComma(p.conditions)
            else if wanted == STATUS then Status(p.closed)
            else if wanted == ARCHIVED then Flag(p.includeArchived)
            else if wanted == LIMIT then LimitText(p.limit)
            else cursor
  {
    var page := PageFields(p.limit, cursor);
    var rest4 := Optional(ARCHIVED, Flag(p.includeArchived)) + page;
    var rest3 := [FILTER_AMOUNT] + rest4;
    var rest2 := [FILTER_TYPE] + rest3;
    var rest1 := [Field(STATUS, Status(p.closed))] + rest2;
    var rest0 := Optional(CONDITION, JoinComma(p.conditions)) + rest1;
    PageLookup(p.limit, cursor, wanted);
    LookupOptional(ARCHIVED, Flag(p.includeArchived), page, wanted);
    LookupCons(FILTER_AMOUNT, rest4, wanted);
    LookupCons(FILTER_TYPE, rest3, wanted);
    LookupCons(Field(STATUS, Status(p.closed)), rest2, wanted);
    LookupOptional(CONDITION, JoinComma(p.conditions), rest1, wanted);
    LookupCons(Field(USER, p.user), rest0, wanted);
  }

  /** Parsing a positions target recovers its path and all its fields in order. */
  lemma PositionsParsed(p: PositionParams, cursor: Text)
    ensures Parse(Build(POSITIONS, PositionFields(p, cursor))) == Some(Target(POSITIONS, PositionFields(p, cursor)))
  {
    PositionNames(p, cursor);
    ParseInvertsBuild(POSITIONS, PositionFields(p, cursor));
  }

  lemma PageFixed(limit: nat, cursor: Text)
    ensures Lookup(PageFields(limit, cursor), "sort_by") == "TOKENS"
    ensures Lookup(PageFields(limit, cursor), "sort_direction") == "DESC"
  {
    var rest2 := Optional(CURSOR, cursor) + [];
    var rest1 := [Field(LIMIT, LimitText(limit))] + rest2;
    LookupCons(SORT_BY, [SORT_DIRECTION] + rest1, "sort_by");
    LookupCons(SORT_BY, [SORT_DIRECTION] + rest1, "sort_direction");
    LookupCons(SORT_DIRECTION, rest1, "sort_direction");
  }

  lemma {:induction false} FixedLookup(p: PositionParams, cursor: Text, wanted: Text)
    requires wanted in {"filter_type", "filter_amount", "sort_by", "sort_direction"}
    ensures Lookup(PositionFields(p, cursor), wanted)
         == if wanted == "filter_amount" then "0" else if wanted == "sort_direction" then "DESC" else "TOKENS"
  {
    var page := PageFields(p.limit, cursor);
    var rest4 := Optional(ARCHIVED, Flag(p.includeArchived)) + page;
    var rest3 := [FILTER_AMOUNT] + rest4;
    var rest2 := [FILTER_TYPE] + rest3;
    var rest1 := [Field(STATUS, Status(p.closed))] + rest2;
    var rest0 := Optional(CONDITION, JoinComma(p.conditions)) + rest1;
    PageFixed(p.limit, cursor);
    LookupOptional(ARCHIVED, Flag(p.includeArchived), page, wanted);
    LookupCons(FILTER_AMOUNT, rest4, wanted);
    LookupCons(FILTER_TYPE, rest3, wanted);
    LookupCons(Field(STATUS, Status(p.closed)), rest2, wanted);
    LookupOptional(CONDITION, JoinComma(p.conditions), rest1, wanted);
    LookupCons(Field(USER, p.user), rest0, wanted);
  }

  /** What a reader of an accepted positions target finds. */
  lemma PositionsSay(p: PositionParams, cursor: Text)
    ensures var target := Build(POSITIONS, PositionFields(p, cursor));
            && AsksFor(target, "/v2/positions") && Says(target, "user", p.user)
            && Says(target, "condition_id", JoinComma(p.conditions))
            && Says(target, "status", if p.closed then "CLOSED" else "OPEN")
            && Says(target, "include_archived", if p.includeArchived then "true" else "")
            && Says(target, "limit", LimitText(p.limit)) && Value(LimitText(p.limit)) == p.limit
            && Says(target, "cursor", cursor)
  {
    PositionsParsed(p, cursor);
    PositionLookup(p, cursor, USER);
    PositionLookup(p, cursor, CURSOR);
    PositionLookup(p, cursor, CONDITION);
    PositionLookup(p, cursor, STATUS);
    PositionLookup(p, cursor, ARCHIVED);
    PositionLookup(p, cursor, LIMIT);
  }

  /** The filters and the order of every positions target. */
  lemma PositionsFixed(p: PositionParams, cursor: Text)
    ensures var target := Build(POSITIONS, PositionFields(p, cursor));
            && Says(target, "filter_type", "TOKENS")
            && Says(target, "filter_amount", "0")
            && Says(target, "sort_by", "TOKENS")
            && Says(target, "sort_direction", "DESC")
  {
    PositionsParsed(p, cursor);
    FixedLookup(p, cursor, "filter_type");
    FixedLookup(p, cursor, "filter_amount");
    FixedLookup(p, cursor, "sort_by");
    FixedLookup(p, cursor, "sort_direction");
  }

  lemma {:induction false} SameConditions(conditions: seq<Text>, conditions': seq<Text>)
    requires CheckConditions(conditions).Ok? && CheckConditions(conditions').Ok?
    requires JoinComma(conditions) == JoinComma(conditions')
    ensures conditions == conditions'
  {
    JoinedNonempty(conditions);
    JoinedNonempty(conditions');
    if conditions != [] {
      ConditionsRecovered(conditions);
      ConditionsRecovered(conditions');
    }
  }

  /** A positions target determines the cohort, the page and the cursor it asks for. */
  lemma PositionsInjective(p: PositionParams, cursor: Text, p': PositionParams, cursor': Text)
    requires CheckConditions(p.conditions).Ok? && CheckConditions(p'.conditions).Ok?
    requires Build(POSITIONS, PositionFields(p, cursor)) == Build(POSITIONS, PositionFields(p', cursor'))
    ensures p == p' && cursor == cursor'
  {
    PositionsParsed(p, cursor);
    PositionsParsed(p', cursor');
    FieldsDetermine(p, cursor, p', cursor');
  }

  lemma FieldsDetermine(p: PositionParams, cursor: Text, p': PositionParams, cursor': Text)
    requires CheckConditions(p.conditions).Ok? && CheckConditions(p'.conditions).Ok?
    requires PositionFields(p, cursor) == PositionFields(p', cursor')
    ensures p == p' && cursor == cursor'
  {
    PositionLookups(p, cursor);
    PositionLookups(p', cursor');
    SameConditions(p.conditions, p'.conditions);
    assert Status(p.closed)[0] == Status(p'.closed)[0];
    assert |Flag(p.includeArchived)| == |Flag(p'.includeArchived)|;
    assert Value(ToDec(p.limit)) == Value(ToDec(p'.limit));
  }

  lemma PositionLookups(p: PositionParams, cursor: Text)
    ensures var fields := PositionFields(p, cursor);
            && Lookup(fields, USER) == p.user
            && Lookup(fields, CONDITION) == JoinComma(p.conditions)
            && Lookup(fields, STATUS) == Status(p.closed)
            && Lookup(fields, ARCHIVED) == Flag(p.includeArchived)
            && Lookup(fields, LIMIT) == LimitText(p.limit)
            && Lookup(fields, CURSOR) == cursor
  {
    PositionLookup(p, cursor, USER);
    PositionLookup(p, cursor, CONDITION);
    PositionLookup(p, cursor, STATUS);
    PositionLookup(p, cursor, ARCHIVED);
    PositionLookup(p, cursor, LIMIT);
    PositionLookup(p, cursor, CURSOR);
  }
}
