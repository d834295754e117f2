/**
  Order amounts in integer millionths (pm/amounts.cpp). Each builder is a
  method on decimal texts that refines a function on naturals.
 */
module Amounts {

  import opened Results
  import opened Arith
  import opened Numerals
  import opened Rounding
  import opened Decimals

  datatype Side = Buy | Sell | Unknown

  datatype RoundConfig = RoundConfig(price: nat, size: nat, amount: nat)

  const ROUNDING: map<string, RoundConfig> :=
    map[
      "0.1" := RoundConfig(1, 2, 3),
      "0.01" := RoundConfig(2, 2, 4),
      "0.005" := RoundConfig(3, 2, 5),
      "0.0025" := RoundConfig(4, 2, 6),
      "0.001" := RoundConfig(3, 2, 5),
      "0.0001" := RoundConfig(4, 2, 6)
    ]

  const FINEST_SCALE: nat := 10000

  /** Every supported tick has two size digits and amount = size + price digits. */
  lemma TickTable(tick: string)
    requires tick in ROUNDING
    ensures var rc := ROUNDING[tick]; 1 <= rc.price <= 4 && rc.size == 2 && rc.amount == rc.price + 2
  {
  }

  /** The tick's price digits. */
  function Places(tick: string): (p: nat)
    requires tick in ROUNDING
    ensures 1 <= p <= 4
  {
    TickTable(tick);
    ROUNDING[tick].price
  }

  /** A double: not finite, below zero, or the literal it prints as. */
  datatype Number = NotFinite | Negative | Finite(literal: Literal) {

    // Printed exponents of doubles have at most three digits.
    predicate Valid() {
      Finite? ==> literal.Valid() && INT_MIN <= literal.Power() <= INT_MAX
    }

    function Coefficient(): nat
      requires Finite? && Valid()
    {
      literal.Coefficient()
    }

    function Exponent(): int
      requires Finite? && Valid()
    {
      if literal.Coefficient() == 0 then 0 else literal.Scale()
    }
  }

  function ConfigFor(tick: string): Result<RoundConfig, AmountError> {
    if tick in ROUNDING then Ok(ROUNDING[tick]) else Err(BadTick)
  }

  /** Accepts exactly the prices between zero and one: one itself is accepted, anything above it is not. */
  function CheckPrice(price: Number): (r: Result<(), AmountError>)
    requires price.Valid()
    ensures r.Ok? <==> price.Finite? && Num(price.Coefficient(), price.Exponent()) <= Den(price.Exponent())
    ensures r.Err? ==> r.error == BadPrice
  {
    if price.Finite? && Num(price.Coefficient(), price.Exponent()) <= Den(price.Exponent())
    then Ok(())
    else Err(BadPrice)
  }

  /** A number rounded to `places` decimals, in units of 10^-places. */
  function UnitsOf(x: Number, places: int, mode: Mode): Result<nat, AmountError>
    requires x.Valid()
  {
    if x.Finite? then Fits(Units(x.Coefficient(), x.Exponent(), places, mode)) else Err(BadAmount)
  }

  /** Hundredths in millionths, refused beyond 64 bits. */
  function TokenUnits(hundredths: nat): (r: Result<nat, AmountError>)
    ensures r == Fits(hundredths * 10000)
  {
    if hundredths > (U64_LIMIT - 1) / 10000 then Err(Overflow) else Ok(hundredths * 10000)
  }

  /** One tick in units of the tick's last price digit. */
  function IncrementOf(tick: string): (inc: nat)
    ensures inc > 0
  {
    if tick == "0.005" then 5 else if tick == "0.0025" then 25 else 1
  }

  /** The supported ticks. */
  lemma TickSet(tick: string)
    ensures tick in ROUNDING <==> tick in {"0.1", "0.01", "0.005", "0.0025", "0.001", "0.0001"}
  {
  }

  lemma {:induction false} TickFraction(s: string)
    requires s in {"1", "01", "005", "0025", "001", "0001"}
    ensures AllDigits(s) && Value(s) == if s == "005" then 5 else if s == "0025" then 25 else 1
  {
    var k := if s == "0025" then 2 else |s| - 1;
    DropLeadingZeros(s, k);
    if s == "0025" {
      assert s[k..] == "25" && "25"[..1] == "2";
      ValueSingle("2");
      assert Value("25") == 25;
    } else {
      ValueSingle(s[k..]);
    }
  }

  lemma TickShape(tick: string)
    requires tick in ROUNDING
    ensures |tick| > 2 && tick[..2] == "0." && |tick| - 2 == ROUNDING[tick].price
    ensures tick[2..] in {"1", "01", "005", "0025", "001", "0001"}
    ensures tick[2..] == "005" <==> tick == "0.005"
    ensures tick[2..] == "0025" <==> tick == "0.0025"
  {
  }

  /** A tick's text spells its row: as many price digits as it has decimals, and its increment as their value. */
  lemma TickText(tick: string)
    requires tick in ROUNDING
    ensures |tick| > 2 && tick[..2] == "0." && AllDigits(tick[2..])
    ensures ROUNDING[tick].price == |tick| - 2 && Value(tick[2..]) == IncrementOf(tick)
  {
    TickShape(tick);
    TickFraction(tick[2..]);
  }

  // ------------------------------------------------- the builders on naturals

  function LimitAmounts(side: Side, size: Number, price: Number, tick: string): Result<(nat, nat), AmountError>
    requires size.Valid() && price.Valid()
  {
    var rc :- ConfigFor(tick);
    var _ :- CheckPrice(price);
    if side == Unknown then Err(BadSide)
    else
      var shares :- UnitsOf(size, rc.size, Down);
      var priceUnits :- UnitsOf(price, rc.price, Nearest);
      LimitFrom(side, shares, priceUnits, rc)
  }

  function LimitFrom(side: Side, shares: nat, priceUnits: nat, rc: RoundConfig): Result<(nat, nat), AmountError> {
    var cash :- Fits(Units(shares * priceUnits, -(rc.amount as int), 6, Down));
    var tokens :- TokenUnits(shares);
    Ok(if side == Buy then (cash, tokens) else (tokens, cash))
  }

  /** The price's digits as a 64-bit integer. */
  function PriceDigits(price: Number): Result<nat, AmountError>
    requires price.Valid()
  {
    if price.Finite? then Fits(price.Coefficient()) else Err(BadAmount)
  }

  /** The cash cap: whole cents, rounded up. */
  function CashCap(shares: nat, coefficient: nat, exponent: int): Result<nat, AmountError> {
    var cents :- Fits(Units(shares * coefficient, exponent, 0, Up));
    TokenUnits(cents)
  }

  function MarketBuy(size: Number, price: Number): Result<(nat, nat), AmountError>
    requires size.Valid() && price.Valid()
  {
    var _ :- CheckPrice(price);
    var shares :- UnitsOf(size, 2, Down);
    var tokens :- TokenUnits(shares);
    var coefficient :- PriceDigits(price);
    var cash :- CashCap(shares, coefficient, price.Exponent());
    Ok((cash, tokens))
  }

  function FloorTo(n: nat, step: nat): (r: nat)
    requires step > 0
    ensures r <= n < r + step && r % step == 0
  {
    DivBounds(n, step);
    FloorToMultiple(n / step, step);
    n - n % step
  }

  lemma FloorToMultiple(q: nat, step: nat)
    requires step > 0
    ensures (q * step) % step == 0
  {
    DivBounds(q * step, step);
    FactorOrder(q, (q * step) / step, step);
    FactorOrder((q * step) / step, q, step);
  }

  /** The protection price floored to a whole tick, in units of the last price digit. */
  function Protection(price: Number, tick: string): Result<nat, AmountError>
    requires price.Valid() && tick in ROUNDING
  {
    var raw :- UnitsOf(price, ROUNDING[tick].price, Down);
    Ok(FloorTo(raw, IncrementOf(tick)))
  }

  /** Whether the protection lies at least one tick above zero and below one. */
  predicate InRange(priceUnits: nat, tick: string)
    requires tick in ROUNDING
  {
    IncrementOf(tick) <= priceUnits && priceUnits + IncrementOf(tick) <= Pow10(ROUNDING[tick].price)
  }

  /** Tokens for a cash cap at a price, floored at the amount's digits. */
  function TokensFor(cents: nat, priceUnits: nat, rc: RoundConfig): Result<nat, AmountError>
    requires priceUnits > 0
  {
    Fits(Units(RoundDiv(Down, CashNumerator(cents, rc), 100 * priceUnits), -(rc.amount as int), 6, Down))
  }

  function CashNumerator(cents: nat, rc: RoundConfig): nat {
    cents * Pow10(rc.price) * Pow10(rc.amount)
  }

  /** The last check before a protected order is returned. */
  function BoundCheck(cash: nat, tokens: nat, priceUnits: nat, increment: nat, scale: nat)
    : Result<(nat, nat), AmountError>
  {
    if cash == 0 || tokens == 0 then Err(NotPositive)
    else if cash * scale < tokens * priceUnits || cash * scale >= tokens * (priceUnits + increment)
    then Err(TickBound)
    else Ok((cash, tokens))
  }

  function ProtectedFrom(shares: nat, priceUnits: nat, tick: string): Result<(nat, nat), AmountError>
    requires tick in ROUNDING && priceUnits > 0
  {
    var rc := ROUNDING[tick];
    var cents :- Fits(Units(shares * priceUnits, -(rc.price as int), 0, Up));
    var cash :- TokenUnits(cents);
    var tokens :- TokensFor(cents, priceUnits, rc);
    BoundCheck(cash, tokens, priceUnits, IncrementOf(tick), Pow10(rc.price))
  }

  function ProtectedBuy(size: Number, price: Number, tick: string): Result<(nat, nat), AmountError>
    requires size.Valid() && price.Valid()
  {
    var _ :- CheckPrice(price);
    var rc :- ConfigFor(tick);
    var priceUnits :- Protection(price, tick);
    if !InRange(priceUnits, tick) then Err(ProtectionOutOfRange)
    else
      var shares :- UnitsOf(size, 2, Down);
      ProtectedFrom(shares, priceUnits, tick)
  }

  /** The ratio test in units of the finest tick; equality is refused. */
  predicate BelowNextFinest(cash: nat, tokens: nat, protection: nat, places: nat) {
    cash * FINEST_SCALE < tokens * (protection * (FINEST_SCALE / Pow10(places)) + 1)
  }

  function FinalCheck(cash: nat, tokens: nat, price: Number, tick: string): Result<(), AmountError>
    requires price.Valid()
  {
    var _ :- CheckPrice(price);
    var rc :- ConfigFor(tick);
    var protection :- Protection(price, tick);
    if !InRange(protection, tick) || cash == 0 || tokens == 0 then Err(InvalidProtectedAmounts)
    else if !BelowNextFinest(cash, tokens, protection, rc.price) then Err(FinestTickBound)
    else Ok(())
  }

  // ----------------------------------------------------- the decimal machinery

  method Power10(places: nat) returns (value: nat)
    ensures value == Pow10(places)
  {
    value := 1;
    var left := places;
    while left > 0
      invariant 0 <= left <= places
      invariant value * Pow10(left) == Pow10(places)
    {
      Reassociate(value, 10, Pow10(left - 1));
      value := value * 10;
      left := left - 1;
    }
  }

  /**
    Schoolbook division on a digit string. Every emitted character is a digit,
    the running remainder never leaves 64 bits, and the quotient denotes the
    floor of the division.
   */
  method DivideDown(numerator: string, denominator: nat) returns (quotient: string)
    requires AllDigits(numerator) && 0 < denominator && 10 * denominator <= U64_LIMIT
    ensures AllDigits(quotient) && |quotient| == |numerator|
    ensures Value(quotient) == Value(numerator) / denominator
  {
    quotient := "";
    var remainder: nat := 0;
    for i := 0 to |numerator|
      invariant DividedSoFar(numerator[..i], quotient, remainder, denominator)
    {
      var q, r := DivideDigit(remainder, DigitOf(numerator[i]), denominator);
      DigitDivided(numerator[..i], numerator[i], quotient, remainder, q, r, denominator);
      assert numerator[..i + 1] == numerator[..i] + [numerator[i]];
      quotient, remainder := quotient + [DigitChar(q)], r;
    }
    assert numerator[..|numerator|] == numerator;
    DivisionDone(numerator, quotient, remainder, denominator);
  }

  /** Bringing down one digit never leaves 64 bits. */
  method DivideDigit(remainder: nat, digit: nat, denominator: nat) returns (q: nat, r: nat)
    requires remainder < denominator && digit < 10 && 10 * denominator <= U64_LIMIT
    ensures q < 10 && r < denominator && remainder * 10 + digit == q * denominator + r
  {
    var next := remainder * 10 + digit;
    assert next < U64_LIMIT;
    BroughtDown(next, denominator);
    q, r := next / denominator, next % denominator;
  }

  lemma {:induction false} DivisionDone(numerator: string, quotient: string, remainder: nat, d: nat)
    requires DividedSoFar(numerator, quotient, remainder, d)
    ensures Value(quotient) == Value(numerator) / d
  {
    DivIs(Value(numerator), d, Value(quotient));
  }

  /** The digits taken so far are the quotient digits times the denominator, and the remainder. */
  ghost predicate DividedSoFar(taken: string, quotient: string, remainder: nat, d: nat) {
    && AllDigits(taken) && AllDigits(quotient) && |quotient| == |taken| && remainder < d
    && Value(taken) == Value(quotient) * d + remainder
  }

  lemma {:induction false} ValueSnoc(s: string, c: char)
    requires AllDigits(s) && IsDigit(c)
    ensures AllDigits(s + [c]) && Value(s + [c]) == 10 * Value(s) + DigitOf(c)
  {
    assert (s + [c])[..|s|] == s;
  }

  lemma BroughtDown(next: nat, d: nat)
    requires d > 0 && next < 10 * d
    ensures next / d < 10 && next % d < d && next == (next / d) * d + next % d
  {
    DivBounds(next, d);
    FactorStrict(next / d, 10, d);
  }

  /** One more digit of the numerator gives one more digit of the quotient. */
  lemma DigitDivided(s: string, c: char, quotient: string, remainder: nat, q: nat, r: nat, d: nat)
    requires DividedSoFar(s, quotient, remainder, d) && IsDigit(c) && q < 10 && r < d
    requires remainder * 10 + DigitOf(c) == q * d + r
    ensures DividedSoFar(s + [c], quotient + [DigitChar(q)], r, d)
  {
    ValueSnoc(s, c);
    ValueSnoc(quotient, DigitChar(q));
    Distribute(10 * Value(quotient), q, d);
    Reassociate(10, Value(quotient), d);
  }

  /** The digits and exponent of a number; zero is always the text 0. */
  method DecimalOf(x: Number) returns (r: Result<Decimal, AmountError>)
    requires x.Valid()
    ensures !x.Finite? ==> r == Err(BadAmount)
    ensures x.Finite? ==> r.Ok? && AllDigits(r.value.digits)
                          && Value(r.value.digits) == x.Coefficient() && r.value.exponent == x.Exponent()
  {
    if !x.Finite? {
      return Err(BadAmount);
    }
    ScanLiteral(x.literal);
    if x.literal.Coefficient() == 0 {
      ZeroText();
      return Ok(Decimal("0", 0));
    }
    r := Scan(x.literal.Text());
  }

  method ScaledNumber(x: Number, places: int, mode: Mode) returns (r: Result<nat, AmountError>)
    requires x.Valid()
    ensures r == UnitsOf(x, places, mode)
  {
    var d :- DecimalOf(x);
    r := Scaled(d, places, mode);
  }

  /** A wide product printed and rounded again. */
  method ScaledProduct(n: nat, exponent: int, places: int, mode: Mode) returns (r: Result<nat, AmountError>)
    ensures r == Fits(Units(n, exponent, places, mode))
  {
    r := Scaled(Decimal(ToDec(n), exponent), places, mode);
  }

  /** The number denotes the tick: what it is read as, however that prints. */
  predicate Denotes(parsed: Number, tick: string)
    requires parsed.Valid() && tick in ROUNDING
  {
    parsed.Finite?
    && Num(parsed.Coefficient(), parsed.Exponent()) * Pow10(ROUNDING[tick].price)
       == IncrementOf(tick) * Den(parsed.Exponent())
  }

  /** A fraction that equals a whole number, after cancelling. */
  lemma Cancel(x: nat, p: nat, inc: nat, b: nat, u: nat, v: nat)
    requires u * b == (x * p) * v && x * p == inc * b && b > 0
    ensures u == inc * v
  {
    Reassociate(inc, b, v);
    Reassociate(inc, v, b);
    FactorOrder(u, inc * v, b);
    FactorOrder(inc * v, u, b);
  }

  /** Any literal of the tick's value, rounded to the tick's price digits, is one increment. */
  lemma TickUnits(parsed: Number, tick: string)
    requires parsed.Valid() && tick in ROUNDING && Denotes(parsed, tick)
    ensures UnitsOf(parsed, ROUNDING[tick].price, Down) == Ok(IncrementOf(tick))
  {
    var n, e, p := parsed.Coefficient(), parsed.Exponent(), ROUNDING[tick].price;
    ShiftFraction(n, e, p);
    Cancel(Num(n, e), Pow10(p), IncrementOf(tick), Den(e), Num(n, e + p), Den(e + p));
    RoundedIs(Down, IncrementOf(tick) * Den(e + p), Den(e + p), IncrementOf(tick));
  }

  method TickIncrement(tick: string, parsed: Number) returns (inc: nat)
    requires tick in ROUNDING && parsed.Valid() && Denotes(parsed, tick)
    ensures inc == IncrementOf(tick)
  {
    TickUnits(parsed, tick);
    var r := ScaledNumber(parsed, ROUNDING[tick].price, Down);
    inc := r.value;
  }

  /** The literal a tick's text is. */
  ghost function TickLiteral(tick: string): Number
    requires |tick| > 2
  {
    Finite(Literal("0", tick[2..], None))
  }

  /** Reading a tick's own text gives a number of the tick's value. */
  lemma TickDenotesItself(tick: string)
    requires tick in ROUNDING
    ensures |tick| > 2 && TickLiteral(tick).literal.Text() == tick
    ensures TickLiteral(tick).Valid() && Denotes(TickLiteral(tick), tick)
  {
    TickText(tick);
    ZeroText();
    var l := TickLiteral(tick).literal;
    assert l.Text() == "0" + ("." + tick[2..]);
    assert tick == tick[..2] + tick[2..];
    assert l.Coefficient() == IncrementOf(tick);
  }

  /** The finest tick prints with an exponent. */
  lemma FinestTickPrinted()
    ensures "0.0001" in ROUNDING
    ensures var parsed := Finite(Literal("1", "", Some(Exponent('e', Minus, "04"))));
            parsed.literal.Text() == "1e-04" && parsed.Valid() && Denotes(parsed, "0.0001")
  {
    var digits := "04";
    assert digits[..1] == "0";
    ValueSingle("0");
    assert Value(digits) == 4;
    ValueSingle("1");
    SmallPowers();
  }

  // --------------------------------------------------- the builders on texts

  method OrderAmounts(side: Side, size: Number, price: Number, tick: string)
    returns (r: Result<(nat, nat), AmountError>)
    requires size.Valid() && price.Valid()
    ensures r == LimitAmounts(side, size, price, tick)
  {
    var rc :- ConfigFor(tick);
    var _ :- CheckPrice(price);
    if side == Unknown {
      return Err(BadSide);
    }
    var shares :- ScaledNumber(size, rc.size, Down);
    var priceUnits :- ScaledNumber(price, rc.price, Nearest);
    r := DeriveLimit(side, shares, priceUnits, rc);
  }

  method DeriveLimit(side: Side, shares: nat, priceUnits: nat, rc: RoundConfig)
    returns (r: Result<(nat, nat), AmountError>)
    requires shares < U64_LIMIT && priceUnits < U64_LIMIT
    ensures r == LimitFrom(side, shares, priceUnits, rc)
  {
    WideProduct(shares, priceUnits, 1);
    var product := CheckedMul(shares, priceUnits);
    var cash :- ScaledProduct(product, -(rc.amount as int), 6, Down);
    var tokens :- TokenUnits(shares);
    r := Ok(if side == Buy then (cash, tokens) else (tokens, cash));
  }

  /** Reads the price's digits back as an integer. */
  method ReadPriceDigits(price: Number) returns (r: Result<nat, AmountError>)
    requires price.Valid()
    ensures r == PriceDigits(price)
  {
    var p :- DecimalOf(price);
    r := Scaled(Decimal(p.digits, 0), 0, Down);
    RoundWhole(Down, Value(p.digits));
  }

  method RoundCash(shares: nat, coefficient: nat, exponent: int) returns (r: Result<nat, AmountError>)
    requires shares < U64_LIMIT && coefficient < U64_LIMIT
    ensures r == CashCap(shares, coefficient, exponent)
  {
    WideProduct(shares, coefficient, 1);
    var product := CheckedMul(shares, coefficient);
    var cents :- ScaledProduct(product, exponent, 0, Up);
    r := TokenUnits(cents);
  }

  method MarketBuyAmounts(size: Number, price: Number) returns (r: Result<(nat, nat), AmountError>)
    requires size.Valid() && price.Valid()
    ensures r == MarketBuy(size, price)
  {
    var _ :- CheckPrice(price);
    var shares :- ScaledNumber(size, 2, Down);
    var tokens :- TokenUnits(shares);
    var coefficient :- ReadPriceDigits(price);
    var cash :- RoundCash(shares, coefficient, price.Exponent());
    r := Ok((cash, tokens));
  }

  /** A wide product, which must stay within 256 bits. */
  method CheckedMul(a: nat, b: nat) returns (p: nat)
    requires a * b < U256_LIMIT
    ensures p == a * b
  {
    p := a * b;
  }

  /** Three 64-bit factors stay within 256 bits. */
  lemma WideProduct(a: nat, b: nat, c: nat)
    requires a < U64_LIMIT && b < U64_LIMIT && c < U64_LIMIT
    ensures a * b * c < U256_LIMIT
  {
    MulOrder(a, U64_LIMIT, b);
    MulOrder(b, U64_LIMIT, U64_LIMIT);
    MulOrder(a * b, U64_LIMIT * U64_LIMIT, c);
    MulOrder(c, U64_LIMIT, U64_LIMIT * U64_LIMIT);
  }

  lemma SmallPowers()
    ensures Pow10(0) == 1 && Pow10(1) == 10 && Pow10(2) == 100 && Pow10(3) == 1000
    ensures Pow10(4) == 10000 && Pow10(5) == 100000 && Pow10(6) == 1000000
  {
  }

  method ProtectionUnits(price: Number, tick: string, parsed: Number) returns (r: Result<nat, AmountError>)
    requires price.Valid() && tick in ROUNDING && parsed.Valid() && Denotes(parsed, tick)
    ensures r == Protection(price, tick)
  {
    var increment := TickIncrement(tick, parsed);
    var raw :- ScaledNumber(price, ROUNDING[tick].price, Down);
    r := Ok(FloorTo(raw, increment));
  }

  /** Long division of the scaled cash by the price, on digit strings. */
  method DeriveTokens(cents: nat, priceUnits: nat, rc: RoundConfig) returns (r: Result<nat, AmountError>)
    requires cents < U64_LIMIT && rc in ROUNDING.Values && 0 < priceUnits <= Pow10(rc.price)
    ensures r == TokensFor(cents, priceUnits, rc)
  {
    SmallPowers();
    var scale := Power10(rc.price);
    var amountScale := Power10(rc.amount);
    WideProduct(cents, scale, 1);
    var scaledCents := CheckedMul(cents, scale);
    WideProduct(cents, scale, amountScale);
    var numerator := CheckedMul(scaledCents, amountScale);
    // 100 * priceUnits is at most a million here
    var quotient := DivideDown(ToDec(numerator), 100 * priceUnits);
    r := Scaled(Decimal(quotient, -(rc.amount as int)), 6, Down);
  }

  /** The protected order for a floored share count and protection price. */
  method DeriveProtected(shares: nat, priceUnits: nat, increment: nat, tick: string)
    returns (r: Result<(nat, nat), AmountError>)
    requires tick in ROUNDING && increment == IncrementOf(tick) && InRange(priceUnits, tick)
    requires shares < U64_LIMIT
    ensures r == ProtectedFrom(shares, priceUnits, tick)
  {
    var rc := ROUNDING[tick];
    TickTable(tick);
    SmallPowers();
    WideProduct(shares, priceUnits, 1);
    var product := CheckedMul(shares, priceUnits);
    var cents :- ScaledProduct(product, -(rc.price as int), 0, Up);
    var cash :- TokenUnits(cents);
    var tokens :- DeriveTokens(cents, priceUnits, rc);
    r := CheckTickBound(cash, tokens, priceUnits, increment, rc.price);
  }

  method CheckTickBound(cash: nat, tokens: nat, priceUnits: nat, increment: nat, places: nat)
    returns (r: Result<(nat, nat), AmountError>)
    requires cash < U64_LIMIT && tokens < U64_LIMIT && places <= 4 && priceUnits + increment <= Pow10(places)
    ensures r == BoundCheck(cash, tokens, priceUnits, increment, Pow10(places))
  {
    SmallPowers();
    var scale := Power10(places);
    if cash == 0 || tokens == 0 {
      return Err(NotPositive);
    }
    WideProduct(cash, scale, 1);
    var signedCash := CheckedMul(cash, scale);
    WideProduct(tokens, priceUnits, 1);
    var lower := CheckedMul(tokens, priceUnits);
    WideProduct(tokens, priceUnits + increment, 1);
    var upper := CheckedMul(tokens, priceUnits + increment);
    if signedCash < lower || signedCash >= upper {
      return Err(TickBound);
    }
    r := Ok((cash, tokens));
  }

  /** `parsed` is the number the tick's text reads as. */
  method ProtectedMarketBuyAmounts(size: Number, price: Number, tick: string, parsed: Number)
    returns (r: Result<(nat, nat), AmountError>)
    requires size.Valid() && price.Valid() && parsed.Valid() && (tick in ROUNDING ==> Denotes(parsed, tick))
    ensures r == ProtectedBuy(size, price, tick)
  {
    var _ :- CheckPrice(price);
    var rc :- ConfigFor(tick);
    var scale := Power10(rc.price);
    var increment := TickIncrement(tick, parsed);
    var priceUnits :- ProtectionUnits(price, tick, parsed);
    if priceUnits < increment || priceUnits > scale - increment {
      return Err(ProtectionOutOfRange);
    }
    var shares :- ScaledNumber(size, 2, Down);
    r := DeriveProtected(shares, priceUnits, increment, tick);
  }

  method CheckFinest(cash: nat, tokens: nat, protection: nat, places: nat) returns (r: Result<(), AmountError>)
    requires cash < U64_LIMIT && tokens < U64_LIMIT && places <= 4 && protection <= Pow10(places)
    ensures r == if BelowNextFinest(cash, tokens, protection, places) then Ok(()) else Err(FinestTickBound)
  {
    SmallPowers();
    var scale := Power10(places);
    var next := protection * (FINEST_SCALE / scale) + 1;
    FinestFits(protection, scale);
    WideProduct(cash, FINEST_SCALE, 1);
    WideProduct(tokens, next, 1);
    var left := CheckedMul(cash, FINEST_SCALE);
    var right := CheckedMul(tokens, next);
    r := if left >= right then Err(FinestTickBound) else Ok(());
  }

  lemma FinestFits(protection: nat, scale: nat)
    requires 0 < scale && protection <= scale
    ensures protection * (FINEST_SCALE / scale) <= FINEST_SCALE
  {
    MulOrder(protection, scale, FINEST_SCALE / scale);
    DivBounds(FINEST_SCALE, scale);
  }

  method ValidateProtectedMarketBuyPrice(cash: nat, tokens: nat, price: Number, tick: string, parsed: Number)
    returns (r: Result<(), AmountError>)
    requires price.Valid() && cash < U64_LIMIT && tokens < U64_LIMIT
    requires parsed.Valid() && (tick in ROUNDING ==> Denotes(parsed, tick))
    ensures r == FinalCheck(cash, tokens, price, tick)
  {
    var _ :- CheckPrice(price);
    var rc :- ConfigFor(tick);
    TickTable(tick);
    SmallPowers();
    var scale := Power10(rc.price);
    var increment := TickIncrement(tick, parsed);
    var protection :- ProtectionUnits(price, tick, parsed);
    if protection < increment || protection > scale - increment || cash == 0 || tokens == 0 {
      return Err(InvalidProtectedAmounts);
    }
    r := CheckFinest(cash, tokens, protection, rc.price);
  }
}
