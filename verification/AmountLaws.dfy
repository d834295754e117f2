/**
  What the amount builders guarantee for every size, price and supported tick:
  exactness of limit orders, minimality of the marketable cash cap, the tick
  bound of protected buys and the reach of the final price check.
 */
module AmountLaws {

  import opened Results
  import opened Arith
  import opened Numerals
  import opened Rounding
  import opened Decimals
  import opened Amounts

  // ------------------------------------------------------- decimal fractions

  /** The order of two numbers, by cross multiplication. */
  ghost predicate AtMost(x: Number, y: Number)
    requires x.Valid() && y.Valid() && x.Finite? && y.Finite?
  {
    Num(x.Coefficient(), x.Exponent()) * Den(y.Exponent())
    <= Num(y.Coefficient(), y.Exponent()) * Den(x.Exponent())
  }

  const ONE := Finite(Literal("1", "", None))

  /** A price is accepted exactly when it is a number of at least zero and at most one. */
  lemma PriceAcceptance(price: Number)
    requires price.Valid()
    ensures ONE.Valid()
    ensures CheckPrice(price).Ok? <==> price.Finite? && AtMost(price, ONE)
  {
    ValueSingle("1");
    assert ONE.Coefficient() == 1 && ONE.Exponent() == 0;
    assert Num(1, 0) == 1 && Den(0) == 1;
  }

  /** Shifting two ordered fractions by the same power keeps their order. */
  lemma ShiftOrder(a: nat, b: nat, p: nat, a': nat, b': nat, u: nat, v: nat, u': nat, v': nat)
    requires u * b == (a * p) * v && u' * b' == (a' * p) * v'
    requires a * b' <= a' * b && b > 0 && b' > 0
    ensures u * v' <= u' * v
  {
    var w := p * (v * v');
    assert (u * v') * (b * b') == (a * b') * w by {
      assert (u * v') * (b * b') == (u * b) * (v' * b') by { Regroup(u, v', b, b'); }
      assert ((a * p) * v) * (v' * b') == (a * b') * w by { Regroup3(a, p, v, v', b'); }
    }
    assert (u' * v) * (b * b') == (a' * b) * w by {
      assert (u' * v) * (b' * b) == (u' * b') * (v * b) by { Regroup(u', v, b', b); }
      assert ((a' * p) * v') * (v * b) == (a' * b) * (p * (v' * v)) by { Regroup3(a', p, v', v, b); }
      Commute(v', v);
      Commute(b', b);
    }
    MulOrder(a * b', a' * b, w);
    if u * v' > u' * v {
      assert b * b' > 0 by { MulStrict(0, b, b'); }
      MulStrict(u' * v, u * v', b * b');
    }
  }

  lemma Commute(a: int, b: int)
    ensures a * b == b * a
  {
  }

  lemma Regroup(a: int, b: int, c: int, d: int)
    ensures (a * b) * (c * d) == (a * c) * (b * d)
  {
    Reassociate(a, b, c * d);
    Reassociate(b, c, d);
    Reassociate(a, c, b * d);
  }

  lemma Regroup3(a: int, p: int, v: int, v': int, b': int)
    ensures ((a * p) * v) * (v' * b') == (a * b') * (p * (v * v'))
  {
    Reassociate(a, p, v);
    Regroup(a, p * v, v', b');
    Commute(v', b');
    Regroup(a, p * v, b', v');
    Reassociate(p, v, v');
  }

  /** Rounding to any number of places respects the order of numbers. */
  lemma UnitsMonotone(x: Number, y: Number, places: nat, mode: Mode)
    requires x.Valid() && y.Valid() && x.Finite? && y.Finite? && AtMost(x, y)
    ensures Units(x.Coefficient(), x.Exponent(), places, mode)
         <= Units(y.Coefficient(), y.Exponent(), places, mode)
  {
    var (n, e, n', e') := (x.Coefficient(), x.Exponent(), y.Coefficient(), y.Exponent());
    ShiftFraction(n, e, places);
    ShiftFraction(n', e', places);
    ShiftOrder(Num(n, e), Den(e), Pow10(places), Num(n', e'), Den(e'),
               Num(n, e + places), Den(e + places), Num(n', e' + places), Den(e' + places));
    RoundDivMonotone(mode, Num(n, e + places), Den(e + places), Num(n', e' + places), Den(e' + places));
  }

  /** A price of at most one is at most 10^places units, whatever the mode. */
  lemma {:induction false} PriceUnitsBound(price: Number, places: nat, mode: Mode)
    requires price.Valid() && CheckPrice(price).Ok?
    ensures Units(price.Coefficient(), price.Exponent(), places, mode) <= Pow10(places)
  {
    var n, e := price.Coefficient(), price.Exponent();
    ShiftFraction(n, e, places);
    ShiftOrder(Num(n, e), Den(e), Pow10(places), 1, 1,
               Num(n, e + places), Den(e + places), Pow10(places), 1);
    RoundDivMonotone(mode, Num(n, e + places), Den(e + places), Pow10(places), 1);
    RoundWhole(mode, Pow10(places));
  }

  lemma PlacesFit(places: nat)
    requires places <= 4
    ensures Pow10(places) <= 10000 && Pow10(places) * Pow10(4 - places) == 10000
  {
    SmallPowers();
  }

  // ------------------------------------------------------------ limit orders

  ghost function SharesOf(size: Number): nat
    requires size.Valid() && size.Finite?
  {
    Units(size.Coefficient(), size.Exponent(), 2, Down)
  }

  ghost function LimitPrice(price: Number, tick: string): nat
    requires price.Valid() && price.Finite? && tick in ROUNDING
  {
    TickText(tick);
    Units(price.Coefficient(), price.Exponent(), |tick| - 2, Nearest)
  }

  ghost function LimitCash(shares: nat, priceUnits: nat, tick: string): nat
    requires tick in ROUNDING
  {
    TickTable(tick);
    shares * priceUnits * Pow10(4 - ROUNDING[tick].price)
  }

  /** Cash at the rounded price is exact, and never exceeds the tokens. */
  lemma LimitCashExact(shares: nat, priceUnits: nat, tick: string)
    requires tick in ROUNDING && priceUnits <= Pow10(ROUNDING[tick].price)
    ensures LimitCash(shares, priceUnits, tick) * Pow10(ROUNDING[tick].price) == shares * 10000 * priceUnits
    ensures LimitCash(shares, priceUnits, tick) <= shares * 10000
  {
    TickTable(tick);
    var p := ROUNDING[tick].price;
    var f := Pow10(4 - p);
    PlacesFit(p);
    Reassociate(shares * priceUnits, f, Pow10(p));
    Reassociate(shares, priceUnits, 10000);
    MulOrder(priceUnits, Pow10(p), shares);
    MulOrder(shares * priceUnits, shares * Pow10(p), f);
    Reassociate(shares, Pow10(p), f);
  }

  lemma LimitFits(shares: nat, priceUnits: nat, tick: string)
    requires tick in ROUNDING && priceUnits <= Pow10(ROUNDING[tick].price)
    ensures Fits(Units(shares * priceUnits, -(ROUNDING[tick].amount as int), 6, Down))
         == Fits(LimitCash(shares, priceUnits, tick))
  {
    TickTable(tick);
    WholeUnits(shares * priceUnits, -(ROUNDING[tick].amount as int), 6, Down);
  }

  /**
    A limit order over a supported tick and a price in range yields exactly the
    floored shares and their cost at the rounded price, swapped between the
    sides; it overflows exactly when the tokens leave 64 bits.
   */
  lemma {:induction false} LimitOrderOutcome(side: Side, size: Number, price: Number, tick: string)
    requires size.Valid() && price.Valid() && size.Finite? && CheckPrice(price).Ok?
    requires tick in ROUNDING && side != Unknown
    ensures var shares := SharesOf(size);
            var cash, tokens := LimitCash(shares, LimitPrice(price, tick), tick), shares * 10000;
            && |tick| > 2 && cash * Pow10(|tick| - 2) == tokens * LimitPrice(price, tick)
            && cash <= tokens
            && LimitAmounts(side, size, price, tick)
               == if tokens >= U64_LIMIT then Err(Overflow)
                  else Ok(if side == Buy then (cash, tokens) else (tokens, cash))
  {
    var shares := SharesOf(size);
    var priceUnits := LimitPrice(price, tick);
    TickTable(tick);
    TickText(tick);
    PriceUnitsBound(price, ROUNDING[tick].price, Nearest);
    PlacesFit(ROUNDING[tick].price);
    LimitCashExact(shares, priceUnits, tick);
    LimitFits(shares, priceUnits, tick);
  }

  // -------------------------------------------------------- marketable buys

  lemma NumProduct(s: nat, c: nat, e: int)
    ensures Num(s * c, e) == s * Num(c, e)
  {
    if e >= 0 { Reassociate(s, c, Pow10(e)); }
  }

  ghost function MarketCents(shares: nat, price: Number): nat
    requires price.Valid() && price.Finite?
  {
    RoundDiv(Up, shares * Num(price.Coefficient(), price.Exponent()), Den(price.Exponent()))
  }

  /** cents dollars-per-hundred cover that many shares at the price. */
  ghost predicate Covers(cents: nat, shares: nat, price: Number)
    requires price.Valid() && price.Finite?
  {
    shares * Num(price.Coefficient(), price.Exponent()) <= cents * Den(price.Exponent())
  }

  lemma MarketCentsBounds(shares: nat, price: Number)
    requires price.Valid() && CheckPrice(price).Ok?
    ensures MarketCents(shares, price) <= shares
    ensures Covers(MarketCents(shares, price), shares, price)
    ensures forall cents :: Covers(cents, shares, price) ==> MarketCents(shares, price) <= cents
  {
    var n, d := Num(price.Coefficient(), price.Exponent()), Den(price.Exponent());
    MulOrder(n, d, shares);
    RoundDivMeaning(Up, shares * n, d);
    forall cents: nat | Covers(cents, shares, price)
      ensures MarketCents(shares, price) <= cents
    {
      FactorOrder(MarketCents(shares, price), cents, d);
    }
    assert Covers(shares, shares, price);
  }

  /**
    A marketable buy signs the floored shares and the least whole-cent amount
    that covers them at the price; it overflows exactly when the tokens or the
    price's digits leave 64 bits.
   */
  lemma MarketBuyOutcome(size: Number, price: Number)
    requires size.Valid() && price.Valid() && size.Finite? && CheckPrice(price).Ok?
    ensures var shares := SharesOf(size);
            var cents := MarketCents(shares, price);
            && cents <= shares
            && Covers(cents, shares, price)
            && (forall c :: Covers(c, shares, price) ==> cents <= c)
            && MarketBuy(size, price)
               == if shares * 10000 >= U64_LIMIT || price.Coefficient() >= U64_LIMIT then Err(Overflow)
                  else Ok((cents * 10000, shares * 10000))
  {
    var shares := SharesOf(size);
    MarketCentsBounds(shares, price);
    NumProduct(shares, price.Coefficient(), price.Exponent());
  }

  /** More size or a higher price never lowers either amount. */
  lemma MarketBuyMonotone(size: Number, price: Number, size': Number, price': Number)
    requires size.Valid() && price.Valid() && size'.Valid() && price'.Valid()
    requires MarketBuy(size, price).Ok? && MarketBuy(size', price').Ok?
    requires size.Finite? && size'.Finite? && AtMost(size, size') && AtMost(price, price')
    ensures MarketBuy(size, price).value.0 <= MarketBuy(size', price').value.0
    ensures MarketBuy(size, price).value.1 <= MarketBuy(size', price').value.1
  {
    MarketBuyOutcome(size, price);
    MarketBuyOutcome(size', price');
    UnitsMonotone(size, size', 2, Down);
    CentsMonotone(SharesOf(size), price, SharesOf(size'), price');
  }

  lemma CentsMonotone(s: nat, price: Number, s': nat, price': Number)
    requires price.Valid() && price'.Valid() && price.Finite? && price'.Finite?
    requires s <= s' && AtMost(price, price')
    ensures MarketCents(s, price) <= MarketCents(s', price')
  {
    var n, d := Num(price.Coefficient(), price.Exponent()), Den(price.Exponent());
    var n', d' := Num(price'.Coefficient(), price'.Exponent()), Den(price'.Exponent());
    ProductUpMonotone(s, n, d, s', n', d');
  }

  lemma ProductUpMonotone(s: nat, n: nat, d: nat, s': nat, n': nat, d': nat)
    requires s <= s' && n * d' <= n' * d && d > 0 && d' > 0
    ensures RoundDiv(Up, s * n, d) <= RoundDiv(Up, s' * n', d')
  {
    assert (s * n) * d' <= (s' * n') * d by {
      MulOrder(s, s', n * d');
      MulOrder(n * d', n' * d, s');
      Reassociate(s, n, d');
      Reassociate(s', n', d);
    }
    RoundUpMonotone(s * n, d, s' * n', d');
  }

  // ---------------------------------------------------------- protected buys

  /** A quotient whose increments stay below the divisor comes from a small number. */
  lemma SmallIncrements(N: nat, S: nat, pu: nat, inc: nat, q: nat)
    requires inc > 0 && pu + inc <= S && N < q * pu + pu && q * inc < pu
    ensures N < S * S
  {
    ProductGrows(N, inc);
    Distribute(q, 1, pu);
    MulStrict(N, (q + 1) * pu, inc);
    Reassociate(q + 1, pu, inc);
    Distribute(q, 1, inc);
    MulOrder((q + 1) * inc, S, pu);
    MulOrder(pu, S, S);
  }

  /** Flooring N/pu loses less than one increment as soon as N covers S squared. */
  lemma TickBoundCore(N: nat, S: nat, pu: nat, inc: nat)
    requires pu > 0 && inc > 0 && pu + inc <= S && S * S <= N
    ensures (N / pu) * pu <= N < (N / pu) * (pu + inc)
  {
    var q := N / pu;
    DivBounds(N, pu);
    if q * inc < pu {
      SmallIncrements(N, S, pu, inc, q);
    }
    Distribute(pu, inc, q);
  }

  lemma DivScale(n: nat, d: nat, k: nat)
    requires d > 0 && k > 0
    ensures k * d > 0 && (k * n) / (k * d) == n / d
  {
    MulStrict(0, d, k);
    var q := n / d;
    DivBounds(n, d);
    MulOrder(q * d, n, k);
    MulStrict(n, q * d + d, k);
    Distribute(q * d, d, k);
    Reassociate(q, d, k);
    DivIs(k * n, k * d, q);
  }

  ghost function CentsFor(shares: nat, pu: nat, places: nat): nat {
    RoundDiv(Up, shares * pu, Pow10(places))
  }

  /** The whole number of price units in the cash cap, before the last scaling. */
  ghost function CashRatio(cents: nat, pu: nat, places: nat): nat
    requires pu > 0
  {
    (cents * (Pow10(places) * Pow10(places))) / pu
  }

  ghost function ProtectedTokens(cents: nat, pu: nat, places: nat): nat
    requires pu > 0 && places <= 4
  {
    CashRatio(cents, pu, places) * Pow10(4 - places)
  }

  lemma TokensForClosed(cents: nat, pu: nat, rc: RoundConfig)
    requires pu > 0 && 1 <= rc.price <= 4 && rc.amount == rc.price + 2
    ensures TokensFor(cents, pu, rc) == Fits(ProtectedTokens(cents, pu, rc.price))
  {
    var S := Pow10(rc.price);
    PowAdd(2, rc.price);
    SmallPowers();
    assert CashNumerator(cents, rc) == 100 * (cents * (S * S)) by {
      Reassociate(cents, S, 100 * S);
      Reassociate(S, 100, S);
      Reassociate(cents, 100, S * S);
    }
    DivScale(cents * (S * S), pu, 100);
    WholeUnits(CashRatio(cents, pu, rc.price), -(rc.amount as int), 6, Down);
  }

  /** The cash cap in cents: enough for the shares, at most one cent per hundredth share. */
  lemma {:induction false} CentsForBounds(shares: nat, pu: nat, places: nat)
    requires 0 < pu <= Pow10(places)
    ensures shares * pu <= CentsFor(shares, pu, places) * Pow10(places)
    ensures CentsFor(shares, pu, places) <= shares
    ensures CentsFor(shares, pu, places) == 0 <==> shares == 0
  {
    var S := Pow10(places);
    var c := CentsFor(shares, pu, places);
    RoundDivMeaning(Up, shares * pu, S);
    MulOrder(pu, S, shares);
    FactorOrder(c, shares, S);
    if shares > 0 {
      MulStrict(0, shares, pu);
    } else {
      RoundedIs(Up, 0, S, 0);
    }
  }

  /** The floor of the cash ratio never drops below the scaled cents or the scaled shares. */
  lemma {:induction false} RatioBounds(shares: nat, cents: nat, pu: nat, places: nat)
    requires 0 < pu <= Pow10(places) && shares * pu <= cents * Pow10(places)
    ensures CashRatio(cents, pu, places) >= cents * Pow10(places)
    ensures CashRatio(cents, pu, places) >= shares * Pow10(places)
  {
    var S := Pow10(places);
    var q := CashRatio(cents, pu, places);
    DivBounds(cents * (S * S), pu);
    Reassociate(cents, S, S);
    MulOrder(pu, S, cents * S);
    FactorOrder(cents * S, q, pu);
    MulOrder(shares * pu, cents * S, S);
    Reassociate(shares, pu, S);
    FactorOrder(shares * S, q, pu);
  }

  lemma {:induction false} TokensBounds(shares: nat, cents: nat, pu: nat, places: nat)
    requires places <= 4 && 0 < pu <= Pow10(places) && shares * pu <= cents * Pow10(places)
    ensures ProtectedTokens(cents, pu, places) >= cents * 10000
    ensures ProtectedTokens(cents, pu, places) >= shares * 10000
  {
    var S, F := Pow10(places), Pow10(4 - places);
    PlacesFit(places);
    RatioBounds(shares, cents, pu, places);
    MulOrder(cents * S, CashRatio(cents, pu, places), F);
    MulOrder(shares * S, CashRatio(cents, pu, places), F);
    Reassociate(cents, S, F);
    Reassociate(shares, S, F);
  }

  /** Derived amounts permit the protection tick and exclude the next one. */
  ghost predicate WithinTick(cash: nat, tokens: nat, pu: nat, inc: nat, scale: nat) {
    tokens * pu <= cash * scale < tokens * (pu + inc)
  }

  lemma {:induction false} DerivedWithinTick(cents: nat, pu: nat, inc: nat, places: nat)
    requires cents > 0 && pu > 0 && inc > 0 && places <= 4 && pu + inc <= Pow10(places)
    ensures WithinTick(cents * 10000, ProtectedTokens(cents, pu, places), pu, inc, Pow10(places))
  {
    var S, F := Pow10(places), Pow10(4 - places);
    var N := cents * (S * S);
    var q := CashRatio(cents, pu, places);
    PlacesFit(places);
    MulStrict(0, S, S);
    ProductGrows(S * S, cents);
    TickBoundCore(N, S, pu, inc);
    MulOrder(q * pu, N, F);
    MulStrict(N, q * (pu + inc), F);
    Reassociate(q, pu, F);
    Reassociate(q, pu + inc, F);
    assert cents * 10000 * S == N * F by {
      Reassociate(cents, S * F, S);
      Reassociate(S, F, S);
      Reassociate(cents, S * S, F);
    }
  }

  /** The amounts a protected buy derives, in closed form. */
  lemma ProtectedFromOutcome(shares: nat, pu: nat, tick: string)
    requires tick in ROUNDING && InRange(pu, tick) && shares < U64_LIMIT
    ensures var places := Places(tick);
            var cents := CentsFor(shares, pu, places);
            var tokens := ProtectedTokens(cents, pu, places);
            && tokens >= shares * 10000
            && (shares > 0 ==> WithinTick(cents * 10000, tokens, pu, IncrementOf(tick), Pow10(places)))
            && ProtectedFrom(shares, pu, tick)
               == if tokens >= U64_LIMIT then Err(Overflow)
                  else if shares == 0 then Err(NotPositive)
                  else Ok((cents * 10000, tokens))
  {
    TickTable(tick);
    var rc := ROUNDING[tick];
    var cents := CentsFor(shares, pu, rc.price);
    CentsForBounds(shares, pu, rc.price);
    assert Units(shares * pu, -(rc.price as int), 0, Up) == cents;
    TokensForClosed(cents, pu, rc);
    TokensBounds(shares, cents, pu, rc.price);
    if shares > 0 {
      DerivedWithinTick(cents, pu, IncrementOf(tick), rc.price);
    }
  }

  ghost function ProtectionOf(price: Number, tick: string): nat
    requires price.Valid() && price.Finite? && tick in ROUNDING
  {
    FloorTo(Units(price.Coefficient(), price.Exponent(), ROUNDING[tick].price, Down), IncrementOf(tick))
  }

  lemma ProtectionFits(price: Number, tick: string)
    requires price.Valid() && CheckPrice(price).Ok? && tick in ROUNDING
    ensures Protection(price, tick) == Ok(ProtectionOf(price, tick))
  {
    TickTable(tick);
    PriceUnitsBound(price, ROUNDING[tick].price, Down);
    PlacesFit(ROUNDING[tick].price);
  }

  /**
    Every outcome of a protected buy whose price is valid: the protection is out
    of range, the amounts overflow, the size floors to nothing, or the signed
    pair stays within the protection tick and never below the share target.
   */
  lemma ProtectedBuyOutcome(size: Number, price: Number, tick: string)
    requires size.Valid() && price.Valid() && size.Finite? && CheckPrice(price).Ok?
    requires tick in ROUNDING && InRange(ProtectionOf(price, tick), tick)
    ensures var places := Places(tick);
            var shares, pu := SharesOf(size), ProtectionOf(price, tick);
            var cents := CentsFor(shares, pu, places);
            var tokens := ProtectedTokens(cents, pu, places);
            && tokens >= shares * 10000
            && (shares > 0 ==> WithinTick(cents * 10000, tokens, pu, IncrementOf(tick), Pow10(places)))
            && ProtectedBuy(size, price, tick)
               == if shares >= U64_LIMIT || tokens >= U64_LIMIT then Err(Overflow)
                  else if shares == 0 then Err(NotPositive)
                  else Ok((cents * 10000, tokens))
  {
    ProtectionFits(price, tick);
    TickTable(tick);
    var places := Places(tick);
    var shares, pu := SharesOf(size), ProtectionOf(price, tick);
    if shares < U64_LIMIT {
      ProtectedFromOutcome(shares, pu, tick);
    } else {
      CentsForBounds(shares, pu, places);
      TokensBounds(shares, CentsFor(shares, pu, places), pu, places);
      DerivedWithinTick(CentsFor(shares, pu, places), pu, IncrementOf(tick), places);
    }
  }

  /** The run-time tick-bound failure is unreachable, for every input. */
  lemma TickBoundUnreachable(size: Number, price: Number, tick: string)
    requires size.Valid() && price.Valid()
    ensures ProtectedBuy(size, price, tick) != Err(TickBound)
  {
    if CheckPrice(price).Ok? && tick in ROUNDING {
      ProtectionFits(price, tick);
      if InRange(ProtectionOf(price, tick), tick) && size.Finite? {
        ProtectedBuyOutcome(size, price, tick);
      }
    }
  }

  /**
    On a price that is a whole number of ticks, the protected buy signs the same
    cash as the plain marketable buy and at least as many tokens.
   */
  lemma OnTickAgreement(size: Number, price: Number, tick: string)
    requires size.Valid() && price.Valid() && size.Finite? && tick in ROUNDING
    requires ProtectedBuy(size, price, tick).Ok?
    requires price.Finite? && price.Coefficient() < U64_LIMIT
    requires ProtectionOf(price, tick) * Den(price.Exponent())
             == Num(price.Coefficient(), price.Exponent()) * Pow10(ROUNDING[tick].price)
    ensures MarketBuy(size, price).Ok?
    ensures ProtectedBuy(size, price, tick).value.0 == MarketBuy(size, price).value.0
    ensures ProtectedBuy(size, price, tick).value.1 >= MarketBuy(size, price).value.1
  {
    ProtectionFits(price, tick);
    MarketBuyOutcome(size, price);
    ProtectedBuyOutcome(size, price, tick);
    SameCents(SharesOf(size), ProtectionOf(price, tick), Pow10(ROUNDING[tick].price),
              Num(price.Coefficient(), price.Exponent()), Den(price.Exponent()));
  }

  lemma SameCents(s: nat, pu: nat, S: nat, n: nat, d: nat)
    requires S > 0 && d > 0 && pu * d == n * S
    ensures RoundDiv(Up, s * pu, S) == RoundDiv(Up, s * n, d)
  {
    Reassociate(s, pu, d);
    Reassociate(s, n, S);
    RoundDivMonotone(Up, s * pu, S, s * n, d);
    RoundDivMonotone(Up, s * n, d, s * pu, S);
  }

  /** Which input each builder refuses, and in which order it looks. */
  lemma Refusals(side: Side, size: Number, price: Number, tick: string)
    requires size.Valid() && price.Valid()
    ensures LimitAmounts(side, size, price, tick) == Err(BadTick) <==> tick !in ROUNDING
    ensures LimitAmounts(side, size, price, tick) == Err(BadPrice) <==> tick in ROUNDING && CheckPrice(price).Err?
    ensures LimitAmounts(side, size, price, tick) == Err(BadSide)
       <==> tick in ROUNDING && CheckPrice(price).Ok? && side == Unknown
    ensures LimitAmounts(side, size, price, tick) == Err(BadAmount)
       <==> tick in ROUNDING && CheckPrice(price).Ok? && side != Unknown && !size.Finite?
    ensures MarketBuy(size, price) == Err(BadPrice) <==> CheckPrice(price).Err?
    ensures MarketBuy(size, price) == Err(BadAmount) <==> CheckPrice(price).Ok? && !size.Finite?
  {
    if tick in ROUNDING && CheckPrice(price).Ok? && size.Finite? {
      MarketBuyOutcome(size, price);
      if side != Unknown { LimitOrderOutcome(side, size, price, tick); }
    }
  }

  // ------------------------------------------------------- what protection means

  /** Multiples of a step below a multiple of it are at least one step below. */
  lemma NextMultiple(a: nat, b: nat, step: nat)
    requires step > 0 && a % step == 0 && b % step == 0 && a < b
    ensures a + step <= b
  {
    DivBounds(a, step);
    DivBounds(b, step);
    FactorStrict(a / step, b / step, step);
    MulOrder(a / step + 1, b / step, step);
    Distribute(a / step, 1, step);
  }

  lemma FloorBounds(u: nat, n: nat, d: nat, b: nat, x: nat, pu: nat, inc: nat)
    requires d > 0 && b > 0 && u * d <= n < (u + 1) * d && n * b == x * d && pu <= u < pu + inc
    ensures pu * b <= x < (pu + inc) * b
  {
    if pu * b > x {
      MulStrict(x, pu * b, d);
      MulOrder(pu, u, d);
      MulOrder(pu * d, n, b);
      Reassociate(pu, b, d);
      Reassociate(pu, d, b);
    }
    if x >= (pu + inc) * b {
      MulOrder((pu + inc) * b, x, d);
      MulOrder(u + 1, pu + inc, d);
      MulStrict(n, (pu + inc) * d, b);
      Reassociate(pu + inc, b, d);
      Reassociate(pu + inc, d, b);
    }
  }

  lemma {:induction false} FlooredUnits(c: nat, e: int, p: nat, pu: nat, inc: nat)
    requires pu <= Units(c, e, p, Down) < pu + inc
    ensures pu * Den(e) <= Num(c, e) * Pow10(p) < (pu + inc) * Den(e)
  {
    var u, n, d := Units(c, e, p, Down), Num(c, e + p), Den(e + p);
    assert u * d <= n < (u + 1) * d by { RoundDivMeaning(Down, n, d); }
    var x: nat := Num(c, e) * Pow10(p);
    assert n * Den(e) == x * d by { ShiftFraction(c, e, p); }
    FloorBounds(u, n, d, Den(e), x, pu, inc);
  }

  /** The protection is the greatest whole number of ticks that the price reaches. */
  lemma ProtectionMeaning(price: Number, tick: string)
    requires price.Valid() && price.Finite? && tick in ROUNDING
    ensures var x, b := Num(price.Coefficient(), price.Exponent()), Den(price.Exponent());
            var pu, inc, S := ProtectionOf(price, tick), IncrementOf(tick), Pow10(Places(tick));
            pu % inc == 0 && pu * b <= x * S < (pu + inc) * b
  {
    FlooredUnits(price.Coefficient(), price.Exponent(), Places(tick), ProtectionOf(price, tick), IncrementOf(tick));
  }

  /** The price is less than one tick. */
  ghost predicate BelowOneTick(price: Number, tick: string)
    requires price.Valid() && price.Finite? && tick in ROUNDING
  {
    Num(price.Coefficient(), price.Exponent()) * Pow10(Places(tick)) < IncrementOf(tick) * Den(price.Exponent())
  }

  ghost predicate IsOne(price: Number)
    requires price.Valid() && price.Finite?
  {
    Num(price.Coefficient(), price.Exponent()) == Den(price.Exponent())
  }

  lemma WholeTicks(tick: string)
    requires tick in ROUNDING
    ensures Pow10(Places(tick)) % IncrementOf(tick) == 0
  {
    SmallPowers();
    TickSet(tick);
  }

  lemma RangeCore(pu: nat, inc: nat, S: nat, x: nat, b: nat)
    requires inc > 0 && b > 0 && pu % inc == 0 && S % inc == 0 && x <= b
    requires pu * b <= x * S < (pu + inc) * b
    ensures inc <= pu && pu + inc <= S <==> !(x * S < inc * b) && x != b
  {
    if inc <= pu {
      MulOrder(inc, pu, b);
    } else {
      NextMultipleZero(pu, inc);
    }
    if x == b {
      Commute(x, S);
      FactorStrict(S, pu + inc, b);
    } else if S > 0 {
      MulStrict(x, b, S);
      Commute(b, S);
      FactorStrict(pu, S, b);
      NextMultiple(pu, S, inc);
    }
  }

  lemma NextMultipleZero(a: nat, step: nat)
    requires step > 0 && a % step == 0 && a < step
    ensures a == 0
  {
    DivBounds(a, step);
  }

  /** A protection is in range exactly when the price is at least one tick and below one. */
  lemma RangeMeaning(price: Number, tick: string)
    requires price.Valid() && CheckPrice(price).Ok? && tick in ROUNDING
    ensures InRange(ProtectionOf(price, tick), tick) <==> !BelowOneTick(price, tick) && !IsOne(price)
  {
    ProtectionMeaning(price, tick);
    WholeTicks(tick);
    RangeCore(ProtectionOf(price, tick), IncrementOf(tick), Pow10(Places(tick)),
              Num(price.Coefficient(), price.Exponent()), Den(price.Exponent()));
  }

  /** Which input the protected buy refuses, and in which order it looks. */
  lemma ProtectedRefusals(size: Number, price: Number, tick: string)
    requires size.Valid() && price.Valid()
    ensures ProtectedBuy(size, price, tick) == Err(BadPrice) <==> CheckPrice(price).Err?
    ensures ProtectedBuy(size, price, tick) == Err(BadTick) <==> CheckPrice(price).Ok? && tick !in ROUNDING
    ensures ProtectedBuy(size, price, tick) == Err(ProtectionOutOfRange)
       <==> CheckPrice(price).Ok? && tick in ROUNDING && (BelowOneTick(price, tick) || IsOne(price))
    ensures ProtectedBuy(size, price, tick) == Err(BadAmount)
       <==> CheckPrice(price).Ok? && tick in ROUNDING && !BelowOneTick(price, tick) && !IsOne(price) && !size.Finite?
  {
    if CheckPrice(price).Ok? && tick in ROUNDING {
      ProtectionFits(price, tick);
      RangeMeaning(price, tick);
      if InRange(ProtectionOf(price, tick), tick) && size.Finite? {
        ProtectedBuyOutcome(size, price, tick);
      }
    }
  }

  // ---------------------------------------------------- the final price check

  /** Acceptance of derived amounts depends only on the ratio's remainder. */
  lemma FinestCore(F: nat, N: nat, pu: nat, q: nat, r: nat)
    requires F > 0 && N == q * pu + r
    ensures N * (F * F) < (q * F) * (pu * F + 1) <==> r * F < q
  {
    calc {
      (q * F) * (pu * F + 1);
      { Distribute(pu * F, 1, q * F); Commute(q * F, pu * F + 1); }
      (pu * F) * (q * F) + q * F;
      { Regroup(pu, F, q, F); Commute(pu, q); }
      (q * pu) * (F * F) + q * F;
    }
    Distribute(q * pu, r, F * F);
    Reassociate(r, F, F);
    if r * F < q { MulStrict(r * F, q, F); } else { MulOrder(q, r * F, F); }
  }

  lemma FinestIffRemainder(cents: nat, pu: nat, places: nat)
    requires places <= 4 && pu > 0
    ensures var N := cents * (Pow10(places) * Pow10(places));
            BelowNextFinest(cents * 10000, ProtectedTokens(cents, pu, places), pu, places)
            <==> (N % pu) * Pow10(4 - places) < N / pu
  {
    var S, F := Pow10(places), Pow10(4 - places);
    var N := cents * (S * S);
    PlacesFit(places);
    SmallPowers();
    DivBounds(N, pu);
    FinestCore(F, N, pu, N / pu, N % pu);
    DivIs(10000, S, F);
    assert cents * 10000 * 10000 == N * (F * F) by {
      Regroup(S, F, S, F);
      Reassociate(cents, S * S, F * F);
      Reassociate(cents, 10000, 10000);
    }
  }

  /** A quotient that stays below F times its remainder comes from a small number. */
  lemma SmallQuotient(F: nat, pu: nat, q: nat, r: nat)
    requires F > 0 && r < pu && q <= r * F
    ensures q * pu + r < (pu * pu) * F
  {
    MulOrder(r, pu - 1, F);
    Distribute(pu, -1, F);
    MulOrder(q + 1, pu * F, pu);
    Distribute(q, 1, pu);
    Reassociate(pu, F, pu);
  }

  lemma ThresholdCore(F: nat, C: nat, S: nat, pu: nat)
    requires C >= F > 0 && 0 < pu < S
    ensures ((C * (S * S)) % pu) * F < (C * (S * S)) / pu
  {
    var N := C * (S * S);
    DivBounds(N, pu);
    if N / pu <= (N % pu) * F {
      SmallQuotient(F, pu, N / pu, N % pu);
      MulOrder(pu, S, S);
      MulOrder(pu, S, pu);
      MulOrder(pu * pu, S * S, F);
      MulOrder(F, C, S * S);
    }
  }

  /** With positive amounts and a protection in range, the finest price decides. */
  lemma FinalCheckIs(cash: nat, tokens: nat, price: Number, tick: string)
    requires price.Valid() && CheckPrice(price).Ok? && tick in ROUNDING && cash > 0 && tokens > 0
    requires InRange(ProtectionOf(price, tick), tick)
    ensures FinalCheck(cash, tokens, price, tick)
         == if BelowNextFinest(cash, tokens, ProtectionOf(price, tick), Places(tick)) then Ok(())
            else Err(FinestTickBound)
  {
    ProtectionFits(price, tick);
  }

  /** Which input the final check refuses, and in which order it looks. */
  lemma FinalCheckRefusals(cash: nat, tokens: nat, price: Number, tick: string)
    requires price.Valid()
    ensures FinalCheck(cash, tokens, price, tick) == Err(BadPrice) <==> CheckPrice(price).Err?
    ensures FinalCheck(cash, tokens, price, tick) == Err(BadTick) <==> CheckPrice(price).Ok? && tick !in ROUNDING
    ensures FinalCheck(cash, tokens, price, tick) == Err(InvalidProtectedAmounts)
       <==> CheckPrice(price).Ok? && tick in ROUNDING
            && (BelowOneTick(price, tick) || IsOne(price) || cash == 0 || tokens == 0)
    ensures FinalCheck(cash, tokens, price, tick).Err?
            ==> FinalCheck(cash, tokens, price, tick).error
                in {BadPrice, BadTick, InvalidProtectedAmounts, FinestTickBound}
  {
    if CheckPrice(price).Ok? && tick in ROUNDING {
      ProtectionFits(price, tick);
      RangeMeaning(price, tick);
    }
  }

  /** What an accepted protected buy went through. */
  lemma ProtectedBuyShape(size: Number, price: Number, tick: string)
    requires size.Valid() && price.Valid() && ProtectedBuy(size, price, tick).Ok?
    ensures CheckPrice(price).Ok? && tick in ROUNDING && size.Finite? && InRange(ProtectionOf(price, tick), tick)
    ensures var cents := CentsFor(SharesOf(size), ProtectionOf(price, tick), Places(tick));
            var (cash, tokens) := ProtectedBuy(size, price, tick).value;
            cash == cents * 10000 && tokens == ProtectedTokens(cents, ProtectionOf(price, tick), Places(tick))
            && cash > 0 && tokens > 0
  {
    ProtectedRefusals(size, price, tick);
    RangeMeaning(price, tick);
    ProtectedBuyOutcome(size, price, tick);
  }

  /**
    The final check accepts what the protected builder derived exactly when the
    remainder of the scaled cash by the protection, in finest units, stays below
    the quotient; otherwise it reports the finest tick.
   */
  lemma FinalCheckIffRemainder(size: Number, price: Number, tick: string)
    requires size.Valid() && price.Valid() && ProtectedBuy(size, price, tick).Ok?
    ensures CheckPrice(price).Ok? && tick in ROUNDING && ProtectionOf(price, tick) > 0
    ensures var (cash, tokens) := ProtectedBuy(size, price, tick).value;
            var S, pu := Pow10(Places(tick)), ProtectionOf(price, tick);
            var N := (cash / 10000) * (S * S);
            FinalCheck(cash, tokens, price, tick)
            == if (N % pu) * Pow10(4 - Places(tick)) < N / pu then Ok(()) else Err(FinestTickBound)
  {
    ProtectedBuyShape(size, price, tick);
    var (cash, tokens) := ProtectedBuy(size, price, tick).value;
    var cents := CentsFor(SharesOf(size), ProtectionOf(price, tick), Places(tick));
    assert cash / 10000 == cents;
    FinalCheckIs(cash, tokens, price, tick);
    FinestIffRemainder(cents, ProtectionOf(price, tick), Places(tick));
  }

  /**
    The final check accepts every derived protected buy whose cash cap is at
    least 10^(4-P) cents, hence all of them on ticks with four price digits.
   */
  lemma FinalCheckThreshold(size: Number, price: Number, tick: string)
    requires size.Valid() && price.Valid() && tick in ROUNDING
    requires ProtectedBuy(size, price, tick).Ok?
    requires ProtectedBuy(size, price, tick).value.0 >= Pow10(4 - Places(tick)) * 10000 || Places(tick) == 4
    ensures var (cash, tokens) := ProtectedBuy(size, price, tick).value;
            FinalCheck(cash, tokens, price, tick).Ok?
  {
    ProtectedBuyShape(size, price, tick);
    FinalCheckIffRemainder(size, price, tick);
    ThresholdCore(Pow10(4 - Places(tick)), ProtectedBuy(size, price, tick).value.0 / 10000, Pow10(Places(tick)),
                  ProtectionOf(price, tick));
  }

  lemma {:induction false} TwoDigits(s: string)
    requires |s| == 2 && AllDigits(s)
    ensures Value(s) == 10 * DigitOf(s[0]) + DigitOf(s[1])
  {
    ValueSingle(s[..1]);
  }

  ghost function Plain(whole: string, fraction: string): Number {
    Finite(Literal(whole, fraction, None))
  }

  lemma SizeVector(whole: string, fraction: string)
    requires |whole| == 1 && |fraction| == 2 && AllDigits(whole) && AllDigits(fraction)
    ensures Plain(whole, fraction).Valid()
    ensures SharesOf(Plain(whole, fraction))
         == 100 * DigitOf(whole[0]) + 10 * DigitOf(fraction[0]) + DigitOf(fraction[1])
  {
    var n := Plain(whole, fraction);
    ValueSingle(whole);
    TwoDigits(fraction);
    SmallPowers();
    WholeUnits(n.Coefficient(), n.Exponent(), 2, Down);
  }

  /** A price of one nonzero decimal digit, on any supported tick. */
  lemma PriceVector(fraction: string, tick: string)
    requires |fraction| == 1 && AllDigits(fraction) && fraction != "0" && tick in ROUNDING
    ensures var price := Plain("0", fraction);
            && price.Valid() && CheckPrice(price).Ok?
            && Units(price.Coefficient(), price.Exponent(), Places(tick), Down)
               == DigitOf(fraction[0]) * Pow10(Places(tick) - 1)
  {
    var price := Plain("0", fraction);
    ZeroText();
    ValueSingle(fraction);
    SmallPowers();
    WholeUnits(price.Coefficient(), price.Exponent(), Places(tick), Down);
  }

  /** Below that cap the check can refuse: 5.07 shares at 0.9 on the coarsest tick. */
  lemma FinalCheckCanRefuse()
    ensures var size, price := Plain("5", "07"), Plain("0", "9");
            && size.Valid() && price.Valid()
            && ProtectedBuy(size, price, "0.1") == Ok((4570000, 5077000))
            && FinalCheck(4570000, 5077000, price, "0.1") == Err(FinestTickBound)
  {
    var size, price := Plain("5", "07"), Plain("0", "9");
    RefusedSize(size, price);
    ProtectedBuyOutcome(size, price, "0.1");
    RefusedNumbers();
    FinalCheckIs(4570000, 5077000, price, "0.1");
  }

  lemma RefusedSize(size: Number, price: Number)
    requires size == Plain("5", "07") && price == Plain("0", "9")
    ensures size.Valid() && price.Valid() && CheckPrice(price).Ok? && "0.1" in ROUNDING
    ensures SharesOf(size) == 507 && ProtectionOf(price, "0.1") == 9
    ensures InRange(9, "0.1")
  {
    SmallPowers();
    SizeVector("5", "07");
    PriceVector("9", "0.1");
  }

  lemma RefusedNumbers()
    ensures CentsFor(507, 9, 1) == 457 && ProtectedTokens(457, 9, 1) == 5077000
    ensures !BelowNextFinest(4570000, 5077000, 9, 1)
  {
    SmallPowers();
  }

  /** L units of 10^-places is a price of the grid of this tick. */
  ghost predicate OnGrid(L: nat, tick: string)
    requires tick in ROUNDING
  {
    L % IncrementOf(tick) == 0
  }

  /** The order's ratio cash/tokens lies strictly below the price L on this tick's scale. */
  ghost predicate RatioBelow(cash: nat, tokens: nat, L: nat, tick: string)
    requires tick in ROUNDING
  {
    cash * Pow10(ROUNDING[tick].price) < tokens * L
  }

  /** L on one tick's scale is above pu on another's. */
  ghost predicate Above(L: nat, tick': string, pu: nat, tick: string)
    requires tick in ROUNDING && tick' in ROUNDING
  {
    L * Pow10(ROUNDING[tick].price) > pu * Pow10(ROUNDING[tick'].price)
  }

  /** Two price scales compared in units of the finest one. */
  lemma FinestUnits(L: nat, S': nat, F': nat, pu: nat, S: nat, F: nat)
    requires S * F == 10000 && S' * F' == 10000 && S > 0 && S' > 0
    requires L * S > pu * S'
    ensures L * F' >= pu * F + 1
  {
    if L * F' <= pu * F {
      MulOrder(L * F', pu * F, S * S');
      Regroup(L, F', S, S');
      Commute(F', S');
      Commute(S, S');
      Regroup(pu, F, S', S);
      Commute(F, S);
    }
  }

  lemma BelowEveryPrice(cash: nat, tokens: nat, pu: nat, L: nat, S: nat, F: nat, S': nat, F': nat)
    requires S * F == 10000 && S' * F' == 10000 && S > 0 && S' > 0
    requires L * S > pu * S' && cash * 10000 < tokens * (pu * F + 1)
    ensures cash * S' < tokens * L
  {
    FinestUnits(L, S', F', pu, S, F);
    MulOrder(pu * F + 1, L * F', tokens);
    Reassociate(cash, S', F');
    Reassociate(tokens, L, F');
    if F' > 0 { FactorStrict(cash * S', tokens * L, F'); }
  }

  /**
    The final check accepts a pair exactly when its ratio lies strictly below
    every grid price above the protection, on every supported tick, so it stays
    safe when the cached tick turns out finer or coarser than believed. The grids
    are unbounded: at 0.9999 on the finest tick the price that decides is 1.
   */
  lemma FinalCheckExact(cash: nat, tokens: nat, price: Number, tick: string)
    requires price.Valid() && CheckPrice(price).Ok? && tick in ROUNDING && cash > 0 && tokens > 0
    requires InRange(ProtectionOf(price, tick), tick)
    ensures FinalCheck(cash, tokens, price, tick).Ok? <==>
            forall tick', L: nat :: tick' in ROUNDING && OnGrid(L, tick')
                                    && Above(L, tick', ProtectionOf(price, tick), tick)
                                    ==> RatioBelow(cash, tokens, L, tick')
  {
    FinalCheckIs(cash, tokens, price, tick);
    var pu := ProtectionOf(price, tick);
    if BelowNextFinest(cash, tokens, pu, ROUNDING[tick].price) {
      forall tick', L: nat | tick' in ROUNDING && OnGrid(L, tick') && Above(L, tick', pu, tick)
        ensures RatioBelow(cash, tokens, L, tick')
      {
        AcceptedExcludes(cash, tokens, pu, tick, L, tick');
      }
    } else {
      RefusedReaches(cash, tokens, pu, tick);
    }
  }

  lemma AcceptedExcludes(cash: nat, tokens: nat, pu: nat, tick: string, L: nat, tick': string)
    requires tick in ROUNDING && tick' in ROUNDING
    requires BelowNextFinest(cash, tokens, pu, ROUNDING[tick].price) && Above(L, tick', pu, tick)
    ensures RatioBelow(cash, tokens, L, tick')
  {
    TickTable(tick);
    TickTable(tick');
    var places, places' := ROUNDING[tick].price, ROUNDING[tick'].price;
    PlacesFit(places);
    PlacesFit(places');
    DivIs(10000, Pow10(places), Pow10(4 - places));
    BelowEveryPrice(cash, tokens, pu, L, Pow10(places), Pow10(4 - places), Pow10(places'), Pow10(4 - places'));
  }

  /** A refused pair reaches the finest price just above the protection. */
  lemma RefusedReaches(cash: nat, tokens: nat, pu: nat, tick: string)
    requires tick in ROUNDING && !BelowNextFinest(cash, tokens, pu, ROUNDING[tick].price)
    ensures "0.0001" in ROUNDING
    ensures exists L: nat :: OnGrid(L, "0.0001") && Above(L, "0.0001", pu, tick)
                             && !RatioBelow(cash, tokens, L, "0.0001")
  {
    TickTable(tick);
    var S, F := Pow10(ROUNDING[tick].price), Pow10(4 - ROUNDING[tick].price);
    PlacesFit(ROUNDING[tick].price);
    DivIs(10000, S, F);
    SmallPowers();
    var L := pu * F + 1;
    assert Above(L, "0.0001", pu, tick) by {
      Distribute(pu * F, 1, S);
      Reassociate(pu, F, S);
    }
    assert OnGrid(L, "0.0001");
  }

  lemma {:induction false} NextTickCore(cash: nat, tokens: nat, pu: nat, inc: nat, places: nat)
    requires places <= 4 && inc > 0 && BelowNextFinest(cash, tokens, pu, places)
    ensures cash * Pow10(places) < tokens * (pu + inc)
  {
    var S, F := Pow10(places), Pow10(4 - places);
    PlacesFit(places);
    DivIs(10000, S, F);
    MulStrict(pu, pu + inc, S);
    BelowEveryPrice(cash, tokens, pu, pu + inc, S, F, S, F);
  }

  /** What an accepting final check has seen. */
  lemma AcceptedMeans(cash: nat, tokens: nat, price: Number, tick: string)
    requires price.Valid() && tick in ROUNDING && FinalCheck(cash, tokens, price, tick).Ok?
    ensures CheckPrice(price).Ok? && BelowNextFinest(cash, tokens, ProtectionOf(price, tick), Places(tick))
  {
    ProtectionFits(price, tick);
  }

  /** Acceptance keeps the ratio below the next tick of the given table. */
  lemma FinalCheckNextTick(cash: nat, tokens: nat, price: Number, tick: string)
    requires price.Valid() && price.Finite? && tick in ROUNDING
    requires FinalCheck(cash, tokens, price, tick).Ok?
    ensures cash * Pow10(ROUNDING[tick].price) < tokens * (ProtectionOf(price, tick) + IncrementOf(tick))
  {
    AcceptedMeans(cash, tokens, price, tick);
    NextTickCore(cash, tokens, ProtectionOf(price, tick), IncrementOf(tick), Places(tick));
  }
}
