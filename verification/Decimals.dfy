/**
  Decimal literals: scanning the text of a number into digits and an exponent,
  and rounding it at a decimal place on the digit string (pm/amounts.cpp).
 */
module Decimals {

  import opened Results
  import opened Arith
  import opened Numerals
  import opened Rounding

  datatype AmountError =
    | BadTick
    | BadPrice
    | BadSide
    | BadAmount
    | BadExponent
    | Overflow
    | ProtectionOutOfRange
    | NotPositive
    | TickBound
    | InvalidProtectedAmounts
    | FinestTickBound

  /** digits * 10^exponent */
  datatype Decimal = Decimal(digits: string, exponent: int)

  // ---------------------------------------------------------------- literals

  datatype Sign = Unsigned | Plus | Minus

  datatype Exponent = Exponent(marker: char, sign: Sign, digits: string)

  /** The parts of a nonnegative decimal literal, such as 0.4, 12 or 5e-324. */
  datatype Literal = Literal(whole: string, fraction: string, exponent: Option<Exponent>) {

    predicate Valid() {
      && AllDigits(whole) && whole != []
      && AllDigits(fraction)
      && (exponent.Some? ==>
            && exponent.value.marker in {'e', 'E'}
            && AllDigits(exponent.value.digits) && exponent.value.digits != [])
    }

    function Power(): int
      requires Valid()
    {
      match exponent
      case None => 0
      case Some(x) => Signed(x.sign == Minus, Value(x.digits))
    }

    /** The literal's value is Coefficient() * 10^Scale(). */
    function Coefficient(): nat
      requires Valid()
    {
      Value(whole) * Pow10(|fraction|) + Value(fraction)
    }

    function Scale(): int
      requires Valid()
    {
      Power() - |fraction|
    }

    function Text(): string {
      whole
      + (if fraction == [] then [] else "." + fraction)
      + (match exponent
         case None => []
         case Some(x) => [x.marker] + SignText(x.sign) + x.digits)
    }

    static function SignText(sign: Sign): string {
      match sign
      case Unsigned => ""
      case Plus => "+"
      case Minus => "-"
    }
  }

  function Signed(negative: bool, n: nat): int {
    if negative then -(n as int) else n
  }

  const INT_MIN: int := -0x8000_0000
  const INT_MAX: int := 0x7fff_ffff

  // ---------------------------------------------------------------- scanning

  predicate IsMarker(c: char) {
    c == 'e' || c == 'E'
  }

  /** Where the mantissa ends: at the first exponent marker, else at the end. */
  ghost function MantissaEnd(text: string): (n: nat)
    ensures n <= |text|
    ensures forall i :: 0 <= i < n ==> !IsMarker(text[i])
    ensures n < |text| ==> IsMarker(text[n])
  {
    if text == [] || IsMarker(text[0]) then 0 else 1 + MantissaEnd(text[1..])
  }

  ghost function WithoutPoints(m: string): string {
    if m == [] then []
    else WithoutPoints(m[..|m| - 1]) + (if m[|m| - 1] == '.' then [] else [m[|m| - 1]])
  }

  /** The number of characters other than points after the first point. */
  ghost function FractionLength(m: string): nat {
    if m == [] then 0
    else
      FractionLength(m[..|m| - 1])
      + (if m[|m| - 1] != '.' && '.' in m[..|m| - 1] then 1 else 0)
  }

  /** A whole text that is an optional minus and digits, within the C int range. */
  ghost function IntOf(s: string): Option<int> {
    var negative := s != [] && s[0] == '-';
    var digits := if negative then s[1..] else s;
    if digits == [] || !AllDigits(digits) then None
    else
      var v := Signed(negative, Value(digits));
      if INT_MIN <= v <= INT_MAX then Some(v) else None
  }

  ghost function AfterPlus(s: string): string {
    if s != [] && s[0] == '+' then s[1..] else s
  }

  /** The digits, the length of the fraction and the exponent part put together. */
  ghost function ScanParts(digits: string, fraction: nat, tail: string): Result<Decimal, AmountError> {
    if tail == [] then Ok(Decimal(digits, Signed(true, fraction)))
    else
      match IntOf(AfterPlus(tail[1..]))
      case None => Err(BadExponent)
      case Some(x) => Ok(Decimal(digits, x - fraction))
  }

  ghost function ScanOf(text: string): Result<Decimal, AmountError> {
    var end := MantissaEnd(text);
    ScanParts(WithoutPoints(text[..end]), FractionLength(text[..end]), text[end..])
  }

  lemma {:induction false} MantissaEndIs(text: string, n: nat)
    requires n <= |text|
    requires forall i :: 0 <= i < n ==> !IsMarker(text[i])
    requires n < |text| ==> IsMarker(text[n])
    ensures MantissaEnd(text) == n
  {
    if text != [] && !IsMarker(text[0]) {
      MantissaEndIs(text[1..], n - 1);
    }
  }

  /** Reads an int that must span the whole text, as std::from_chars does. */
  method ParseInt(s: string) returns (r: Option<int>)
    ensures r == IntOf(s)
  {
    var negative := |s| > 0 && s[0] == '-';
    var digits := if negative then s[1..] else s;
    if |digits| == 0 {
      return None;
    }
    var magnitude: nat := 0;
    for i := 0 to |digits|
      invariant AllDigits(digits[..i])
      invariant magnitude == Value(digits[..i])
    {
      if !IsDigit(digits[i]) {
        return None;
      }
      assert digits[..i + 1][..i] == digits[..i];
      magnitude := 10 * magnitude + DigitOf(digits[i]);
    }
    assert digits[..|digits|] == digits;
    var v := Signed(negative, magnitude);
    r := if INT_MIN <= v <= INT_MAX then Some(v) else None;
  }

  /** The exponent part, from its marker on: an optional plus, then an int. */
  method AddExponent(digits: string, exponent: int, tail: string) returns (r: Result<Decimal, AmountError>)
    requires exponent <= 0 && tail != []
    ensures r == ScanParts(digits, -exponent, tail)
  {
    var start := 1;
    if start < |tail| && tail[start] == '+' {
      start := start + 1;
    }
    assert tail[start..] == AfterPlus(tail[1..]);
    var parsed := ParseInt(tail[start..]);
    match parsed {
      case None => return Err(BadExponent);
      case Some(x) => return Ok(Decimal(digits, exponent + x));
    }
  }

  lemma ScanStep(text: string, i: nat)
    requires i < |text|
    ensures WithoutPoints(text[..i + 1]) == WithoutPoints(text[..i]) + (if text[i] == '.' then [] else [text[i]])
    ensures FractionLength(text[..i + 1])
         == FractionLength(text[..i]) + (if text[i] != '.' && '.' in text[..i] then 1 else 0)
    ensures '.' in text[..i + 1] <==> '.' in text[..i] || text[i] == '.'
  {
    assert text[..i + 1][..i] == text[..i];
    assert text[..i + 1] == text[..i] + [text[i]];
  }

  /** What the scan has collected from the first i characters. */
  ghost predicate Scanned(text: string, i: nat, digits: string, exponent: int, fraction: bool) {
    && i <= |text|
    && (forall k :: 0 <= k < i ==> !IsMarker(text[k]))
    && digits == WithoutPoints(text[..i])
    && exponent == Signed(true, FractionLength(text[..i]))
    && fraction == ('.' in text[..i])
  }

  lemma ScanAdvance(text: string, i: nat, digits: string, exponent: int, fraction: bool)
    requires i < |text| && !IsMarker(text[i]) && Scanned(text, i, digits, exponent, fraction)
    ensures if text[i] == '.' then Scanned(text, i + 1, digits, exponent, true)
            else Scanned(text, i + 1, digits + [text[i]], if fraction then exponent - 1 else exponent, fraction)
  {
    ScanStep(text, i);
  }

  lemma ScanFinish(text: string, i: nat, digits: string, exponent: int, fraction: bool)
    requires Scanned(text, i, digits, exponent, fraction) && (i < |text| ==> IsMarker(text[i]))
    ensures exponent <= 0 && ScanOf(text) == ScanParts(digits, -exponent, text[i..])
  {
    MantissaEndIs(text, i);
  }

  /** One pass over the text, as the original does over the printed double. */
  method Scan(text: string) returns (r: Result<Decimal, AmountError>)
    ensures r == ScanOf(text)
  {
    var digits: string := "";
    var exponent := 0;
    var fraction := false;
    for i := 0 to |text|
      invariant Scanned(text, i, digits, exponent, fraction)
    {
      if text[i] == 'e' || text[i] == 'E' {
        ScanFinish(text, i, digits, exponent, fraction);
        r := AddExponent(digits, exponent, text[i..]);
        return;
      }
      ScanAdvance(text, i, digits, exponent, fraction);
      if text[i] == '.' {
        fraction := true;
        continue;
      }
      digits := digits + [text[i]];
      if fraction {
        exponent := exponent - 1;
      }
    }
    ScanFinish(text, |text|, digits, exponent, fraction);
    return Ok(Decimal(digits, exponent));
  }

  lemma NoPoint(s: string)
    requires AllDigits(s)
    ensures '.' !in s
  {
  }

  lemma {:induction false} PlainDigits(s: string)
    requires AllDigits(s)
    ensures WithoutPoints(s) == s && FractionLength(s) == 0 && '.' !in s
  {
    NoPoint(s);
    if s != [] {
      var front, last := s[..|s| - 1], s[|s| - 1];
      PlainDigits(front);
      assert last != '.';
      assert s == front + [last];
    }
  }

  lemma {:induction false} PointedDigits(whole: string, fraction: string)
    requires AllDigits(whole) && AllDigits(fraction)
    ensures WithoutPoints(whole + "." + fraction) == whole + fraction
    ensures FractionLength(whole + "." + fraction) == |fraction|
  {
    var m := whole + "." + fraction;
    if fraction == [] {
      assert m[..|m| - 1] == whole;
      assert whole + fraction == whole;
      PlainDigits(whole);
    } else {
      var front := fraction[..|fraction| - 1];
      PointedDigits(whole, front);
      assert m[..|m| - 1] == whole + "." + front;
      assert m[..|m| - 1][|whole|] == '.';
      assert m[|m| - 1] == fraction[|fraction| - 1];
      assert whole + fraction == whole + front + [fraction[|fraction| - 1]];
    }
  }

  lemma ExponentText(x: Exponent)
    requires AllDigits(x.digits) && x.digits != []
    ensures var v := Signed(x.sign == Minus, Value(x.digits));
            IntOf(AfterPlus(Literal.SignText(x.sign) + x.digits))
            == if INT_MIN <= v <= INT_MAX then Some(v) else None
  {
    var s := Literal.SignText(x.sign) + x.digits;
    assert IsDigit(x.digits[0]);
    match x.sign
    case Unsigned => assert s == x.digits;
    case Plus => assert s[1..] == x.digits;
    case Minus => assert s[1..] == x.digits;
  }

  ghost function MantissaText(l: Literal): string {
    l.whole + (if l.fraction == [] then [] else "." + l.fraction)
  }

  lemma MantissaDigits(l: Literal)
    requires l.Valid()
    ensures WithoutPoints(MantissaText(l)) == l.whole + l.fraction
    ensures FractionLength(MantissaText(l)) == |l.fraction|
    ensures forall i :: 0 <= i < |MantissaText(l)| ==> !IsMarker(MantissaText(l)[i])
  {
    if l.fraction == [] {
      assert MantissaText(l) == l.whole == l.whole + l.fraction;
      PlainDigits(l.whole);
    } else {
      assert MantissaText(l) == l.whole + "." + l.fraction;
      PointedDigits(l.whole, l.fraction);
    }
  }

  /** A text that splits into a mantissa and an exponent part is scanned that way. */
  lemma {:induction false} ScanSplit(mantissa: string, tail: string)
    requires forall i :: 0 <= i < |mantissa| ==> !IsMarker(mantissa[i])
    requires tail != [] ==> IsMarker(tail[0])
    ensures ScanOf(mantissa + tail) == ScanParts(WithoutPoints(mantissa), FractionLength(mantissa), tail)
  {
    var text := mantissa + tail;
    MantissaEndIs(text, |mantissa|);
    assert text[..|mantissa|] == mantissa;
    assert text[|mantissa|..] == tail;
  }

  ghost function ExponentPart(l: Literal): string {
    match l.exponent
    case None => []
    case Some(x) => [x.marker] + (Literal.SignText(x.sign) + x.digits)
  }

  lemma ExponentScanned(l: Literal, digits: string)
    requires l.Valid()
    ensures ScanParts(digits, |l.fraction|, ExponentPart(l))
         == if INT_MIN <= l.Power() <= INT_MAX then Ok(Decimal(digits, l.Scale())) else Err(BadExponent)
  {
    if l.exponent.Some? {
      var x := l.exponent.value;
      assert ExponentPart(l)[1..] == Literal.SignText(x.sign) + x.digits;
      ExponentText(x);
    }
  }

  lemma TextParts(l: Literal)
    ensures l.Text() == MantissaText(l) + ExponentPart(l)
  {
    if l.exponent.Some? {
      var x := l.exponent.value;
      assert [x.marker] + Literal.SignText(x.sign) + x.digits == ExponentPart(l);
    }
  }

  lemma LiteralDigits(l: Literal)
    requires l.Valid()
    ensures AllDigits(l.whole + l.fraction) && Value(l.whole + l.fraction) == l.Coefficient()
  {
    ValueConcat(l.whole, l.fraction);
  }

  lemma ScanText(l: Literal)
    requires l.Valid()
    ensures ScanOf(l.Text()) == ScanParts(l.whole + l.fraction, |l.fraction|, ExponentPart(l))
  {
    TextParts(l);
    MantissaDigits(l);
    ScanSplit(MantissaText(l), ExponentPart(l));
  }

  /**
    Scanning the text of any literal yields all its digits and exactly its
    scale, or reports the exponent when it does not fit an int.
   */
  lemma ScanLiteral(l: Literal)
    requires l.Valid()
    ensures ScanOf(l.Text())
         == if INT_MIN <= l.Power() <= INT_MAX then Ok(Decimal(l.whole + l.fraction, l.Scale()))
            else Err(BadExponent)
    ensures AllDigits(l.whole + l.fraction) && Value(l.whole + l.fraction) == l.Coefficient()
  {
    LiteralDigits(l);
    ScanText(l);
    ExponentScanned(l, l.whole + l.fraction);
  }

  // ---------------------------------------------------------------- rounding

  /** n * 10^e as the fraction Num / Den. */
  function Num(n: nat, e: int): nat {
    if e >= 0 then n * Pow10(e) else n
  }

  function Den(e: int): (d: nat)
    ensures d > 0
  {
    if e >= 0 then 1 else Pow10(-e)
  }

  /** n * 10^(e+k) equals 10^k times n * 10^e, as fractions. */
  lemma {:induction false} ShiftFraction(n: nat, e: int, k: nat)
    ensures Num(n, e + k) * Den(e) == (Num(n, e) * Pow10(k)) * Den(e + k)
  {
    if e >= 0 {
      PowAdd(e, k);
      Reassociate(n, Pow10(e), Pow10(k));
    } else if e + k >= 0 {
      PowAdd(e + k, -e);
      Reassociate(n, Pow10(e + k), Pow10(-e));
    } else {
      PowAdd(k, -e - k);
      Reassociate(n, Pow10(k), Pow10(-e - k));
    }
  }

  function Fits(n: nat): Result<nat, AmountError> {
    if n < U64_LIMIT then Ok(n) else Err(Overflow)
  }

  /** n * 10^e rounded to `places` decimals, in units of 10^-places. */
  function Units(n: nat, e: int, places: int, mode: Mode): nat {
    RoundDiv(mode, Num(n, e + places), Den(e + places))
  }

  ghost function ScaledOf(d: Decimal, places: int, mode: Mode): Result<nat, AmountError>
    requires AllDigits(d.digits)
  {
    Fits(Units(Value(d.digits), d.exponent, places, mode))
  }

  method FindFirstNonZero(s: string, from: nat) returns (k: nat)
    requires from <= |s|
    ensures from <= k <= |s|
    ensures forall i :: from <= i < k ==> s[i] == '0'
    ensures k < |s| ==> s[k] != '0'
  {
    k := from;
    while k < |s| && s[k] == '0'
      invariant from <= k <= |s|
      invariant forall i :: from <= i < k ==> s[i] == '0'
    {
      k := k + 1;
    }
  }

  method Zeros(n: nat) returns (z: string)
    ensures |z| == n && AllZeros(z) && AllDigits(z)
  {
    z := "";
    for i := 0 to n
      invariant |z| == i && AllZeros(z)
    {
      z := z + "0";
    }
  }

  lemma {:induction false} PrefixValue(s: string, i: nat)
    requires AllDigits(s) && i <= |s|
    ensures Value(s[..i]) <= Value(s)
  {
    assert s == s[..i] + s[i..];
    ValueConcat(s[..i], s[i..]);
    ProductGrows(Value(s[..i]), Pow10(|s| - i));
  }

  /** Reads a 64-bit unsigned integer, failing exactly when it is out of range. */
  method ParseU64(s: string) returns (r: Option<nat>)
    requires AllDigits(s) && s != []
    ensures r == if Value(s) < U64_LIMIT then Some(Value(s)) else None
  {
    var v: nat := 0;
    for i := 0 to |s|
      invariant v == Value(s[..i]) < U64_LIMIT
    {
      assert s[..i + 1][..i] == s[..i];
      v := 10 * v + DigitOf(s[i]);
      if v >= U64_LIMIT {
        PrefixValue(s, i + 1);
        return None;
      }
    }
    assert s[..|s|] == s;
    return Some(v);
  }

  /** Twenty-one significant digits never fit 64 bits. */
  lemma {:induction false} TooLong(digits: string, shift: nat)
    requires AllDigits(digits) && digits != [] && digits[0] != '0'
    requires |digits| + shift > 20
    ensures Value(digits) * Pow10(shift) >= U64_LIMIT
  {
    ValueLower(digits);
    MulOrder(Pow10(|digits| - 1), Value(digits), Pow10(shift));
    PowAdd(|digits| - 1, shift);
    PowMonotone(20, |digits| - 1 + shift);
    PowTwenty();
  }

  lemma PowTwenty()
    ensures Pow10(20) > U64_LIMIT
  {
    PowFive();
    PowAdd(5, 5);
    PowAdd(10, 10);
  }

  lemma PowFive()
    ensures Pow10(5) == 100000
  {
    assert Pow10(2) == 100;
    assert Pow10(4) == 10000;
  }

  lemma {:induction false} CutDigits(digits: string, cut: nat)
    requires AllDigits(digits) && cut <= |digits|
    ensures Value(digits) == Value(digits[..cut]) * Pow10(|digits| - cut) + Value(digits[cut..])
    ensures Value(digits[cut..]) < Pow10(|digits| - cut)
  {
    assert digits == digits[..cut] + digits[cut..];
    ValueConcat(digits[..cut], digits[cut..]);
    ValueBound(digits[cut..]);
  }

  /** The first dropped digit decides whether the dropped part is at least a half. */
  lemma {:induction false} FirstDropped(s: string)
    requires AllDigits(s) && s != []
    ensures s[0] >= '5' <==> 2 * Value(s) >= Pow10(|s|)
  {
    assert s == s[..1] + s[1..];
    ValueConcat(s[..1], s[1..]);
    ValueSingle(s[..1]);
    ValueBound(s[1..]);
    var p := Pow10(|s| - 1);
    if s[0] >= '5' {
      MulOrder(5, DigitOf(s[0]), p);
    } else {
      MulOrder(DigitOf(s[0]), 4, p);
    }
  }

  /** What a cut after `cut` digits keeps and whether the dropped digits add one. */
  ghost predicate CutIsExact(digits: string, k: nat, mode: Mode, kept: string, increment: bool)
    requires AllDigits(digits)
  {
    && AllDigits(kept) && kept != []
    && Value(digits) / Pow10(k) == Value(kept)
    && increment == Extra(mode, Value(digits) % Pow10(k), Pow10(k))
  }

  lemma {:induction false} DropSome(digits: string, k: nat)
    requires AllDigits(digits) && 0 < k <= |digits|
    ensures Value(digits) / Pow10(k) == Value(digits[..|digits| - k])
    ensures Value(digits) % Pow10(k) == Value(digits[|digits| - k..])
    ensures Value(digits) % Pow10(k) != 0 <==> !AllZeros(digits[|digits| - k..])
    ensures 2 * (Value(digits) % Pow10(k)) >= Pow10(k) <==> digits[|digits| - k] >= '5'
  {
    var cut := |digits| - k;
    CutDivides(digits, cut);
    ValueZeros(digits[cut..]);
    FirstDropped(digits[cut..]);
  }

  lemma {:induction false} CutDivides(digits: string, cut: nat)
    requires AllDigits(digits) && cut <= |digits|
    ensures Value(digits) / Pow10(|digits| - cut) == Value(digits[..cut])
    ensures Value(digits) % Pow10(|digits| - cut) == Value(digits[cut..])
  {
    var kept, p := Value(digits[..cut]), Pow10(|digits| - cut);
    CutDigits(digits, cut);
    DivIs(Value(digits), p, kept);
    DivBounds(Value(digits), p);
  }

  /** With more places dropped than digits, the number lies below a tenth. */
  lemma {:induction false} DropAll(digits: string, k: nat)
    requires AllDigits(digits) && k > |digits|
    ensures Value(digits) / Pow10(k) == 0
    ensures Value(digits) % Pow10(k) == Value(digits)
    ensures 2 * Value(digits) < Pow10(k)
  {
    ValueBound(digits);
    PowMonotone(|digits| + 1, k);
    DivIs(Value(digits), Pow10(k), 0);
    DivBounds(Value(digits), Pow10(k));
  }

  lemma KeptSome(digits: string, k: nat, mode: Mode, kept: string, increment: bool)
    requires AllDigits(digits) && 0 < k <= |digits|
    requires kept == if k < |digits| then digits[..|digits| - k] else "0"
    requires increment == match mode
                          case Down => false
                          case Up => !AllZeros(digits[|digits| - k..])
                          case Nearest => digits[|digits| - k] >= '5'
    ensures CutIsExact(digits, k, mode, kept, increment)
  {
    DropSome(digits, k);
    ZeroText();
  }

  lemma KeptNone(digits: string, k: nat, mode: Mode, increment: bool)
    requires AllDigits(digits) && k > |digits| && (increment <==> mode == Up && !AllZeros(digits))
    ensures CutIsExact(digits, k, mode, "0", increment)
  {
    DropAll(digits, k);
    ZeroText();
    ValueZeros(digits);
  }

  /** Whether any digit from here on is not a zero. */
  method AnyNonZero(digits: string, cut: nat) returns (any: bool)
    requires cut <= |digits|
    ensures any <==> !AllZeros(digits[cut..])
  {
    var nonzero := FindFirstNonZero(digits, cut);
    any := nonzero != |digits|;
    assert any ==> digits[cut..][nonzero - cut] != '0';
  }

  /** The branch that drops digits; -shift of them, possibly more than there are. */
  method DropDigits(digits: string, shift: int, mode: Mode) returns (kept: string, increment: bool)
    requires AllDigits(digits) && digits != [] && digits[0] != '0' && shift < 0
    ensures CutIsExact(digits, -shift, mode, kept, increment)
  {
    var retained := |digits| + shift;
    var cut := if retained > 0 then retained else 0;
    if mode == Up {
      increment := AnyNonZero(digits, cut);
    } else {
      increment := mode == Nearest && retained >= 0 && digits[cut] >= '5';
    }
    kept := if cut > 0 then digits[..cut] else "0";
    if retained >= 0 {
      KeptSome(digits, -shift, mode, kept, increment);
    } else {
      assert digits[cut..] == digits;
      KeptNone(digits, -shift, mode, increment);
    }
  }

  /** A natural with a nonnegative power of ten is never rounded. */
  lemma {:induction false} WholeUnits(n: nat, e: int, places: int, mode: Mode)
    requires e + places >= 0
    ensures Units(n, e, places, mode) == n * Pow10(e + places)
  {
    RoundWhole(mode, n * Pow10(e + places));
  }

  lemma {:induction false} NarrowedUnits(digits: string, e: int, places: int, mode: Mode, kept: string, increment: bool)
    requires AllDigits(digits) && e + places < 0 && CutIsExact(digits, -(e + places), mode, kept, increment)
    ensures Units(Value(digits), e, places, mode) == Value(kept) + (if increment then 1 else 0)
  {
    RoundFromFloor(mode, Value(digits), Pow10(-(e + places)));
  }

  /**
    Rounds on the digit string: strips leading zeros, appends zeros or cuts
    digits, then reads the result back with range checks.
   */
  method Scaled(value: Decimal, places: int, mode: Mode) returns (r: Result<nat, AmountError>)
    requires AllDigits(value.digits)
    ensures r == ScaledOf(value, places, mode)
  {
    var first := FindFirstNonZero(value.digits, 0);
    DropLeadingZeros(value.digits, first);
    if first == |value.digits| {
      ZeroUnits(value.exponent, places, mode);
      return Ok(0);
    }
    var digits := value.digits[first..];
    ghost var n := Value(digits);
    var shift := value.exponent + places;
    var increment := false;
    if shift >= 0 {
      WholeUnits(n, value.exponent, places, mode);
      if |digits| + shift > 20 {
        TooLong(digits, shift);
        return Err(Overflow);
      }
      var zeros := Zeros(shift);
      AppendZeros(digits, zeros);
      digits := digits + zeros;
    } else {
      ghost var before := digits;
      digits, increment := DropDigits(digits, shift, mode);
      NarrowedUnits(before, value.exponent, places, mode, digits, increment);
    }
    assert Units(n, value.exponent, places, mode) == Value(digits) + (if increment then 1 else 0);
    var units := ParseU64(digits);
    if units.None? || (increment && units.value == U64_LIMIT - 1) {
      return Err(Overflow);
    }
    return Ok(units.value + if increment then 1 else 0);
  }

  lemma ZeroText()
    ensures AllDigits("0") && Value("0") == 0 && Value("") == 0
  {
    ValueZeros("0");
  }

  lemma RoundWhole(mode: Mode, n: nat)
    ensures RoundDiv(mode, n, 1) == n
  {
    RoundedIs(mode, n, 1, n);
  }

  lemma ZeroUnits(e: int, places: int, mode: Mode)
    ensures Units(0, e, places, mode) == 0
  {
    RoundedIs(mode, 0, Den(e + places), 0);
  }

  /**
    Scanning a literal and rounding it gives exactly the floor, ceiling or
    half-up rounding of its value, and overflows exactly when that integer
    does not fit 64 bits.
   */
  lemma LiteralRounding(l: Literal, places: int, mode: Mode, u: nat)
    requires l.Valid() && INT_MIN <= l.Power() <= INT_MAX
    requires IsRounded(mode, Num(l.Coefficient(), l.Scale() + places), Den(l.Scale() + places), u)
    ensures ScanOf(l.Text()).Ok? && AllDigits(ScanOf(l.Text()).value.digits)
    ensures ScaledOf(ScanOf(l.Text()).value, places, mode)
         == if u < U64_LIMIT then Ok(u) else Err(Overflow)
  {
    ScanLiteral(l);
    RoundedIs(mode, Num(l.Coefficient(), l.Scale() + places), Den(l.Scale() + places), u);
  }
}
