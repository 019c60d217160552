/** Dogecoin amounts as decimal text, converted exactly to satoshis. Texts have been trimmed. */
module Decimal {
  import opened Bytes

  // ---- Digits and powers ----

  predicate IsDigit(c: char) { '0' <= c <= '9' }

  predicate AllDigits(s: string) { forall k :: 0 <= k < |s| ==> IsDigit(s[k]) }

  function Value(s: string): nat
    requires AllDigits(s)
    decreases |s|
  { if s == [] then 0 else 10 * Value(s[..|s| - 1]) + (s[|s| - 1] as int - '0' as int) }

  function Pow10(n: nat): (p: nat)
    ensures p > 0
  { if n == 0 then 1 else 10 * Pow10(n - 1) }

  lemma {:induction false} Pow10Adds(a: nat, b: nat)
    ensures Pow10(a + b) == Pow10(a) * Pow10(b)
  {
    if a > 0 {
      Pow10Adds(a - 1, b);
      assert 10 * (Pow10(a - 1) * Pow10(b)) == (10 * Pow10(a - 1)) * Pow10(b);
    }
  }

  lemma {:induction false} ValueAppends(a: string, b: string)
    requires AllDigits(a) && AllDigits(b)
    ensures AllDigits(a + b) && Value(a + b) == Value(a) * Pow10(|b|) + Value(b)
    decreases |b|
  {
    if b == [] {
      assert a + b == a;
    } else {
      var n := |b| - 1;
      ValueAppends(a, b[..n]);
      assert (a + b)[..|a + b| - 1] == a + b[..n];
      Tens(Value(a), Pow10(n));
    }
  }

  lemma Tens(x: nat, y: nat)
    ensures x * (10 * y) == 10 * (x * y)
  {}

  lemma {:induction false} ValueBound(s: string)
    requires AllDigits(s)
    ensures Value(s) < Pow10(|s|)
    decreases |s|
  {
    if s != [] { ValueBound(s[..|s| - 1]); }
  }

  // ---- Checked integers ----

  function ParseU64(s: string): Result<u64>
    requires AllDigits(s)
  { if s == [] || Value(s) >= U64_LIMIT then Err else Ok(Value(s)) }

  const I32_LIMIT := 0x8000_0000

  /** Longer texts could wrap the 32-bit counters. */
  const MAX_TEXT := 0x7fff_fff0

  /** An optional sign and at least one digit. */
  function ParseI32(s: string): (r: Result<int>)
    ensures r.Ok? ==> -I32_LIMIT <= r.value < I32_LIMIT
  {
    if s == [] then Err
    else
      var body := if s[0] == '+' || s[0] == '-' then s[1..] else s;
      if body == [] || !AllDigits(body) then Err
      else
        var magnitude: int := Value(body);
        var v := if s[0] == '-' then -magnitude else magnitude;
        if -I32_LIMIT <= v < I32_LIMIT then Ok(v) else Err
  }

  /** 32-bit two's complement wrap-around. */
  function Wrap32(x: int): int { (x + I32_LIMIT) % (2 * I32_LIMIT) - I32_LIMIT }

  function CheckedMul(a: u64, b: u64): Result<u64> { if a * b < U64_LIMIT then Ok(a * b) else Err }
  function CheckedAdd(a: u64, b: u64): Result<u64> { if a + b < U64_LIMIT then Ok(a + b) else Err }
  function CheckedPow10(n: nat): Result<u64> { if Pow10(n) < U64_LIMIT then Ok(Pow10(n)) else Err }

  lemma {:induction false} Pow10Grows(a: nat, b: nat)
    requires a <= b
    ensures Pow10(a) <= Pow10(b)
    decreases b
  {
    if a < b { Pow10Grows(a, b - 1); }
  }

  lemma Pow10Limit(n: nat)
    ensures Pow10(n) < U64_LIMIT <==> n <= 19
    ensures Pow10(8) == 100_000_000
  {
    assert Pow10(2) == 100 && Pow10(4) == 10_000 by { Pow10Adds(2, 2); assert Pow10(1) == 10; }
    Pow10Adds(4, 4);
    Pow10Adds(8, 8);
    Pow10Adds(16, 2);
    Pow10Adds(18, 1);
    Pow10Adds(18, 2);
    if n <= 19 { Pow10Grows(n, 19); } else { Pow10Grows(20, n); }
  }

  // ---- The plain form ----

  function Find(s: string, c: char, d: char): (r: Option<nat>)
    ensures r.None? <==> c !in s && d !in s
    ensures r.Some? ==> r.value < |s| && (s[r.value] == c || s[r.value] == d)
                        && c !in s[..r.value] && d !in s[..r.value]
  {
    if s == [] then None
    else if s[0] == c || s[0] == d then Some(0)
    else
      var tail := Find(s[1..], c, d);
      assert s == [s[0]] + s[1..];
      if tail.None? then None
      else
        assert s[..1 + tail.value] == [s[0]] + s[1..][..tail.value];
        Some(1 + tail.value)
  }

  /** What stands before the first point and what stands after it. */
  function Parts(s: string): (string, string)
  { match Find(s, '.', '.') case None => (s, "") case Some(i) => (s[..i], s[i + 1..]) }

  function ParsePlain(s: string): Result<u64>
  {
    var (whole, fraction) := Parts(s);
    if '.' in fraction || whole == [] then Err
    else if !AllDigits(whole) || !AllDigits(fraction) then Err
    else if |fraction| > 8 then Err
    else
      var doge :- ParseU64(whole);
      var wholeSats :- CheckedMul(doge, 100_000_000);
      if fraction == [] then Ok(wholeSats)
      else
        var digits :- ParseU64(fraction);
        var pow :- CheckedPow10(8 - |fraction|);
        var fractionSats :- CheckedMul(digits, pow);
        CheckedAdd(wholeSats, fractionSats)
  }

  // ---- The scientific form ----

  datatype Scan = Scan(digits: string, fractional: int, sawDot: bool)

  /** One pass over the mantissa; `fractional` is a 32-bit counter. */
  function Scanned(s: string): (r: Option<Scan>)
    ensures r.Some? ==> AllDigits(r.value.digits)
    decreases |s|
  {
    if s == [] then Some(Scan([], 0, false))
    else
      var before := Scanned(s[..|s| - 1]);
      var c := s[|s| - 1];
      if before.None? then None
      else if c == '.' && !before.value.sawDot then Some(before.value.(sawDot := true))
      else if IsDigit(c) then
        Some(Scan(before.value.digits + [c],
                  if before.value.sawDot then Wrap32(before.value.fractional + 1) else before.value.fractional,
                  before.value.sawDot))
      else None
  }

  function ParseScientific(s: string, e: nat): Result<u64>
    requires e < |s|
  {
    var exponent :- ParseI32(s[e + 1..]);
    var scan := Scanned(s[..e]);
    if scan.None? || scan.value.digits == [] then Err
    else
      Scaled(scan.value.digits, Wrap32(Wrap32(exponent - scan.value.fractional) + 8))
  }

  function Scaled(digits: string, shift: int): Result<u64>
    requires AllDigits(digits)
  {
    if shift < 0 then Err
    else
      var base :- ParseU64(digits);
      var pow :- CheckedPow10(shift);
      CheckedMul(base, pow)
  }

  lemma {:induction false} ScanFails(s: string, k: nat)
    requires k <= |s| && Scanned(s[..k]).None?
    ensures Scanned(s).None?
    decreases |s|
  {
    if k < |s| {
      assert s[..|s| - 1][..k] == s[..k];
      ScanFails(s[..|s| - 1], k);
    } else {
      assert s[..k] == s;
    }
  }

  method ParseScientificText(s: string, e: nat) returns (r: Result<u64>)
    requires e < |s|
    ensures r == ParseScientific(s, e)
  {
    hide Wrap32, CheckedPow10, CheckedMul, ParseU64, ParseI32;
    var mantissa := s[..e];
    var exponent :- ParseI32(s[e + 1..]);
    var digits := "";
    var fractional := 0;
    var sawDot := false;
    for i := 0 to |mantissa|
      invariant AllDigits(digits)
      invariant Scanned(mantissa[..i]) == Some(Scan(digits, fractional, sawDot))
    {
      assert mantissa[..i + 1][..i] == mantissa[..i];
      var c := mantissa[i];
      if c == '.' && !sawDot {
        sawDot := true;
      } else if IsDigit(c) {
        digits := digits + [c];
        if sawDot { fractional := Wrap32(fractional + 1); }
      } else {
        ScanFails(mantissa, i + 1);
        return Err;
      }
    }
    assert mantissa[..|mantissa|] == mantissa;
    if digits == [] { return Err; }
    var shift := Wrap32(Wrap32(exponent - fractional) + 8);
    if shift < 0 { return Err; }
    var base :- ParseU64(digits);
    var pow :- CheckedPow10(shift);
    r := CheckedMul(base, pow);
  }

  function Parse(s: string): Result<u64>
  {
    if s == [] || s[0] == '-' then Err
    else if Find(s, 'e', 'E').Some? then ParseScientific(s, Find(s, 'e', 'E').value)
    else if s[0] == '+' then Err
    else ParsePlain(s)
  }

  // ---- Exactness ----

  /** The digits of both parts and how many of them follow the point; `None` unless there is at most
      one point and everything else is a digit. */
  function Mantissa(s: string): (r: Option<(string, nat)>)
    ensures r.Some? ==> AllDigits(r.value.0)
  {
    var (whole, fraction) := Parts(s);
    if AllDigits(whole) && AllDigits(fraction) then Some((whole + fraction, |fraction|)) else None
  }

  lemma AllDigitsAppend(s: string, c: char)
    ensures AllDigits(s + [c]) <==> AllDigits(s) && IsDigit(c)
  {
    assert (s + [c])[|s|] == c && forall k :: 0 <= k < |s| ==> (s + [c])[k] == s[k];
  }

  lemma {:induction false} ScannedIsMantissa(s: string)
    requires |s| < I32_LIMIT
    ensures Mantissa(s).None? ==> Scanned(s).None?
    ensures Mantissa(s).Some? ==> Scanned(s) == Some(Scan(Mantissa(s).value.0, Mantissa(s).value.1, '.' in s))
    ensures Mantissa(s).Some? ==> Mantissa(s).value.1 <= |s|
    decreases |s|
  {
    hide Parts, Mantissa, AllDigits, IsDigit, Wrap32;
    if s == [] {
      EmptyMantissa();
    } else {
      ScannedIsMantissa(s[..|s| - 1]);
      PartsStep(s);
      MantissaStep(s);
      WrapInRange();
    }
  }

  lemma EmptyMantissa()
    ensures Parts("") == ("", "") && Mantissa("") == Some(("", 0))
  {
    assert Parts("") == ("", "");
    assert Mantissa("").value.0 == "";
  }

  lemma WrapInRange()
    ensures forall x :: -I32_LIMIT <= x < I32_LIMIT ==> Wrap32(x) == x
  {}

  /** The mantissa grows with its text as the scan does. */
  lemma MantissaStep(s: string)
    requires s != []
    ensures var front, c := s[..|s| - 1], s[|s| - 1];
            && (Mantissa(front).None? ==> Mantissa(s).None?)
            && (Mantissa(front).Some? ==>
                  var (digits, fractional) := Mantissa(front).value;
                  Mantissa(s) == if c == '.' && '.' !in front then Some((digits, fractional))
                                 else if IsDigit(c) then
                                   Some((digits + [c], if '.' in front then fractional + 1 else fractional))
                                 else None)
  {
    var front, c := s[..|s| - 1], s[|s| - 1];
    PartsStep(s);
    var (whole, fraction) := Parts(front);
    AllDigitsAppend(whole, c);
    AllDigitsAppend(fraction, c);
    assert whole + (fraction + [c]) == whole + fraction + [c];
    if '.' !in front {
      assert fraction == "" && whole + "" == whole && whole + [c] + "" == whole + [c];
    }
  }

  lemma PartsStep(s: string)
    requires s != []
    ensures var (whole, fraction) := Parts(s[..|s| - 1]);
            var c := s[|s| - 1];
            Parts(s) == if '.' in s[..|s| - 1] then (whole, fraction + [c])
                        else if c == '.' then (whole, "") else (whole + [c], "")
    ensures '.' in s <==> '.' in s[..|s| - 1] || s[|s| - 1] == '.'
  {
    var n := |s| - 1;
    var front, c := s[..n], s[n];
    assert s == front + [c];
    FindStep(s);
    match Find(front, '.', '.')
    case Some(i) =>
      assert s[..i] == front[..i] && s[i + 1..] == front[i + 1..] + [c];
    case None =>
      assert '.' !in front;
      assert s[n + 1..] == "";
  }

  lemma {:induction false} FindStep(s: string)
    requires s != []
    ensures Find(s, '.', '.') == if Find(s[..|s| - 1], '.', '.').Some? then Find(s[..|s| - 1], '.', '.')
                                 else if s[|s| - 1] == '.' then Some(|s| - 1) else None
  {
    if |s| > 1 {
      FindStep(s[1..]);
      assert s[1..][..|s| - 2] == s[..|s| - 1][1..];
    }
  }

  /** `sats` is exactly 10^8 times the number with these digits, of which `fractional` follow the
      point, scaled by a power of ten. */
  predicate Denotes(digits: string, fractional: nat, exponent: int, sats: nat)
    requires AllDigits(digits)
  {
    var shift := exponent - fractional + 8;
    shift >= 0 && sats == Value(digits) * Pow10(shift)
  }

  /** Multiplying out the parts: the satoshis of a plain amount. */
  lemma PlainSats(whole: string, fraction: string)
    requires AllDigits(whole) && AllDigits(fraction) && |fraction| <= 8
    ensures AllDigits(whole + fraction)
    ensures Value(whole + fraction) * Pow10(8 - |fraction|)
         == Value(whole) * 100_000_000 + Value(fraction) * Pow10(8 - |fraction|)
  {
    hide Value, Pow10;
    ValueAppends(whole, fraction);
    Pow10Adds(|fraction|, 8 - |fraction|);
    Pow10Limit(8);
    Distributes(Value(whole), Pow10(|fraction|), Value(fraction), Pow10(8 - |fraction|));
  }

  lemma Distributes(w: nat, p: nat, f: nat, q: nat)
    ensures (w * p + f) * q == w * (p * q) + f * q
  {}

  /** The plain parser accepts exactly the unsigned decimals with a non-empty whole part and at most
      eight fractional digits whose value fits, and its result is that value in satoshis. */
  lemma PlainIsExact(s: string, sats: nat)
    ensures ParsePlain(s) == Ok(sats) <==>
              && Mantissa(s).Some? && Parts(s).0 != [] && sats < U64_LIMIT
              && Denotes(Mantissa(s).value.0, Mantissa(s).value.1, 0, sats)
  {
    var (whole, fraction) := Parts(s);
    hide Parts, Pow10, Value;
    if AllDigits(whole) && AllDigits(fraction) && |fraction| <= 8 {
      assert '.' !in fraction;
      PlainSats(whole, fraction);
      PlainChecks(Value(whole), Value(fraction), 8 - |fraction|);
      if fraction == [] { NoValue(fraction); }
    }
  }

  lemma NoValue(s: string)
    requires s == []
    ensures Value(s) == 0
  {}

  /** None of the intermediate checks fails unless the sum itself is too large. */
  lemma PlainChecks(whole: nat, fraction: nat, k: nat)
    requires k <= 8
    ensures Pow10(k) < U64_LIMIT
    ensures whole * 100_000_000 + fraction * Pow10(k) < U64_LIMIT ==>
              whole < U64_LIMIT && whole * 100_000_000 < U64_LIMIT && fraction < U64_LIMIT
                && fraction * Pow10(k) < U64_LIMIT
  {
    Pow10Limit(k);
    assert fraction * Pow10(k) >= fraction;
  }

  /** The scientific parser accepts exactly what denotes a value that fits, except that a zero
      mantissa is refused when its power of ten alone would not fit. */
  lemma ScientificIsExact(s: string, e: nat, sats: nat)
    requires e < |s| <= MAX_TEXT
    ensures ParseScientific(s, e) == Ok(sats) <==>
              && ParseI32(s[e + 1..]).Ok? && Mantissa(s[..e]).Some? && Mantissa(s[..e]).value.0 != []
                 && sats < U64_LIMIT
              && var (digits, fractional) := Mantissa(s[..e]).value;
                 var exponent := ParseI32(s[e + 1..]).value;
                 && Denotes(digits, fractional, exponent, sats)
                 && (Value(digits) == 0 ==> exponent - fractional + 8 <= 19)
  {
    hide *;
    ScientificUnfolds(s, e);
    if ParseI32(s[e + 1..]).Ok? && Mantissa(s[..e]).Some? && Mantissa(s[..e]).value.0 != [] {
      var (digits, fractional) := Mantissa(s[..e]).value;
      WrappedIsExact(digits, fractional, ParseI32(s[e + 1..]).value, sats);
    }
  }

  lemma ScientificUnfolds(s: string, e: nat)
    requires e < |s| <= MAX_TEXT
    ensures Mantissa(s[..e]).Some? ==> Mantissa(s[..e]).value.1 <= MAX_TEXT
    ensures ParseScientific(s, e) ==
            if ParseI32(s[e + 1..]).Err? || Mantissa(s[..e]).None? || Mantissa(s[..e]).value.0 == [] then Err
            else Scaled(Mantissa(s[..e]).value.0,
                        Wrap32(Wrap32(ParseI32(s[e + 1..]).value - Mantissa(s[..e]).value.1) + 8))
  {
    hide Scaled, Wrap32, ParseI32, Scanned, Mantissa, AllDigits;
    ScannedIsMantissa(s[..e]);
  }

  lemma WrappedIsExact(digits: string, fractional: nat, exponent: int, sats: nat)
    requires AllDigits(digits) && digits != [] && fractional <= MAX_TEXT && -I32_LIMIT <= exponent < I32_LIMIT
    ensures Scaled(digits, Wrap32(Wrap32(exponent - fractional) + 8)) == Ok(sats) <==>
              && Denotes(digits, fractional, exponent, sats) && sats < U64_LIMIT
              && (Value(digits) == 0 ==> exponent - fractional + 8 <= 19)
  {
    ShiftWraps(exponent, fractional);
    ScaledIsExact(digits, Wrap32(Wrap32(exponent - fractional) + 8), sats);
    ScaledIsExact(digits, exponent - fractional + 8, sats);
    hide Scaled, Wrap32, Value, Pow10;
  }

  lemma ScaledIsExact(digits: string, shift: int, sats: nat)
    requires AllDigits(digits) && digits != []
    ensures Scaled(digits, shift) == Ok(sats) <==>
              shift >= 0 && sats == Value(digits) * Pow10(shift) && sats < U64_LIMIT
                && (Value(digits) == 0 ==> shift <= 19)
    ensures shift > 19 ==> Scaled(digits, shift).Err?
  {
    if shift >= 0 {
      Pow10Limit(shift);
      MulGrows(Value(digits), Pow10(shift));
      hide Pow10, Value;
    }
  }

  /** Wrapping never turns a shift that is out of range into one that is in range. */
  lemma ShiftWraps(exponent: int, fractional: nat)
    requires -I32_LIMIT <= exponent < I32_LIMIT && fractional <= MAX_TEXT
    ensures var shift := Wrap32(Wrap32(exponent - fractional) + 8);
            shift == exponent - fractional + 8 || ((shift < 0 || shift > 19) && !(0 <= exponent - fractional + 8 <= 19))
  {}

  lemma MulGrows(a: nat, b: nat)
    requires b > 0
    ensures a <= a * b
    ensures a > 0 ==> b <= a * b
  {}

  // ---- The two forms agree ----

  lemma {:induction false} FindAppended(s: string, tail: string)
    requires 'e' !in s && 'E' !in s && tail != [] && tail[0] == 'e'
    ensures Find(s + tail, 'e', 'E') == Some(|s|)
  {
    if s == [] {
      assert s + tail == tail;
    } else {
      assert (s + tail)[1..] == s[1..] + tail;
      FindAppended(s[1..], tail);
    }
  }

  /** For text without an exponent marker, appending "e0" changes neither success nor result, unless
      the text starts with the point and the scientific form accepts it. */
  lemma PlainAgreesWithScientific(s: string)
    requires 'e' !in s && 'E' !in s && |s| + 2 <= MAX_TEXT
    ensures Parse(s) == Parse(s + "e0") <==> !(s != [] && s[0] == '.' && Parse(s + "e0").Ok?)
  {
    var t := s + "e0";
    FindAppended(s, "e0");
    if s != [] && s[0] != '-' {
      assert t[0] == s[0];
      LeadingPart(s);
      PlainOrScientific(s);
      if s[0] == '+' { SignIsNoMantissa(s); }
      hide ParsePlain, ParseScientific, Parts, Mantissa;
    }
  }

  lemma PlainOrScientific(s: string)
    requires s != [] && |s| + 2 <= MAX_TEXT
    ensures Parts(s).0 != [] ==> ParsePlain(s) == ParseScientific(s + "e0", |s|)
    ensures Parts(s).0 == [] ==> ParsePlain(s).Err?
    ensures Mantissa(s).None? ==> ParseScientific(s + "e0", |s|).Err?
  {
    var t := s + "e0";
    assert t[..|s|] == s && t[|s| + 1..] == "0";
    ZeroExponent();
    hide ParsePlain, ParseScientific, Parts, Mantissa, ParseI32, Value, Pow10;
    forall sats: nat ensures ParsePlain(s) == Ok(sats) <==> ParseScientific(t, |s|) == Ok(sats) && Parts(s).0 != [] {
      PlainIsExact(s, sats);
      ScientificIsExact(t, |s|, sats);
      if Mantissa(s).Some? { ZeroShift(s); }
    }
    SameOutcome(ParsePlain(s), ParseScientific(t, |s|), Parts(s).0 != []);
    if Mantissa(s).None? && ParseScientific(t, |s|).Ok? { ScientificIsExact(t, |s|, ParseScientific(t, |s|).value); }
  }

  /** What the two exactness statements ask beyond denoting agrees for a zero exponent. */
  lemma ZeroShift(s: string)
    requires Mantissa(s).Some?
    ensures Parts(s).0 != [] ==> Mantissa(s).value.0 != []
    ensures 0 - Mantissa(s).value.1 + 8 <= 19
  {}

  lemma SameOutcome(a: Result<u64>, b: Result<u64>, both: bool)
    requires forall sats: nat :: a == Ok(sats) <==> b == Ok(sats) && both
    ensures both ==> a == b
    ensures !both ==> a.Err?
  {
    if a.Ok? { assert a == Ok(a.value); }
    if b.Ok? { assert b == Ok(b.value); }
  }

  lemma ZeroExponent()
    ensures ParseI32("0") == Ok(0)
  {
    assert Value("0") == 0;
  }

  lemma LeadingPart(s: string)
    requires s != []
    ensures Parts(s).0 == [] <==> s[0] == '.'
  {}

  lemma SignIsNoMantissa(s: string)
    requires s != [] && s[0] == '+'
    ensures Mantissa(s).None?
  {
    assert Parts(s).0 != [] && Parts(s).0[0] == '+';
  }

  /** The exception is real. */
  lemma LeadingPointDiffers()
    ensures Parse(".5").Err? && Parse(".5e0") == Ok(50_000_000)
  {
    FindNone(".5");
    FindAppended(".5", "e0");
    HalfScientific();
    PlainNeedsWhole(".5");
    hide ParsePlain, ParseScientific, Find;
    assert ".5" + "e0" == ".5e0";
  }

  lemma PlainNeedsWhole(s: string)
    requires s != [] && s[0] == '.'
    ensures ParsePlain(s).Err?
  {
    LeadingPart(s);
  }

  lemma HalfScientific()
    ensures ParseScientific(".5e0", 2) == Ok(50_000_000)
  {
    var t := ".5e0";
    HalfDenotes();
    ZeroExponent();
    hide ParseScientific, Mantissa, Parts, Denotes, ParseI32, Value;
    assert t[..2] == ".5" && t[3..] == "0";
    ScientificIsExact(t, 2, 50_000_000);
  }

  lemma {:induction false} FindNone(s: string)
    requires 'e' !in s && 'E' !in s
    ensures Find(s, 'e', 'E').None?
  {
    if s != [] { FindNone(s[1..]); }
  }

  lemma HalfDenotes()
    ensures Mantissa(".5") == Some(("5", 1)) && Value("5") == 5
    ensures Denotes("5", 1, 0, 50_000_000)
  {
    HalfMantissa();
    assert "5"[..0] == "" && Value("5") == 5;
    hide Mantissa;
    Pow10Limit(8);
    assert 10 * Pow10(7) == Pow10(8);
  }

  lemma HalfMantissa()
    ensures Mantissa(".5") == Some(("5", 1))
  {
    assert Find(".5", '.', '.') == Some(0) && Parts(".5") == ("", "5") && "" + "5" == "5";
    hide Find, Parts;
  }
}
