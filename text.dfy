/** Number rendering and parsing as the Rust standard library does it for the crawler: `{}` formatting of
    unsigned integers, `str::parse::<u8>` / `str::parse::<u64>`, and the decimal number carried by the
    rate-limit reset header. */
module Text {
  import opened Basics

  predicate IsDigit(c: char) { '0' <= c <= '9' }

  predicate AllDigits(s: string) { forall i :: 0 <= i < |s| ==> IsDigit(s[i]) }

  function DigitValue(c: char): nat
    requires IsDigit(c)
  {
    (c as int) - ('0' as int)
  }

  function DigitChar(d: nat): (c: char)
    requires d < 10
    ensures IsDigit(c) && DigitValue(c) == d
  {
    (('0' as int) + d) as char
  }

  /** The value of a run of decimal digits, most significant digit first. */
  function DigitsValue(s: string): nat
    requires AllDigits(s)
  {
    if s == [] then 0 else DigitsValue(s[..|s| - 1]) * 10 + DigitValue(s[|s| - 1])
  }

  /** `format!("{n}")` for an unsigned integer: its decimal digits, without sign or leading zeros. */
  function ToDecimal(n: nat): (s: string)
    ensures |s| > 0 && AllDigits(s)
    ensures n > 0 ==> s[0] != '0'
  {
    if n < 10 then [DigitChar(n)] else ToDecimal(n / 10) + [DigitChar(n % 10)]
  }

  /** `str::parse` for an unsigned Rust integer type whose largest value is `max`: an optional leading `+`,
      then at least one ASCII digit (leading zeros allowed), and a value that fits the type. A `-` sign,
      an empty string, a lone `+`, any other character or an overflowing value give `None`. */
  function ParseUnsigned(s: string, max: nat): (r: Option<nat>)
    ensures r.Some? ==> r.value <= max
    ensures r.Some? ==> |s| > 0 && forall i :: 0 <= i < |s| ==> IsDigit(s[i]) || (i == 0 && s[i] == '+')
  {
    var digits := if |s| > 0 && s[0] == '+' then s[1..] else s;
    if digits == [] || !AllDigits(digits) then None
    else if DigitsValue(digits) <= max then Some(DigitsValue(digits))
    else None
  }

  lemma {:induction false} ToDecimalValue(n: nat)
    ensures DigitsValue(ToDecimal(n)) == n
  {
    if n >= 10 {
      ToDecimalValue(n / 10);
      var s := ToDecimal(n);
      assert s[..|s| - 1] == ToDecimal(n / 10);
    }
  }

  /** Parsing is the inverse of formatting on every value the type can hold. */
  lemma {:induction false} ParseToDecimal(n: nat, max: nat)
    requires n <= max
    ensures ParseUnsigned(ToDecimal(n), max) == Some(n)
  {
    ToDecimalValue(n);
  }

  /** Values that do not fit, negative numbers and decorations are rejected. */
  lemma {:induction false} ParseUnsignedRejects()
    ensures ParseUnsigned("256", U8Max) == None
    ensures ParseUnsigned("-1", U8Max) == None
    ensures ParseUnsigned("-0", U8Max) == None
    ensures ParseUnsigned("+", U8Max) == None
    ensures ParseUnsigned("", U64Max) == None
    ensures ParseUnsigned("+07", U8Max) == Some(7)
  {
    assert DigitsValue("256") == 256 by {
      assert "256"[..2] == "25" && "25"[..1] == "2" && "2"[..0] == "";
    }
    assert DigitsValue("07") == 7 by {
      assert "07"[..1] == "0" && "0"[..0] == "";
    }
    assert "+07"[1..] == "07";
    assert "-1"[0] == '-' && "-0"[0] == '-' && "+"[1..] == "";
  }

  /** A formatted value that does not fit the type is rejected (for example 256 as a `u8`). */
  lemma {:induction false} ParseRejectsOverflow(n: nat, max: nat)
    requires n > max
    ensures ParseUnsigned(ToDecimal(n), max) == None
  {
    ToDecimalValue(n);
  }

  /** The rest of `s` after `prefix`, when `s` starts with it. */
  function StripPrefix(prefix: string, s: string): (r: Option<string>)
    ensures r.Some? ==> s == prefix + r.value
  {
    if |prefix| <= |s| && s[..|prefix|] == prefix then Some(s[|prefix|..]) else None
  }

  lemma {:induction false} StripPrefixOf(prefix: string, rest: string)
    ensures StripPrefix(prefix, prefix + rest) == Some(rest)
  {
    assert (prefix + rest)[..|prefix|] == prefix;
    assert (prefix + rest)[|prefix|..] == rest;
  }

  /** Length of the longest prefix of `s` made of digits. */
  function DigitRun(s: string): (n: nat)
    ensures n <= |s| && AllDigits(s[..n]) && (n < |s| ==> !IsDigit(s[n]))
  {
    if s == [] || !IsDigit(s[0]) then 0
    else
      var k := DigitRun(s[1..]);
      assert s[..k + 1] == [s[0]] + s[1..][..k];
      k + 1
  }

  /** Reads the decimal number at the start of `s` and returns it with the rest of the text. */
  function ReadNat(s: string): Option<(nat, string)>
  {
    var k := DigitRun(s);
    if k == 0 then None else Some((DigitsValue(s[..k]), s[k..]))
  }

  lemma {:induction false} DigitRunOfDigits(d: string, rest: string)
    requires AllDigits(d)
    requires rest == [] || !IsDigit(rest[0])
    ensures DigitRun(d + rest) == |d|
  {
    if d != [] {
      assert (d + rest)[1..] == d[1..] + rest;
      DigitRunOfDigits(d[1..], rest);
    }
  }

  /** A formatted number followed by a non-digit reads back as the same number. */
  lemma {:induction false} ReadNatToDecimal(n: nat, rest: string)
    requires rest == [] || !IsDigit(rest[0])
    ensures ReadNat(ToDecimal(n) + rest) == Some((n, rest))
  {
    var d := ToDecimal(n);
    DigitRunOfDigits(d, rest);
    assert (d + rest)[..|d|] == d && (d + rest)[|d|..] == rest;
    ToDecimalValue(n);
  }

  /** Different numbers format differently. */
  lemma {:induction false} ToDecimalInjective(m: nat, n: nat)
    requires ToDecimal(m) == ToDecimal(n)
    ensures m == n
  {
    ToDecimalValue(m);
    ToDecimalValue(n);
  }

  function Pow10(k: nat): (p: nat)
    ensures p >= 1
  {
    if k == 0 then 1 else 10 * Pow10(k - 1)
  }

  /** A decimal number `(-1)^negative * digits / 10^scale`, exactly as written in the text. */
  datatype Decimal = Decimal(negative: bool, digits: nat, scale: nat)

  /** `body` is a plain unsigned decimal whose whole part ends at `k`: digits up to `k`, then either
      the end of the text or a `.` followed only by digits, with at least one digit in all. */
  predicate PlainDecimalAt(body: string, k: int)
  {
    && 0 <= k <= |body| && AllDigits(body[..k])
    && (if k == |body| then k > 0 else body[k] == '.' && AllDigits(body[k + 1..]) && |body| > 1)
  }

  /** The value such a text denotes: its digits without the dot, scaled by the number of fraction
      digits. */
  function DecimalAt(negative: bool, body: string, k: int): (d: Decimal)
    requires PlainDecimalAt(body, k)
    ensures d.negative == negative
  {
    if k == |body| then Decimal(negative, DigitsValue(body), 0)
    else
      assert AllDigits(body[..k] + body[k + 1..]);
      Decimal(negative, DigitsValue(body[..k] + body[k + 1..]), |body| - k - 1)
  }

  /** The length of the optional leading sign. */
  function SignLength(s: string): (n: nat)
    ensures n <= |s|
  {
    if |s| > 0 && (s[0] == '+' || s[0] == '-') then 1 else 0
  }

  /** A plain decimal number: an optional sign, digits, and an optional fraction after a `.`,
      with at least one digit in all (`1`, `1.5`, `.5`, `2.`, `-0.25`). An accepted text is such a
      number, and the result is the value it denotes. */
  function ParseDecimal(s: string): (r: Option<Decimal>)
    ensures r.Some? ==> |s| > 0
    ensures r.Some? ==> (r.value.negative <==> s[0] == '-')
    ensures r.Some? ==> forall i :: 0 <= i < |s| ==> IsDigit(s[i]) || s[i] == '.' || (i == 0 && s[i] in "+-")
    ensures r.Some? ==> exists k :: PlainDecimalAt(s[SignLength(s)..], k)
                                    && r.value == DecimalAt(s[0] == '-', s[SignLength(s)..], k)
  {
    ParseUnsignedDecimal(|s| > 0 && s[0] == '-', s[SignLength(s)..])
  }

  /** The number after the sign: digits, and an optional fraction after a `.`, at least one digit
      in all. */
  function ParseUnsignedDecimal(negative: bool, body: string): (r: Option<Decimal>)
    ensures r.Some? ==> |body| > 0 && r.value.negative == negative
    ensures r.Some? ==> forall i :: 0 <= i < |body| ==> IsDigit(body[i]) || body[i] == '.'
    ensures r.Some? ==> exists k :: PlainDecimalAt(body, k) && r.value == DecimalAt(negative, body, k)
  {
    var k := DigitRun(body);
    var whole, rest := body[..k], body[k..];
    if rest == [] then
      if k == 0 then None
      else
        assert body[..k] == body && PlainDecimalAt(body, k);
        Some(Decimal(negative, DigitsValue(whole), 0))
    else if rest[0] != '.' || !AllDigits(rest[1..]) || (k == 0 && |rest| == 1) then None
    else
      assert rest[1..] == body[k + 1..] && PlainDecimalAt(body, k);
      Some(Decimal(negative, DigitsValue(whole + rest[1..]), |rest| - 1))
  }

  /** Conversely, every plain decimal after an optional sign is accepted, with the value it denotes:
      so a text is accepted exactly when it is such a number. */
  lemma {:induction false} ParseDecimalAccepts(s: string, k: int)
    requires PlainDecimalAt(s[SignLength(s)..], k)
    ensures ParseDecimal(s) == Some(DecimalAt(|s| > 0 && s[0] == '-', s[SignLength(s)..], k))
  {
    var body := s[SignLength(s)..];
    assert body == body[..k] + body[k..];
    DigitRunOfDigits(body[..k], body[k..]);
    if k < |body| {
      assert body[k..][1..] == body[k + 1..];
    }
  }

  /** A plain decimal written out: a minus sign when negative, the whole digits, and a dot followed by
      the fraction digits when there are any. */
  function DecimalText(negative: bool, whole: string, frac: string): string
  {
    (if negative then "-" else "") + whole + (if frac == [] then "" else "." + frac)
  }

  /** Every plain decimal reads as the number it writes: the whole and fraction digits together,
      scaled down by one power of ten per fraction digit, with its sign. */
  lemma {:induction false} ParseDecimalText(negative: bool, whole: string, frac: string)
    requires AllDigits(whole) && AllDigits(frac) && whole + frac != []
    ensures AllDigits(whole + frac)
    ensures ParseDecimal(DecimalText(negative, whole, frac)) == Some(Decimal(negative, DigitsValue(whole + frac), |frac|))
  {
    var rest := if frac == [] then "" else "." + frac;
    var s := DecimalText(negative, whole, frac);
    if negative {
      assert s == "-" + (whole + rest) && s[1..] == whole + rest;
    } else {
      assert s == whole + rest;
      assert s[0] == (if whole != [] then whole[0] else '.');
    }
    ParseUnsignedDecimalText(negative, whole, frac);
  }

  lemma {:induction false} ParseUnsignedDecimalText(negative: bool, whole: string, frac: string)
    requires AllDigits(whole) && AllDigits(frac) && whole + frac != []
    ensures AllDigits(whole + frac)
    ensures ParseUnsignedDecimal(negative, whole + (if frac == [] then "" else "." + frac))
         == Some(Decimal(negative, DigitsValue(whole + frac), |frac|))
  {
    var rest := if frac == [] then "" else "." + frac;
    var body := whole + rest;
    DigitRunOfDigits(whole, rest);
    assert body[..|whole|] == whole && body[|whole|..] == rest;
    if frac == [] {
      assert whole + frac == whole;
    } else {
      assert rest[1..] == frac;
    }
  }

  /** Integer division rounding up. */
  function CeilDiv(a: nat, b: nat): nat
    requires b > 0
  {
    (a + b - 1) / b
  }

  lemma {:induction false} CeilDivBounds(a: nat, b: nat)
    requires b > 0
    ensures CeilDiv(a, b) * b >= a
    ensures CeilDiv(a, b) == 0 || (CeilDiv(a, b) - 1) * b < a
  {
    var q, r := (a + b - 1) / b, (a + b - 1) % b;
    assert a + b - 1 == q * b + r && 0 <= r < b;
    assert (q - 1) * b == q * b - b;
  }

  /** `(reset_after * 1000).ceil() as u16`: the number of milliseconds, rounded up, then cast with
      saturation (a negative value becomes 0, a value above 65535 becomes 65535). */
  function MillisUntilReset(d: Decimal): (ms: nat)
    ensures ms <= U16Max
    ensures d.negative ==> ms == 0
    ensures !d.negative ==> ms == U16Max || ms * Pow10(d.scale) >= d.digits * 1000
    ensures !d.negative ==> ms == 0 || (ms - 1) * Pow10(d.scale) < d.digits * 1000
  {
    if d.negative then 0
    else
      SaturatedCeilDivBounds(d.digits * 1000, Pow10(d.scale));
      SaturateU16(CeilDiv(d.digits * 1000, Pow10(d.scale)))
  }

  /** The saturating cast of a non-negative number to `u16`. */
  function SaturateU16(c: nat): nat
  {
    if c > U16Max then U16Max else c
  }

  /** The saturated quotient, rounded up, is the least multiple of `b` reaching `a`, unless it is
      clipped at the largest `u16`. */
  lemma {:induction false} SaturatedCeilDivBounds(a: nat, b: nat)
    requires b > 0
    ensures var ms := SaturateU16(CeilDiv(a, b));
      && ms <= U16Max
      && (ms == U16Max || ms * b >= a)
      && (ms == 0 || (ms - 1) * b < a)
  {
    var c := CeilDiv(a, b);
    CeilDivBounds(a, b);
    if c > U16Max {
      assert (c - 1) * b == (U16Max - 1) * b + (c - U16Max) * b;
    }
  }

  /** One and a half seconds is 1500 milliseconds. */
  lemma {:induction false} MillisOneAndAHalf()
    ensures ParseDecimal("1.5") == Some(Decimal(false, 15, 1))
    ensures MillisUntilReset(Decimal(false, 15, 1)) == 1500
  {
    ReadOneAndAHalf();
    assert CeilDiv(15000, 10) == 1500;
  }

  lemma {:induction false} ReadOneAndAHalf()
    ensures ParseDecimal("1.5") == Some(Decimal(false, 15, 1))
  {
    ParseDecimalText(false, "1", "5");
    OneAndAHalfWritten();
  }

  lemma {:induction false} OneAndAHalfWritten()
    ensures DecimalText(false, "1", "5") == "1.5"
    ensures AllDigits("1" + "5") && DigitsValue("1" + "5") == 15
  {
    assert "1" + "5" == "15" && "15"[..1] == "1";
  }

  /** The rest of the grammar: a sign is kept, an exponent is not accepted. */
  lemma {:induction false} ParseDecimalExamples()
    ensures ParseDecimal("-2") == Some(Decimal(true, 2, 0))
    ensures ParseDecimal("1e3") == None
    ensures ParseDecimal(".") == None
  {
    assert "-2"[1..] == "2";
    assert DigitRun("2") == 1 by { assert "2"[1..] == ""; }
    assert "2"[..1] == "2" && DigitsValue("2") == 2;
    assert DigitRun("1e3") == 1 by { assert "1e3"[1..] == "e3"; }
    assert "1e3"[1..][0] == 'e';
    assert DigitRun(".") == 0;
  }
}
