/** The plain text form of a decimal: the parser, the printer, and their round trip. */
module DecimalText {
  import opened Decimals
  import opened Text

  predicate IsDigit(c: char) {
    '0' <= c <= '9'
  }

  predicate AllDigits(s: string) {
    forall i :: 0 <= i < |s| ==> IsDigit(s[i])
  }

  function DigitChar(n: nat): (c: char)
    requires n < 10
    ensures IsDigit(c) && DigitOf(c) == n
  {
    ('0' as int + n) as char
  }

  function DigitOf(c: char): (n: nat)
    requires IsDigit(c)
    ensures n < 10
  {
    c as int - '0' as int
  }

  /** The number a run of decimal digits spells. */
  function DigitsValue(s: string): nat
    requires AllDigits(s)
  {
    if s == "" then 0 else 10 * DigitsValue(s[..|s| - 1]) + DigitOf(s[|s| - 1])
  }

  /** The digits of n without leading zeros. */
  function Digits(n: nat): (s: string)
    ensures |s| >= 1 && AllDigits(s)
  {
    if n < 10 then [DigitChar(n)] else Digits(n / 10) + [DigitChar(n % 10)]
  }

  function Zeros(k: nat): (s: string)
    ensures |s| == k && AllDigits(s)
  {
    if k == 0 then "" else ['0'] + Zeros(k - 1)
  }

  // ---------------------------------------------------------------------------
  // Parser and printer
  // ---------------------------------------------------------------------------

  /** Digits of other scripts are rejected too, if by a later test, so only ASCII digits are digits here. */
  function Parse(input: string): Result<Decimal> {
    var text := TrimSpace(input);
    if text == "" then Err("decimal is empty")
    else
      var body := if text[0] == '+' || text[0] == '-' then text[1..] else text;
      if body == "" then Err("decimal has no digits")
      else ParseUnsigned(body, text[0] == '-')
  }

  function ParseUnsigned(body: string, negative: bool): Result<Decimal> {
    var parts := Split(body, '.');
    if |parts| > 2 then Err("decimal has more than one point")
    else
      var whole := parts[0];
      var fraction := if |parts| == 2 then parts[1] else "";
      if whole == "" && fraction == "" then Err("decimal has no digits")
      else if !AllDigits(whole + fraction) then Err("decimal contains a non-digit")
      else
        Ok(Normal(Decimal(Signed(DigitsValue(whole + fraction), negative), |fraction|)))
  }

  function Signed(magnitude: nat, negative: bool): int {
    var m: int := magnitude;
    if negative then -m else m
  }

  function Magnitude(n: int): nat {
    if n < 0 then -n else n
  }

  /** The digits of a magnitude with enough leading zeros to place the point. */
  function Padded(magnitude: nat, scale: nat): (s: string)
    ensures |s| > scale && AllDigits(s)
  {
    var digits := Digits(magnitude);
    if |digits| <= scale then Zeros(scale - |digits| + 1) + digits else digits
  }

  /** The digits of a normal decimal's magnitude with its point. */
  function Unsigned(magnitude: nat, scale: nat): string {
    if scale == 0 then Digits(magnitude)
    else
      var padded := Padded(magnitude, scale);
      padded[..|padded| - scale] + "." + padded[|padded| - scale..]
  }

  function String(d: Decimal): string {
    var n := Normal(d);
    if n.coefficient == 0 then "0"
    else (if n.coefficient < 0 then "-" else "") + Unsigned(Magnitude(n.coefficient), n.scale)
  }

  // ---------------------------------------------------------------------------
  // Round trip
  // ---------------------------------------------------------------------------

  lemma {:induction false} DigitsRoundTrip(n: nat)
    ensures DigitsValue(Digits(n)) == n
  {
    if n >= 10 {
      DigitsRoundTrip(n / 10);
      var s := Digits(n);
      assert s[..|s| - 1] == Digits(n / 10);
    } else {
      assert Digits(n)[..0] == "";
    }
  }

  lemma {:induction false} LeadingZeros(k: nat, s: string)
    requires AllDigits(s)
    ensures AllDigits(Zeros(k) + s) && DigitsValue(Zeros(k) + s) == DigitsValue(s)
    decreases |s|
  {
    var z := Zeros(k) + s;
    if s == "" {
      ZerosValue(k);
      assert z == Zeros(k);
    } else {
      LeadingZeros(k, s[..|s| - 1]);
      assert z[..|z| - 1] == Zeros(k) + s[..|s| - 1];
    }
  }

  lemma {:induction false} ZerosValue(k: nat)
    ensures DigitsValue(Zeros(k)) == 0
  {
    if k > 0 {
      ZerosValue(k - 1);
      ZerosAllSame(k);
      ZerosAllSame(k - 1);
      assert Zeros(k)[..k - 1] == Zeros(k - 1);
    }
  }

  lemma {:induction false} ZerosAllSame(k: nat)
    ensures forall i :: 0 <= i < k ==> Zeros(k)[i] == '0'
  {
    if k > 0 {
      ZerosAllSame(k - 1);
    }
  }

  lemma PaddedValue(magnitude: nat, scale: nat)
    ensures DigitsValue(Padded(magnitude, scale)) == magnitude
  {
    hide DigitsValue, Digits, Zeros;
    var digits := Digits(magnitude);
    DigitsRoundTrip(magnitude);
    if |digits| <= scale {
      LeadingZeros(scale - |digits| + 1, digits);
    }
  }

  lemma JoinParses(whole: string, fraction: string, negative: bool)
    requires whole != "" && AllDigits(whole + fraction)
    ensures ParseUnsigned(whole + "." + fraction, negative)
         == Ok(Normal(Decimal(Signed(DigitsValue(whole + fraction), negative), |fraction|)))
    ensures AllDigits(whole) && ParseUnsigned(whole, negative) == Ok(Normal(Decimal(Signed(DigitsValue(whole), negative), 0)))
  {
    hide DigitsValue, Normal, Split;
    var all := whole + fraction;
    assert forall i :: 0 <= i < |whole| ==> whole[i] == all[i];
    assert forall i :: 0 <= i < |fraction| ==> fraction[i] == all[|whole| + i];
    SplitOnce(whole, fraction, '.');
    SplitPlain(whole, '.');
    assert whole + "" == whole;
  }

  lemma UnsignedParses(magnitude: nat, scale: nat, negative: bool)
    ensures var body := Unsigned(magnitude, scale);
            && body != "" && IsDigit(body[0]) && (IsDigit(body[|body| - 1]))
            && ParseUnsigned(body, negative) == Ok(Normal(Decimal(Signed(magnitude, negative), scale)))
  {
    hide DigitsValue, Normal, ParseUnsigned, Digits, Zeros, Padded;
    DigitsRoundTrip(magnitude);
    PaddedValue(magnitude, scale);
    var padded := Padded(magnitude, scale);
    var whole, fraction := padded[..|padded| - scale], padded[|padded| - scale..];
    assert whole + fraction == padded;
    JoinParses(whole, fraction, negative);
    assert Digits(magnitude) + "" == Digits(magnitude);
    JoinParses(Digits(magnitude), "", negative);
  }

  /** Printing and parsing again gives back the normal form of the decimal. */
  lemma StringRoundTrip(d: Decimal)
    ensures Parse(String(d)) == Ok(Normal(d))
  {
    hide Parse, ParseUnsigned, Unsigned, TrimSpace;
    var n := Normal(d);
    NormalIsIdempotent(d);
    if n.coefficient == 0 {
      ZeroParses();
    } else {
      UnsignedParses(Magnitude(n.coefficient), n.scale, n.coefficient < 0);
      SignedParses(Unsigned(Magnitude(n.coefficient), n.scale), n.coefficient < 0);
      assert Decimal(n.coefficient, n.scale) == n;
    }
  }

  lemma ZeroParses()
    ensures Parse("0") == Ok(ZERO)
  {
    JoinParses("0", "", false);
    assert "0" + "" == "0";
    assert "0"[..0] == "";
    assert DigitsValue("0") == 0;
    TrimNothing("0");
  }

  lemma SignedParses(body: string, negative: bool)
    requires body != "" && IsDigit(body[0]) && IsDigit(body[|body| - 1])
    ensures Parse((if negative then "-" else "") + body) == ParseUnsigned(body, negative)
  {
    hide ParseUnsigned, TrimSpace;
    var text := (if negative then "-" else "") + body;
    assert text[|text| - 1] == body[|body| - 1];
    TrimNothing(text);
    if negative {
      assert text[1..] == body;
    } else {
      assert text == body;
    }
  }

  /** Decimals with equal values print alike, and the printed text determines the value. */
  lemma StringIsCanonical(a: Decimal, b: Decimal)
    ensures String(a) == String(b) <==> Val(a) == Val(b)
  {
    NormalKeepsValue(a);
    NormalKeepsValue(b);
    StringRoundTrip(a);
    StringRoundTrip(b);
    if Val(a) == Val(b) {
      NormalIsUnique(Normal(a), Normal(b));
    }
  }

  /** Whatever parses is in normal form. */
  lemma ParsedIsNormal(input: string)
    requires Parse(input).Ok?
    ensures IsNormal(Parse(input).value)
  {
    var text := TrimSpace(input);
    var body := if text[0] == '+' || text[0] == '-' then text[1..] else text;
    var parts := Split(body, '.');
    var fraction := if |parts| == 2 then parts[1] else "";
    NormalKeepsValue(Decimal(Signed(DigitsValue(parts[0] + fraction), text[0] == '-'), |fraction|));
  }
}
