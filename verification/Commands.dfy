/** Open and close commands: the parser, the printer that turns a decision into a command, and why they
    undo each other. */
module Commands {
  import opened Decimals
  import DT = DecimalText
  import opened Sizing
  import R = Rationals
  import opened Text

  datatype Side = Long | Short

  datatype OpenIntent = OpenIntent(
    symbol: string, side: Side, leverage: int, entry: Decimal, stopLoss: Decimal, takeProfit: Decimal, size: Size, plan: string)

  datatype CloseIntent = CloseAll | CloseSymbol(symbol: string, percent: Decimal, given: bool)

  /** Commands of the other known kinds are not looked into. */
  datatype Intent = Open(order: OpenIntent) | Close(close: CloseIntent) | OtherCommand(words: seq<string>)

  const DEFAULT_LEVERAGE := 20
  const MAX_INT := 0x7fff_ffff_ffff_ffff

  // ---------------------------------------------------------------------------
  // Words
  // ---------------------------------------------------------------------------

  predicate IsWord(s: string) {
    s != "" && forall i :: 0 <= i < |s| ==> !IsSpace(s[i])
  }

  function WordLength(s: string): (n: nat)
    ensures n <= |s| && (s != "" && !IsSpace(s[0]) ==> n > 0)
  {
    if s == "" || IsSpace(s[0]) then 0 else 1 + WordLength(s[1..])
  }

  function Fields(s: string): seq<string> {
    if s == "" then []
    else if IsSpace(s[0]) then Fields(s[1..])
    else [s[..WordLength(s)]] + Fields(s[WordLength(s)..])
  }

  function Join(words: seq<string>): string {
    if words == [] then "" else if |words| == 1 then words[0] else words[0] + " " + Join(words[1..])
  }

  lemma {:induction false} WordEnds(w: string, rest: string)
    requires (forall i :: 0 <= i < |w| ==> !IsSpace(w[i])) && (rest == "" || IsSpace(rest[0]))
    ensures WordLength(w + rest) == |w|
  {
    if w == "" {
      assert w + rest == rest;
    } else {
      assert (w + rest)[1..] == w[1..] + rest;
      WordEnds(w[1..], rest);
    }
  }

  /** Words joined by blanks are the fields of the result. */
  lemma {:induction false} FieldsOfJoin(words: seq<string>)
    requires forall i :: 0 <= i < |words| ==> IsWord(words[i])
    ensures Fields(Join(words)) == words
  {
    if words != [] {
      var w := words[0];
      var rest := if |words| == 1 then "" else " " + Join(words[1..]);
      assert Join(words) == w + rest;
      WordEnds(w, rest);
      assert (w + rest)[..|w|] == w && (w + rest)[|w|..] == rest;
      if |words| > 1 {
        FieldsOfJoin(words[1..]);
        assert rest[1..] == Join(words[1..]);
      }
    }
  }

  lemma {:induction false} JoinEnds(words: seq<string>)
    requires words != [] && forall i :: 0 <= i < |words| ==> IsWord(words[i])
    ensures var s := Join(words); s != "" && !IsSpace(s[0]) && !IsSpace(s[|s| - 1])
  {
    if |words| > 1 {
      JoinEnds(words[1..]);
    }
  }

  /** The words of several texts in turn. */
  function Words(texts: seq<string>): seq<string> {
    if texts == [] then [] else Fields(texts[0]) + Words(texts[1..])
  }

  lemma {:induction false} WordLengthBefore(a: string, b: string)
    requires b == "" || IsSpace(b[0])
    ensures WordLength(a + b) == WordLength(a)
  {
    if a == "" {
      assert a + b == b;
    } else {
      assert (a + b)[1..] == a[1..] + b;
      WordLengthBefore(a[1..], b);
    }
  }

  lemma {:induction false} FieldsApart(a: string, b: string)
    requires b == "" || IsSpace(b[0])
    ensures Fields(a + b) == Fields(a) + Fields(b)
    decreases |a|
  {
    if a == "" {
      assert a + b == b;
    } else if IsSpace(a[0]) {
      assert (a + b)[1..] == a[1..] + b;
      FieldsApart(a[1..], b);
    } else {
      var n := WordLength(a);
      WordLengthBefore(a, b);
      assert (a + b)[..n] == a[..n] && (a + b)[n..] == a[n..] + b;
      FieldsApart(a[n..], b);
    }
  }

  /** Joined texts have the words of each, whatever blanks they hold. */
  lemma {:induction false} FieldsOfTexts(texts: seq<string>)
    ensures Fields(Join(texts)) == Words(texts)
  {
    if |texts| > 1 {
      var rest := Join(texts[1..]);
      assert (" " + rest)[1..] == rest;
      assert Join(texts) == texts[0] + (" " + rest);
      FieldsApart(texts[0], " " + rest);
      FieldsOfTexts(texts[1..]);
    }
  }

  lemma {:induction false} FieldsTrimLeft(s: string)
    ensures Fields(TrimLeft(s)) == Fields(s)
  {
    if s != "" && IsSpace(s[0]) {
      FieldsTrimLeft(s[1..]);
    }
  }

  lemma {:induction false} FieldsTrimRight(s: string)
    ensures Fields(TrimRight(s)) == Fields(s)
  {
    if s != "" && IsSpace(s[|s| - 1]) {
      var front, last := s[..|s| - 1], s[|s| - 1..];
      assert s == front + last && last[1..] == "";
      FieldsApart(front, last);
      FieldsTrimRight(front);
    }
  }

  lemma FieldsTrim(s: string)
    ensures Fields(TrimSpace(s)) == Fields(s)
  {
    FieldsTrimLeft(s);
    FieldsTrimRight(TrimLeft(s));
  }

  lemma {:induction false} NoFields(s: string)
    requires Fields(s) == []
    ensures forall i :: 0 <= i < |s| ==> IsSpace(s[i])
  {
    if s != "" {
      assert IsSpace(s[0]);
      NoFields(s[1..]);
      forall i | 0 <= i < |s| ensures IsSpace(s[i]) {
        assert i > 0 ==> s[i] == s[1..][i - 1];
      }
    }
  }

  lemma {:induction false} WordHasNoSpace(s: string)
    ensures forall i :: 0 <= i < WordLength(s) ==> !IsSpace(s[i])
  {
    if s != "" && !IsSpace(s[0]) {
      WordHasNoSpace(s[1..]);
      forall i | 0 <= i < WordLength(s) ensures !IsSpace(s[i]) {
        assert i > 0 ==> s[i] == s[1..][i - 1];
      }
    }
  }

  lemma TrimEnds(s: string)
    ensures var t := TrimSpace(s); t == "" || (!IsSpace(t[0]) && !IsSpace(t[|t| - 1]))
  {
    TrimLeftStarts(s);
    TrimRightEnds(TrimLeft(s));
  }

  /** A text has one word exactly when trimming leaves one, which then is that word. */
  lemma OneField(s: string)
    ensures |Fields(s)| == 1 <==> IsWord(TrimSpace(s))
    ensures IsWord(TrimSpace(s)) ==> Fields(s) == [TrimSpace(s)]
  {
    var t := TrimSpace(s);
    FieldsTrim(s);
    TrimEnds(s);
    hide TrimSpace;
    if IsWord(t) {
      FieldsOfJoin([t]);
    } else if |Fields(t)| == 1 {
      var n := WordLength(t);
      WordHasNoSpace(t);
      assert n < |t| ==> t[|t| - 1] == t[n..][|t| - 1 - n];
      assert |Fields(t[n..])| == 0;
      NoFields(t[n..]);
    }
  }

  lemma {:induction false} FieldsAreWords(s: string)
    ensures forall i :: 0 <= i < |Fields(s)| ==> IsWord(Fields(s)[i])
    decreases |s|
  {
    if s != "" {
      if IsSpace(s[0]) {
        FieldsAreWords(s[1..]);
      } else {
        WordHasNoSpace(s);
        FieldsAreWords(s[WordLength(s)..]);
      }
    }
  }

  /** The last word of a text that does not end in a blank ends as the text does. */
  lemma {:induction false} LastField(s: string)
    requires s != "" && !IsSpace(s[|s| - 1])
    ensures var f := Fields(s); f != [] && f[|f| - 1] != "" && f[|f| - 1][|f[|f| - 1]| - 1] == s[|s| - 1]
    decreases |s|
  {
    if IsSpace(s[0]) {
      LastField(s[1..]);
    } else if WordLength(s) < |s| {
      LastField(s[WordLength(s)..]);
    }
  }

  lemma {:induction false} WordsOfBoth(a: seq<string>, b: seq<string>)
    ensures Words(a + b) == Words(a) + Words(b)
  {
    hide Fields;
    if a == [] {
      assert a + b == b;
    } else {
      assert (a + b)[0] == a[0] && (a + b)[1..] == a[1..] + b;
      WordsOfBoth(a[1..], b);
    }
  }

  lemma OneText(text: string)
    ensures Words([text]) == Fields(text)
  {
    hide Fields;
    assert [text][1..] == [];
  }

  lemma WordsAt(texts: seq<string>, i: nat)
    requires i < |texts|
    ensures Words(texts) == Words(texts[..i]) + Fields(texts[i]) + Words(texts[i + 1..])
    ensures Words(texts[..i + 1]) == Words(texts[..i]) + Fields(texts[i])
  {
    hide Fields, Words;
    ThreeParts(texts, i);
    WordsOfThree(texts[..i], texts[i], texts[i + 1..]);
  }

  lemma ThreeParts<T>(s: seq<T>, i: nat)
    requires i < |s|
    ensures s == s[..i] + [s[i]] + s[i + 1..] && s[..i + 1] == s[..i] + [s[i]]
  {}

  lemma WordsOfThree(a: seq<string>, text: string, c: seq<string>)
    ensures Words(a + [text]) == Words(a) + Fields(text) && Words(a + [text] + c) == Words(a) + Fields(text) + Words(c)
  {
    hide Fields, Words;
    OneText(text);
    WordsOfBoth(a, [text]);
    WordsOfBoth(a + [text], c);
  }

  /** Texts of one word each. */
  lemma {:induction false} WordsOfWords(texts: seq<string>, words: seq<string>)
    requires |texts| == |words| && forall i :: 0 <= i < |texts| ==> Fields(texts[i]) == [words[i]]
    ensures Words(texts) == words
  {
    if texts != [] {
      WordsOfWords(texts[1..], words[1..]);
    }
  }

  predicate HasSuffix(s: string, suffix: string) {
    |s| >= |suffix| && s[|s| - |suffix|..] == suffix
  }

  function TrimSuffix(s: string, suffix: string): string {
    if HasSuffix(s, suffix) then s[..|s| - |suffix|] else s
  }

  // ---------------------------------------------------------------------------
  // Parser
  // ---------------------------------------------------------------------------

  function MaxLeverage(option: int): int {
    if option <= 0 then DEFAULT_LEVERAGE else option
  }

  /** A decimal integer with an optional sign, within the machine's range. */
  function Atoi(s: string): Result<int> {
    var digits := if s != "" && (s[0] == '+' || s[0] == '-') then s[1..] else s;
    if digits == "" || !DT.AllDigits(digits) then Err("invalid syntax")
    else
      var n: int := DT.DigitsValue(digits);
      var value: int := if s[0] == '-' then -n else n;
      if value > MAX_INT || value < -MAX_INT - 1 then Err("value out of range") else Ok(value)
  }

  function ParseLeverage(token: string, max: int): Result<int> {
    var value := Lower(TrimSpace(token));
    if !HasSuffix(value, "x") then Err("Leverage must use <int>x")
    else match Atoi(TrimSuffix(value, "x"))
      case Err(_) => Err("Leverage must be a positive integer")
      case Ok(n) =>
        if n <= 0 then Err("Leverage must be a positive integer")
        else if n > max then Err("Leverage exceeds the maximum")
        else Ok(n)
  }

  function ParsePositive(token: string): Result<Decimal> {
    match DT.Parse(token)
    case Err(e) => Err(e)
    case Ok(d) => if IsPositive(d) then Ok(d) else Err("must be greater than zero")
  }

  function ParseSize(kind: string, amount: string): Result<Size> {
    if Lower(kind) == "size" then
      var text := Lower(TrimSpace(amount));
      if !HasSuffix(text, "usdt") then Err("size must use <amount>usdt")
      else match ParsePositive(TrimSuffix(text, "usdt"))
        case Ok(d) => Ok(Usdt(d))
        case Err(e) => Err(e)
    else if Lower(kind) == "qty" then
      match ParsePositive(amount)
      case Ok(d) => Ok(Qty(d))
      case Err(e) => Err(e)
    else Err("Open order must include size or qty")
  }

  function WithoutSlashes(s: string): string {
    if s == "" then "" else (if s[0] == '/' then "" else [s[0]]) + WithoutSlashes(s[1..])
  }

  predicate IsSymbolText(s: string) {
    forall i :: 0 <= i < |s| ==> DT.IsDigit(s[i]) || 'A' <= s[i] <= 'Z'
  }

  function NormalizeSymbol(token: string): Result<string> {
    var symbol := WithoutSlashes(Upper(TrimSpace(token)));
    if symbol == "" then Err("Symbol is required")
    else if !IsSymbolText(symbol) then Err("Symbol may contain only letters and digits")
    else
      var full := if HasSuffix(symbol, "USDT") then symbol else symbol + "USDT";
      if TrimSuffix(full, "USDT") == "" then Err("Symbol must include a base asset") else Ok(full)
  }

  /** Stop and target on their sides of the entry. */
  predicate BracketOk(side: Side, entry: Decimal, stopLoss: Decimal, takeProfit: Decimal) {
    match side
    case Long => Cmp(stopLoss, entry) < 0 && Cmp(takeProfit, entry) > 0
    case Short => Cmp(stopLoss, entry) > 0 && Cmp(takeProfit, entry) < 0
  }

  /** Stop, entry and target in the side's order. */
  ghost predicate Brackets(side: Side, entry: Decimal, stopLoss: Decimal, takeProfit: Decimal) {
    match side
    case Long => Val(stopLoss) < Val(entry) < Val(takeProfit)
    case Short => Val(takeProfit) < Val(entry) < Val(stopLoss)
  }

  /** The parser's test of a bracket is the order of the values. */
  lemma BracketMeaning(side: Side, entry: Decimal, stopLoss: Decimal, takeProfit: Decimal)
    ensures BracketOk(side, entry, stopLoss, takeProfit) <==> Brackets(side, entry, stopLoss, takeProfit)
  {
    hide Val, Cmp;
    CmpIsExact(stopLoss, entry);
    CmpIsExact(takeProfit, entry);
  }

  function ParsePlan(tokens: seq<string>): Result<string>
    requires |tokens| == 11 || |tokens| == 13
  {
    if |tokens| == 11 then Ok("")
    else if Lower(tokens[11]) != "plan" then Err("Optional plan tag format: plan <1|2|3>")
    else if TrimSpace(tokens[12]) in {"1", "2", "3"} then Ok(TrimSpace(tokens[12])) else Err("Plan must be 1, 2, or 3")
  }

  function ParseOpen(tokens: seq<string>, max: int): Result<Intent>
  {
    if |tokens| != 11 && |tokens| != 13 then Err("Open order format")
    else
      var side := if Lower(tokens[0]) == "long" then Long else Short;
      var symbol, leverage := NormalizeSymbol(tokens[1]), ParseLeverage(tokens[2], max);
      var entry, stopLoss, takeProfit := ParsePositive(tokens[4]), ParsePositive(tokens[6]), ParsePositive(tokens[8]);
      var size, plan := ParseSize(tokens[9], tokens[10]), ParsePlan(tokens);
      if symbol.Err? then Err(symbol.message)
      else if leverage.Err? then Err(leverage.message)
      else if Lower(tokens[3]) != "entry" then Err("Open order must include entry <price>")
      else if entry.Err? then Err(entry.message)
      else if Lower(tokens[5]) != "sl" then Err("Open order must include sl <price>")
      else if stopLoss.Err? then Err(stopLoss.message)
      else if Lower(tokens[7]) != "tp" then Err("Open order must include exactly one tp <price>")
      else if takeProfit.Err? then Err(takeProfit.message)
      else if size.Err? then Err(size.message)
      else if plan.Err? then Err(plan.message)
      else if !BracketOk(side, entry.value, stopLoss.value, takeProfit.value) then Err("stop loss and take profit must bracket the entry")
      else Ok(Open(OpenIntent(symbol.value, side, leverage.value, entry.value, stopLoss.value, takeProfit.value, size.value, plan.value)))
  }

  function ParsePercent(token: string): Result<Decimal> {
    var value := TrimSpace(token);
    if !HasSuffix(value, "%") then Err("Close percentage must use <percent>%")
    else match ParsePositive(TrimSuffix(value, "%"))
      case Err(e) => Err(e)
      case Ok(d) => if Cmp(d, FromInt(100)) > 0 then Err("Close percentage must be at most 100%") else Ok(d)
  }

  function ParseClose(tokens: seq<string>): Result<Intent> {
    if |tokens| < 2 || |tokens| > 3 then Err("Close format")
    else if Lower(tokens[1]) == "all" then
      if |tokens| != 2 then Err("close all cannot include a percentage") else Ok(Close(CloseAll))
    else
      match NormalizeSymbol(tokens[1])
      case Err(e) => Err(e)
      case Ok(symbol) =>
        if |tokens| == 2 then Ok(Close(CloseSymbol(symbol, FromInt(100), false)))
        else match ParsePercent(tokens[2])
          case Err(e) => Err(e)
          case Ok(percent) => Ok(Close(CloseSymbol(symbol, percent, true)))
  }

  function Parse(text: string, maxLeverage: int): Result<Intent> {
    var tokens := Fields(TrimSpace(text));
    if tokens == [] then Err("Command is empty")
    else if Lower(tokens[0]) in {"long", "short"} then ParseOpen(tokens, MaxLeverage(maxLeverage))
    else if Lower(tokens[0]) == "close" then ParseClose(tokens)
    else if Lower(tokens[0]) in {"be", "move", "trail", "add", "status", "/status", "plan"} then Ok(OtherCommand(tokens))
    else Err("Command not recognized yet")
  }

  // ---------------------------------------------------------------------------
  // Printer
  // ---------------------------------------------------------------------------

  datatype Decision = Decision(
    symbol: string, side: string, leverage: int, entry: string, stopLoss: string, takeProfit: string,
    sizeUsdt: string, qty: string, closePercent: string)

  function OpenWords(d: Decision): seq<string>
    requires d.leverage > 0
  {
    [Lower(TrimSpace(d.side)), d.symbol, DT.Digits(d.leverage) + "x", "entry", TrimSpace(d.entry), "sl", TrimSpace(d.stopLoss),
     "tp", TrimSpace(d.takeProfit)]
    + (if TrimSpace(d.sizeUsdt) != "" then ["size", TrimSpace(d.sizeUsdt) + "usdt"] else ["qty", TrimSpace(d.qty)])
  }

  function OpenDecisionToIntent(d: Decision, maxLeverage: int): Result<Intent> {
    var side := Lower(TrimSpace(d.side));
    if side != "long" && side != "short" then Err("open decision side must be long or short")
    else if d.leverage <= 0 then Err("open decision leverage must be greater than zero")
    else if TrimSpace(d.sizeUsdt) == "" && TrimSpace(d.qty) == "" then Err("open decision must include size_usdt or qty")
    else Parse(Join(OpenWords(d)), maxLeverage)
  }

  function CloseDecisionToIntent(d: Decision): Result<Intent> {
    if Lower(TrimSpace(d.symbol)) == "all" then Parse("close all", 0)
    else if TrimSpace(d.closePercent) == "" then Parse(Join(["close", TrimSpace(d.symbol)]), 0)
    else Parse(Join(["close", TrimSpace(d.symbol), TrimSpace(d.closePercent) + "%"]), 0)
  }

  // ---------------------------------------------------------------------------
  // Decimals as words
  // ---------------------------------------------------------------------------

  predicate Plain(c: char) {
    DT.IsDigit(c) || c == '.' || c == '+' || c == '-'
  }

  lemma {:induction false} SplitDigits(s: string)
    requires forall k :: 0 <= k < |Split(s, '.')| ==> DT.AllDigits(Split(s, '.')[k])
    ensures forall i :: 0 <= i < |s| ==> DT.IsDigit(s[i]) || s[i] == '.'
  {
    if s != "" {
      var all, rest := Split(s, '.'), Split(s[1..], '.');
      forall k | 0 <= k < |rest| ensures DT.AllDigits(rest[k]) {
        if s[0] == '.' {
          assert all[k + 1] == rest[k];
        } else if k > 0 {
          assert all[k] == rest[k];
        } else {
          assert all[0] == [s[0]] + rest[0] && all[0][1..] == rest[0];
        }
      }
      SplitDigits(s[1..]);
      assert s[0] != '.' ==> all[0][0] == s[0];
      forall i | 0 <= i < |s| ensures DT.IsDigit(s[i]) || s[i] == '.' {
        if i > 0 {
          assert s[i] == s[1..][i - 1];
        }
      }
    }
  }

  lemma UnsignedIsPlain(body: string, negative: bool)
    requires DT.ParseUnsigned(body, negative).Ok?
    ensures forall i :: 0 <= i < |body| ==> DT.IsDigit(body[i]) || body[i] == '.'
  {
    var parts := Split(body, '.');
    var fraction := if |parts| == 2 then parts[1] else "";
    var digits := parts[0] + fraction;
    assert digits[..|parts[0]|] == parts[0] && digits[|parts[0]|..] == fraction;
    SplitDigits(body);
  }

  /** A trimmed text that parses as a decimal is a word of digits, a point and a sign. */
  lemma DecimalIsWord(t: string)
    requires DT.Parse(t).Ok? && TrimSpace(t) == t
    ensures IsWord(t) && forall i :: 0 <= i < |t| ==> Plain(t[i])
  {
    hide TrimSpace, DT.ParseUnsigned;
    var body := if t[0] == '+' || t[0] == '-' then t[1..] else t;
    UnsignedIsPlain(body, t[0] == '-');
    forall i | 0 <= i < |t| ensures Plain(t[i]) {
      if i > 0 {
        assert t[i] == body[if body == t then i else i - 1];
      }
    }
  }

  lemma PlainIsLower(t: string, suffix: string)
    requires (forall i :: 0 <= i < |t| ==> Plain(t[i])) && Lower(suffix) == suffix
    ensures Lower(t + suffix) == t + suffix
  {
    forall i | 0 <= i < |t + suffix| ensures Lower(t + suffix)[i] == (t + suffix)[i] {
      if i >= |t| {
        assert Lower(suffix)[i - |t|] == suffix[i - |t|];
      }
    }
  }

  lemma WordTrims(s: string)
    requires IsWord(s)
    ensures TrimSpace(s) == s
  {
    TrimNothing(s);
  }

  lemma DigitsAreWord(n: nat)
    ensures IsWord(DT.Digits(n) + "x") && Lower(DT.Digits(n) + "x") == DT.Digits(n) + "x"
    ensures Atoi(DT.Digits(n)) == if n <= MAX_INT then Ok(n) else Err("value out of range")
  {
    hide DT.Digits, DT.DigitsValue;
    DT.DigitsRoundTrip(n);
    var s := DT.Digits(n);
    assert !DT.IsDigit('+') && !DT.IsDigit('-');
    PlainIsLower(s, "x");
  }

  lemma LeverageRoundTrip(n: nat, max: int)
    requires n > 0
    ensures ParseLeverage(DT.Digits(n) + "x", max) == Ok(n) <==> n <= max && n <= MAX_INT
    ensures ParseLeverage(DT.Digits(n) + "x", max).Ok? <==> n <= max && n <= MAX_INT
  {
    hide DT.Digits, Atoi, TrimSpace, Lower;
    DigitsAreWord(n);
    var token := DT.Digits(n) + "x";
    WordTrims(token);
    assert token[..|token| - 1] == DT.Digits(n) && token[|token| - 1..] == "x";
  }

  lemma UsdtRoundTrip(t: string)
    requires TrimSpace(t) == t && IsWord(t)
    ensures DT.Parse(t).Ok? && IsPositive(DT.Parse(t).value) ==> ParseSize("size", t + "usdt") == Ok(Usdt(DT.Parse(t).value))
  {
    if DT.Parse(t).Ok? {
      hide DT.Parse, TrimSpace, Lower;
      DecimalIsWord(t);
      SmallWords();
      var token := t + "usdt";
      PlainIsLower(t, "usdt");
      WordTrims(token);
      assert token[..|token| - 4] == t && token[|token| - 4..] == "usdt";
    }
  }

  lemma SmallWords()
    ensures Lower("usdt") == "usdt" && Lower("size") == "size" && Lower("qty") == "qty" && Lower("entry") == "entry"
    ensures Lower("sl") == "sl" && Lower("tp") == "tp" && Lower("close") == "close"
    ensures Lower("long") == "long" && Lower("short") == "short"
  {}

  // ---------------------------------------------------------------------------
  // Round trips
  // ---------------------------------------------------------------------------

  predicate Positive(t: string) {
    DT.Parse(t).Ok? && IsPositive(DT.Parse(t).value)
  }

  /** A decision an open command can carry: a side, a symbol, a leverage within the cap, positive decimals
      that bracket the entry, and a size. */
  ghost predicate Printable(d: Decision, maxLeverage: int) {
    var side, entry, stopLoss, takeProfit := Lower(TrimSpace(d.side)), TrimSpace(d.entry), TrimSpace(d.stopLoss), TrimSpace(d.takeProfit);
    && side in {"long", "short"} && IsWord(TrimSpace(d.symbol)) && NormalizeSymbol(d.symbol).Ok?
    && 0 < d.leverage <= MaxLeverage(maxLeverage) && d.leverage <= MAX_INT
    && Positive(entry) && Positive(stopLoss) && Positive(takeProfit)
    && Brackets(if side == "long" then Long else Short, DT.Parse(entry).value, DT.Parse(stopLoss).value, DT.Parse(takeProfit).value)
    && Positive(TrimSpace(if TrimSpace(d.sizeUsdt) != "" then d.sizeUsdt else d.qty))
  }

  /** The intent with exactly the decision's values. */
  function Carried(d: Decision): OpenIntent
    requires Positive(TrimSpace(d.entry)) && Positive(TrimSpace(d.stopLoss)) && Positive(TrimSpace(d.takeProfit))
    requires Positive(TrimSpace(if TrimSpace(d.sizeUsdt) != "" then d.sizeUsdt else d.qty)) && NormalizeSymbol(d.symbol).Ok?
  {
    OpenIntent(
      NormalizeSymbol(d.symbol).value, if Lower(TrimSpace(d.side)) == "long" then Long else Short, d.leverage,
      DT.Parse(TrimSpace(d.entry)).value, DT.Parse(TrimSpace(d.stopLoss)).value, DT.Parse(TrimSpace(d.takeProfit)).value,
      if TrimSpace(d.sizeUsdt) != "" then Usdt(DT.Parse(TrimSpace(d.sizeUsdt)).value) else Qty(DT.Parse(TrimSpace(d.qty)).value), "")
  }

  lemma TrimmedDecimal(s: string)
    requires Positive(TrimSpace(s))
    ensures IsWord(TrimSpace(s)) && TrimSpace(s) != "" && TrimSpace(TrimSpace(s)) == TrimSpace(s)
    ensures ParsePositive(TrimSpace(s)) == Ok(DT.Parse(TrimSpace(s)).value)
  {
    TrimIsIdempotent(s);
    hide TrimSpace, DT.Parse;
    DecimalIsWord(TrimSpace(s));
  }

  /** The text of the size, in the order in which the printer looks for it. */
  function SizeText(d: Decision): string {
    TrimSpace(if TrimSpace(d.sizeUsdt) != "" then d.sizeUsdt else d.qty)
  }

  /** The printed words before the size, if each field is one. */
  function Head(d: Decision): seq<string>
    requires d.leverage > 0
  {
    [Lower(TrimSpace(d.side)), TrimSpace(d.symbol), DT.Digits(d.leverage) + "x", "entry", TrimSpace(d.entry), "sl",
     TrimSpace(d.stopLoss), "tp", TrimSpace(d.takeProfit), if TrimSpace(d.sizeUsdt) != "" then "size" else "qty"]
  }

  /** Every printed field before the size is one word. */
  predicate HeadIsWords(d: Decision) {
    && d.leverage > 0 && Lower(TrimSpace(d.side)) in {"long", "short"} && IsWord(TrimSpace(d.symbol))
    && IsWord(TrimSpace(d.entry)) && IsWord(TrimSpace(d.stopLoss)) && IsWord(TrimSpace(d.takeProfit))
  }

  lemma WordField(w: string)
    requires IsWord(w)
    ensures Fields(w) == [w]
  {
    FieldsOfJoin([w]);
  }

  lemma HeadFields(d: Decision, i: nat)
    requires HeadIsWords(d) && i < 10
    ensures |OpenWords(d)| == 11 && Fields(OpenWords(d)[i]) == [Head(d)[i]]
  {
    hide TrimSpace, DT.Digits, Lower, Fields;
    if i == 1 {
      OneField(d.symbol);
    } else {
      DigitsAreWord(d.leverage);
      SmallWordsAreWords();
      hide IsWord;
      WordField(Head(d)[i]);
    }
  }

  /** What the parser sees of a printed decision: the head, then the words of the size. */
  lemma TokensOf(d: Decision, maxLeverage: int)
    requires HeadIsWords(d) && SizeText(d) != ""
    ensures |OpenWords(d)| == 11
    ensures OpenDecisionToIntent(d, maxLeverage) == ParseOpen(Head(d) + Fields(OpenWords(d)[10]), MaxLeverage(maxLeverage))
  {
    hide TrimSpace, DT.Digits, Lower, Fields, Join, IsWord, ParseOpen, Words;
    var texts := OpenWords(d);
    forall i | 0 <= i < 10 ensures Fields(texts[i]) == [Head(d)[i]] {
      HeadFields(d, i);
    }
    FieldsOfTexts(texts);
    FieldsTrim(Join(texts));
    WordsAt(texts, 10);
    WordsOfWords(texts[..10], Head(d));
    assert Words(texts[11..]) == [] by { NoWords(texts[11..]); }
    LowerTwice(TrimSpace(d.side));
    assert Fields(TrimSpace(Join(texts))) == Head(d) + Fields(texts[10]);
    HeadStarts(d, Fields(texts[10]));
  }

  lemma NoWords(texts: seq<string>)
    requires texts == []
    ensures Words(texts) == []
  {}

  lemma HeadStarts(d: Decision, rest: seq<string>)
    requires d.leverage > 0
    ensures (Head(d) + rest)[0] == Lower(TrimSpace(d.side)) && Head(d) + rest != []
  {}

  lemma SmallWordsAreWords()
    ensures IsWord("entry") && IsWord("sl") && IsWord("tp") && IsWord("size") && IsWord("qty") && IsWord("close")
    ensures IsWord("long") && IsWord("short")
  {}

  lemma SuffixedIsWord(t: string)
    ensures IsWord(t) ==> IsWord(t + "usdt")
    ensures IsWord(t) ==> IsWord(t + "%")
  {}

  lemma SizeCarried(d: Decision)
    requires Positive(TrimSpace(if TrimSpace(d.sizeUsdt) != "" then d.sizeUsdt else d.qty))
    ensures TrimSpace(d.sizeUsdt) != "" ==>
              ParseSize("size", TrimSpace(d.sizeUsdt) + "usdt") == Ok(Usdt(DT.Parse(TrimSpace(d.sizeUsdt)).value))
    ensures TrimSpace(d.sizeUsdt) == "" ==> ParseSize("qty", TrimSpace(d.qty)) == Ok(Qty(DT.Parse(TrimSpace(d.qty)).value))
  {
    hide TrimSpace, DT.Parse, Lower;
    TrimmedDecimal(if TrimSpace(d.sizeUsdt) != "" then d.sizeUsdt else d.qty);
    SmallWords();
    if TrimSpace(d.sizeUsdt) != "" {
      UsdtRoundTrip(TrimSpace(d.sizeUsdt));
    }
  }

  lemma PrintedSize(d: Decision)
    requires IsWord(SizeText(d)) && d.leverage > 0
    ensures Fields(OpenWords(d)[10]) == [OpenWords(d)[10]]
    ensures OpenWords(d)[10] == if TrimSpace(d.sizeUsdt) != "" then TrimSpace(d.sizeUsdt) + "usdt" else TrimSpace(d.qty)
  {
    hide TrimSpace, DT.Digits, Lower, Fields;
    SuffixedIsWord(SizeText(d));
    WordField(OpenWords(d)[10]);
  }

  lemma PrintableHead(d: Decision, maxLeverage: int)
    requires Printable(d, maxLeverage)
    ensures HeadIsWords(d) && IsWord(SizeText(d))
  {
    hide TrimSpace, DT.Parse, NormalizeSymbol, Lower, IsWord;
    TrimmedDecimal(d.entry);
    TrimmedDecimal(d.stopLoss);
    TrimmedDecimal(d.takeProfit);
    TrimmedDecimal(if TrimSpace(d.sizeUsdt) != "" then d.sizeUsdt else d.qty);
  }

  /** Blanks around a symbol do not matter. */
  lemma SymbolTrims(symbol: string)
    ensures NormalizeSymbol(TrimSpace(symbol)) == NormalizeSymbol(symbol)
  {
    TrimIsIdempotent(symbol);
  }

  /** What the parser makes of a printable head followed by a size and perhaps a plan. */
  lemma ParsesHead(d: Decision, maxLeverage: int, rest: seq<string>)
    requires Printable(d, maxLeverage) && (|rest| == 1 || |rest| == 3)
    requires ParseSize(if TrimSpace(d.sizeUsdt) != "" then "size" else "qty", rest[0]) == Ok(Carried(d).size)
    ensures var tokens := Head(d) + rest;
            ParsePlan(tokens).Ok? ==> ParseOpen(tokens, MaxLeverage(maxLeverage)) == Ok(Open(Carried(d).(plan := ParsePlan(tokens).value)))
  {
    hide TrimSpace, DT.Parse, NormalizeSymbol, DT.Digits, Lower, ParseSize, ParseLeverage, ParsePositive, ParsePlan, BracketOk,
         Brackets;
    var o := Carried(d);
    BracketMeaning(o.side, o.entry, o.stopLoss, o.takeProfit);
    SmallWords();
    LowerTwice(TrimSpace(d.side));
    SymbolTrims(d.symbol);
    LeverageRoundTrip(d.leverage, MaxLeverage(maxLeverage));
    TrimmedDecimal(d.entry);
    TrimmedDecimal(d.stopLoss);
    TrimmedDecimal(d.takeProfit);
  }

  /** The command printed for a decision parses back to an open intent with exactly its values. */
  lemma OpenRoundTrip(d: Decision, maxLeverage: int)
    requires Printable(d, maxLeverage)
    ensures OpenDecisionToIntent(d, maxLeverage) == Ok(Open(Carried(d)))
  {
    hide TrimSpace, DT.Parse, NormalizeSymbol, DT.Digits, Lower, ParseSize, ParseOpen, Fields, IsWord, Brackets, OpenWords;
    PrintableHead(d, maxLeverage);
    NotBlank(SizeText(d));
    TokensOf(d, maxLeverage);
    PrintedSize(d);
    SizeCarried(d);
    var rest := [OpenWords(d)[10]];
    ParsesHead(d, maxLeverage, rest);
    NoPlan(Head(d) + rest);
  }

  lemma NotBlank(s: string)
    requires IsWord(s)
    ensures s != ""
  {}

  lemma NoPlan(tokens: seq<string>)
    ensures |tokens| == 11 ==> ParsePlan(tokens) == Ok("")
  {}

  /** A positive decimal in its printed form may stand in any price or size field, and is carried as itself. */
  lemma PrintedDecimalIsCarried(d: Decimal)
    requires IsPositive(d)
    ensures Positive(TrimSpace(DT.String(d))) && DT.Parse(TrimSpace(DT.String(d))).value == Normal(d)
  {
    TrimIsIdempotent(DT.String(d));
    hide TrimSpace, DT.String, Val;
    DT.StringRoundTrip(d);
    NormalKeepsValue(d);
    CmpIsExact(d, ZERO);
    CmpIsExact(Normal(d), ZERO);
  }

  lemma LowerTwice(s: string)
    ensures Lower(Lower(s)) == Lower(s)
  {}

  /** What any accepted open command satisfies. */
  ghost predicate Tradable(o: OpenIntent, max: int) {
    && 0 < o.leverage <= max
    && Val(o.entry) > 0.0 && Val(o.stopLoss) > 0.0 && Val(o.takeProfit) > 0.0
    && Brackets(o.side, o.entry, o.stopLoss, o.takeProfit)
    && (o.size.Usdt? || o.size.Qty?) && Val(o.size.amount) > 0.0
    && IsSymbolText(o.symbol) && |o.symbol| > 4 && HasSuffix(o.symbol, "USDT")
    && o.plan in {"", "1", "2", "3"}
  }

  /** Every accepted open intent obeys the rules, whatever text it came from. */
  lemma AcceptedIsTradable(text: string, maxLeverage: int)
    requires Parse(text, maxLeverage).Ok? && Parse(text, maxLeverage).value.Open?
    ensures Tradable(Parse(text, maxLeverage).value.order, MaxLeverage(maxLeverage))
  {
    hide TrimSpace, DT.Parse, Lower, Fields, NormalizeSymbol, ParseSize, ParseLeverage, ParsePositive, IsSymbolText, Brackets, ParseOpen,
         Val;
    var tokens := Fields(TrimSpace(text));
    assert Parse(text, maxLeverage) == ParseOpen(tokens, MaxLeverage(maxLeverage));
    OpenExactly(tokens, MaxLeverage(maxLeverage));
    SymbolIsNormal(tokens[1]);
    LeverageIsCapped(tokens[2], MaxLeverage(maxLeverage));
    PositiveIsPositive(tokens[4]);
    PositiveIsPositive(tokens[6]);
    PositiveIsPositive(tokens[8]);
    SizeIsPositive(tokens[9], tokens[10]);
  }

  /** A command whose words are all in order, whatever its prices. */
  predicate InOrder(tokens: seq<string>, max: int) {
    && (|tokens| == 11 || (|tokens| == 13 && Lower(tokens[11]) == "plan" && TrimSpace(tokens[12]) in {"1", "2", "3"}))
    && Lower(tokens[3]) == "entry" && Lower(tokens[5]) == "sl" && Lower(tokens[7]) == "tp"
    && NormalizeSymbol(tokens[1]).Ok? && ParseLeverage(tokens[2], max).Ok? && ParseSize(tokens[9], tokens[10]).Ok?
    && ParsePositive(tokens[4]).Ok? && ParsePositive(tokens[6]).Ok? && ParsePositive(tokens[8]).Ok?
  }

  /** Such a command is refused exactly when its stop and target do not bracket the entry on their sides; accepted,
      it has the values of its words. */
  lemma OpenExactly(tokens: seq<string>, max: int)
    ensures ParseOpen(tokens, max).Ok? <==>
              InOrder(tokens, max)
              && Brackets(if Lower(tokens[0]) == "long" then Long else Short, ParsePositive(tokens[4]).value,
                          ParsePositive(tokens[6]).value, ParsePositive(tokens[8]).value)
    ensures ParseOpen(tokens, max).Ok? ==>
              ParseOpen(tokens, max).value
              == Open(OpenIntent(NormalizeSymbol(tokens[1]).value, if Lower(tokens[0]) == "long" then Long else Short,
                                 ParseLeverage(tokens[2], max).value, ParsePositive(tokens[4]).value, ParsePositive(tokens[6]).value,
                                 ParsePositive(tokens[8]).value, ParseSize(tokens[9], tokens[10]).value,
                                 if |tokens| == 13 then TrimSpace(tokens[12]) else ""))
  {
    hide TrimSpace, Lower, NormalizeSymbol, ParseSize, ParseLeverage, ParsePositive, BracketOk, Brackets;
    if |tokens| >= 11 && ParsePositive(tokens[4]).Ok? && ParsePositive(tokens[6]).Ok? && ParsePositive(tokens[8]).Ok? {
      BracketMeaning(if Lower(tokens[0]) == "long" then Long else Short, ParsePositive(tokens[4]).value, ParsePositive(tokens[6]).value,
                     ParsePositive(tokens[8]).value);
    }
  }

  lemma LeverageIsCapped(token: string, max: int)
    ensures ParseLeverage(token, max).Ok? ==> 0 < ParseLeverage(token, max).value <= max
  {}

  lemma PositiveIsPositive(token: string)
    ensures ParsePositive(token).Ok? ==> Val(ParsePositive(token).value) > 0.0
  {
    hide Val, DT.Parse;
    if ParsePositive(token).Ok? {
      CmpIsExact(ParsePositive(token).value, ZERO);
    }
  }

  lemma SizeIsPositive(kind: string, amount: string)
    ensures ParseSize(kind, amount).Ok? ==>
              var s := ParseSize(kind, amount).value; (s.Usdt? || s.Qty?) && Val(s.amount) > 0.0
  {
    hide Val, ParsePositive, TrimSpace, Lower;
    PositiveIsPositive(amount);
    PositiveIsPositive(TrimSuffix(Lower(TrimSpace(amount)), "usdt"));
  }

  lemma SymbolIsNormal(token: string)
    ensures NormalizeSymbol(token).Ok? ==>
              var s := NormalizeSymbol(token).value; IsSymbolText(s) && |s| > 4 && HasSuffix(s, "USDT")
  {
    hide TrimSpace, Upper, WithoutSlashes;
    var symbol := WithoutSlashes(Upper(TrimSpace(token)));
    var full := symbol + "USDT";
    assert full[|full| - 4..] == "USDT" && full[..|full| - 4] == symbol;
  }

  /** A base of letters and digits becomes its upper-case USDT pair, a pair is kept, and USDT itself is refused. */
  lemma BaseSymbol(base: string)
    requires base != "" && forall i :: 0 <= i < |base| ==> DT.IsDigit(base[i]) || 'A' <= base[i] <= 'Z' || 'a' <= base[i] <= 'z'
    ensures IsWord(base) && (NormalizeSymbol(base).Err? <==> Upper(base) == "USDT")
    ensures Upper(base) != "USDT" ==>
              NormalizeSymbol(base) == Ok(if HasSuffix(Upper(base), "USDT") then Upper(base) else Upper(base) + "USDT")
  {
    WordTrims(base);
    NoSlashes(Upper(base));
    var symbol := Upper(base);
    var full := symbol + "USDT";
    assert full[|full| - 4..] == "USDT" && full[..|full| - 4] == symbol;
    assert HasSuffix(symbol, "USDT") ==> symbol == symbol[..|symbol| - 4] + "USDT";
    hide TrimSpace, WithoutSlashes;
  }

  lemma {:induction false} NoSlashes(s: string)
    requires forall i :: 0 <= i < |s| ==> s[i] != '/'
    ensures WithoutSlashes(s) == s
  {
    if s != "" {
      NoSlashes(s[1..]);
    }
  }

  /** An accepted close of a symbol closes more than nothing and no more than all of a tradable symbol. */
  lemma AcceptedCloseIsPartial(text: string, maxLeverage: int)
    requires Parse(text, maxLeverage).Ok? && Parse(text, maxLeverage).value.Close? && Parse(text, maxLeverage).value.close.CloseSymbol?
    ensures var c := Parse(text, maxLeverage).value.close;
            && 0.0 < Val(c.percent) <= 100.0 && (!c.given ==> Val(c.percent) == 100.0)
            && IsSymbolText(c.symbol) && |c.symbol| > 4 && HasSuffix(c.symbol, "USDT")
  {
    hide TrimSpace, Lower, Fields, NormalizeSymbol, ParseOpen, IsSymbolText, Val, ParsePercent, InOrder, Brackets;
    var tokens := Fields(TrimSpace(text));
    OpenExactly(tokens, MaxLeverage(maxLeverage));
    assert Parse(text, maxLeverage) == ParseClose(tokens);
    SymbolIsNormal(tokens[1]);
    HundredIsHundred();
    if |tokens| == 3 {
      PercentIsPartial(tokens[2]);
    }
  }

  lemma PercentIsPartial(token: string)
    ensures ParsePercent(token).Ok? ==> 0.0 < Val(ParsePercent(token).value) <= 100.0
  {
    hide Val, ParsePositive, TrimSpace, Cmp;
    var text := TrimSuffix(TrimSpace(token), "%");
    PositiveIsPositive(text);
    HundredIsHundred();
    if ParsePositive(text).Ok? {
      CmpIsExact(ParsePositive(text).value, FromInt(100));
    }
  }

  lemma HundredIsHundred()
    ensures Val(FromInt(100)) == 100.0
  {
    R.RatioIs(100, 1, 100.0);
  }

  /** A close decision parses back to its symbol and percentage. */
  lemma CloseRoundTrip(d: Decision)
    requires IsWord(TrimSpace(d.symbol)) && Lower(TrimSpace(d.symbol)) != "all" && NormalizeSymbol(TrimSpace(d.symbol)).Ok?
    requires TrimSpace(d.closePercent) == ""
             || (Positive(TrimSpace(d.closePercent)) && Cmp(DT.Parse(TrimSpace(d.closePercent)).value, FromInt(100)) <= 0)
    ensures CloseDecisionToIntent(d) == Ok(Close(CloseSymbol(
              NormalizeSymbol(TrimSpace(d.symbol)).value,
              if TrimSpace(d.closePercent) == "" then FromInt(100) else DT.Parse(TrimSpace(d.closePercent)).value,
              TrimSpace(d.closePercent) != "")))
  {
    hide TrimSpace, DT.Parse, NormalizeSymbol, Lower, Fields, Join, IsWord, ParsePositive, Cmp;
    var percent := TrimSpace(d.closePercent);
    var words := if percent == "" then ["close", TrimSpace(d.symbol)] else ["close", TrimSpace(d.symbol), percent + "%"];
    SmallWords();
    SmallWordsAreWords();
    if percent != "" {
      TrimmedDecimal(d.closePercent);
      SuffixedIsWord(percent);
      WordTrims(percent + "%");
      assert (percent + "%")[..|percent|] == percent && (percent + "%")[|percent|..] == "%";
    }
    FieldsOfJoin(words);
    JoinEnds(words);
    TrimNothing(Join(words));
    assert Parse(Join(words), 0) == ParseClose(words);
  }
}
