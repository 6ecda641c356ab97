/** Which open decisions are accepted, and what becomes of each. */
module Decisions {
  import opened Decimals
  import DT = DecimalText
  import opened Sizing
  import R = Rationals
  import opened Text
  import opened Commands

  // ---------------------------------------------------------------------------
  // Keywords and their places
  // ---------------------------------------------------------------------------

  predicate Keyword(k: string) {
    k == "entry" || k == "sl" || k == "tp" || k == "size" || k == "qty"
  }

  function Place(k: string): nat {
    if k == "entry" then 3 else if k == "sl" then 5 else if k == "tp" then 7 else 9
  }

  lemma KeywordIsLower(k: string)
    requires Keyword(k)
    ensures Lower(k) == k && IsWord(k) && k != "plan" && TrimSpace(k) == k && TrimSpace(k) !in {"1", "2", "3"}
    ensures !Plain(k[0]) && !HasSuffix(k, "x") && !HasSuffix(k, "usdt")
  {
    SmallWords();
    SmallWordsAreWords();
    WordTrims(k);
  }

  lemma KeywordIsNoValue(k: string, max: int, kind: string)
    requires Keyword(k)
    ensures ParsePositive(k).Err? && ParseLeverage(k, max).Err? && ParseSize(kind, k).Err?
  {
    hide DT.Parse, TrimSpace, Lower, Keyword;
    KeywordIsLower(k);
    if DT.Parse(k).Ok? {
      DecimalIsWord(k);
    }
  }

  /** A keyword behind the symbol stands at its own place in every accepted command. */
  lemma KeywordPlace(tokens: seq<string>, max: int, i: nat)
    requires ParseOpen(tokens, max).Ok?
    requires 2 <= i < |tokens| && Keyword(tokens[i])
    ensures i == Place(tokens[i])
  {
    hide TrimSpace, Lower, NormalizeSymbol, ParseLeverage, ParsePositive, ParseSize, ParsePlan, BracketOk;
    KeywordIsNoValue(tokens[i], max, tokens[9]);
    KeywordIsLower(tokens[i]);
    SizeKind(tokens[9], tokens[10]);
    PlanWords(tokens);
  }

  lemma SizeKind(kind: string, amount: string)
    ensures ParseSize(kind, amount).Ok? ==> Lower(kind) == "size" || Lower(kind) == "qty"
  {}

  lemma PlanWords(tokens: seq<string>)
    requires |tokens| == 11 || |tokens| == 13
    ensures |tokens| == 13 && ParsePlan(tokens).Ok? ==>
              Lower(tokens[11]) == "plan" && TrimSpace(tokens[12]) in {"1", "2", "3"} && ParsePlan(tokens).value == TrimSpace(tokens[12])
  {}

  // ---------------------------------------------------------------------------
  // What acceptance says of each field
  // ---------------------------------------------------------------------------

  function Count(texts: seq<string>, i: nat): nat
    requires i <= |texts|
  {
    |Words(texts[..i])|
  }

  lemma OneWordAt(texts: seq<string>, i: nat, w: string)
    requires i < |texts| && IsWord(w) && texts[i] == w
    ensures Count(texts, i + 1) == Count(texts, i) + 1 && Count(texts, i) < |Words(texts)| && Words(texts)[Count(texts, i)] == w
  {
    hide Words, Fields;
    WordField(w);
    WordsAt(texts, i);
  }

  lemma FieldAt(texts: seq<string>, i: nat)
    requires i < |texts|
    ensures Count(texts, i + 1) == Count(texts, i) + |Fields(texts[i])|
  {
    hide Words, Fields;
    WordsAt(texts, i);
  }

  /** Four keywords fix how many words each field before the size has. */
  lemma KeywordsFixFields(texts: seq<string>, max: int)
    requires |texts| == 11 && ParseOpen(Words(texts), max).Ok?
    requires texts[0] in {"long", "short"} && IsWord(texts[2]) && texts[3] == "entry" && texts[5] == "sl" && texts[7] == "tp"
    requires texts[9] == "size" || texts[9] == "qty"
    ensures |Fields(texts[1])| == 1 && |Fields(texts[4])| == 1 && |Fields(texts[6])| == 1 && |Fields(texts[8])| == 1
  {
    hide Words, Fields, ParseOpen, Lower, Count, IsWord;
    SmallWordsAreWords();
    CountNone(texts);
    OneWordAt(texts, 0, texts[0]);
    FieldAt(texts, 1);
    OneWordAt(texts, 2, texts[2]);
    OneWordAt(texts, 3, "entry");
    KeywordPlace(Words(texts), max, Count(texts, 3));
    FieldAt(texts, 4);
    OneWordAt(texts, 5, "sl");
    KeywordPlace(Words(texts), max, Count(texts, 5));
    FieldAt(texts, 6);
    OneWordAt(texts, 7, "tp");
    KeywordPlace(Words(texts), max, Count(texts, 7));
    FieldAt(texts, 8);
    OneWordAt(texts, 9, texts[9]);
    KeywordPlace(Words(texts), max, Count(texts, 9));
  }

  lemma CountNone(texts: seq<string>)
    ensures Count(texts, 0) == 0
  {}

  lemma TrimmedField(s: string)
    requires |Fields(TrimSpace(s))| == 1
    ensures IsWord(TrimSpace(s))
  {
    hide TrimSpace, Fields;
    OneField(TrimSpace(s));
    TrimIsIdempotent(s);
  }

  /** Every field of an accepted decision that is printed before the size is one word. */
  lemma AcceptedHead(d: Decision, maxLeverage: int)
    requires OpenDecisionToIntent(d, maxLeverage).Ok?
    ensures HeadIsWords(d) && SizeText(d) != ""
  {
    hide TrimSpace, DT.Digits, Lower, Fields, Join, IsWord, ParseOpen, Words;
    var texts := OpenWords(d);
    var side := Lower(TrimSpace(d.side));
    SmallWordsAreWords();
    DigitsAreWord(d.leverage);
    LowerTwice(TrimSpace(d.side));
    TrimIsIdempotent(if TrimSpace(d.sizeUsdt) != "" then d.sizeUsdt else d.qty);
    FieldsOfTexts(texts);
    FieldsTrim(Join(texts));
    CountNone(texts);
    OneWordAt(texts, 0, side);
    assert Words(texts)[0] == side;
    KeywordsFixFields(texts, MaxLeverage(maxLeverage));
    OneField(d.symbol);
    TrimmedField(d.entry);
    TrimmedField(d.stopLoss);
    TrimmedField(d.takeProfit);
  }

  /** What an accepted head and size say about the decision. */
  lemma AcceptedValues(d: Decision, max: int, rest: seq<string>)
    requires HeadIsWords(d) && ParseOpen(Head(d) + rest, max).Ok?
    ensures NormalizeSymbol(d.symbol).Ok? && d.leverage <= max && d.leverage <= MAX_INT
    ensures Positive(TrimSpace(d.entry)) && Positive(TrimSpace(d.stopLoss)) && Positive(TrimSpace(d.takeProfit))
    ensures Brackets(if Lower(TrimSpace(d.side)) == "long" then Long else Short, DT.Parse(TrimSpace(d.entry)).value,
                     DT.Parse(TrimSpace(d.stopLoss)).value, DT.Parse(TrimSpace(d.takeProfit)).value)
    ensures |rest| == 1 || |rest| == 3
    ensures ParseSize(if TrimSpace(d.sizeUsdt) != "" then "size" else "qty", rest[0]).Ok?
    ensures |rest| == 3 ==> Lower(rest[1]) == "plan" && TrimSpace(rest[2]) in {"1", "2", "3"}
  {
    hide TrimSpace, DT.Parse, NormalizeSymbol, DT.Digits, Lower, ParseSize, ParseLeverage, ParseOpen, Brackets, IsWord, IsPositive;
    LowerTwice(TrimSpace(d.side));
    SymbolTrims(d.symbol);
    LeverageRoundTrip(d.leverage, max);
    OpenExactly(Head(d) + rest, max);
  }

  // ---------------------------------------------------------------------------
  // The size
  // ---------------------------------------------------------------------------

  /** Lower case of a decimal's text is that text. */
  lemma LowerIsPlain(t: string)
    requires DT.Parse(Lower(t)).Ok? && TrimSpace(Lower(t)) == Lower(t)
    ensures Lower(t) == t
  {
    hide TrimSpace, DT.Parse;
    DecimalIsWord(Lower(t));
    forall i | 0 <= i < |t| ensures Lower(t)[i] == t[i] {
      assert Plain(Lower(t)[i]);
    }
  }

  lemma LowerWord(t: string, suffix: string)
    requires IsWord(t)
    ensures IsWord(Lower(t)) && Lower(t + suffix) == Lower(t) + Lower(suffix)
  {}

  lemma UsdtAccepted(t: string)
    requires IsWord(t) && ParseSize("size", t + "usdt").Ok?
    ensures Positive(t)
  {
    hide DT.Parse, TrimSpace, Lower;
    SmallWords();
    SuffixedIsWord(t);
    WordTrims(t + "usdt");
    LowerWord(t, "usdt");
    WordTrims(Lower(t));
    var token := Lower(t) + "usdt";
    assert token[..|token| - 4] == Lower(t) && token[|token| - 4..] == "usdt";
    LowerIsPlain(t);
  }

  lemma QtyAccepted(t: string)
    requires ParseSize("qty", t).Ok?
    ensures Positive(t)
  {
    hide DT.Parse, Lower;
    SmallWords();
  }

  lemma PrefixWord(t: string, suffix: string)
    requires t != "" && IsWord(t + suffix)
    ensures IsWord(t)
  {
    forall i | 0 <= i < |t| ensures !IsSpace(t[i]) {
      assert (t + suffix)[i] == t[i];
    }
  }

  /** A size printed as one word is one word. */
  lemma SizeIsWord(d: Decision)
    requires d.leverage > 0 && SizeText(d) != "" && |Fields(OpenWords(d)[10])| == 1
    ensures IsWord(SizeText(d)) && Fields(OpenWords(d)[10]) == [OpenWords(d)[10]]
  {
    hide TrimSpace, DT.Digits, Lower, Fields, IsWord;
    var w := OpenWords(d)[10];
    SizeEnds(d);
    TrimNothing(w);
    OneField(w);
    PrefixWord(SizeText(d), if TrimSpace(d.sizeUsdt) != "" then "usdt" else "");
    assert SizeText(d) + "" == SizeText(d);
  }

  /** The printed size, with no blank at either end. */
  lemma SizeEnds(d: Decision)
    requires d.leverage > 0 && SizeText(d) != ""
    ensures var w := OpenWords(d)[10];
            && w == SizeText(d) + (if TrimSpace(d.sizeUsdt) != "" then "usdt" else "")
            && w != "" && !IsSpace(w[0]) && !IsSpace(w[|w| - 1]) && (TrimSpace(d.sizeUsdt) != "" ==> w[|w| - 1] == 't')
  {
    hide TrimSpace, DT.Digits, Lower;
    TrimEnds(if TrimSpace(d.sizeUsdt) != "" then d.sizeUsdt else d.qty);
    assert TrimSpace(d.sizeUsdt) == "" ==> TrimSpace(d.qty) + "" == TrimSpace(d.qty);
  }

  lemma UsdtBringsNoPlan(d: Decision)
    requires d.leverage > 0 && SizeText(d) != "" && TrimSpace(d.sizeUsdt) != ""
    ensures var f := Fields(OpenWords(d)[10]); f != [] && TrimSpace(f[|f| - 1]) !in {"1", "2", "3"}
  {
    hide TrimSpace, SizeText, DT.Digits, Lower, Fields;
    SizeEnds(d);
    var w := OpenWords(d)[10];
    LastField(w);
    FieldsAreWords(w);
    var f := Fields(w);
    WordTrims(f[|f| - 1]);
  }

  // ---------------------------------------------------------------------------
  // Accepted decisions
  // ---------------------------------------------------------------------------

  /** A printable decision but for a quantity of three words: an amount, the word plan, and its number. */
  ghost predicate BringsPlan(d: Decision, maxLeverage: int) {
    var words := Fields(d.qty);
    && TrimSpace(d.sizeUsdt) == "" && |words| == 3 && Lower(words[1]) == "plan" && words[2] in {"1", "2", "3"}
    && Printable(d.(qty := words[0]), maxLeverage)
  }

  lemma QtyWords(d: Decision)
    requires d.leverage > 0 && TrimSpace(d.sizeUsdt) == ""
    ensures Fields(OpenWords(d)[10]) == Fields(d.qty) && (|Fields(d.qty)| == 3 ==> SizeText(d) != "" && !IsWord(SizeText(d)))
    ensures forall i :: 0 <= i < |Fields(d.qty)| ==> IsWord(Fields(d.qty)[i]) && TrimSpace(Fields(d.qty)[i]) == Fields(d.qty)[i]
  {
    hide TrimSpace, DT.Digits, Lower, IsWord;
    FieldsTrim(d.qty);
    OneField(d.qty);
    FieldsAreWords(d.qty);
    forall i | 0 <= i < |Fields(d.qty)| ensures TrimSpace(Fields(d.qty)[i]) == Fields(d.qty)[i] {
      WordTrims(Fields(d.qty)[i]);
    }
  }

  /** A quantity followed by plan words is accepted as that quantity, with a plan no field of the decision holds. */
  lemma QuantityBringsPlan(d: Decision, maxLeverage: int)
    requires BringsPlan(d, maxLeverage)
    ensures var words := Fields(d.qty);
            OpenDecisionToIntent(d, maxLeverage) == Ok(Open(Carried(d.(qty := words[0])).(plan := words[2])))
  {
    hide TrimSpace, DT.Parse, NormalizeSymbol, DT.Digits, Lower, ParseSize, ParseOpen, Fields, IsWord, Brackets, ParsePlan, OpenWords;
    var words := Fields(d.qty);
    var e := d.(qty := words[0]);
    PrintableHead(e, maxLeverage);
    QtyWords(d);
    TokensOf(d, maxLeverage);
    SizeCarried(e);
    ParsesHead(e, maxLeverage, words);
    PlanOf(Head(d), words);
  }

  lemma PlanOf(head: seq<string>, words: seq<string>)
    requires |head| == 10 && |words| == 3 && Lower(words[1]) == "plan" && TrimSpace(words[2]) == words[2] && words[2] in {"1", "2", "3"}
    ensures ParsePlan(head + words) == Ok(words[2])
  {
    hide Lower, TrimSpace;
    assert (head + words)[11] == words[1] && (head + words)[12] == words[2];
  }

  lemma AcceptedIsOne(d: Decision, maxLeverage: int)
    requires OpenDecisionToIntent(d, maxLeverage).Ok?
    ensures Printable(d, maxLeverage) || BringsPlan(d, maxLeverage)
  {
    hide TrimSpace, DT.Parse, NormalizeSymbol, DT.Digits, Lower, ParseSize, ParseOpen, Fields, IsWord, Brackets, OpenWords, Head, Positive;
    AcceptedHead(d, maxLeverage);
    TokensOf(d, maxLeverage);
    var rest := Fields(OpenWords(d)[10]);
    AcceptedValues(d, MaxLeverage(maxLeverage), rest);
    if |rest| == 1 {
      SizeIsWord(d);
      SizeEnds(d);
      if TrimSpace(d.sizeUsdt) != "" {
        UsdtAccepted(SizeText(d));
      } else {
        assert SizeText(d) + "" == SizeText(d);
        QtyAccepted(SizeText(d));
      }
    } else if TrimSpace(d.sizeUsdt) != "" {
      UsdtBringsNoPlan(d);
    } else {
      QtyWords(d);
      QtyAccepted(rest[0]);
    }
  }

  /** Which open decisions are accepted: the printable ones, and those whose quantity brings a plan. */
  lemma AcceptedExactly(d: Decision, maxLeverage: int)
    ensures OpenDecisionToIntent(d, maxLeverage).Ok? <==> Printable(d, maxLeverage) || BringsPlan(d, maxLeverage)
  {
    hide OpenDecisionToIntent, Printable, BringsPlan;
    if OpenDecisionToIntent(d, maxLeverage).Ok? {
      AcceptedIsOne(d, maxLeverage);
    } else if Printable(d, maxLeverage) {
      OpenRoundTrip(d, maxLeverage);
    } else if BringsPlan(d, maxLeverage) {
      QuantityBringsPlan(d, maxLeverage);
    }
  }

  /** The order has the decision's own values, and no plan. */
  predicate AsItIs(d: Decision, o: OpenIntent) {
    && NormalizeSymbol(d.symbol) == Ok(o.symbol) && o.side == (if Lower(TrimSpace(d.side)) == "long" then Long else Short)
    && o.leverage == d.leverage && DT.Parse(d.entry) == Ok(o.entry) && DT.Parse(d.stopLoss) == Ok(o.stopLoss)
    && DT.Parse(d.takeProfit) == Ok(o.takeProfit)
    && (if TrimSpace(d.sizeUsdt) != "" then o.size.Usdt? && DT.Parse(d.sizeUsdt) == Ok(o.size.amount)
        else o.size.Qty? && DT.Parse(d.qty) == Ok(o.size.amount))
    && o.plan == ""
  }

  lemma ParseTrims(s: string)
    ensures DT.Parse(TrimSpace(s)) == DT.Parse(s)
  {
    TrimIsIdempotent(s);
  }

  lemma CarriedAsItIs(d: Decision, maxLeverage: int)
    requires Printable(d, maxLeverage)
    ensures AsItIs(d, Carried(d))
  {
    hide TrimSpace, DT.Parse, NormalizeSymbol, Lower, IsWord, Brackets, IsPositive;
    ParseTrims(d.entry);
    ParseTrims(d.stopLoss);
    ParseTrims(d.takeProfit);
    ParseTrims(d.sizeUsdt);
    ParseTrims(d.qty);
  }

  /** Of the accepted decisions, exactly those whose size is one word are carried as they are. */
  lemma CarriedExactly(d: Decision, maxLeverage: int)
    requires OpenDecisionToIntent(d, maxLeverage).Ok?
    ensures var intent := OpenDecisionToIntent(d, maxLeverage).value;
            intent.Open? && (AsItIs(d, intent.order) <==> IsWord(SizeText(d)))
  {
    hide OpenDecisionToIntent, Printable, TrimSpace, IsWord, Fields, SizeText, Lower, DT.Parse, NormalizeSymbol;
    AcceptedIsOne(d, maxLeverage);
    if Printable(d, maxLeverage) {
      OpenRoundTrip(d, maxLeverage);
      PrintableHead(d, maxLeverage);
      CarriedAsItIs(d, maxLeverage);
    } else {
      QuantityBringsPlan(d, maxLeverage);
      PositiveLeverage(d.(qty := Fields(d.qty)[0]), maxLeverage);
      QtyWords(d);
    }
  }

  lemma PositiveLeverage(d: Decision, maxLeverage: int)
    requires Printable(d, maxLeverage)
    ensures d.leverage > 0
  {}

  // ---------------------------------------------------------------------------
  // An input
  // ---------------------------------------------------------------------------

  const FIVE := Decision("BTC", "long", 1, "5", "4", "6", "", "5", "")

  lemma OneDigit(c: char)
    requires '1' <= c <= '9'
    ensures TrimSpace([c]) == [c] && DT.Parse([c]) == Ok(Decimal(DT.DigitOf(c), 0)) && DT.DigitOf(c) > 0
  {
    TrimNothing([c]);
    hide TrimSpace;
    assert [c][1..] == "" && Split("", '.') == [""];
    assert [c] + "" == [c] && Split([c], '.') == [[c]];
    assert [c][..0] == "" && DT.DigitsValue("") == 0;
    assert DT.DigitsValue([c]) == DT.DigitOf(c);
    assert DT.ParseUnsigned([c], false) == Ok(Decimal(DT.DigitOf(c), 0));
  }

  lemma SmallValues()
    ensures Val(Decimal(4, 0)) == 4.0 && Val(Decimal(5, 0)) == 5.0 && Val(Decimal(6, 0)) == 6.0
    ensures forall n :: n > 0 ==> IsPositive(Decimal(n, 0))
  {
    R.RatioIs(4, 1, 4.0);
    R.RatioIs(5, 1, 5.0);
    R.RatioIs(6, 1, 6.0);
  }

  lemma FiveIsPrintable()
    ensures Printable(FIVE, 0) && TrimSpace(FIVE.sizeUsdt) == "" && TrimSpace(FIVE.qty) == "5"
  {
    hide DT.Parse, NormalizeSymbol, Lower, IsPositive, DT.DigitOf, Val;
    OneDigit('5');
    OneDigit('4');
    OneDigit('6');
    WordTrims("long");
    SmallWords();
    FiveSymbol();
    SmallValues();
    FiveDigits();
    assert "5" == ['5'] && "4" == ['4'] && "6" == ['6'];
  }

  lemma FiveDigits()
    ensures DT.DigitOf('5') == 5 && DT.DigitOf('4') == 4 && DT.DigitOf('6') == 6
  {}

  lemma FiveSymbol()
    ensures IsWord("BTC") && TrimSpace("BTC") == "BTC" && NormalizeSymbol("BTC").Ok?
  {
    BaseSymbol("BTC");
    WordTrims("BTC");
    hide NormalizeSymbol, TrimSpace;
    assert Upper("BTC") == "BTC";
  }

  lemma FivePlan()
    ensures Fields("5 plan 2") == ["5", "plan", "2"] && Lower("plan") == "plan"
  {
    hide Fields, Join;
    SmallWords();
    FiveJoined();
    FieldsOfJoin(["5", "plan", "2"]);
  }

  lemma FiveJoined()
    ensures Join(["5", "plan", "2"]) == "5 plan 2"
  {
    var words := ["5", "plan", "2"];
    assert words[1..] == ["plan", "2"] && words[1..][1..] == ["2"];
  }

  /** The quantity "5 plan 2" is accepted as five with plan 2. */
  lemma FivePlanTwo()
    ensures OpenDecisionToIntent(FIVE.(qty := "5 plan 2"), 0).Ok?
    ensures var intent := OpenDecisionToIntent(FIVE.(qty := "5 plan 2"), 0).value;
            intent.Open? && intent.order.size.Qty? && Val(intent.order.size.amount) == 5.0 && intent.order.plan == "2"
  {
    hide TrimSpace, DT.Parse, Printable, OpenDecisionToIntent, Lower, NormalizeSymbol, DT.DigitOf, Val, IsPositive, OpenWords,
         Fields;
    FiveIsPrintable();
    OneDigit('5');
    FiveDigits();
    SmallValues();
    assert "5" == ['5'];
    FivePlan();
    assert FIVE.(qty := "5 plan 2").(qty := "5") == FIVE;
    QuantityBringsPlan(FIVE.(qty := "5 plan 2"), 0);
  }

  /** A short at five with its stop at six and its target at four. */
  const SHORT := FIVE.(side := "short", stopLoss := "6", takeProfit := "4")

  /** Its levels are accepted for a short and refused for a long, and the other way about. */
  lemma BracketsBySide()
    ensures OpenDecisionToIntent(SHORT, 0).Ok? && OpenDecisionToIntent(SHORT.(stopLoss := "4", takeProfit := "6"), 0).Err?
    ensures OpenDecisionToIntent(FIVE, 0).Ok? && OpenDecisionToIntent(FIVE.(stopLoss := "6", takeProfit := "4"), 0).Err?
  {
    hide OpenDecisionToIntent, BringsPlan;
    PrintableBySide();
    NoPlanIn(SHORT.(stopLoss := "4", takeProfit := "6"));
    NoPlanIn(FIVE.(stopLoss := "6", takeProfit := "4"));
    hide Printable;
    AcceptedExactly(SHORT, 0);
    AcceptedExactly(SHORT.(stopLoss := "4", takeProfit := "6"), 0);
    AcceptedExactly(FIVE, 0);
    AcceptedExactly(FIVE.(stopLoss := "6", takeProfit := "4"), 0);
  }

  lemma NoPlanIn(d: Decision)
    requires d.qty == "5"
    ensures !BringsPlan(d, 0)
  {
    hide Printable, TrimSpace, Fields;
    OneDigit('5');
    assert "5" == ['5'];
    OneField(d.qty);
  }

  lemma PrintableBySide()
    ensures Printable(SHORT, 0) && !Printable(SHORT.(stopLoss := "4", takeProfit := "6"), 0)
    ensures Printable(FIVE, 0) && !Printable(FIVE.(stopLoss := "6", takeProfit := "4"), 0)
  {
    hide DT.Parse, NormalizeSymbol, Lower, IsPositive, DT.DigitOf, Val;
    OneDigit('5');
    OneDigit('4');
    OneDigit('6');
    WordTrims("long");
    WordTrims("short");
    SmallWords();
    FiveSymbol();
    SmallValues();
    FiveDigits();
    assert "5" == ['5'] && "4" == ['4'] && "6" == ['6'];
  }
}
