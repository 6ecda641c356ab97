/** The realised result of a position, read from its exit fills in time order until they cover the
    entry quantity. */
module Fills {
  import opened Common
  import opened Decimals
  import opened Rationals

  /** One fill. A text that does not parse is None; ours says whether symbol and side are those of the exit. */
  datatype Fill = Fill(
    time: int, ours: bool, qty: Option<Decimal>, price: Option<Decimal>, pnl: Option<Decimal>, commission: Option<Decimal>)

  datatype Total = Total(net: Decimal, qty: Decimal, notional: Decimal, remaining: Decimal, closedAt: int)

  datatype Scan = Malformed | Scanned(total: Total)

  datatype Realized = Failed | NotYet | Closed(exitPrice: Decimal, pnl: Decimal, closedAt: int)

  // ---------------------------------------------------------------------------
  // Stable order by time
  // ---------------------------------------------------------------------------

  function Insert(sorted: seq<Fill>, f: Fill): seq<Fill> {
    if sorted == [] || sorted[|sorted| - 1].time <= f.time then sorted + [f]
    else Insert(sorted[..|sorted| - 1], f) + [sorted[|sorted| - 1]]
  }

  function SortedByTime(fills: seq<Fill>): seq<Fill> {
    if fills == [] then [] else Insert(SortedByTime(fills[..|fills| - 1]), fills[|fills| - 1])
  }

  ghost predicate Ordered(fills: seq<Fill>) {
    forall i, j :: 0 <= i < j < |fills| ==> fills[i].time <= fills[j].time
  }

  /** The fills of one instant, in their order. */
  function At(fills: seq<Fill>, time: int): seq<Fill> {
    if fills == [] then []
    else At(fills[..|fills| - 1], time) + (if fills[|fills| - 1].time == time then [fills[|fills| - 1]] else [])
  }

  lemma {:induction false} InsertKeeps(sorted: seq<Fill>, f: Fill)
    ensures multiset(Insert(sorted, f)) == multiset(sorted) + multiset{f}
  {
    if sorted != [] && sorted[|sorted| - 1].time > f.time {
      var front, last := sorted[..|sorted| - 1], sorted[|sorted| - 1];
      assert sorted == front + [last];
      InsertKeeps(front, f);
    }
  }

  lemma {:induction false} InsertOrders(sorted: seq<Fill>, f: Fill)
    requires Ordered(sorted)
    ensures Ordered(Insert(sorted, f))
  {
    if sorted != [] && sorted[|sorted| - 1].time > f.time {
      var front, last := sorted[..|sorted| - 1], sorted[|sorted| - 1];
      InsertOrders(front, f);
      InsertKeeps(front, f);
      var inserted := Insert(front, f);
      forall i | 0 <= i < |inserted| ensures inserted[i].time <= last.time {
        assert inserted[i] in multiset(inserted);
        assert inserted[i] in front || inserted[i] == f;
      }
    }
  }

  lemma AtAppended(fills: seq<Fill>, f: Fill, time: int)
    ensures At(fills + [f], time) == At(fills, time) + (if f.time == time then [f] else [])
  {
    assert (fills + [f])[..|fills|] == fills;
  }

  lemma {:induction false} InsertIsStable(sorted: seq<Fill>, f: Fill, time: int)
    requires Ordered(sorted)
    ensures At(Insert(sorted, f), time) == At(sorted + [f], time)
  {
    hide At;
    if sorted != [] && sorted[|sorted| - 1].time > f.time {
      var front, last := sorted[..|sorted| - 1], sorted[|sorted| - 1];
      assert sorted == front + [last];
      InsertIsStable(front, f, time);
      AtAppended(Insert(front, f), last, time);
      AtAppended(front, f, time);
      AtAppended(front, last, time);
      AtAppended(sorted, f, time);
    }
  }

  /** The order is by time, keeps every fill, and keeps the given order within each instant. */
  lemma {:induction false} SortIsStable(fills: seq<Fill>, time: int)
    ensures Ordered(SortedByTime(fills)) && multiset(SortedByTime(fills)) == multiset(fills)
    ensures At(SortedByTime(fills), time) == At(fills, time)
  {
    if fills != [] {
      var front, last := fills[..|fills| - 1], fills[|fills| - 1];
      assert fills == front + [last];
      SortIsStable(front, time);
      InsertOrders(SortedByTime(front), last);
      InsertKeeps(SortedByTime(front), last);
      InsertIsStable(SortedByTime(front), last, time);
      assert (SortedByTime(front) + [last])[..|SortedByTime(front)|] == SortedByTime(front);
    }
  }

  lemma {:induction false} InsertLate(early: seq<Fill>, late: seq<Fill>, f: Fill)
    requires forall e :: e in early ==> e.time <= f.time
    ensures Insert(early + late, f) == early + Insert(late, f)
  {
    if late == [] {
      assert early + late == early;
    } else if late[|late| - 1].time > f.time {
      InsertLate(early, late[..|late| - 1], f);
      assert (early + late)[..|early + late| - 1] == early + late[..|late| - 1];
    }
  }

  lemma SortedKeeps(fills: seq<Fill>)
    ensures forall f :: f in SortedByTime(fills) ==> f in fills
  {
    SortIsStable(fills, 0);
    hide SortedByTime, Ordered, At;
    forall f | f in SortedByTime(fills) ensures f in fills {
      assert f in multiset(SortedByTime(fills));
    }
  }

  /** Fills that come later in time sort behind the earlier ones. */
  lemma {:induction false} LaterFillsSortLast(early: seq<Fill>, late: seq<Fill>)
    requires forall e, f :: e in early && f in late ==> e.time <= f.time
    ensures SortedByTime(early + late) == SortedByTime(early) + SortedByTime(late)
  {
    if late == [] {
      assert early + late == early;
    } else {
      var front, last := late[..|late| - 1], late[|late| - 1];
      assert (early + late)[..|early + late| - 1] == early + front;
      LaterFillsSortLast(early, front);
      SortedKeeps(early);
      hide Insert;
      InsertLate(SortedByTime(early), SortedByTime(front), last);
    }
  }

  // ---------------------------------------------------------------------------
  // Taking fills into account
  // ---------------------------------------------------------------------------

  predicate Parses(f: Fill) {
    f.qty.Some? && f.price.Some? && f.pnl.Some? && f.commission.Some?
  }

  /** A fill that counts. Fields are read one by one, and an unusable one ends the reading. */
  predicate Counts(f: Fill) {
    f.ours && f.qty.Some? && IsPositive(f.qty.value) && f.price.Some? && IsPositive(f.price.value)
  }

  /** A fill whose reading fails. */
  predicate Unreadable(f: Fill) {
    f.ours
    && (f.qty == None
        || (IsPositive(f.qty.value)
            && (f.price == None || (IsPositive(f.price.value) && (f.pnl == None || f.commission == None)))))
  }

  predicate Splits(f: Fill, remaining: Decimal)
    requires Counts(f)
  {
    Cmp(f.qty.value, remaining) > 0
  }

  function Share(f: Fill, remaining: Decimal): Decimal
    requires Counts(f)
  {
    match QuoFloor(remaining, f.qty.value, 16)
    case Ok(r) => r
    case Err(_) => ZERO
  }

  function Included(f: Fill, t: Total): Total
    requires Counts(f) && Parses(f)
  {
    var split := Splits(f, t.remaining);
    var qty := if split then t.remaining else f.qty.value;
    var pnl := if split then Mul(f.pnl.value, Share(f, t.remaining)) else f.pnl.value;
    var commission := if split then Mul(Abs(f.commission.value), Share(f, t.remaining)) else Abs(f.commission.value);
    Total(Sub(Add(t.net, pnl), commission), Add(t.qty, qty), Add(t.notional, Mul(f.price.value, qty)),
          Sub(t.remaining, qty), f.time)
  }

  function ScanFrom(fills: seq<Fill>, t: Total): Scan {
    if fills == [] || !IsPositive(t.remaining) then Scanned(t)
    else if Unreadable(fills[0]) then Malformed
    else if Counts(fills[0]) then ScanFrom(fills[1..], Included(fills[0], t))
    else ScanFrom(fills[1..], t)
  }

  function Start(entryQty: Decimal): Total {
    Total(ZERO, ZERO, ZERO, entryQty, 0)
  }

  function ExitPrice(t: Total): Decimal {
    if !IsPositive(t.qty) then ZERO
    else match QuoFloor(t.notional, t.qty, 8)
      case Ok(p) => p
      case Err(_) => ZERO
  }

  /** A fill without a time of its own closes the trade now. */
  function Result(fills: seq<Fill>, entryQty: Decimal, now: int): Realized {
    if !IsPositive(entryQty) then Failed
    else match ScanFrom(SortedByTime(fills), Start(entryQty))
      case Malformed => Failed
      case Scanned(t) =>
        if IsPositive(t.remaining) then NotYet
        else Closed(ExitPrice(t), t.net, if t.closedAt <= 0 then now else t.closedAt)
  }

  method RealizedTrade(fills: seq<Fill>, entryQty: Decimal, now: int) returns (r: Realized)
    ensures r == Result(fills, entryQty, now)
  {
    hide SortedByTime, IsPositive, QuoFloor, Cmp, Add, Sub, Mul, Abs;
    if !IsPositive(entryQty) {
      return Failed;
    }
    var trades := SortedByTime(fills);
    var net, qtySum, notionalSum, remaining, closedAt := ZERO, ZERO, ZERO, entryQty, 0;
    var i := 0;
    while i < |trades| && IsPositive(remaining)
      invariant 0 <= i <= |trades|
      invariant ScanFrom(trades, Start(entryQty)) == ScanFrom(trades[i..], Total(net, qtySum, notionalSum, remaining, closedAt))
    {
      var trade := trades[i];
      assert trades[i..][0] == trade && trades[i..][1..] == trades[i + 1..];
      i := i + 1;
      if !trade.ours {
        continue;
      }
      if trade.qty == None {
        return Failed;
      }
      if !IsPositive(trade.qty.value) {
        continue;
      }
      if trade.price == None {
        return Failed;
      }
      if !IsPositive(trade.price.value) {
        continue;
      }
      if trade.pnl == None || trade.commission == None {
        return Failed;
      }
      var includeQty, includePnl, includeCommission := trade.qty.value, trade.pnl.value, Abs(trade.commission.value);
      if Cmp(trade.qty.value, remaining) > 0 {
        includeQty := remaining;
        var ratio := Share(trade, remaining);
        includePnl := Mul(trade.pnl.value, ratio);
        includeCommission := Mul(includeCommission, ratio);
      }
      net := Sub(Add(net, includePnl), includeCommission);
      notionalSum := Add(notionalSum, Mul(trade.price.value, includeQty));
      qtySum := Add(qtySum, includeQty);
      remaining := Sub(remaining, includeQty);
      closedAt := trade.time;
    }
    if IsPositive(remaining) {
      return NotYet;
    }
    r := Closed(ExitPrice(Total(net, qtySum, notionalSum, remaining, closedAt)), net, if closedAt <= 0 then now else closedAt);
  }

  // ---------------------------------------------------------------------------
  // What the result means
  // ---------------------------------------------------------------------------

  ghost predicate WellFormed(fills: seq<Fill>) {
    forall i :: 0 <= i < |fills| ==> Parses(fills[i])
  }

  /** Total quantity of the fills that count. */
  ghost function Cover(fills: seq<Fill>): real {
    if fills == [] then 0.0
    else (if Counts(fills[0]) then Val(fills[0].qty.value) else 0.0) + Cover(fills[1..])
  }

  lemma {:induction false} CoverSplits(a: seq<Fill>, b: seq<Fill>)
    ensures Cover(a + b) == Cover(a) + Cover(b)
  {
    hide Val;
    if a == [] {
      assert a + b == b;
    } else {
      assert (a + b)[1..] == a[1..] + b;
      CoverSplits(a[1..], b);
    }
  }

  lemma {:induction false} InsertCover(sorted: seq<Fill>, f: Fill)
    ensures Cover(Insert(sorted, f)) == Cover(sorted) + Cover([f])
  {
    if sorted == [] || sorted[|sorted| - 1].time <= f.time {
      CoverSplits(sorted, [f]);
    } else {
      var front, last := sorted[..|sorted| - 1], sorted[|sorted| - 1];
      InsertCover(front, f);
      CoverSplits(Insert(front, f), [last]);
      CoverSplits(front, [last]);
      assert sorted == front + [last];
    }
  }

  lemma {:induction false} SortedCover(fills: seq<Fill>)
    ensures Cover(SortedByTime(fills)) == Cover(fills)
    ensures WellFormed(fills) ==> WellFormed(SortedByTime(fills))
  {
    hide Cover;
    if fills == [] {
    } else {
      var front, last := fills[..|fills| - 1], fills[|fills| - 1];
      assert fills == front + [last];
      SortedCover(front);
      InsertCover(SortedByTime(front), last);
      InsertKeeps(SortedByTime(front), last);
      CoverSplits(front, [last]);
      if WellFormed(fills) {
        assert WellFormed(front);
        var all := SortedByTime(fills);
        forall i | 0 <= i < |all| ensures Parses(all[i]) {
          assert all[i] in multiset(all);
          assert all[i] in SortedByTime(front) || all[i] == last;
        }
      }
    }
  }

  /** One included fill on reals: its quantity is the lesser of its own and what remains. */
  lemma IncludedMeaning(f: Fill, t: Total)
    requires Counts(f) && Parses(f) && Val(t.remaining) > 0.0
    ensures var u := Included(f, t);
            var q := if Val(f.qty.value) > Val(t.remaining) then Val(t.remaining) else Val(f.qty.value);
            && Val(f.qty.value) > 0.0 && Val(f.price.value) > 0.0
            && Val(u.qty) == Val(t.qty) + q && Val(u.remaining) == Val(t.remaining) - q
            && Val(u.notional) == Val(t.notional) + Val(f.price.value) * q
  {
    hide Val, Add, Sub, Mul, Abs, Cmp, IsPositive, QuoFloor;
    CmpIsExact(f.qty.value, t.remaining);
    CmpIsExact(f.qty.value, ZERO);
    CmpIsExact(f.price.value, ZERO);
    var qty := if Splits(f, t.remaining) then t.remaining else f.qty.value;
    AddIsExact(t.qty, qty);
    AddIsExact(t.remaining, qty);
    MulIsExact(f.price.value, qty);
    AddIsExact(t.notional, Mul(f.price.value, qty));
  }

  lemma Remains(t: Total)
    ensures IsPositive(t.remaining) <==> Val(t.remaining) > 0.0
  {
    CmpIsExact(t.remaining, ZERO);
  }

  /** Readable fills are scanned through; something remains exactly when they do not cover it; what was
      taken and what remains always add up. */
  lemma {:induction false} Conservation(fills: seq<Fill>, t: Total)
    requires WellFormed(fills) && Val(t.remaining) >= 0.0
    ensures ScanFrom(fills, t).Scanned?
    ensures var u := ScanFrom(fills, t).total;
            && Val(u.remaining) >= 0.0
            && (Val(u.remaining) > 0.0 <==> Cover(fills) < Val(t.remaining))
            && Val(u.qty) + Val(u.remaining) == Val(t.qty) + Val(t.remaining)
  {
    hide Val, IsPositive, Included;
    Remains(t);
    if fills == [] || Val(t.remaining) <= 0.0 {
      CoverSign(fills);
    } else {
      assert Parses(fills[0]);
      if Counts(fills[0]) {
        IncludedMeaning(fills[0], t);
        Conservation(fills[1..], Included(fills[0], t));
        CoverSign(fills[1..]);
      } else {
        Conservation(fills[1..], t);
      }
    }
  }

  lemma {:induction false} CoverSign(fills: seq<Fill>)
    ensures Cover(fills) >= 0.0
  {
    hide Val, IsPositive;
    if fills != [] {
      CoverSign(fills[1..]);
      if Counts(fills[0]) {
        CmpIsExact(fills[0].qty.value, ZERO);
      }
    }
  }

  /** For readable fills a result is reported exactly when they cover the entry quantity, and then the
      quantities included add up to exactly the entry quantity. */
  lemma ClosedExactlyWhenCovered(fills: seq<Fill>, entryQty: Decimal, now: int)
    requires WellFormed(fills) && IsPositive(entryQty)
    ensures Result(fills, entryQty, now).Closed? <==> Cover(fills) >= Val(entryQty)
    ensures Result(fills, entryQty, now) == NotYet <==> Cover(fills) < Val(entryQty)
    ensures var s := ScanFrom(SortedByTime(fills), Start(entryQty));
            s.Scanned? && (Result(fills, entryQty, now).Closed? ==> Val(s.total.qty) == Val(entryQty))
  {
    hide Val, IsPositive, ScanFrom, SortedByTime, Cover;
    CmpIsExact(entryQty, ZERO);
    ZeroIs();
    SortedCover(fills);
    Conservation(SortedByTime(fills), Start(entryQty));
    Remains(ScanFrom(SortedByTime(fills), Start(entryQty)).total);
  }

  lemma ZeroIs()
    ensures Val(ZERO) == 0.0
  {}

  // ---------------------------------------------------------------------------
  // Exit price
  // ---------------------------------------------------------------------------

  ghost predicate PricesWithin(fills: seq<Fill>, lo: real, hi: real) {
    forall i :: 0 <= i < |fills| && Counts(fills[i]) ==> lo <= Val(fills[i].price.value) <= hi
  }

  ghost predicate Weighted(t: Total, lo: real, hi: real) {
    lo * Val(t.qty) <= Val(t.notional) <= hi * Val(t.qty)
  }

  lemma WeightAdds(n: real, w: real, p: real, q: real, lo: real, hi: real)
    requires lo * w <= n <= hi * w && lo <= p <= hi && q >= 0.0
    ensures lo * (w + q) <= n + p * q <= hi * (w + q)
  {
    ProductMonotone(lo, p, q);
    ProductMonotone(p, hi, q);
    Distribute(w, q, lo);
    Distribute(w, q, hi);
  }

  lemma {:induction false} NotionalWithin(fills: seq<Fill>, t: Total, lo: real, hi: real)
    requires WellFormed(fills) && PricesWithin(fills, lo, hi) && Val(t.remaining) >= 0.0 && Weighted(t, lo, hi)
    ensures ScanFrom(fills, t).Scanned? && Weighted(ScanFrom(fills, t).total, lo, hi)
  {
    hide Val, IsPositive, Included;
    Remains(t);
    if fills != [] && Val(t.remaining) > 0.0 {
      assert Parses(fills[0]);
      if Counts(fills[0]) {
        var u := Included(fills[0], t);
        IncludedMeaning(fills[0], t);
        var q := Val(u.qty) - Val(t.qty);
        WeightAdds(Val(t.notional), Val(t.qty), Val(fills[0].price.value), q, lo, hi);
        NotionalWithin(fills[1..], u, lo, hi);
      } else {
        NotionalWithin(fills[1..], t, lo, hi);
      }
    }
  }

  /** How many of the fills in order the reading takes in before it stops. */
  ghost function Taken(fills: seq<Fill>, t: Total): (n: nat)
    requires WellFormed(fills)
    ensures n <= |fills|
  {
    if fills == [] || !IsPositive(t.remaining) then 0
    else 1 + Taken(fills[1..], if Counts(fills[0]) then IncludedIn(fills, t) else t)
  }

  ghost function IncludedIn(fills: seq<Fill>, t: Total): Total
    requires fills != [] && WellFormed(fills) && Counts(fills[0])
  {
    assert Parses(fills[0]);
    Included(fills[0], t)
  }

  lemma {:induction false} TakenSuffices(fills: seq<Fill>, t: Total)
    requires WellFormed(fills)
    ensures ScanFrom(fills[..Taken(fills, t)], t) == ScanFrom(fills, t)
  {
    hide IsPositive, Included;
    if fills != [] && IsPositive(t.remaining) {
      assert Parses(fills[0]);
      var u := if Counts(fills[0]) then Included(fills[0], t) else t;
      var n := Taken(fills[1..], u);
      TakenSuffices(fills[1..], u);
      assert fills[..n + 1][1..] == fills[1..][..n];
    }
  }

  /** The exit price lies between the least and greatest price of the fills taken in, up to eight decimals. */
  lemma ExitPriceWithin(fills: seq<Fill>, entryQty: Decimal, now: int, lo: real, hi: real)
    requires WellFormed(fills) && IsPositive(entryQty) && Result(fills, entryQty, now).Closed?
    requires WellFormed(SortedByTime(fills))
    requires PricesWithin(SortedByTime(fills)[..Taken(SortedByTime(fills), Start(entryQty))], lo, hi) && lo >= 0.0
    ensures lo - Ratio(1, Pow10(8)) < Val(Result(fills, entryQty, now).exitPrice) <= hi
  {
    hide Val, IsPositive, ScanFrom, SortedByTime, Cover, QuoFloor, Truncated, Pow10, Taken;
    ClosedExactlyWhenCovered(fills, entryQty, now);
    CmpIsExact(entryQty, ZERO);
    ZeroIs();
    var sorted, start := SortedByTime(fills), Start(entryQty);
    var taken := sorted[..Taken(sorted, start)];
    TakenSuffices(sorted, start);
    NotionalWithin(taken, start, lo, hi);
    AverageWithin(ScanFrom(sorted, start).total, lo, hi);
  }

  /** What the fills cost, taken in order until they cover the quantity. */
  ghost function Spent(fills: seq<Fill>, quantity: real): real
    requires WellFormed(fills)
  {
    if fills == [] || quantity <= 0.0 then 0.0
    else if !Counts(fills[0]) then Spent(fills[1..], quantity)
    else
      var q := if Val(fills[0].qty.value) > quantity then quantity else Val(fills[0].qty.value);
      Val(fills[0].price.value) * q + Spent(fills[1..], quantity - q)
  }

  lemma {:induction false} NotionalIsSpent(fills: seq<Fill>, t: Total)
    requires WellFormed(fills) && Val(t.remaining) >= 0.0
    ensures ScanFrom(fills, t).Scanned? && Val(ScanFrom(fills, t).total.notional) == Val(t.notional) + Spent(fills, Val(t.remaining))
  {
    hide Val, IsPositive, Included;
    Remains(t);
    if fills != [] && Val(t.remaining) > 0.0 {
      assert Parses(fills[0]);
      if Counts(fills[0]) {
        IncludedMeaning(fills[0], t);
        NotionalIsSpent(fills[1..], Included(fills[0], t));
      } else {
        NotionalIsSpent(fills[1..], t);
      }
    }
  }

  /** The exit price is the average price of the fills taken in, by quantity, cut to eight decimals. */
  lemma ExitPriceIsAverage(fills: seq<Fill>, entryQty: Decimal, now: int)
    requires WellFormed(fills) && IsPositive(entryQty) && Result(fills, entryQty, now).Closed?
    ensures WellFormed(SortedByTime(fills)) && Val(entryQty) > 0.0
    ensures Val(Result(fills, entryQty, now).exitPrice)
         == Truncated(Over(Spent(SortedByTime(fills), Val(entryQty)), Val(entryQty)), 8)
  {
    hide Val, IsPositive, ScanFrom, SortedByTime, Cover, QuoFloor, Truncated, Spent;
    ClosedExactlyWhenCovered(fills, entryQty, now);
    SortedCover(fills);
    CmpIsExact(entryQty, ZERO);
    ZeroIs();
    var sorted, start := SortedByTime(fills), Start(entryQty);
    NotionalIsSpent(sorted, start);
    var t := ScanFrom(sorted, start).total;
    CmpIsExact(t.qty, ZERO);
    QuoFloorTruncates(t.notional, t.qty, 8);
  }

  /** Fill n - 1 is the one with which the fills come to cover the quantity. */
  ghost predicate CompletedBy(fills: seq<Fill>, quantity: real, n: nat) {
    && 0 < n <= |fills| && Counts(fills[n - 1])
    && Cover(fills[..n - 1]) < quantity <= Cover(fills[..n])
  }

  lemma {:induction false} ScanEndsWith(fills: seq<Fill>, t: Total) returns (n: nat)
    requires WellFormed(fills) && 0.0 < Val(t.remaining) <= Cover(fills)
    ensures CompletedBy(fills, Val(t.remaining), n)
    ensures ScanFrom(fills, t).Scanned? && ScanFrom(fills, t).total.closedAt == fills[n - 1].time
  {
    hide Val, IsPositive, Included;
    Remains(t);
    assert Parses(fills[0]);
    if Counts(fills[0]) {
      IncludedMeaning(fills[0], t);
      IncludedAt(fills[0], t);
      var u := Included(fills[0], t);
      Remains(u);
      if Val(u.remaining) > 0.0 {
        var m := ScanEndsWith(fills[1..], u);
        n := m + 1;
        CoverOfFront(fills, m);
        CoverOfFront(fills, m - 1);
      } else {
        n := 1;
        assert fills[..0] == [];
        CoverOfFront(fills, 0);
      }
    } else {
      var m := ScanEndsWith(fills[1..], t);
      n := m + 1;
      CoverOfFront(fills, m);
      CoverOfFront(fills, m - 1);
    }
  }

  lemma IncludedAt(f: Fill, t: Total)
    requires Counts(f) && Parses(f)
    ensures Included(f, t).closedAt == f.time
  {}

  lemma CoverOfFront(fills: seq<Fill>, m: nat)
    requires m < |fills|
    ensures Cover(fills[..m + 1]) == (if Counts(fills[0]) then Val(fills[0].qty.value) else 0.0) + Cover(fills[1..][..m])
  {
    assert fills[..m + 1][1..] == fills[1..][..m];
  }

  /** Fill k cannot be read and comes before the fills before it cover the quantity. */
  ghost predicate Spoils(fills: seq<Fill>, quantity: real, k: nat) {
    k < |fills| && Unreadable(fills[k]) && Cover(fills[..k]) < quantity
  }

  ghost predicate Spoiled(fills: seq<Fill>, quantity: real) {
    exists k: nat :: Spoils(fills, quantity, k)
  }

  lemma SpoilsNext(fills: seq<Fill>, quantity: real, k: nat)
    requires fills != []
    ensures var rest := quantity - (if Counts(fills[0]) then Val(fills[0].qty.value) else 0.0);
            Spoils(fills, quantity, k + 1) <==> Spoils(fills[1..], rest, k)
  {
    hide Val, Unreadable, Cover;
    if k + 1 < |fills| {
      CoverOfFront(fills, k);
    }
  }

  lemma SpoiledLater(fills: seq<Fill>, quantity: real)
    requires fills != [] && !Unreadable(fills[0])
    ensures Spoiled(fills, quantity)
        <==> Spoiled(fills[1..], quantity - (if Counts(fills[0]) then Val(fills[0].qty.value) else 0.0))
  {
    var rest := quantity - (if Counts(fills[0]) then Val(fills[0].qty.value) else 0.0);
    if Spoiled(fills, quantity) {
      var k: nat :| Spoils(fills, quantity, k);
      assert k > 0;
      hide Spoils, Val;
      SpoilsNext(fills, quantity, k - 1);
    } else if Spoiled(fills[1..], rest) {
      hide Spoils, Val;
      var k: nat :| Spoils(fills[1..], rest, k);
      SpoilsNext(fills, quantity, k);
    }
  }

  lemma {:induction false} ScanFails(fills: seq<Fill>, t: Total)
    requires Val(t.remaining) >= 0.0
    ensures ScanFrom(fills, t).Malformed? <==> Spoiled(fills, Val(t.remaining))
  {
    hide Val, IsPositive, Included, Cover, Unreadable;
    Remains(t);
    NothingCovers(fills, Val(t.remaining));
    if fills == [] || Val(t.remaining) <= 0.0 {
    } else if Unreadable(fills[0]) {
      assert fills[..0] == [];
      assert Spoils(fills, Val(t.remaining), 0);
    } else {
      SpoiledLater(fills, Val(t.remaining));
      if Counts(fills[0]) {
        ReadableParses(fills[0]);
        IncludedMeaning(fills[0], t);
        var u := Included(fills[0], t);
        ScanFails(fills[1..], u);
        if Val(u.remaining) == 0.0 {
          NothingCovers(fills[1..], 0.0);
          NothingCovers(fills[1..], Val(t.remaining) - Val(fills[0].qty.value));
        }
      } else {
        ScanFails(fills[1..], t);
      }
    }
  }

  lemma NothingCovers(fills: seq<Fill>, quantity: real)
    ensures Cover([]) == 0.0
    ensures quantity <= 0.0 ==> !Spoiled(fills, quantity)
  {
    hide Val, Unreadable;
    if Spoiled(fills, quantity) {
      var k: nat :| Spoils(fills, quantity, k);
      CoverSign(fills[..k]);
    }
  }

  lemma ReadableParses(f: Fill)
    requires Counts(f) && !Unreadable(f)
    ensures Parses(f)
  {}

  /** The reading fails exactly for an empty entry, or a fill it cannot read before the exit covers the entry. */
  lemma FailsExactly(fills: seq<Fill>, entryQty: Decimal, now: int)
    ensures Result(fills, entryQty, now) == Failed <==>
              Val(entryQty) <= 0.0 || Spoiled(SortedByTime(fills), Val(entryQty))
  {
    hide Val, IsPositive, ScanFrom, SortedByTime, Spoiled;
    CmpIsExact(entryQty, ZERO);
    ZeroIs();
    if Val(entryQty) > 0.0 {
      ScanFails(SortedByTime(fills), Start(entryQty));
    }
  }

  /** The trade closes when the fill with which the exit covers the entry was made, or now if that has no time. */
  lemma ClosesWithLastFill(fills: seq<Fill>, entryQty: Decimal, now: int) returns (n: nat)
    requires WellFormed(fills) && IsPositive(entryQty) && Result(fills, entryQty, now).Closed?
    ensures CompletedBy(SortedByTime(fills), Val(entryQty), n)
    ensures var last := SortedByTime(fills)[n - 1].time;
            Result(fills, entryQty, now).closedAt == if last > 0 then last else now
  {
    hide Val, IsPositive, ScanFrom, SortedByTime, Cover, QuoFloor;
    ClosedExactlyWhenCovered(fills, entryQty, now);
    SortedCover(fills);
    CmpIsExact(entryQty, ZERO);
    ZeroIs();
    n := ScanEndsWith(SortedByTime(fills), Start(entryQty));
  }

  lemma AverageWithin(t: Total, lo: real, hi: real)
    requires Weighted(t, lo, hi) && Val(t.qty) > 0.0 && lo >= 0.0
    ensures lo - Ratio(1, Pow10(8)) < Val(ExitPrice(t)) <= hi
  {
    hide Val, IsPositive, QuoFloor, Truncated, Pow10;
    CmpIsExact(t.qty, ZERO);
    QuoFloorTruncates(t.notional, t.qty, 8);
    var average := Over(Val(t.notional), Val(t.qty));
    Between(average, Val(t.qty), Val(t.notional), lo, hi);
    TruncatedBounds(average, 8);
  }

  lemma Between(x: real, w: real, n: real, lo: real, hi: real)
    requires w > 0.0 && x * w == n && lo * w <= n <= hi * w
    ensures lo <= x <= hi
  {
    ProductOrder(x, lo, w);
    ProductOrder(hi, x, w);
  }

  // ---------------------------------------------------------------------------
  // Net result
  // ---------------------------------------------------------------------------

  ghost function Gain(f: Fill): real
    requires Parses(f)
  {
    Val(f.pnl.value) - AbsReal(Val(f.commission.value))
  }

  ghost function AbsReal(x: real): real {
    if x >= 0.0 then x else -x
  }

  /** The result with the last fill prorated exactly. */
  ghost function Exact(fills: seq<Fill>, remaining: real): real
    requires WellFormed(fills)
  {
    if fills == [] || remaining <= 0.0 then 0.0
    else if !Counts(fills[0]) then Exact(fills[1..], remaining)
    else
      var q := Val(fills[0].qty.value);
      if q > remaining && q != 0.0 then Prorated(Gain(fills[0]), Over(remaining, q))
      else Gain(fills[0]) + Exact(fills[1..], remaining - q)
  }

  /** Size of the result of the fill that is split, if one is. */
  ghost function SplitSize(fills: seq<Fill>, remaining: real): real
    requires WellFormed(fills)
  {
    if fills == [] || remaining <= 0.0 then 0.0
    else if !Counts(fills[0]) then SplitSize(fills[1..], remaining)
    else if Val(fills[0].qty.value) > remaining then AbsReal(Val(fills[0].pnl.value)) + AbsReal(Val(fills[0].commission.value))
    else SplitSize(fills[1..], remaining - Val(fills[0].qty.value))
  }

  lemma ShareMeaning(f: Fill, remaining: Decimal)
    requires Counts(f) && Val(f.qty.value) > Val(remaining) > 0.0
    ensures var exact := Over(Val(remaining), Val(f.qty.value));
            Val(Share(f, remaining)) <= exact < Val(Share(f, remaining)) + Ratio(1, Pow10(16))
  {
    hide Val, IsPositive, QuoFloor, Truncated, Pow10;
    QuoFloorTruncates(remaining, f.qty.value, 16);
    var exact := Over(Val(remaining), Val(f.qty.value));
    ProductSign(exact, Val(f.qty.value));
    TruncatedBounds(exact, 16);
  }

  lemma WholeNet(f: Fill, t: Total)
    requires Counts(f) && Parses(f) && Val(f.qty.value) <= Val(t.remaining)
    ensures Val(Included(f, t).net) == Val(t.net) + Gain(f)
  {
    hide Val, Add, Sub, Mul, Abs, Cmp, IsPositive, QuoFloor;
    CmpIsExact(f.qty.value, t.remaining);
    NegAbsAreExact(f.commission.value);
    AddIsExact(t.net, f.pnl.value);
    AddIsExact(Add(t.net, f.pnl.value), Abs(f.commission.value));
  }

  lemma SplitNet(f: Fill, t: Total)
    requires Counts(f) && Parses(f) && Val(f.qty.value) > Val(t.remaining) > 0.0
    ensures Val(Included(f, t).net) == Val(t.net) + Prorated(Gain(f), Val(Share(f, t.remaining)))
  {
    hide Val, Add, Sub, Mul, Abs, Cmp, IsPositive, QuoFloor;
    var r := Share(f, t.remaining);
    CmpIsExact(f.qty.value, t.remaining);
    NegAbsAreExact(f.commission.value);
    MulIsExact(f.pnl.value, r);
    MulIsExact(Abs(f.commission.value), r);
    AddIsExact(t.net, Mul(f.pnl.value, r));
    AddIsExact(Add(t.net, Mul(f.pnl.value, r)), Mul(Abs(f.commission.value), r));
    Distribute(Val(f.pnl.value), AbsReal(Val(f.commission.value)), Val(r));
  }

  ghost predicate Near(x: real, y: real, slack: real) {
    x - y <= slack && y - x <= slack
  }

  ghost function Prorated(gain: real, share: real): real {
    gain * share
  }

  /** A 1e-16 part of a size. */
  ghost function Slack(size: real): (r: real)
    ensures size == 0.0 ==> r == 0.0
  {
    size * Ratio(1, Pow10(16))
  }

  lemma Product(gain: real, size: real, d: real, unit: real)
    requires 0.0 <= d < unit && AbsReal(gain) <= size
    ensures AbsReal(gain * d) <= size * unit
  {
    if gain >= 0.0 {
      ProductMonotone(0.0, gain, d);
      ProductMonotone(gain, size, d);
    } else {
      ProductMonotone(gain, 0.0, d);
      ProductMonotone(-gain, size, d);
      assert (-gain) * d == -(gain * d);
    }
    ProductMonotone(d, unit, size);
    assert AbsReal(gain * d) <= size * d;
    assert size * d == d * size && size * unit == unit * size;
  }

  lemma ErrorBound(gain: real, size: real, share: real, exact: real)
    requires share <= exact < share + Ratio(1, Pow10(16)) && AbsReal(gain) <= size
    ensures Near(Prorated(gain, share), Prorated(gain, exact), Slack(size))
  {
    hide Ratio, Pow10;
    Product(gain, size, exact - share, Ratio(1, Pow10(16)));
    Distribute(exact, share, gain);
  }

  /** The share is cut to sixteen decimals: so much is the error of the fill that is split. */
  lemma SplitError(f: Fill, t: Total)
    requires Counts(f) && Parses(f) && Val(f.qty.value) > Val(t.remaining) > 0.0
    ensures Near(Val(Included(f, t).net), Val(t.net) + Prorated(Gain(f), Over(Val(t.remaining), Val(f.qty.value))),
                 Slack(AbsReal(Val(f.pnl.value)) + AbsReal(Val(f.commission.value))))
  {
    hide Val, IsPositive, Included, Pow10, Ratio, Gain, AbsReal, Share, Slack, Prorated;
    ShareMeaning(f, t.remaining);
    SplitNet(f, t);
    GainSize(f);
    var exact, share := Over(Val(t.remaining), Val(f.qty.value)), Val(Share(f, t.remaining));
    ErrorBound(Gain(f), AbsReal(Val(f.pnl.value)) + AbsReal(Val(f.commission.value)), share, exact);
  }

  lemma {:induction false} NetNearExact(fills: seq<Fill>, t: Total)
    requires WellFormed(fills) && Val(t.remaining) >= 0.0
    ensures ScanFrom(fills, t).Scanned?
    ensures Near(Val(ScanFrom(fills, t).total.net), Val(t.net) + Exact(fills, Val(t.remaining)), Slack(SplitSize(fills, Val(t.remaining))))
  {
    hide Val, IsPositive, Included, Gain, Slack, Prorated, AbsReal;
    Remains(t);
    if fills == [] || Val(t.remaining) <= 0.0 {
    } else {
      assert Parses(fills[0]);
      if !Counts(fills[0]) {
        NetNearExact(fills[1..], t);
      } else {
        var f, u := fills[0], Included(fills[0], t);
        IncludedMeaning(f, t);
        if Val(f.qty.value) > Val(t.remaining) {
          Remains(u);
          SplitError(f, t);
          assert ScanFrom(fills[1..], u) == Scanned(u);
        } else {
          WholeNet(f, t);
          NetNearExact(fills[1..], u);
        }
      }
    }
  }

  lemma GainSize(f: Fill)
    requires Parses(f)
    ensures AbsReal(Gain(f)) <= AbsReal(Val(f.pnl.value)) + AbsReal(Val(f.commission.value))
  {
    hide Val;
  }

  /** The reported result differs from exact proration by at most 1e-16 of the split fill's size. */
  lemma ResultNearExact(fills: seq<Fill>, entryQty: Decimal, now: int)
    requires WellFormed(fills) && IsPositive(entryQty) && Result(fills, entryQty, now).Closed?
    ensures WellFormed(SortedByTime(fills))
    ensures var sorted := SortedByTime(fills);
            Near(Val(Result(fills, entryQty, now).pnl), Exact(sorted, Val(entryQty)), Slack(SplitSize(sorted, Val(entryQty))))
  {
    hide Val, IsPositive, ScanFrom, SortedByTime, Exact, SplitSize, Slack;
    SortedCover(fills);
    CmpIsExact(entryQty, ZERO);
    ZeroIs();
    NetNearExact(SortedByTime(fills), Start(entryQty));
  }

  // ---------------------------------------------------------------------------
  // Later fills
  // ---------------------------------------------------------------------------

  lemma {:induction false} MoreFills(fills: seq<Fill>, more: seq<Fill>, t: Total)
    requires ScanFrom(fills, t).Scanned? && !IsPositive(ScanFrom(fills, t).total.remaining)
    ensures ScanFrom(fills + more, t) == ScanFrom(fills, t)
  {
    hide IsPositive, Included;
    if fills != [] && IsPositive(t.remaining) {
      assert (fills + more)[1..] == fills[1..] + more;
      MoreFills(fills[1..], more, if Counts(fills[0]) then Included(fills[0], t) else t);
    }
  }

  /** A reported result is final: fills that come later, readable or not, never change it. */
  lemma LaterFillsChangeNothing(fills: seq<Fill>, more: seq<Fill>, entryQty: Decimal, now: int)
    requires Result(fills, entryQty, now).Closed?
    requires forall e, f :: e in fills && f in more ==> e.time <= f.time
    ensures Result(fills + more, entryQty, now) == Result(fills, entryQty, now)
  {
    hide IsPositive, ScanFrom, SortedByTime;
    LaterFillsSortLast(fills, more);
    MoreFills(SortedByTime(fills), SortedByTime(more), Start(entryQty));
  }
}
