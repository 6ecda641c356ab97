/** Moving a live stop: place the new order, then cancel the old one. Any call may fail, with or without
    taking effect. Every intermediate book of orders is kept in a trace. */
module StopMoves {
  import opened Common
  import opened Decimals
  import T = Trailing

  /** A client id: the trailer's own ids carry a per-process nonce and a running number. */
  datatype AlgoId = TrailId(nonce: Option<nat>, symbol: string, n: nat) | OtherId(tag: nat)

  datatype Order = Order(symbol: string, stopMarket: bool, trigger: Decimal)

  type Book = map<AlgoId, Order>

  /** The call happens; it happens but reports failure; it does not happen. */
  datatype Fate = Works | Unheard | Fails

  datatype Calls = Calls(readFails: bool, filtersFail: bool, place: Fate, cancel: Fate)

  datatype Position = Position(symbol: string, side: T.Side, amount: Decimal, entry: Decimal, mark: Decimal)

  predicate IsStop(o: Order, symbol: string) {
    o.stopMarket && o.symbol == symbol
  }

  // ---------------------------------------------------------------------------
  // Protection
  // ---------------------------------------------------------------------------

  /** Each stop of before is matched by one of after that is at least as tight: the tightest stop has
      not loosened, and a protected position is still protected. */
  ghost predicate NeverLoosens(before: Book, after: Book, symbol: string, side: T.Side) {
    forall id :: id in before && IsStop(before[id], symbol) ==> Matched(after, before[id].trigger, symbol, side)
  }

  ghost predicate Matched(book: Book, trigger: Decimal, symbol: string, side: T.Side) {
    exists id :: id in book && IsStop(book[id], symbol) && T.AtLeastAsTight(side, Val(book[id].trigger), Val(trigger))
  }

  ghost predicate Guarded(book: Book, symbol: string) {
    exists id :: id in book && IsStop(book[id], symbol)
  }

  /** Between any two states of the trace no symbol's protection loosens. */
  ghost predicate Protected(trace: seq<Book>, sides: string -> T.Side) {
    forall i, j, symbol :: 0 <= i <= j < |trace| ==> NeverLoosens(trace[i], trace[j], symbol, sides(symbol))
  }

  lemma LoosensNever(a: Book, b: Book, c: Book, symbol: string, side: T.Side)
    requires NeverLoosens(a, b, symbol, side) && NeverLoosens(b, c, symbol, side)
    ensures NeverLoosens(a, c, symbol, side)
  {
    hide Val;
    forall id | id in a && IsStop(a[id], symbol)
      ensures Matched(c, a[id].trigger, symbol, side)
    {
      assert Matched(b, a[id].trigger, symbol, side);
      var m :| m in b && IsStop(b[m], symbol) && T.AtLeastAsTight(side, Val(b[m].trigger), Val(a[id].trigger));
      assert Matched(c, b[m].trigger, symbol, side);
    }
  }

  /** A state no looser than the last one extends a protected trace. */
  lemma Extend(trace: seq<Book>, next: Book, sides: string -> T.Side)
    requires trace != [] && Protected(trace, sides)
    requires forall symbol :: NeverLoosens(trace[|trace| - 1], next, symbol, sides(symbol))
    ensures Protected(trace + [next], sides)
  {
    hide NeverLoosens;
    var longer := trace + [next];
    forall i, j, symbol | 0 <= i <= j < |longer|
      ensures NeverLoosens(longer[i], longer[j], symbol, sides(symbol))
    {
      if i < |trace| && j == |trace| {
        assert NeverLoosens(trace[i], trace[|trace| - 1], symbol, sides(symbol));
        LoosensNever(trace[i], trace[|trace| - 1], next, symbol, sides(symbol));
      } else if i == |trace| {
        Unchanged(next, symbol, sides(symbol));
      } else {
        assert longer[i] == trace[i] && longer[j] == trace[j];
      }
    }
  }

  lemma Unchanged(book: Book, symbol: string, side: T.Side)
    ensures NeverLoosens(book, book, symbol, side)
  {
    hide Val;
    forall id | id in book && IsStop(book[id], symbol)
      ensures Matched(book, book[id].trigger, symbol, side)
    {
      assert T.AtLeastAsTight(side, Val(book[id].trigger), Val(book[id].trigger));
    }
  }

  lemma GuardCarries(before: Book, after: Book, symbol: string, side: T.Side)
    requires NeverLoosens(before, after, symbol, side) && Guarded(before, symbol)
    ensures Guarded(after, symbol)
  {
    var id :| id in before && IsStop(before[id], symbol);
    assert Matched(after, before[id].trigger, symbol, side);
  }

  /** In a protected trace a position that had a stop once has one in every later state. */
  lemma StaysGuarded(trace: seq<Book>, sides: string -> T.Side, i: nat, j: nat, symbol: string)
    requires Protected(trace, sides) && i <= j < |trace| && Guarded(trace[i], symbol)
    ensures Guarded(trace[j], symbol)
  {
    hide NeverLoosens, Guarded;
    assert NeverLoosens(trace[i], trace[j], symbol, sides(symbol));
    GuardCarries(trace[i], trace[j], symbol, sides(symbol));
  }

  /** Every live stop sits on its symbol's tick. */
  ghost predicate Aligned(book: Book, ticks: map<string, Decimal>) {
    forall id :: id in book && book[id].stopMarket && book[id].symbol in ticks && Val(ticks[book[id].symbol]) > 0.0 ==>
      IsMultiple(Val(book[id].trigger), Val(ticks[book[id].symbol]))
  }

  // ---------------------------------------------------------------------------
  // The exchange's book
  // ---------------------------------------------------------------------------

  function AfterPlace(book: Book, used: set<AlgoId>, id: AlgoId, o: Order, fate: Fate): Book {
    if fate == Fails || id in used then book else book[id := o]
  }

  function AfterCancel(book: Book, id: AlgoId, fate: Fate): Book {
    if fate == Fails then book else book - {id}
  }

  class Exchange {
    var live: Book
    var used: set<AlgoId>      // client ids are never reusable
    ghost var trace: seq<Book>

    ghost predicate Valid()
      reads this
    {
      live.Keys <= used && trace != [] && trace[|trace| - 1] == live
    }

    constructor (orders: Book)
      ensures Valid() && live == orders && used == orders.Keys && trace == [orders]
    {
      live := orders;
      used := orders.Keys;
      trace := [orders];
    }

    /** The first stop of the symbol the exchange happens to list. */
    method CurrentStop(symbol: string) returns (stop: Option<AlgoId>)
      ensures stop.Some? ==> stop.value in live && IsStop(live[stop.value], symbol)
      ensures stop.None? <==> !Guarded(live, symbol)
    {
      var left := live.Keys;
      while left != {}
        invariant left <= live.Keys
        invariant forall id :: id in live && id !in left ==> !IsStop(live[id], symbol)
      {
        var id :| id in left;
        if IsStop(live[id], symbol) {
          return Some(id);
        }
        left := left - {id};
      }
      stop := None;
    }

    method Place(id: AlgoId, o: Order, fate: Fate) returns (ok: bool)
      requires Valid()
      modifies this
      ensures Valid() && trace == old(trace) + [live]
      ensures live == AfterPlace(old(live), old(used), id, o, fate)
      ensures used == if fate == Fails || id in old(used) then old(used) else old(used) + {id}
      ensures ok == (fate == Works && id !in old(used))
    {
      ok := fate == Works && id !in used;
      if fate != Fails && id !in used {
        live := live[id := o];
        used := used + {id};
      }
      trace := trace + [live];
    }

    method Cancel(id: AlgoId, fate: Fate)
      requires Valid()
      modifies this`live, this`trace
      ensures Valid() && trace == old(trace) + [live]
      ensures live == AfterCancel(old(live), id, fate)
    {
      if fate != Fails {
        live := live - {id};
      }
      trace := trace + [live];
    }

    /** Places the rounded stop, then cancels the old one; an error before that changes nothing. */
    method MoveStopLoss(symbol: string, newStop: Decimal, oldId: AlgoId, newId: AlgoId, ticks: map<string, Decimal>, calls: Calls)
      returns (ok: bool)
      requires Valid()
      modifies this
      ensures Valid()
      ensures var filtered := !calls.filtersFail && symbol in ticks && FloorToStep(newStop, ticks[symbol]).Ok?;
              && (!filtered ==> !ok && live == old(live) && used == old(used) && trace == old(trace))
              && (filtered ==>
                    var o := Order(symbol, true, FloorToStep(newStop, ticks[symbol]).value);
                    var placed := AfterPlace(old(live), old(used), newId, o, calls.place);
                    && ok == (calls.place == Works && newId !in old(used))
                    && used == (if calls.place == Fails || newId in old(used) then old(used) else old(used) + {newId})
                    && live == (if ok then AfterCancel(placed, oldId, calls.cancel) else placed)
                    && trace == old(trace) + (if ok then [placed, live] else [placed]))
    {
      if calls.filtersFail || symbol !in ticks {
        return false;
      }
      var rounded := FloorToStep(newStop, ticks[symbol]);
      if rounded.Err? {
        return false;
      }
      ok := Place(newId, Order(symbol, true, rounded.value), calls.place);
      if !ok {
        return;
      }
      Cancel(oldId, calls.cancel);
    }
  }

  // ---------------------------------------------------------------------------
  // Why a move is safe
  // ---------------------------------------------------------------------------

  lemma PlacingIsSafe(book: Book, used: set<AlgoId>, id: AlgoId, o: Order, fate: Fate, symbol: string, side: T.Side)
    requires book.Keys <= used
    ensures NeverLoosens(book, AfterPlace(book, used, id, o, fate), symbol, side)
  {
    hide Val;
    var after := AfterPlace(book, used, id, o, fate);
    forall k | k in book && IsStop(book[k], symbol)
      ensures Matched(after, book[k].trigger, symbol, side)
    {
      assert k in after && after[k] == book[k];
      assert T.AtLeastAsTight(side, Val(after[k].trigger), Val(book[k].trigger));
    }
  }

  /** Cancelling an order while a stop at least as tight is live loosens nothing. */
  lemma CancellingIsSafe(book: Book, oldId: AlgoId, newId: AlgoId, fate: Fate, symbol: string, side: T.Side)
    requires oldId in book && newId in book && oldId != newId
    requires IsStop(book[newId], book[oldId].symbol)
    requires symbol == book[oldId].symbol ==> T.AtLeastAsTight(side, Val(book[newId].trigger), Val(book[oldId].trigger))
    ensures NeverLoosens(book, AfterCancel(book, oldId, fate), symbol, side)
  {
    hide Val;
    var after := AfterCancel(book, oldId, fate);
    forall k | k in book && IsStop(book[k], symbol)
      ensures Matched(after, book[k].trigger, symbol, side)
    {
      if k in after {
        assert T.AtLeastAsTight(side, Val(after[k].trigger), Val(book[k].trigger));
      } else {
        assert newId in after && after[newId] == book[newId];
      }
    }
  }

  /** The rounded candidate is at least as tight as the aligned stop it replaces. */
  lemma RoundedIsTighter(p: Position, current: Decimal, policy: T.TrailPolicy, tick: Decimal)
    requires var (stop, moved) := T.ComputeStop(p.side, p.entry, current, p.mark, policy); moved && FloorToStep(stop, tick).Ok?
    requires Val(tick) > 0.0 ==> IsMultiple(Val(current), Val(tick))
    ensures var stop := T.ComputeStop(p.side, p.entry, current, p.mark, policy).0;
            var rounded := FloorToStep(stop, tick).value;
            && Val(tick) > 0.0 && T.AtLeastAsTight(p.side, Val(rounded), Val(current)) && IsMultiple(Val(rounded), Val(tick))
  {
    hide Val, IsMultiple, StepFloor, T.ComputeStop, FloorToStep, T.Percent;
    var stop := T.ComputeStop(p.side, p.entry, current, p.mark, policy).0;
    T.ComputeStopMeaning(p.side, p.entry, current, p.mark, policy);
    FloorToStepIsStepFloor(stop, tick);
    T.MoveNeverLoosens(p.side, Val(stop), Val(current), Val(tick));
    StepFloorBounds(Val(stop), Val(tick));
  }

  // ---------------------------------------------------------------------------
  // The trailer
  // ---------------------------------------------------------------------------

  ghost predicate OnlyStop(book: Book, symbol: string, id: AlgoId) {
    id in book && IsStop(book[id], symbol) && forall k :: k in book && IsStop(book[k], symbol) ==> k == id
  }

  /** The book after a move on which every call works. */
  function Trailed(book: Book, id: AlgoId, newId: AlgoId, p: Position, policy: T.TrailPolicy, tick: Decimal): Book
    requires id in book
  {
    var (stop, moved) := T.ComputeStop(p.side, p.entry, book[id].trigger, p.mark, policy);
    if moved && FloorToStep(stop, tick).Ok? then book[newId := Order(p.symbol, true, FloorToStep(stop, tick).value)] - {id}
    else book
  }

  ghost function Parameters(p: Position, policy: T.TrailPolicy, tick: Decimal): T.Position {
    T.Position(p.side, Val(p.entry), T.Percent(Val(p.entry), Val(policy.activatePct)),
               T.Percent(Val(p.entry), Val(policy.trailGapPct)), Val(tick))
  }

  /** The trigger such a move leaves is one step of the ratchet. */
  lemma TrailedIsNextStop(book: Book, id: AlgoId, newId: AlgoId, p: Position, policy: T.TrailPolicy, tick: Decimal)
    requires id in book && newId !in book && IsStop(book[id], p.symbol) && T.Valid(policy)
    requires Val(tick) > 0.0 && Val(p.entry) >= 0.0 && Val(p.mark) >= 0.0
    ensures var after := Trailed(book, id, newId, p, policy, tick);
            var next := if newId in after then newId else id;
            && next in after && IsStop(after[next], p.symbol)
            && Val(after[next].trigger) == T.NextStop(Parameters(p, policy, tick), Val(book[id].trigger), Val(p.mark))
            && (newId in after ==> id !in after)
            && (OnlyStop(book, p.symbol, id) ==> OnlyStop(after, p.symbol, next))
  {
    hide Val, StepFloor, T.ComputeStop, FloorToStep, T.Percent, T.Valid;
    var (stop, moved) := T.ComputeStop(p.side, p.entry, book[id].trigger, p.mark, policy);
    T.ComputeStopMeaning(p.side, p.entry, book[id].trigger, p.mark, policy);
    FloorToStepIsStepFloor(stop, tick);
    if moved {
      GapSign(p, policy);
    }
  }

  lemma GapSign(p: Position, policy: T.TrailPolicy)
    requires T.Valid(policy) && Val(p.entry) >= 0.0
    ensures T.Percent(Val(p.entry), Val(policy.trailGapPct)) >= 0.0
  {
    hide Val, T.Percent;
    CmpIsExact(policy.trailGapPct, ZERO);
    T.PercentSign(Val(p.entry), Val(policy.trailGapPct));
  }

  /** The same orders of the symbol in both books. */
  ghost predicate SameOrders(a: Book, b: Book, symbol: string) {
    forall id :: (id in a && a[id].symbol == symbol) || (id in b && b[id].symbol == symbol) ==> id in a && id in b && a[id] == b[id]
  }

  ghost predicate OthersSame(a: Book, b: Book, symbol: string) {
    forall other: string :: other != symbol ==> SameOrders(a, b, other)
  }

  lemma SameChain(a: Book, b: Book, c: Book, symbol: string)
    requires SameOrders(a, b, symbol) && SameOrders(b, c, symbol)
    ensures SameOrders(a, c, symbol)
  {}

  lemma SameOnly(a: Book, b: Book, symbol: string, id: AlgoId)
    requires SameOrders(a, b, symbol)
    ensures OnlyStop(a, symbol, id) <==> OnlyStop(b, symbol, id)
    ensures OnlyStop(a, symbol, id) ==> a[id] == b[id]
  {}

  lemma SameAsBefore(book: Book, symbol: string)
    ensures OthersSame(book, book, symbol)
  {}

  /** A move touches orders of its own symbol only. */
  lemma MoveTouchesOne(book: Book, used: set<AlgoId>, newId: AlgoId, o: Order, oldId: AlgoId, place: Fate, cancel: Fate)
    requires book.Keys <= used && oldId in book && book[oldId].symbol == o.symbol
    ensures OthersSame(book, AfterPlace(book, used, newId, o, place), o.symbol)
    ensures OthersSame(book, AfterCancel(AfterPlace(book, used, newId, o, place), oldId, cancel), o.symbol)
  {}

  /** A position whose calls all work, with prices that make sense and a symbol of its own. */
  ghost predicate Trailable(positions: seq<Position>, calls: seq<Calls>, ticks: map<string, Decimal>, i: nat)
    requires i < |positions| == |calls|
  {
    var p := positions[i];
    && calls[i] == Calls(false, false, Works, Works) && !IsZero(p.amount) && Val(p.entry) >= 0.0 && Val(p.mark) >= 0.0
    && p.symbol in ticks && Val(ticks[p.symbol]) > 0.0
    && forall j :: 0 <= j < |positions| && j != i ==> positions[j].symbol != p.symbol
  }

  /** The symbol's one stop stands one step of the ratchet from where it stood. */
  ghost predicate Ratcheted(before: Book, after: Book, id: AlgoId, p: Position, policy: T.TrailPolicy, tick: Decimal)
    requires id in before && Val(tick) > 0.0
  {
    exists next :: OnlyStop(after, p.symbol, next)
                   && Val(after[next].trigger) == T.NextStop(Parameters(p, policy, tick), Val(before[id].trigger), Val(p.mark))
  }

  lemma RatchetedStays(before: Book, was: Book, now: Book, id: AlgoId, p: Position, policy: T.TrailPolicy, tick: Decimal)
    requires id in before && Val(tick) > 0.0 && Ratcheted(before, was, id, p, policy, tick) && SameOrders(was, now, p.symbol)
    ensures Ratcheted(before, now, id, p, policy, tick)
  {
    hide Val, T.NextStop, T.Percent, SameOrders;
    var next :| OnlyStop(was, p.symbol, next)
                && Val(was[next].trigger) == T.NextStop(Parameters(p, policy, tick), Val(before[id].trigger), Val(p.mark));
    SameOnly(was, now, p.symbol, next);
  }

  lemma RatchetedNow(before: Book, was: Book, id: AlgoId, newId: AlgoId, p: Position, policy: T.TrailPolicy, tick: Decimal)
    requires OnlyStop(before, p.symbol, id) && SameOrders(before, was, p.symbol) && newId !in was && T.Valid(policy)
    requires Val(tick) > 0.0 && Val(p.entry) >= 0.0 && Val(p.mark) >= 0.0
    ensures OnlyStop(was, p.symbol, id) && Ratcheted(before, Trailed(was, id, newId, p, policy, tick), id, p, policy, tick)
  {
    hide Val, T.NextStop, T.Percent, SameOrders, T.Valid, Trailed;
    SameOnly(before, was, p.symbol, id);
    TrailedIsNextStop(was, id, newId, p, policy, tick);
    var after := Trailed(was, id, newId, p, policy, tick);
    assert OnlyStop(after, p.symbol, if newId in after then newId else id);
  }

  /** The positions before n are ratcheted, and symbols not among them have their orders of before. */
  ghost predicate TrailedUpTo(before: Book, now: Book, positions: seq<Position>, calls: seq<Calls>, ticks: map<string, Decimal>,
                              policy: T.TrailPolicy, n: nat)
    requires n <= |positions| == |calls|
  {
    && (forall symbol: string :: Unlisted(positions, n, symbol) ==> SameOrders(before, now, symbol))
    && (forall i, id :: 0 <= i < n ==> MovedOn(before, now, positions, calls, ticks, policy, i, id))
  }

  /** If position i is trailable and id is its one stop, that stop was ratcheted. */
  ghost predicate MovedOn(before: Book, now: Book, positions: seq<Position>, calls: seq<Calls>, ticks: map<string, Decimal>,
                          policy: T.TrailPolicy, i: nat, id: AlgoId)
    requires i < |positions| == |calls|
  {
    Trailable(positions, calls, ticks, i) && OnlyStop(before, positions[i].symbol, id) ==>
      Ratcheted(before, now, id, positions[i], policy, ticks[positions[i].symbol])
  }

  predicate Unlisted(positions: seq<Position>, n: nat, symbol: string)
    requires n <= |positions|
  {
    forall j :: 0 <= j < n ==> positions[j].symbol != symbol
  }

  lemma NoneTrailed(book: Book, positions: seq<Position>, calls: seq<Calls>, ticks: map<string, Decimal>, policy: T.TrailPolicy)
    requires |positions| == |calls|
    ensures TrailedUpTo(book, book, positions, calls, ticks, policy, 0)
  {}

  /** Trailing position n, whatever its calls do, carries the others along. */
  lemma NextTrailed(before: Book, was: Book, now: Book, positions: seq<Position>, calls: seq<Calls>, ticks: map<string, Decimal>,
                    policy: T.TrailPolicy, n: nat, newId: AlgoId)
    requires n < |positions| == |calls| && TrailedUpTo(before, was, positions, calls, ticks, policy, n)
    requires OthersSame(was, now, positions[n].symbol) && newId !in was && T.Valid(policy)
    requires Trailable(positions, calls, ticks, n) ==>
               forall id :: OnlyStop(was, positions[n].symbol, id) ==>
                 now == Trailed(was, id, newId, positions[n], policy, ticks[positions[n].symbol])
    ensures TrailedUpTo(before, now, positions, calls, ticks, policy, n + 1)
  {
    hide SameOrders, MovedOn, Trailable, T.Valid, Trailed, OnlyStop;
    forall symbol: string | Unlisted(positions, n + 1, symbol)
      ensures SameOrders(before, now, symbol)
    {
      assert Unlisted(positions, n, symbol) && positions[n].symbol != symbol;
      SameChain(before, was, now, symbol);
    }
    assert SameOrders(before, was, positions[n].symbol) || !Unlisted(positions, n, positions[n].symbol);
    forall i: nat, id | i < n + 1
      ensures MovedOn(before, now, positions, calls, ticks, policy, i, id)
    {
      if i < n {
        StaysMoved(before, was, now, positions, calls, ticks, policy, i, n, id);
      } else {
        MovesOn(before, was, now, positions, calls, ticks, policy, n, newId, id);
      }
    }
  }

  lemma StaysMoved(before: Book, was: Book, now: Book, positions: seq<Position>, calls: seq<Calls>, ticks: map<string, Decimal>,
                   policy: T.TrailPolicy, i: nat, n: nat, id: AlgoId)
    requires i < n < |positions| == |calls| && MovedOn(before, was, positions, calls, ticks, policy, i, id)
    requires OthersSame(was, now, positions[n].symbol)
    ensures MovedOn(before, now, positions, calls, ticks, policy, i, id)
  {
    hide Val, SameOrders, Ratcheted;
    var p := positions[i];
    if Trailable(positions, calls, ticks, i) && OnlyStop(before, p.symbol, id) {
      assert positions[n].symbol != p.symbol;
      RatchetedStays(before, was, now, id, p, policy, ticks[p.symbol]);
    }
  }

  lemma MovesOn(before: Book, was: Book, now: Book, positions: seq<Position>, calls: seq<Calls>, ticks: map<string, Decimal>,
                policy: T.TrailPolicy, n: nat, newId: AlgoId, id: AlgoId)
    requires n < |positions| == |calls| && newId !in was && T.Valid(policy)
    requires Unlisted(positions, n, positions[n].symbol) ==> SameOrders(before, was, positions[n].symbol)
    requires Trailable(positions, calls, ticks, n) ==>
               forall k :: OnlyStop(was, positions[n].symbol, k) ==>
                 now == Trailed(was, k, newId, positions[n], policy, ticks[positions[n].symbol])
    ensures MovedOn(before, now, positions, calls, ticks, policy, n, id)
  {
    hide Val, SameOrders, Ratcheted, T.Valid, Trailed;
    var p := positions[n];
    if Trailable(positions, calls, ticks, n) && OnlyStop(before, p.symbol, id) {
      assert Unlisted(positions, n, p.symbol);
      RatchetedNow(before, was, id, newId, p, policy, ticks[p.symbol]);
    }
  }

  class Trailer {
    const policy: T.TrailPolicy
    const nonce: Option<nat>
    var seqNo: nat

    constructor (policy: T.TrailPolicy, nonce: Option<nat>)
      ensures this.policy == policy && this.nonce == nonce && seqNo == 0
    {
      this.policy := policy;
      this.nonce := nonce;
      seqNo := 0;
    }

    /** No id this trailer will still hand out has been used: so it starts with a nonce of its own, but not
        without one after a restart. */
    ghost predicate FreshIds(ex: Exchange)
      reads this, ex
    {
      forall id :: id in ex.used && id.TrailId? && id.nonce == nonce ==> id.n <= seqNo
    }

    /** One position. Protection never loosens, with fresh ids or used ones. When every call works and the
        symbol has one stop, that stop moves to the rounded candidate, or stays when the policy says so; an id
        used before leaves the whole book as it was. */
    method TrailPosition(ex: Exchange, p: Position, ticks: map<string, Decimal>, calls: Calls, ghost sides: string -> T.Side)
      requires ex.Valid() && Protected(ex.trace, sides) && Aligned(ex.live, ticks)
      requires sides(p.symbol) == p.side
      modifies ex, this`seqNo
      ensures ex.Valid() && Protected(ex.trace, sides) && Aligned(ex.live, ticks)
      ensures |old(ex.trace)| <= |ex.trace| && ex.trace[..|old(ex.trace)|] == old(ex.trace)
      ensures old(FreshIds(ex)) ==> FreshIds(ex) && TrailId(nonce, p.symbol, old(seqNo) + 1) !in old(ex.used)
      ensures TrailId(nonce, p.symbol, old(seqNo) + 1) in old(ex.used) ==> ex.live == old(ex.live)
      ensures OthersSame(old(ex.live), ex.live, p.symbol)
      ensures calls == Calls(false, false, Works, Works) && p.symbol in ticks && !IsZero(p.amount)
              && TrailId(nonce, p.symbol, old(seqNo) + 1) !in old(ex.used) ==>
                forall id :: OnlyStop(old(ex.live), p.symbol, id) ==>
                  ex.live == Trailed(old(ex.live), id, TrailId(nonce, p.symbol, old(seqNo) + 1), p, policy, ticks[p.symbol])
    {
      hide Val, Protected, Aligned, T.ComputeStop, FloorToStep, OthersSame;
      SameAsBefore(ex.live, p.symbol);
      if IsZero(p.amount) || calls.readFails {
        return;
      }
      var current := ex.CurrentStop(p.symbol);
      if current.None? {
        return;
      }
      var oldId := current.value;
      var trigger := ex.live[oldId].trigger;
      var (newStop, moved) := T.ComputeStop(p.side, p.entry, trigger, p.mark, policy);
      if !moved {
        return;
      }
      seqNo := seqNo + 1;
      var newId := TrailId(nonce, p.symbol, seqNo);
      ghost var was := ex.live;
      ghost var usedBefore := ex.used;
      ghost var traceBefore := ex.trace;
      if p.symbol in ticks && FloorToStep(newStop, ticks[p.symbol]).Ok? {
        ghost var o := Order(p.symbol, true, FloorToStep(newStop, ticks[p.symbol]).value);
        MoveTouchesOne(was, usedBefore, newId, o, oldId, calls.place, calls.cancel);
      }
      var ok := ex.MoveStopLoss(p.symbol, newStop, oldId, newId, ticks, calls);
      MoveIsSafe(p, policy, was, usedBefore, traceBefore, ex.live, ex.trace, oldId, newId, ticks, calls, sides);
    }

    /** All positions of an account. Protection never loosens, whatever fails. With fresh ids, each position whose
        calls work has its one stop moved one step of the ratchet, whatever fails for the others, and orders of
        other symbols stay as they are. */
    method TrailUser(ex: Exchange, positions: seq<Position>, ticks: map<string, Decimal>, calls: seq<Calls>, ghost sides: string -> T.Side)
      requires ex.Valid() && Protected(ex.trace, sides) && Aligned(ex.live, ticks)
      requires |calls| == |positions| && forall i :: 0 <= i < |positions| ==> sides(positions[i].symbol) == positions[i].side
      modifies ex, this`seqNo
      ensures ex.Valid() && Protected(ex.trace, sides) && Aligned(ex.live, ticks)
      ensures |old(ex.trace)| <= |ex.trace| && ex.trace[..|old(ex.trace)|] == old(ex.trace)
      ensures old(FreshIds(ex)) ==> FreshIds(ex)
      ensures old(FreshIds(ex)) && T.Valid(policy) ==>
                TrailedUpTo(old(ex.live), ex.live, positions, calls, ticks, policy, |positions|)
    {
      hide Val, Protected, Aligned, T.Valid, OthersSame, Trailed, TrailedUpTo, OnlyStop;
      NoneTrailed(ex.live, positions, calls, ticks, policy);
      for i := 0 to |positions|
        invariant ex.Valid() && Protected(ex.trace, sides) && Aligned(ex.live, ticks)
        invariant |old(ex.trace)| <= |ex.trace| && ex.trace[..|old(ex.trace)|] == old(ex.trace)
        invariant old(FreshIds(ex)) ==> FreshIds(ex)
        invariant old(FreshIds(ex)) && T.Valid(policy) ==>
                    TrailedUpTo(old(ex.live), ex.live, positions, calls, ticks, policy, i)
      {
        ghost var was, newId := ex.live, TrailId(nonce, positions[i].symbol, seqNo + 1);
        TrailPosition(ex, positions[i], ticks, calls[i], sides);
        if old(FreshIds(ex)) && T.Valid(policy) {
          NextTrailed(old(ex.live), was, ex.live, positions, calls, ticks, policy, i, newId);
        }
      }
    }

    /** One position over successive ticks on which every call works, from one aligned stop: the book keeps one
        stop of the symbol, and it stands where the ratchet over all marks puts it. */
    method TrailMarks(ex: Exchange, p: Position, marks: seq<Decimal>, ticks: map<string, Decimal>, ghost sides: string -> T.Side,
                      ghost first: AlgoId) returns (ghost last: AlgoId)
      requires ex.Valid() && Protected(ex.trace, sides) && Aligned(ex.live, ticks) && FreshIds(ex)
      requires sides(p.symbol) == p.side && !IsZero(p.amount) && T.Valid(policy)
      requires p.symbol in ticks && Val(ticks[p.symbol]) > 0.0 && Val(p.entry) >= 0.0
      requires forall i :: 0 <= i < |marks| ==> Val(marks[i]) >= 0.0
      requires OnlyStop(ex.live, p.symbol, first)
      modifies ex, this`seqNo
      ensures ex.Valid() && Protected(ex.trace, sides) && Aligned(ex.live, ticks) && FreshIds(ex)
      ensures OnlyStop(ex.live, p.symbol, last)
      ensures Val(ex.live[last].trigger)
           == T.Online(Parameters(p, policy, ticks[p.symbol]), Val(old(ex.live)[first].trigger), Values(marks))
    {
      hide Val, Protected, Aligned, Trailed, T.NextStop, T.Valid, T.Percent;
      ghost var start := Val(ex.live[first].trigger);
      last := first;
      assert marks[..0] == [];
      for i := 0 to |marks|
        invariant ex.Valid() && Protected(ex.trace, sides) && Aligned(ex.live, ticks) && FreshIds(ex)
        invariant OnlyStop(ex.live, p.symbol, last)
        invariant Val(ex.live[last].trigger) == T.Online(Parameters(p, policy, ticks[p.symbol]), start, Values(marks[..i]))
      {
        var q := p.(mark := marks[i]);
        ghost var was, newId := ex.live, TrailId(nonce, p.symbol, seqNo + 1);
        TrailPosition(ex, q, ticks, Calls(false, false, Works, Works), sides);
        TrailedIsNextStop(was, last, newId, q, policy, ticks[p.symbol]);
        MarkAside(p, marks[i], policy, ticks[p.symbol]);
        NextValue(marks, i);
        last := if newId in ex.live then newId else last;
      }
      assert marks[..|marks|] == marks;
    }
  }

  ghost function Values(marks: seq<Decimal>): seq<real> {
    seq(|marks|, i requires 0 <= i < |marks| => Val(marks[i]))
  }

  lemma NextValue(marks: seq<Decimal>, i: nat)
    requires i < |marks|
    ensures var now := Values(marks[..i + 1]);
            now[..|now| - 1] == Values(marks[..i]) && |now| == i + 1 && now[i] == Val(marks[i])
  {
    hide Val;
  }

  lemma MarkAside(p: Position, mark: Decimal, policy: T.TrailPolicy, tick: Decimal)
    ensures Parameters(p.(mark := mark), policy, tick) == Parameters(p, policy, tick)
  {}

  predicate IsZero(d: Decimal) {
    Normal(d).coefficient == 0
  }

  /** Whatever the calls do, each state a move passes through protects at least as well as the last. */
  lemma MoveIsSafe(p: Position, policy: T.TrailPolicy, was: Book, used: set<AlgoId>, trace: seq<Book>, now: Book, newTrace: seq<Book>,
                   oldId: AlgoId, newId: AlgoId, ticks: map<string, Decimal>, calls: Calls, sides: string -> T.Side)
    requires trace != [] && trace[|trace| - 1] == was && was.Keys <= used && Protected(trace, sides) && Aligned(was, ticks)
    requires oldId in was && IsStop(was[oldId], p.symbol) && sides(p.symbol) == p.side
    requires T.ComputeStop(p.side, p.entry, was[oldId].trigger, p.mark, policy).1
    requires var newStop := T.ComputeStop(p.side, p.entry, was[oldId].trigger, p.mark, policy).0;
             var filtered := !calls.filtersFail && p.symbol in ticks && FloorToStep(newStop, ticks[p.symbol]).Ok?;
             && (!filtered ==> now == was && newTrace == trace)
             && (filtered ==>
                   var o := Order(p.symbol, true, FloorToStep(newStop, ticks[p.symbol]).value);
                   var placed := AfterPlace(was, used, newId, o, calls.place);
                   var ok := calls.place == Works && newId !in used;
                   && now == (if ok then AfterCancel(placed, oldId, calls.cancel) else placed)
                   && newTrace == trace + (if ok then [placed, now] else [placed]))
    ensures Protected(newTrace, sides) && Aligned(now, ticks)
  {
    hide Val, IsMultiple, T.ComputeStop, FloorToStep, Protected, NeverLoosens, T.AtLeastAsTight, Aligned;
    var newStop := T.ComputeStop(p.side, p.entry, was[oldId].trigger, p.mark, policy).0;
    if !calls.filtersFail && p.symbol in ticks && FloorToStep(newStop, ticks[p.symbol]).Ok? {
      var tick := ticks[p.symbol];
      var o := Order(p.symbol, true, FloorToStep(newStop, tick).value);
      var placed := AfterPlace(was, used, newId, o, calls.place);
      AlignedStop(was, oldId, p.symbol, ticks);
      RoundedIsTighter(p, was[oldId].trigger, policy, tick);
      forall symbol ensures NeverLoosens(was, placed, symbol, sides(symbol)) {
        PlacingIsSafe(was, used, newId, o, calls.place, symbol, sides(symbol));
      }
      Extend(trace, placed, sides);
      AlignedAfter(was, used, newId, o, oldId, ticks, calls);
      if calls.place == Works && newId !in used {
        forall symbol ensures NeverLoosens(placed, now, symbol, sides(symbol)) {
          CancellingIsSafe(placed, oldId, newId, calls.cancel, symbol, sides(symbol));
        }
        Extend(trace + [placed], now, sides);
        assert trace + [placed, now] == trace + [placed] + [now];
      }
    }
  }

  lemma AlignedStop(book: Book, id: AlgoId, symbol: string, ticks: map<string, Decimal>)
    requires Aligned(book, ticks) && id in book && IsStop(book[id], symbol) && symbol in ticks
    ensures Val(ticks[symbol]) > 0.0 ==> IsMultiple(Val(book[id].trigger), Val(ticks[symbol]))
  {}

  lemma AlignedAfter(book: Book, used: set<AlgoId>, newId: AlgoId, o: Order, oldId: AlgoId, ticks: map<string, Decimal>, calls: Calls)
    requires Aligned(book, ticks) && o.symbol in ticks && IsMultiple(Val(o.trigger), Val(ticks[o.symbol]))
    ensures Aligned(AfterPlace(book, used, newId, o, calls.place), ticks)
    ensures Aligned(AfterCancel(AfterPlace(book, used, newId, o, calls.place), oldId, calls.cancel), ticks)
  {
    hide Val, IsMultiple;
  }
}
