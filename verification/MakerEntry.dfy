/** The maker-first entry: a post-only limit order is polled until a deadline, cancelled, and what it
    did not fill is bought at market. The exchange may fill any part of the limit at any time. */
module MakerEntry {
  import opened Common
  import opened Decimals
  import DecimalText
  import R = Rationals
  import Text

  /** Accepted; refused by the exchange; or no answer, in which case it may have been accepted. */
  datatype Placement = Accepted | Rejected | Unanswered

  /** One status query: its executed quantity is text, as the exchange sends it. */
  datatype Poll = PollFailed | PollStatus(filled: bool, executed: string)

  datatype Cancelling = CancelFailed | Cancelled(executed: string)

  /** Everything the exchange and the clock decide. `actual` is what the limit order really filled. */
  datatype World = World(
    placement: Placement,
    polls: nat -> Poll,
    deadlineAt: nat,              // the first poll after which the deadline has passed
    interrupted: nat -> bool,     // the caller gave up while waiting after a poll
    cancelling: Cancelling,
    actual: Decimal)

  datatype Polling = Broken | AllFilled | TimedOut(executed: string)

  datatype Entry = Aborted | LimitOnly | WithMarket(quantity: Decimal)

  function Polled(w: World, i: nat): Polling
    decreases w.deadlineAt - i
  {
    match w.polls(i)
    case PollFailed => Broken
    case PollStatus(filled, executed) =>
      if filled then AllFilled
      else if i >= w.deadlineAt then TimedOut(executed)
      else if w.interrupted(i) then Broken
      else Polled(w, i + 1)
  }

  /** The executed quantity a text stands for: blank and malformed texts count as nothing. */
  function Executed(text: string): Decimal {
    if Text.TrimSpace(text) == "" then ZERO
    else match DecimalText.Parse(text)
      case Ok(d) => d
      case Err(_) => ZERO
  }

  function Remainder(quantity: Decimal, executed: Decimal): Entry {
    var remaining := Sub(quantity, executed);
    if IsPositive(remaining) then WithMarket(remaining) else LimitOnly
  }

  /** What the entry believes the limit filled, once it has stopped waiting. */
  function Believed(w: World): Decimal {
    match w.placement
    case Accepted =>
      (match (Polled(w, 0), w.cancelling)
       case (TimedOut(polled), Cancelled(executed)) => Executed(if executed != "" then executed else polled)
       case _ => ZERO)
    case _ => ZERO
  }

  function Outcome(quantity: Decimal, w: World): Entry {
    match w.placement
    case Unanswered => Aborted
    case Rejected => Remainder(quantity, ZERO)
    case Accepted =>
      match Polled(w, 0)
      case Broken => Aborted
      case AllFilled => LimitOnly
      case TimedOut(_) => if w.cancelling == CancelFailed then Aborted else Remainder(quantity, Believed(w))
  }

  /** The market order is the call's last effect, so its outcome tells whether one was sent. */
  method MakerFirstEntry(quantity: Decimal, w: World) returns (entry: Entry, cancels: nat)
    ensures entry == Outcome(quantity, w)
    ensures cancels == if w.placement == Accepted && Polled(w, 0) != AllFilled then 1 else 0
  {
    hide IsPositive, Sub, Executed;
    cancels := 0;
    var limit := "";
    if w.placement == Unanswered {
      return Aborted, 0;
    }
    if w.placement == Accepted {
      var i := 0;
      while true
        invariant Polled(w, 0) == Polled(w, i) && cancels == 0
        decreases w.deadlineAt - i
      {
        var status := w.polls(i);
        if status == PollFailed {
          return Aborted, 1;
        }
        if status.filled {
          return LimitOnly, 0;
        }
        if i >= w.deadlineAt {
          limit := status.executed;
          break;
        }
        if w.interrupted(i) {
          return Aborted, 1;
        }
        i := i + 1;
      }
      cancels := 1;
      if w.cancelling == CancelFailed {
        return Aborted, 1;
      }
      if w.cancelling.executed != "" {
        limit := w.cancelling.executed;
      }
    }
    var executed := Executed(limit);
    var remaining := Sub(quantity, executed);
    BlankIsNothing();
    if !IsPositive(remaining) {
      return LimitOnly, cancels;
    }
    entry := WithMarket(remaining);
  }

  lemma BlankIsNothing()
    ensures Executed("") == ZERO
  {}

  // ---------------------------------------------------------------------------
  // How much is bought
  // ---------------------------------------------------------------------------

  /** A market order follows only a refused limit, or one that was polled out and cancelled: never an
      unanswered placement, a failed poll, an interruption or a failed cancel. */
  lemma MarketOnlyWhenSettled(quantity: Decimal, w: World)
    requires Outcome(quantity, w).WithMarket?
    ensures w.placement == Rejected || (w.placement == Accepted && Polled(w, 0).TimedOut? && w.cancelling.Cancelled?)
  {}

  /** The text that decides the remainder: the cancel's quantity, or the last poll's if it gives none. */
  function DecidingText(w: World): string
    requires Polled(w, 0).TimedOut? && w.cancelling.Cancelled?
  {
    if w.cancelling.executed != "" then w.cancelling.executed else Polled(w, 0).executed
  }

  /** A text that states less than was filled: none at all, none that parses, or a smaller number. */
  ghost predicate Understates(text: string, actual: real) {
    if Text.TrimSpace(text) == "" || DecimalText.Parse(text).Err? then actual > 0.0
    else Val(DecimalText.Parse(text).value) < actual
  }

  /** Limit fills and market remainder exceed the request exactly when the exchange refused an order that
      filled, or answered the cancel, or failing that the last poll, with less than was filled. */
  lemma OverfillExactly(quantity: Decimal, w: World)
    requires Outcome(quantity, w).WithMarket?
    ensures Val(Outcome(quantity, w).quantity) > 0.0
    ensures w.placement == Accepted ==> Polled(w, 0).TimedOut? && w.cancelling.Cancelled?
    ensures Val(w.actual) + Val(Outcome(quantity, w).quantity) > Val(quantity) <==>
              if w.placement == Rejected then Val(w.actual) > 0.0 else Understates(DecidingText(w), Val(w.actual))
  {
    hide Val, Sub, IsPositive, DecimalText.Parse, Text.TrimSpace;
    AddIsExact(quantity, Believed(w));
    CmpIsExact(Sub(quantity, Believed(w)), ZERO);
    ZeroValue();
  }

  // ---------------------------------------------------------------------------
  // How an entry ends
  // ---------------------------------------------------------------------------

  /** Poll i says nothing that ends the waiting. */
  predicate GoesOn(w: World, i: nat) {
    w.polls(i).PollStatus? && !w.polls(i).filled && i < w.deadlineAt && !w.interrupted(i)
  }

  /** Poll n is the one the waiting ends with. */
  ghost predicate EndsWith(w: World, n: nat) {
    !GoesOn(w, n) && forall i :: 0 <= i < n ==> GoesOn(w, i)
  }

  /** What a text says was filled: a blank or malformed one says nothing. */
  function Amount(text: string): Decimal {
    if Text.TrimSpace(text) == "" || DecimalText.Parse(text).Err? then ZERO else DecimalText.Parse(text).value
  }

  /** What is left of the request is bought at market, if anything is. */
  ghost predicate BuysRest(quantity: Decimal, filled: Decimal, entry: Entry) {
    if Val(quantity) > Val(filled) then entry.WithMarket? && Val(entry.quantity) == Val(quantity) - Val(filled) else entry == LimitOnly
  }

  /** An accepted limit order: aborted by a failed poll, by the caller or by a failed cancel, complete when the
      exchange says so, and else topped up at market when the time is over. */
  ghost predicate AcceptedEnds(quantity: Decimal, w: World, n: nat, entry: Entry) {
    match w.polls(n)
    case PollFailed => entry == Aborted
    case PollStatus(filled, executed) =>
      if filled then entry == LimitOnly
      else if n < w.deadlineAt then w.interrupted(n) && entry == Aborted
      else match w.cancelling
        case CancelFailed => entry == Aborted
        case Cancelled(cancelled) => BuysRest(quantity, Amount(if cancelled != "" then cancelled else executed), entry)
  }

  /** How an entry ends, by what the exchange answers: without an answer it is left alone, after a refusal the
      whole request is bought at market. */
  lemma OutcomeMeaning(quantity: Decimal, w: World)
    ensures w.placement == Unanswered ==> Outcome(quantity, w) == Aborted
    ensures w.placement == Rejected ==> BuysRest(quantity, ZERO, Outcome(quantity, w))
    ensures w.placement == Accepted ==> exists n: nat :: EndsWith(w, n) && AcceptedEnds(quantity, w, n, Outcome(quantity, w))
  {
    hide Val, Sub, IsPositive, DecimalText.Parse, Text.TrimSpace;
    RestIs(quantity, ZERO);
    if w.placement == Accepted {
      var n := LastPoll(w, 0);
      if w.polls(n).PollStatus? && w.cancelling.Cancelled? {
        RestIs(quantity, Amount(if w.cancelling.executed != "" then w.cancelling.executed else w.polls(n).executed));
      }
      assert AcceptedEnds(quantity, w, n, Outcome(quantity, w));
    }
  }

  lemma RestIs(quantity: Decimal, filled: Decimal)
    ensures BuysRest(quantity, filled, Remainder(quantity, filled))
  {
    hide Val, Sub, Cmp;
    AddIsExact(quantity, filled);
    CmpIsExact(Sub(quantity, filled), ZERO);
    ZeroValue();
  }

  /** The poll the waiting ends with, and what it ends with. */
  lemma {:induction false} LastPoll(w: World, i: nat) returns (n: nat)
    requires forall j :: 0 <= j < i ==> GoesOn(w, j)
    ensures EndsWith(w, n)
    ensures Polled(w, i) == match w.polls(n)
              case PollFailed => Broken
              case PollStatus(filled, executed) => if filled then AllFilled else if n < w.deadlineAt then Broken else TimedOut(executed)
    decreases w.deadlineAt - i
  {
    if GoesOn(w, i) {
      n := LastPoll(w, i + 1);
    } else {
      n := i;
    }
  }

  lemma ZeroValue()
    ensures Val(ZERO) == 0.0
  {}

  /** The exchange as documented: a refused order fills nothing, a filled one everything, and a
      cancellation states the executed total. */
  ghost predicate Honest(quantity: Decimal, w: World) {
    && 0.0 <= Val(w.actual) <= Val(quantity)
    && (w.placement == Rejected ==> Val(w.actual) == 0.0)
    && (w.placement == Accepted && Polled(w, 0) == AllFilled ==> Val(w.actual) == Val(quantity))
    && (w.placement == Accepted && w.cancelling.Cancelled? ==>
          Text.TrimSpace(w.cancelling.executed) != ""
          && DecimalText.Parse(w.cancelling.executed).Ok?
          && Val(DecimalText.Parse(w.cancelling.executed).value) == Val(w.actual))
  }

  /** With such an exchange a finished entry holds exactly the requested quantity. */
  lemma NeverOverfills(quantity: Decimal, w: World)
    requires Honest(quantity, w)
    ensures var e := Outcome(quantity, w);
            && (e == LimitOnly ==> Val(w.actual) == Val(quantity))
            && (e.WithMarket? ==> Val(w.actual) + Val(e.quantity) == Val(quantity))
  {
    hide Val, Sub, IsPositive, DecimalText.Parse, Text.TrimSpace;
    BlankTrims();
    AddIsExact(quantity, Believed(w));
    CmpIsExact(Sub(quantity, Believed(w)), ZERO);
    ZeroValue();
  }

  lemma BlankTrims()
    ensures Text.TrimSpace("") == ""
  {}

  const TWO := Decimal(2, 0)
  const ONE := Decimal(1, 0)

  /** The last poll says nothing is filled, one unit fills before the cancel, and the cancel answers
      without a quantity. */
  function Silent(): World {
    World(Accepted, i => PollStatus(false, ""), 0, i => false, Cancelled(""), ONE)
  }

  lemma SilentIsBelieved()
    ensures Polled(Silent(), 0) == TimedOut("") && Believed(Silent()) == ZERO && Silent().actual == ONE
    ensures Outcome(TWO, Silent()) == Remainder(TWO, ZERO)
  {
    assert Silent().polls(0) == PollStatus(false, "");
    BlankIsNothing();
    hide Executed;
  }

  /** Then three units are bought for an order of two. */
  lemma OverfillsOnSilence()
    ensures Outcome(TWO, Silent()).WithMarket?
    ensures Val(Silent().actual) + Val(Outcome(TWO, Silent()).quantity) > Val(TWO)
  {
    hide Val, Sub, IsPositive, Believed, Polled, Outcome, Silent;
    SilentIsBelieved();
    AddIsExact(TWO, ZERO);
    CmpIsExact(Sub(TWO, ZERO), ZERO);
    ZeroValue();
    RatioOfOne();
    OverfillExactly(TWO, Silent());
  }

  lemma RatioOfOne()
    ensures Val(ONE) == 1.0 && Val(TWO) == 2.0
  {
    R.RatioIs(1, 1, 1.0);
    R.RatioIs(2, 1, 2.0);
  }
}
