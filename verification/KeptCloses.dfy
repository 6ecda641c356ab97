/** A run in which every call works: a mission is prepared, confirmed and filled, its close falls due, is
    claimed, ordered and filled, and the journal holds the loss. */
module KeptCloses {
  import opened Common
  import opened Decimals
  import opened Protocol
  import opened LostCloses
  import Text
  import R = Rationals
  import C = Confirmations
  import S = ScheduledCloses
  import J = Journal

  // ---------------------------------------------------------------------------
  // The steps of this run
  // ---------------------------------------------------------------------------

  lemma Records(s: State, p: Pid, ch: Choice)
    requires CanStep(s, p, ch) && s.procs[p].Record?
    ensures Enabled(s, Advance(p, ch))
    ensures Next(s, Advance(p, ch)) == RecordStep(s, p, s.procs[p].c, s.procs[p].user, s.procs[p].caller, s.procs[p].result, ch)
  {}

  lemma Arms(s: State, p: Pid, ch: Choice)
    requires CanStep(s, p, ch) && s.procs[p].Activate?
    ensures Enabled(s, Advance(p, ch))
    ensures Next(s, Advance(p, ch)) == ActivateStep(s, p, s.procs[p].c, ch)
  {}

  lemma Claims(s: State, p: Pid, ch: Choice)
    requires CanStep(s, p, ch) && s.procs[p].ClaimRow?
    ensures Enabled(s, Advance(p, ch))
    ensures Next(s, Advance(p, ch)) == ClaimStep(s, p, s.procs[p].row, s.procs[p].now, ch)
  {}

  lemma Orders(s: State, p: Pid, ch: Choice)
    requires CanStep(s, p, ch) && s.procs[p].Held?
    ensures Enabled(s, Advance(p, ch))
    ensures Next(s, Advance(p, ch)) == HeldStep(s, p, s.procs[p].row, s.procs[p].stamp, ch)
  {}

  lemma Looks(s: State, p: Pid, ch: Choice)
    requires CanStep(s, p, ch) && s.procs[p].ClosePrepared?
    ensures Enabled(s, Advance(p, ch))
    ensures Next(s, Advance(p, ch)) == ClosePreparedStep(s, p, s.procs[p].row, s.procs[p].c, s.procs[p].stamp, ch)
  {}

  lemma Ends(s: State, p: Pid, ch: Choice)
    requires CanStep(s, p, ch) && s.procs[p].Finish?
    ensures Enabled(s, Advance(p, ch))
    ensures Next(s, Advance(p, ch)) == FinishStep(s, p, s.procs[p].row, s.procs[p].status, s.procs[p].confirmation, ch)
  {}

  // ---------------------------------------------------------------------------
  // Its states
  // ---------------------------------------------------------------------------

  const EXIT := Decimal(101, 0)
  const PNL := Decimal(-5, 0)
  const LOSS := C.ExecutionResult("live", "", "", "", "", ZERO, EXIT, PNL)

  function Pick(branch: nat, newId: Id, hit: Option<Id>): Choice {
    Choice(false, true, 0, 10, newId, hit, branch, TEMPLATE, LOSS, J.CloseUpdate("", ZERO, ZERO, 0))
  }

  const ENTRY := C.Confirmation(1, C.OpenEntry, C.ConfirmKey(0), C.Executed, C.TERMINAL_RETENTION, Some(C.ToDoc(FILLED)))
  const FILLED_STATE := CONFIRMED.(confs := map[0 := ENTRY], procs := map[1 := Record(0, 1, ByUser, FILLED)])
  const ENTRY_RETURNED := TakenLog(1).(returned := {FILLED})
  const JOURNALLED := FILLED_STATE.(confLog := map[0 := ENTRY_RETURNED], journal := map[0 := J.Opened("live")], procs := map[1 := Activate(0)])
  const ARMED_ROW := ROW.(status := S.Pending, dueAt := 0, updatedAt := 0)
  const ARMED_LOG := NOT_YET.(activatedAt := Some(0))
  const PROTECTED := JOURNALLED.(closes := map[0 := ARMED_ROW], closeLog := map[0 := ARMED_LOG], procs := map[])
  const POLLED := PROTECTED.(procs := map[2 := ClaimRow(0, 0)], nextPid := 3)
  const CLAIMED_LOG := ARMED_LOG.(claims := [Claim(2, 0, 0)])
  const CLAIMED_ROW := PROTECTED.(
    closes := map[0 := ARMED_ROW.(status := S.Executing)], closeLog := map[0 := CLAIMED_LOG], procs := map[2 := Held(0, 0)], nextPid := 3)

  function Order(status: C.Status): C.Confirmation {
    C.Confirmation(1, C.CloseOrder(Some(0)), C.ConfirmKey(1), status, 10, None)
  }

  const ORDER_LOG := NewLog(TimedClose(0, 2))
  const TAKEN_ORDER := ORDER_LOG.(taker := Some(2), takes := 1)
  const BY_ROW := ByClose(0, 0)

  /** Entry and order with their logs, and the poller that works on the order. */
  function With(base: State, e: C.Confirmation, l: ConfirmationLog, order: C.Confirmation, log: ConfirmationLog, pc: Pc): State {
    base.(confs := map[0 := e, 1 := order], confLog := map[0 := l, 1 := log], procs := map[2 := pc])
  }

  function Ordered(order: C.Confirmation, log: ConfirmationLog, pc: Pc): State {
    With(CLAIMED_ROW, ENTRY, ENTRY_RETURNED, order, log, pc)
  }

  const ORDERED := Ordered(Order(C.Pending), ORDER_LOG, ClosePrepared(0, 1, 0))
  const TAKES := Ordered(Order(C.Pending), ORDER_LOG, Take(1, 1, BY_ROW))
  const CALLS := Ordered(Order(C.Executing), TAKEN_ORDER, Call(1, 1, BY_ROW))
  const SETTLES := Ordered(Order(C.Executing), TAKEN_ORDER.(calls := 1), Settle(1, 1, BY_ROW, Some(LOSS)))
  const DONE_ORDER := Order(C.Executed).(result := Some(C.ToDoc(LOSS)), expiresAt := C.TERMINAL_RETENTION)
  const RECORDS := Ordered(DONE_ORDER, TAKEN_ORDER.(calls := 1), Record(1, 1, BY_ROW, LOSS))
  const LOST_TRADE := J.Trade("live", J.Loss, EXIT, PNL, 0)
  const ENDS := Ordered(DONE_ORDER, TAKEN_ORDER.(calls := 1, returned := {LOSS}), Finish(0, 0, S.Done, Some(1))).(
    journal := map[0 := LOST_TRADE])

  // ---------------------------------------------------------------------------
  // The run
  // ---------------------------------------------------------------------------

  lemma EntryFills()
    ensures Reachable(FILLED_STATE)
  {
    hide Next, Enabled, AdvanceStep, Reachable, C.ToDoc;
    Confirmed();
    var ch := Pick(0, 0, None);
    assert !Overdue(CONFIRMED, 0);
    Completes(CONFIRMED, 1, ch);
    Moves(CONFIRMED, Advance(1, ch), FILLED_STATE);
  }

  lemma EntryIsJournalled()
    ensures Reachable(JOURNALLED)
  {
    hide Next, Enabled, AdvanceStep, Reachable, C.ToDoc, Journalled;
    EntryFills();
    RowOpens();
    var ch := Pick(0, 0, None);
    assert TakenLog(1).returned + {FILLED} == {FILLED};
    assert FILLED_STATE.confLog[0 := ENTRY_RETURNED] == map[0 := ENTRY_RETURNED];
    Records(FILLED_STATE, 1, ch);
    Moves(FILLED_STATE, Advance(1, ch), JOURNALLED);
  }

  lemma RowOpens()
    ensures Journalled(map[], 0, C.OpenEntry, FILLED, 0) == map[0 := J.Opened("live")]
  {
    LiveIsLive();
    hide IsDryRun;
  }

  lemma RowCloses()
    ensures Journalled(map[0 := J.Opened("live")], 1, C.CloseOrder(Some(0)), LOSS, 0) == map[0 := LOST_TRADE]
  {
    hide Val, J.OutcomeOf;
    J.OutcomeIsSign(PNL);
    LossIsNegative();
  }

  lemma LossIsNegative()
    ensures Val(PNL) < 0.0
  {
    R.RatioIs(-5, 1, -5.0);
  }

  lemma LiveIsLive()
    ensures !IsDryRun("live")
  {
    Text.TrimNothing("live");
    hide Text.TrimSpace;
    assert Text.Lower("live")[0] == 'l';
  }

  lemma CloseIsArmed()
    ensures Reachable(PROTECTED)
  {
    hide Next, Enabled, AdvanceStep, Reachable, C.ToDoc;
    EntryIsJournalled();
    var ch := Pick(0, 0, Some(0));
    Arms(JOURNALLED, 1, ch);
    Moves(JOURNALLED, Advance(1, ch), PROTECTED);
  }

  lemma CloseIsPolled()
    ensures Reachable(POLLED)
  {
    hide AdvanceStep, Reachable, C.ToDoc;
    CloseIsArmed();
    Moves(PROTECTED, StartPoll(0, 0), POLLED);
  }

  lemma CloseIsClaimed()
    ensures Reachable(CLAIMED_ROW)
  {
    hide Next, Enabled, AdvanceStep, Reachable, C.ToDoc;
    CloseIsPolled();
    var ch := Pick(0, 0, None);
    assert ARMED_LOG.claims + [Claim(2, 0, 0)] == [Claim(2, 0, 0)];
    Claims(POLLED, 2, ch);
    Moves(POLLED, Advance(2, ch), CLAIMED_ROW);
  }

  lemma Preparing(base: State, e: C.Confirmation, l: ConfirmationLog, ch: Choice)
    requires base.confs == map[0 := e] && base.confLog == map[0 := l] && base.procs == map[2 := Held(0, 0)]
    requires ch.branch == 2 && !ch.fail && ch.newId == 1 && e.idempotencyKey != C.ConfirmKey(1)
    requires 0 in base.closes && base.closes[0].userId == 1 && base.closes[0].entry == 0
    ensures HeldStep(base, 2, 0, 0, ch)
         == With(base, e, l, C.Confirmation(1, C.CloseOrder(Some(0)), C.ConfirmKey(1), C.Pending, ch.expiresAt, None), ORDER_LOG,
                 ClosePrepared(0, 1, 0))
  {
    hide Put, Goto, C.KeyTaken;
    FreeKey(e);
    var d := C.Confirmation(1, C.CloseOrder(Some(0)), C.ConfirmKey(1), C.Pending, ch.expiresAt, None);
    PutSecond(base, e, l, d);
    Stand(Put(base, 1, d, TimedClose(0, 2)), ClosePrepared(0, 1, 0));
  }

  lemma FreeKey(e: C.Confirmation)
    requires e.idempotencyKey != C.ConfirmKey(1)
    ensures !C.KeyTaken(map[0 := e], C.ConfirmKey(1))
  {}

  lemma PutSecond(base: State, e: C.Confirmation, l: ConfirmationLog, d: C.Confirmation)
    requires base.confs == map[0 := e] && base.confLog == map[0 := l]
    ensures Put(base, 1, d, TimedClose(0, 2)) == base.(confs := map[0 := e, 1 := d], confLog := map[0 := l, 1 := ORDER_LOG])
  {}

  lemma Stand(s: State, pc: Pc)
    requires s.procs.Keys == {2}
    ensures Goto(s, 2, pc) == s.(procs := map[2 := pc])
  {}

  lemma OrderIsPrepared()
    ensures Reachable(ORDERED)
  {
    hide Next, Enabled, AdvanceStep, Reachable, C.ToDoc, HeldStep;
    CloseIsClaimed();
    var ch := Pick(2, 1, None);
    Preparing(CLAIMED_ROW, ENTRY, ENTRY_RETURNED, ch);
    Orders(CLAIMED_ROW, 2, ch);
    Moves(CLAIMED_ROW, Advance(2, ch), ORDERED);
  }

  /** The order's document or log replaced beside the entry's. */
  lemma SecondSet<T>(a: T, b: T, c: T)
    ensures map[0 := a, 1 := b][1 := c] == map[0 := a, 1 := c]
  {}

  lemma OrderIsLookedAt()
    ensures Reachable(TAKES)
  {
    hide Next, Enabled, AdvanceStep, Reachable, C.ToDoc;
    OrderIsPrepared();
    var ch := Pick(2, 0, None);
    Looks(ORDERED, 2, ch);
    Moves(ORDERED, Advance(2, ch), TAKES);
  }

  lemma Taking(base: State, e: C.Confirmation, l: ConfirmationLog, d: C.Confirmation, k: ConfirmationLog, ch: Choice)
    requires d.userId == 1 && d.status == C.Pending && d.expiresAt > ch.now && !ch.fail
    ensures TakeStep(With(base, e, l, d, k, Take(1, 1, BY_ROW)), 2, 1, 1, BY_ROW, ch)
         == With(base, e, l, d.(status := C.Executing), k.(taker := Some(2), takes := k.takes + 1), Call(1, 1, BY_ROW))
  {
    SecondSet(e, d, d.(status := C.Executing));
    SecondSet(l, k, k.(taker := Some(2), takes := k.takes + 1));
  }

  lemma OrderIsTaken()
    ensures Reachable(CALLS)
  {
    hide Next, Enabled, AdvanceStep, Reachable, C.ToDoc, TakeStep;
    OrderIsLookedAt();
    var ch := Pick(2, 0, None);
    Taking(CLAIMED_ROW, ENTRY, ENTRY_RETURNED, Order(C.Pending), ORDER_LOG, ch);
    Takes(TAKES, 2, ch);
    Moves(TAKES, Advance(2, ch), CALLS);
  }

  lemma Calling(base: State, e: C.Confirmation, l: ConfirmationLog, d: C.Confirmation, k: ConfirmationLog, ch: Choice)
    requires ch.branch >= 2
    ensures CallStep(With(base, e, l, d, k, Call(1, 1, BY_ROW)), 2, 1, 1, BY_ROW, ch)
         == With(base, e, l, d, k.(calls := k.calls + 1), Settle(1, 1, BY_ROW, Some(ch.result)))
  {
    SecondSet(l, k, k.(calls := k.calls + 1));
  }

  lemma OrderIsSent()
    ensures Reachable(SETTLES)
  {
    hide Next, Enabled, AdvanceStep, Reachable, C.ToDoc, CallStep;
    OrderIsTaken();
    var ch := Pick(2, 0, None);
    Calling(CLAIMED_ROW, ENTRY, ENTRY_RETURNED, Order(C.Executing), TAKEN_ORDER, ch);
    Calls(CALLS, 2, ch);
    Moves(CALLS, Advance(2, ch), SETTLES);
  }

  lemma Filling(base: State, e: C.Confirmation, l: ConfirmationLog, d: C.Confirmation, k: ConfirmationLog, r: C.ExecutionResult, ch: Choice)
    requires d.status == C.Executing && !k.late && !ch.fail && forall q :: q in base.closes ==> base.closes[q].entry != 1
    ensures CompleteStep(With(base, e, l, d, k, Settle(1, 1, BY_ROW, Some(r))), 2, 1, 1, BY_ROW, r, ch)
         == With(base, e, l, d.(status := C.Executed, result := Some(C.ToDoc(r)), expiresAt := ch.now + C.TERMINAL_RETENTION), k,
                 Record(1, 1, BY_ROW, r))
  {
    hide C.ToDoc, ConfirmFailed, Goto;
    var s := With(base, e, l, d, k, Settle(1, 1, BY_ROW, Some(r)));
    assert !Overdue(s, 1);
    hide Overdue;
    SecondSet(e, d, d.(status := C.Executed, result := Some(C.ToDoc(r)), expiresAt := ch.now + C.TERMINAL_RETENTION));
    SecondSet(l, k, k);
    Stand(s.(confs := C.Completed(s.confs, 1, r, ch.now)), Record(1, 1, BY_ROW, r));
  }

  lemma OrderFills()
    ensures Reachable(RECORDS)
  {
    hide Next, Enabled, AdvanceStep, Reachable, C.ToDoc, CompleteStep;
    OrderIsSent();
    var ch := Pick(2, 0, None);
    Filling(CLAIMED_ROW, ENTRY, ENTRY_RETURNED, Order(C.Executing), TAKEN_ORDER.(calls := 1), LOSS, ch);
    Completes(SETTLES, 2, ch);
    Moves(SETTLES, Advance(2, ch), RECORDS);
  }

  lemma Recorded(base: State, e: C.Confirmation, l: ConfirmationLog, d: C.Confirmation, k: ConfirmationLog, r: C.ExecutionResult, ch: Choice)
    requires k.returned == {} && !ch.fail
    ensures RecordStep(With(base, e, l, d, k, Record(1, 1, BY_ROW, r)), 2, 1, 1, BY_ROW, r, ch)
         == With(base, e, l, d, k.(returned := {r}), Finish(0, 0, S.Done, Some(1))).(
              journal := Journalled(base.journal, 1, d.intent, r, ch.now))
  {
    hide Journalled, ConfirmOk;
    assert k.returned + {r} == {r};
    SecondSet(l, k, k.(returned := {r}));
    var t := With(base, e, l, d, k.(returned := {r}), Record(1, 1, BY_ROW, r)).(journal := Journalled(base.journal, 1, d.intent, r, ch.now));
    Returning(t);
  }

  lemma Returning(s: State)
    requires s.procs.Keys == {2}
    ensures ConfirmOk(s, 2, 1, BY_ROW) == s.(procs := map[2 := Finish(0, 0, S.Done, Some(1))])
  {}

  lemma LossIsJournalled()
    ensures Reachable(ENDS)
  {
    hide Next, Enabled, AdvanceStep, Reachable, C.ToDoc, RecordStep, Journalled;
    OrderFills();
    RowCloses();
    var ch := Pick(2, 0, None);
    Recorded(CLAIMED_ROW, ENTRY, ENTRY_RETURNED, DONE_ORDER, TAKEN_ORDER.(calls := 1), LOSS, ch);
    Records(RECORDS, 2, ch);
    Moves(RECORDS, Advance(2, ch), ENDS);
  }

  lemma Ending(s: State, ch: Choice)
    requires 2 in s.procs && |s.procs| == 1 && 0 in s.closes && 0 in s.closeLog && s.closes[0].status == S.Executing && !ch.fail
    ensures var t := FinishStep(s, 2, 0, S.Done, Some(1), ch);
            && t.procs == map[] && 0 in t.closes && t.closes[0].status == S.Done && t.closes[0].confirmation == Some(1)
            && t.confs == s.confs && t.journal == s.journal
  {
    assert s.procs.Keys == {2} by {
      assert |s.procs.Keys - {2}| == 0;
    }
  }

  /** At the end the close is done with the order it sent, and the entry's row holds that order's loss. */
  lemma MissionEndsInLoss()
    ensures exists s ::
              && Reachable(s) && s.procs == map[] && 0 in s.closes && 0 in s.journal && 1 in s.confs
              && s.closes[0].status == S.Done && s.closes[0].confirmation == Some(1)
              && s.confs[1].userId == 1 && s.confs[1].intent == C.CloseOrder(Some(0)) && s.confs[1].status == C.Executed
              && s.journal[0] == J.Trade("live", J.Loss, Decimal(101, 0), Decimal(-5, 0), 0)
  {
    hide Next, Enabled, AdvanceStep, Reachable, C.ToDoc, FinishStep;
    LossIsJournalled();
    var ch := Pick(2, 0, None);
    assert |ENDS.procs| == 1;
    Ending(ENDS, ch);
    Ends(ENDS, 2, ch);
    Step(ENDS, Advance(2, ch));
    var t := Next(ENDS, Advance(2, ch));
    assert t.procs == map[] && t.closes[0].status == S.Done;
  }
}
