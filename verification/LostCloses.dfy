/** Runs that lose a close: each of the three causes of NoLostClose occurs, and so do a failed write,
    a stopped process and a write still to come after the exchange filled the entry. */
module LostCloses {
  import opened Common
  import opened Decimals
  import opened Protocol
  import opened ProtocolEvents
  import C = Confirmations
  import S = ScheduledCloses
  import A = ArmedMissions
  import J = Journal

  predicate Works(a: Action) {
    a.Advance? ==> !a.ch.fail
  }

  /** Reachable by a run in which every call works. */
  ghost predicate Reachable(s: State) {
    exists run :: Reaches(run, s) && forall i :: 0 <= i < |run| ==> Works(run[i])
  }

  /** Reachable by a run in which calls may fail. */
  ghost predicate ReachableFailing(s: State) {
    exists run :: Reaches(run, s)
  }

  ghost predicate Reaches(run: seq<Action>, s: State) {
    Legal(INIT, run) && Outcome(INIT, run) == s
  }

  lemma {:induction false} OneMore(s: State, run: seq<Action>, a: Action)
    requires Legal(s, run) && Enabled(Outcome(s, run), a)
    ensures Legal(s, run + [a]) && Outcome(s, run + [a]) == Next(Outcome(s, run), a)
    decreases |run|
  {
    hide Enabled, Next;
    if run == [] {
      assert run + [a] == [a];
      assert [a][1..] == [];
    } else {
      OneMore(Next(s, run[0]), run[1..], a);
      assert (run + [a])[1..] == run[1..] + [a];
    }
  }

  lemma Step(s: State, a: Action)
    requires Reachable(s) && Enabled(s, a) && Works(a)
    ensures Reachable(Next(s, a))
  {
    hide Enabled, Next, Works;
    var run :| Reaches(run, s) && forall i :: 0 <= i < |run| ==> Works(run[i]);
    OneMore(INIT, run, a);
    assert Reaches(run + [a], Next(s, a));
  }

  lemma FailingStep(s: State, a: Action)
    requires ReachableFailing(s) && Enabled(s, a)
    ensures ReachableFailing(Next(s, a))
  {
    hide Enabled, Next;
    var run :| Reaches(run, s);
    OneMore(INIT, run, a);
    assert Reaches(run + [a], Next(s, a));
  }

  lemma ReachedFailing(s: State)
    requires Reachable(s)
    ensures ReachableFailing(s)
  {
    hide Reaches;
  }

  lemma Moves(s: State, a: Action, t: State)
    requires Reachable(s) && Enabled(s, a) && Works(a) && Next(s, a) == t
    ensures Reachable(t)
  {
    hide *;
    Step(s, a);
  }

  /** Process p may take its step with these choices. */
  ghost predicate CanStep(s: State, p: Pid, ch: Choice) {
    p in s.procs && ch.now <= s.clock && HonestHit(s, s.procs[p], ch)
  }

  lemma Attaches(s: State, p: Pid, ch: Choice)
    requires CanStep(s, p, ch) && s.procs[p].AttachClose?
    ensures Enabled(s, Advance(p, ch))
    ensures Next(s, Advance(p, ch)) == AttachCloseStep(s, p, s.procs[p].c, ch)
  {}

  lemma Takes(s: State, p: Pid, ch: Choice)
    requires CanStep(s, p, ch) && s.procs[p].Take?
    ensures Enabled(s, Advance(p, ch))
    ensures Next(s, Advance(p, ch)) == TakeStep(s, p, s.procs[p].c, s.procs[p].user, s.procs[p].caller, ch)
  {}

  lemma TakeReads(s: State, p: Pid, ch: Choice)
    requires CanStep(s, p, ch) && s.procs[p].TakeRead?
    ensures Enabled(s, Advance(p, ch))
    ensures Next(s, Advance(p, ch)) == TakeReadStep(s, p, s.procs[p].c, s.procs[p].user, s.procs[p].now, s.procs[p].caller, ch)
  {}

  lemma Calls(s: State, p: Pid, ch: Choice)
    requires CanStep(s, p, ch) && s.procs[p].Call?
    ensures Enabled(s, Advance(p, ch))
    ensures Next(s, Advance(p, ch)) == CallStep(s, p, s.procs[p].c, s.procs[p].user, s.procs[p].caller, ch)
  {}

  lemma Completes(s: State, p: Pid, ch: Choice)
    requires CanStep(s, p, ch) && s.procs[p].Settle? && s.procs[p].outcome.Some?
    ensures Enabled(s, Advance(p, ch))
    ensures Next(s, Advance(p, ch)) == CompleteStep(s, p, s.procs[p].c, s.procs[p].user, s.procs[p].caller, s.procs[p].outcome.value, ch)
  {}

  lemma Drops(s: State, p: Pid, ch: Choice)
    requires CanStep(s, p, ch) && s.procs[p].Drop?
    ensures Enabled(s, Advance(p, ch))
    ensures Next(s, Advance(p, ch)) == DropStep(s, p, s.procs[p].c, s.procs[p].user, s.procs[p].cause, ch)
  {}

  lemma Reconciles(s: State, p: Pid, ch: Choice)
    requires CanStep(s, p, ch) && s.procs[p].Reconcile?
    ensures Enabled(s, Advance(p, ch))
    ensures Next(s, Advance(p, ch)) == ReconcileStep(s, p, s.procs[p].row, s.procs[p].c, s.procs[p].now, ch)
  {}

  lemma Triggers(s: State, p: Pid, ch: Choice)
    requires CanStep(s, p, ch) && s.procs[p].Trigger?
    ensures Enabled(s, Advance(p, ch))
    ensures Next(s, Advance(p, ch)) == TriggerStep(s, p, s.procs[p].m, s.procs[p].now, ch)
  {}

  lemma Prepares(s: State, p: Pid, ch: Choice)
    requires CanStep(s, p, ch) && s.procs[p].PrepareEntry?
    ensures Enabled(s, Advance(p, ch))
    ensures Next(s, Advance(p, ch)) == PrepareEntryStep(s, p, s.procs[p].m, ch)
  {}

  lemma Notes(s: State, p: Pid, ch: Choice)
    requires CanStep(s, p, ch) && s.procs[p].RecordEntry?
    ensures Enabled(s, Advance(p, ch))
    ensures Next(s, Advance(p, ch)) == RecordEntryStep(s, p, s.procs[p].m, s.procs[p].c, ch)
  {}

  lemma Protects(s: State, p: Pid, ch: Choice)
    requires CanStep(s, p, ch) && s.procs[p].AttachEntryClose?
    ensures Enabled(s, Advance(p, ch))
    ensures Next(s, Advance(p, ch)) == AttachEntryCloseStep(s, p, s.procs[p].m, s.procs[p].c, ch)
  {}

  const TEMPLATE := S.ScheduledClose(1, "", "", 0, 0, 0, S.AwaitingEntry, None, 0, 0, None)
  const FILLED := C.ExecutionResult("live", "", "", "", "", ZERO, ZERO, ZERO)
  const LATER := S.AWAITING_TTL + 1

  function Choose(now: Time, branch: nat, hit: Option<Id>, fail: bool): Choice {
    Choice(fail, true, now, 10, 0, hit, branch, TEMPLATE, FILLED, J.CloseUpdate("", ZERO, ZERO, 0))
  }
  const ROW := TEMPLATE.(userId := 1)
  const NOT_YET := CloseLog(None, [], 0, None)

  function Entry(status: C.Status): C.Confirmation {
    C.Confirmation(1, C.OpenEntry, C.ConfirmKey(0), status, 10, None)
  }

  /** A prepared mission with its awaiting close, before anybody confirms it. */
  const PREPARED := INIT.(
    confs := map[0 := Entry(C.Pending)], confLog := map[0 := NewLog(MissionPage(0))],
    closes := map[0 := ROW], closeLog := map[0 := NOT_YET], nextPid := 1)

  const MISSION := StartMission(0, 1, 10)
  const STARTED := INIT.(confs := map[0 := Entry(C.Pending)], confLog := map[0 := NewLog(MissionPage(0))],
                         procs := map[0 := AttachClose(0)], nextPid := 1)

  lemma Start()
    ensures Reachable(STARTED)
  {
    hide AdvanceStep;
    assert Reaches([], INIT);
    assert Enabled(INIT, MISSION) && Next(INIT, MISSION) == STARTED;
    Step(INIT, MISSION);
  }

  lemma Prepare()
    ensures Reachable(PREPARED)
  {
    hide Next, Enabled, AdvanceStep, Reachable;
    Start();
    var ch := Choose(0, 0, None, false);
    Attaches(STARTED, 0, ch);
    Moves(STARTED, Advance(0, ch), PREPARED);
  }

  /** The user's confirm has taken the entry and is about to call the exchange. */
  function Taken(clock: Time, procs: map<Pid, Pc>, log: ConfirmationLog): State {
    PREPARED.(clock := clock, confs := map[0 := Entry(C.Executing)], confLog := map[0 := log], procs := procs, nextPid := 2)
  }

  function TakenLog(calls: nat): ConfirmationLog {
    NewLog(MissionPage(0)).(taker := Some(1), takes := 1, calls := calls)
  }

  const SETTLING := Settle(0, 1, ByUser, Some(FILLED))
  const CONFIRMED := Taken(0, map[1 := SETTLING], TakenLog(1))

  const ASKED := PREPARED.(procs := map[1 := Take(0, 1, ByUser)], nextPid := 2)
  const CALLING := Taken(0, map[1 := Call(0, 1, ByUser)], TakenLog(0))

  lemma UserAsks()
    ensures Reachable(ASKED)
  {
    hide AdvanceStep, Reachable;
    Prepare();
    Moves(PREPARED, StartConfirm(0, 1), ASKED);
  }

  lemma UserTakes()
    ensures Reachable(CALLING)
  {
    hide Next, Enabled, AdvanceStep, Reachable;
    UserAsks();
    var ch := Choose(0, 2, None, false);
    Takes(ASKED, 1, ch);
    Moves(ASKED, Advance(1, ch), CALLING);
  }

  lemma Confirmed()
    ensures Reachable(CONFIRMED)
  {
    hide Next, Enabled, AdvanceStep, Reachable;
    UserTakes();
    var ch := Choose(0, 2, None, false);
    Calls(CALLING, 1, ch);
    Moves(CALLING, Advance(1, ch), CONFIRMED);
  }

  /** Entry 0 executed, its close cancelled. */
  ghost predicate Lost(s: State) {
    0 in s.confs && 0 in s.confLog && s.confs[0].status == C.Executed
    && 0 in s.closes && s.closes[0].entry == 0 && s.closes[0].status == S.Cancelled
  }

  function Dropped(s: State, cause: Cause, now: Time, procs: map<Pid, Pc>): State {
    s.(procs := procs, closes := map[0 := S.Dropped(ROW, now)], closeLog := map[0 := NOT_YET.(cause := Some(cause), terminals := 1)])
  }

  const CANCEL_ASKED := Taken(0, map[1 := SETTLING, 2 := Drop(0, 1, UserCancelled)], TakenLog(1).(userCancel := true)).(nextPid := 3)
  const CANCEL_DROPPED := Dropped(CANCEL_ASKED, UserCancelled, 0, map[1 := SETTLING, 2 := Abandon(0, 1, Stop)])

  lemma CancelAsked()
    ensures Reachable(CANCEL_ASKED)
  {
    Confirmed();
    Moves(CONFIRMED, StartCancel(0, 1), CANCEL_ASKED);
  }

  lemma CancelDrops()
    ensures Reachable(CANCEL_DROPPED)
  {
    hide Next, Enabled, AdvanceStep, Reachable;
    CancelAsked();
    var ch := Choose(0, 0, Some(0), false);
    Drops(CANCEL_ASKED, 2, ch);
    Moves(CANCEL_ASKED, Advance(2, ch), CANCEL_DROPPED);
  }

  /** A user's cancel drops the close before it asks for the confirmation, which executes meanwhile. */
  lemma LostByUserCancel()
    ensures exists s :: Reachable(s) && Lost(s) && s.confLog[0].userCancel && !s.confLog[0].otherConfirm && !s.confLog[0].late
  {
    hide Next, Enabled, AdvanceStep, Reachable;
    CancelDrops();
    var ch := Choose(0, 0, None, false);
    assert !Overdue(CANCEL_DROPPED, 0);
    Completes(CANCEL_DROPPED, 1, ch);
    Step(CANCEL_DROPPED, Advance(1, ch));
    var t := Next(CANCEL_DROPPED, Advance(1, ch));
    assert Lost(t);
  }

  const LATE_LISTED := Taken(LATER, map[1 := SETTLING, 2 := Reconcile(0, 0, LATER)], TakenLog(1)).(nextPid := 3)
  const LATE_STALE := LATE_LISTED.(procs := map[1 := SETTLING, 2 := Drop(0, 1, EntryStale(0))])
  const LATE_DROPPED := Dropped(LATE_STALE, EntryStale(0), 0, map[1 := SETTLING])

  lemma LateListed()
    ensures Reachable(LATE_LISTED)
  {
    Confirmed();
    var late := Taken(LATER, map[1 := SETTLING], TakenLog(1));
    assert Reachable(late) by { Moves(CONFIRMED, Tick(LATER), late); }
    Moves(late, StartReconcile(0, LATER), LATE_LISTED);
  }

  lemma LateStale()
    ensures Reachable(LATE_STALE)
  {
    hide Next, Enabled, AdvanceStep, Reachable;
    LateListed();
    var ch := Choose(0, 0, Some(0), false);
    Reconciles(LATE_LISTED, 2, ch);
    Moves(LATE_LISTED, Advance(2, ch), LATE_STALE);
  }

  lemma LateDropped()
    ensures Reachable(LATE_DROPPED)
  {
    hide Next, Enabled, AdvanceStep, Reachable;
    LateStale();
    var ch := Choose(0, 0, Some(0), false);
    Drops(LATE_STALE, 2, ch);
    Moves(LATE_STALE, Advance(2, ch), LATE_DROPPED);
  }

  /** The entry settles after its awaiting time, when the reconciler has already dropped the close. */
  lemma LostByLateSettlement()
    ensures exists s :: Reachable(s) && Lost(s) && s.confLog[0].late && !s.confLog[0].userCancel && !s.confLog[0].otherConfirm
  {
    hide Next, Enabled, AdvanceStep, Reachable;
    LateDropped();
    var ch := Choose(LATER, 0, None, false);
    assert LATE_DROPPED.closes[0].entry == 0 && LATE_DROPPED.clock > LATE_DROPPED.closes[0].createdAt + S.AWAITING_TTL;
    assert Overdue(LATE_DROPPED, 0);
    Completes(LATE_DROPPED, 1, ch);
    Step(LATE_DROPPED, Advance(1, ch));
    var t := Next(LATE_DROPPED, Advance(1, ch));
    assert Lost(t);
  }

  // ---------------------------------------------------------------------------
  // An armed mission's entry
  // ---------------------------------------------------------------------------

  const ARMED := A.ArmedMission(1, A.Armed, "", 10, 0, None, None, 0)
  const TRIGGERED := A.MarkedTriggered(ARMED, "", 0)
  const CLAIMED := INIT.(missions := map[0 := TRIGGERED], triggerer := map[0 := 0], procs := map[0 := PrepareEntry(0)], nextPid := 1)
  const ENTRY_LOG := NewLog(ArmedEntry(0, 0))

  function ArmedState(status: C.Status, procs: map<Pid, Pc>, log: ConfirmationLog, nextPid: Pid): State {
    INIT.(confs := map[0 := Entry(status).(idempotencyKey := C.ArmedKey(0))], confLog := map[0 := log],
          missions := map[0 := A.Recorded(TRIGGERED, 0, 0)], triggerer := map[0 := 0], procs := procs, nextPid := nextPid)
  }

  function WithClose(s: State): State {
    s.(closes := map[0 := ROW], closeLog := map[0 := NOT_YET])
  }

  const ONE_ARMED := INIT.(missions := map[0 := ARMED])
  const WATCHED := ONE_ARMED.(procs := map[0 := Trigger(0, 0)], nextPid := 1)

  lemma Watched()
    ensures Reachable(WATCHED)
  {
    assert Reaches([], INIT);
    assert Reachable(ONE_ARMED) by { Moves(INIT, Arm(0, 1, 0, 10, 0), ONE_ARMED); }
    Moves(ONE_ARMED, StartWatch(0, 0), WATCHED);
  }

  lemma Claimed()
    ensures Reachable(CLAIMED)
  {
    hide Next, Enabled, AdvanceStep, Reachable;
    Watched();
    var ch := Choose(0, 1, None, false);
    Triggers(WATCHED, 0, ch);
    Moves(WATCHED, Advance(0, ch), CLAIMED);
  }

  const ENTRY_PREPARED := ArmedState(C.Pending, map[0 := RecordEntry(0, 0)], ENTRY_LOG, 1).(missions := map[0 := TRIGGERED])
  const ENTRY_NOTED := ArmedState(C.Pending, map[0 := AttachEntryClose(0, 0)], ENTRY_LOG, 1)

  lemma EntryPrepared()
    ensures Reachable(ENTRY_PREPARED)
  {
    hide Next, Enabled, AdvanceStep, Reachable;
    Claimed();
    var ch := Choose(0, 1, None, false);
    Prepares(CLAIMED, 0, ch);
    Moves(CLAIMED, Advance(0, ch), ENTRY_PREPARED);
  }

  lemma EntryNoted()
    ensures Reachable(ENTRY_NOTED)
  {
    hide Next, Enabled, AdvanceStep, Reachable;
    EntryPrepared();
    var ch := Choose(0, 1, None, false);
    Notes(ENTRY_PREPARED, 0, ch);
    Moves(ENTRY_PREPARED, Advance(0, ch), ENTRY_NOTED);
  }

  const BY_HAND := ENTRY_LOG.(otherConfirm := true)
  const TAKEN_BY_HAND := BY_HAND.(taker := Some(1), takes := 1)
  const CALLED_BY_HAND := TAKEN_BY_HAND.(calls := 1)

  function HandState(trigger: Pc, user: Pc, log: ConfirmationLog): State {
    ArmedState(if log.taker == None then C.Pending else C.Executing, map[0 := trigger, 1 := user], log, 2)
  }

  const HAND_ASKED := HandState(AttachEntryClose(0, 0), Take(0, 1, ByUser), BY_HAND)
  const HAND_CALLING := HandState(AttachEntryClose(0, 0), Call(0, 1, ByUser), TAKEN_BY_HAND)
  const HAND_FILLED := HandState(AttachEntryClose(0, 0), SETTLING, CALLED_BY_HAND)
  const TRIGGER_TAKES := WithClose(HandState(Take(0, 1, ByTrigger), SETTLING, CALLED_BY_HAND))
  const TRIGGER_READS := WithClose(HandState(TakeRead(0, 1, 0, ByTrigger), SETTLING, CALLED_BY_HAND))

  lemma HandAsks()
    ensures Reachable(HAND_ASKED)
  {
    hide AdvanceStep, Reachable;
    EntryNoted();
    Moves(ENTRY_NOTED, StartConfirm(0, 1), HAND_ASKED);
  }

  lemma HandTakes()
    ensures Reachable(HAND_CALLING)
  {
    hide Next, Enabled, AdvanceStep, Reachable;
    HandAsks();
    var ch := Choose(0, 2, None, false);
    Takes(HAND_ASKED, 1, ch);
    Moves(HAND_ASKED, Advance(1, ch), HAND_CALLING);
  }

  lemma HandCalls()
    ensures Reachable(HAND_FILLED)
  {
    hide Next, Enabled, AdvanceStep, Reachable;
    HandTakes();
    var ch := Choose(0, 2, None, false);
    Calls(HAND_CALLING, 1, ch);
    Moves(HAND_CALLING, Advance(1, ch), HAND_FILLED);
  }

  lemma TriggerAttaches()
    ensures Reachable(TRIGGER_TAKES)
  {
    hide Next, Enabled, AdvanceStep, Reachable;
    HandCalls();
    var ch := Choose(0, 1, None, false);
    Protects(HAND_FILLED, 0, ch);
    Moves(HAND_FILLED, Advance(0, ch), TRIGGER_TAKES);
  }

  lemma TriggerReads()
    ensures Reachable(TRIGGER_READS)
  {
    hide Next, Enabled, AdvanceStep, Reachable;
    TriggerAttaches();
    var ch := Choose(0, 1, None, false);
    Takes(TRIGGER_TAKES, 0, ch);
    Moves(TRIGGER_TAKES, Advance(0, ch), TRIGGER_READS);
  }

  const GAVE_UP := WithClose(HandState(Drop(0, 1, TriggerGaveUp), SETTLING, CALLED_BY_HAND))
  const GAVE_UP_DROPPED := Dropped(GAVE_UP, TriggerGaveUp, 0, map[1 := SETTLING])

  lemma TriggerGivesUp()
    ensures Reachable(GAVE_UP)
  {
    hide Next, Enabled, AdvanceStep, Reachable, ConfirmOk, TakeStep, CompleteStep, DropStep;
    TriggerReads();
    var ch := Choose(0, 1, None, false);
    TakeReads(TRIGGER_READS, 0, ch);
    Moves(TRIGGER_READS, Advance(0, ch), GAVE_UP);
  }

  lemma TriggerDrops()
    ensures Reachable(GAVE_UP_DROPPED)
  {
    hide Next, Enabled, AdvanceStep, Reachable;
    TriggerGivesUp();
    var ch := Choose(0, 0, Some(0), false);
    Drops(GAVE_UP, 0, ch);
    Moves(GAVE_UP, Advance(0, ch), GAVE_UP_DROPPED);
  }

  /** A user confirms the entry by hand; the trigger finds it taken, gives up and drops the close; then
      the user's confirm completes. */
  lemma LostByUserConfirm()
    ensures exists s :: Reachable(s) && Lost(s) && s.confLog[0].otherConfirm && !s.confLog[0].userCancel && !s.confLog[0].late
  {
    hide Reaches, Legal, Outcome, AttachCloseStep, AbandonStep, AbandonReadStep, AfterCancel, ExpireConfirmation,
         TakeStep, TakeReadStep, ConfirmFailed, CallStep, FailStep, RecordStep, ActivateStep, DropStep,
         ExpireMissionStep, TriggerStep, PrepareEntryStep, RecordEntryStep, AttachEntryCloseStep, ReconcileStep,
         ClaimStep, HeldStep, ClosePreparedStep, FinishStep, CloseTradeStep;
    hide Next, Enabled, AdvanceStep, Reachable;
    TriggerDrops();
    var ch := Choose(0, 0, None, false);
    assert !Overdue(GAVE_UP_DROPPED, 0);
    Completes(GAVE_UP_DROPPED, 1, ch);
    Step(GAVE_UP_DROPPED, Advance(1, ch));
    var t := Next(GAVE_UP_DROPPED, Advance(1, ch));
    assert Lost(t);
  }

  const TAKEN_BY_TRIGGER := ENTRY_LOG.(taker := Some(0), takes := 1)

  function TriggerState(status: C.Status, pc: Pc, log: ConfirmationLog): State {
    WithClose(ArmedState(status, map[0 := pc], log, 1))
  }

  const ENTRY_TAKES := TriggerState(C.Pending, Take(0, 1, ByTrigger), ENTRY_LOG)
  const ENTRY_CALLS := TriggerState(C.Executing, Call(0, 1, ByTrigger), TAKEN_BY_TRIGGER)

  lemma EntryProtected()
    ensures Reachable(ENTRY_TAKES)
  {
    hide Next, Enabled, AdvanceStep, Reachable;
    EntryNoted();
    var ch := Choose(0, 2, None, false);
    Protects(ENTRY_NOTED, 0, ch);
    Moves(ENTRY_NOTED, Advance(0, ch), ENTRY_TAKES);
  }

  lemma EntryTaken()
    ensures Reachable(ENTRY_CALLS)
  {
    hide Next, Enabled, AdvanceStep, Reachable;
    EntryProtected();
    var ch := Choose(0, 2, None, false);
    Takes(ENTRY_TAKES, 0, ch);
    Moves(ENTRY_TAKES, Advance(0, ch), ENTRY_CALLS);
  }

  const WRITE_FAILED := TriggerState(C.Executing, Drop(0, 1, TriggerGaveUp), TAKEN_BY_TRIGGER.(calls := 1))

  const FILLED_ENTRY := TriggerState(C.Executing, Settle(0, 1, ByTrigger, Some(FILLED)), TAKEN_BY_TRIGGER.(calls := 1))

  lemma EntryFilled()
    ensures Reachable(FILLED_ENTRY)
  {
    hide Next, Enabled, AdvanceStep, Reachable;
    EntryTaken();
    var ch := Choose(0, 2, None, false);
    Calls(ENTRY_CALLS, 0, ch);
    Moves(ENTRY_CALLS, Advance(0, ch), FILLED_ENTRY);
  }

  lemma WriteFails()
    ensures ReachableFailing(WRITE_FAILED)
  {
    hide Next, Enabled, AdvanceStep, Reachable, ReachableFailing;
    EntryFilled();
    ReachedFailing(FILLED_ENTRY);
    var ch := Choose(0, 2, None, true);
    Completes(FILLED_ENTRY, 0, ch);
    assert Next(FILLED_ENTRY, Advance(0, ch)) == WRITE_FAILED;
    FailingStep(FILLED_ENTRY, Advance(0, ch));
  }

  /** The exchange was called for entry 0 and its execution is not recorded; its close is cancelled,
      though nobody cancelled, nobody else confirmed and nothing was late. */
  ghost predicate LostFilled(s: State) {
    && 0 in s.confLog && 0 in s.confs && 0 in s.closes
    && s.confLog[0].calls == 1 && s.confs[0].status == C.Executing
    && s.closes[0].entry == 0 && s.closes[0].status == S.Cancelled
    && !s.confLog[0].userCancel && !s.confLog[0].otherConfirm && !s.confLog[0].late
  }

  /** The exchange fills the entry, the write that records it fails, and the trigger drops the close of
      a live position. */
  lemma LostByFailedWrite()
    ensures exists s :: ReachableFailing(s) && LostFilled(s)
  {
    hide Next, Enabled, AdvanceStep, Reachable, ReachableFailing;
    WriteFails();
    var ch := Choose(0, 0, Some(0), false);
    Drops(WRITE_FAILED, 0, ch);
    FailingStep(WRITE_FAILED, Advance(0, ch));
    var t := Next(WRITE_FAILED, Advance(0, ch));
    assert t.closes[0].status == S.Cancelled;
  }

  const STOPPED := Taken(LATER, map[], TakenLog(1))
  const STOPPED_LISTED := Taken(LATER, map[2 := Reconcile(0, 0, LATER)], TakenLog(1)).(nextPid := 3)
  const STOPPED_STALE := STOPPED_LISTED.(procs := map[2 := Drop(0, 1, EntryStale(0))])

  lemma HolderStops()
    ensures Reachable(STOPPED_LISTED)
  {
    hide AdvanceStep, Reachable;
    Confirmed();
    var alone := Taken(0, map[], TakenLog(1));
    assert Reachable(alone) by { Moves(CONFIRMED, Crash(1), alone); }
    assert Reachable(STOPPED) by { Moves(alone, Tick(LATER), STOPPED); }
    Moves(STOPPED, StartReconcile(0, LATER), STOPPED_LISTED);
  }

  lemma StoppedStale()
    ensures Reachable(STOPPED_STALE)
  {
    hide Next, Enabled, AdvanceStep, Reachable;
    HolderStops();
    var ch := Choose(0, 0, Some(0), false);
    Reconciles(STOPPED_LISTED, 2, ch);
    Moves(STOPPED_LISTED, Advance(2, ch), STOPPED_STALE);
  }

  /** The process that holds the fill stops before it writes; the reconciler drops the close when the
      entry has been executing for half an hour. Every call of this run works. */
  lemma LostByStop()
    ensures exists s :: Reachable(s) && LostFilled(s) && s.procs == map[]
  {
    hide Next, Enabled, AdvanceStep, Reachable;
    StoppedStale();
    var ch := Choose(0, 0, Some(0), false);
    Drops(STOPPED_STALE, 2, ch);
    Step(STOPPED_STALE, Advance(2, ch));
    var t := Next(STOPPED_STALE, Advance(2, ch));
    assert t.closes[0].status == S.Cancelled && t.procs == map[];
    assert LostFilled(t);
  }

  /** The process that holds the fill has yet to write when the reconciler drops the close as stale. */
  lemma LostByPendingWrite()
    ensures exists s :: Reachable(s) && LostFilled(s) && Holding(s, 1, 0)
  {
    hide Reachable;
    LateDropped();
    assert LostFilled(LATE_DROPPED) && Holding(LATE_DROPPED, 1, 0);
  }
}
