/** Where what a confirmation's log says comes from: requests of users, answers of the exchange, and
    completing writes that came late. */
module ProtocolRequests {
  import opened Common
  import opened Protocol
  import opened ProtocolInvariant
  import opened ProtocolRuns
  import opened ProtocolEvents
  import PS = ProtocolSteps
  import C = Confirmations
  import S = ScheduledCloses
  import A = ArmedMissions
  import J = Journal

  ghost predicate UserCancels(run: seq<Action>, c: Id) {
    exists i :: 0 <= i < |run| && run[i].StartCancel? && run[i].c == c
  }

  ghost predicate UserConfirms(run: seq<Action>, c: Id) {
    exists i :: 0 <= i < |run| && run[i].StartConfirm? && run[i].c == c
  }

  ghost predicate SameAsked(l: ConfirmationLog, k: ConfirmationLog) {
    && k.origin == l.origin && k.userCancel == l.userCancel && k.otherConfirm == l.otherConfirm
    && k.calls == l.calls && k.late == l.late
  }

  /** A log nothing has been noted in. */
  ghost predicate Blank(l: ConfirmationLog) {
    !l.userCancel && !l.otherConfirm && !l.late && l.calls == 0
  }

  /** No request, exchange call or late write was noted between the two states. */
  ghost predicate Unasked(s: map<Id, ConfirmationLog>, t: map<Id, ConfirmationLog>) {
    && (forall c :: c in s ==> c in t)
    && (forall c :: c in t ==>
          if c in s then SameAsked(s[c], t[c]) else Blank(t[c]))
  }

  lemma StaysUnasked(log: map<Id, ConfirmationLog>)
    ensures Unasked(log, log)
  {}

  lemma SetUnasked(log: map<Id, ConfirmationLog>, c: Id, l: ConfirmationLog)
    requires if c in log then SameAsked(log[c], l) else Blank(l)
    ensures Unasked(log, log[c := l])
  {}

  /** Returning from a call notes no request. */
  lemma ReturnsUnasked(s: State, p: Pid, c: Id, user: int, caller: Caller, after: After)
    ensures ConfirmOk(s, p, c, caller).confLog == s.confLog && ConfirmFailed(s, p, c, user, caller).confLog == s.confLog
    ensures AfterCancel(s, p, c, user, after).confLog == s.confLog
  {}

  lemma TakeUnasked(s: State, p: Pid, c: Id, user: int, caller: Caller, ch: Choice)
    ensures Unasked(s.confLog, TakeStep(s, p, c, user, caller, ch).confLog)
  {
    hide Unasked, ConfirmFailed, C.Actionable;
    StaysUnasked(s.confLog);
    ReturnsUnasked(s, p, c, user, caller, Stop);
    ActionableKnown(s, user, c, ch.now);
    if c in s.confLog {
      SetUnasked(s.confLog, c, s.confLog[c].(taker := Some(p), takes := s.confLog[c].takes + 1));
    }
  }

  /** A call of the executor is counted, and nothing else is noted. */
  lemma CallCounted(s: State, p: Pid, c: Id, user: int, caller: Caller, ch: Choice)
    ensures CallStep(s, p, c, user, caller, ch).confLog
         == (if ch.branch == 0 || c !in s.confLog then s.confLog
             else s.confLog[c := s.confLog[c].(calls := s.confLog[c].calls + 1)])
  {
    hide Goto;
    if ch.branch != 0 && c in s.confLog {
      var l := s.confLog[c].(calls := s.confLog[c].calls + 1);
      GotoSilent(s.(confLog := s.confLog[c := l]), p, Settle(c, user, caller, if ch.branch == 1 then None else Some(ch.result)));
    } else {
      GotoSilent(s, p, Settle(c, user, caller, None));
    }
  }

  lemma ReadUnasked(s: State, p: Pid, c: Id, user: int, caller: Caller, now: Time, ch: Choice)
    ensures Unasked(s.confLog, TakeReadStep(s, p, c, user, now, caller, ch).confLog)
  {
    hide Unasked, ConfirmOk, ConfirmFailed, C.Answer, SameAsked, Goto;
    MovesSilent(p);
    StaysUnasked(s.confLog);
    ReturnsUnasked(s, p, c, user, caller, Stop);
    if !ch.fail && c in s.confs && c in s.confLog && C.Answer(s.confs[c], user, now).Finished? {
      var r := C.Answer(s.confs[c], user, now).result;
      var l := s.confLog[c].(returned := s.confLog[c].returned + {r});
      ReturnedAsked(s.confLog[c], r);
      SetUnasked(s.confLog, c, l);
      ReturnsUnasked(s.(confLog := s.confLog[c := l]), p, c, user, caller, Stop);
    }
  }

  lemma ReturnedAsked(l: ConfirmationLog, r: C.ExecutionResult)
    ensures SameAsked(l, l.(returned := l.returned + {r}))
  {}

  lemma FailUnasked(s: State, p: Pid, c: Id, user: int, caller: Caller, ch: Choice)
    ensures FailStep(s, p, c, user, caller, ch).confLog == s.confLog
  {
    hide ConfirmFailed;
    ReturnsUnasked(s, p, c, user, caller, Stop);
    if c in s.confs {
      ReturnsUnasked(s.(confs := C.MarkedFailed(s.confs, c, ch.now)), p, c, user, caller, Stop);
    }
  }

  /** A completing write notes whether it came late, and nothing else. */
  lemma CompleteNoted(s: State, p: Pid, c: Id, user: int, caller: Caller, r: C.ExecutionResult, ch: Choice)
    ensures CompleteStep(s, p, c, user, caller, r, ch).confLog
         == (if ch.fail || !C.HasStatus(s.confs, c, C.Executing) || c !in s.confLog then s.confLog
             else s.confLog[c := s.confLog[c].(late := s.confLog[c].late || Overdue(s, c))])
  {
    hide ConfirmFailed, Overdue;
    ReturnsUnasked(s, p, c, user, caller, Stop);
  }

  lemma RecordUnasked(s: State, p: Pid, c: Id, user: int, caller: Caller, r: C.ExecutionResult, ch: Choice)
    ensures Unasked(s.confLog, RecordStep(s, p, c, user, caller, r, ch).confLog)
  {
    hide Unasked, ConfirmOk, Journalled;
    StaysUnasked(s.confLog);
    if c in s.confs && c in s.confLog {
      var l := s.confLog[c].(returned := s.confLog[c].returned + {r});
      SetUnasked(s.confLog, c, l);
      ReturnsUnasked(s.(journal := if ch.fail then s.journal else Journalled(s.journal, c, s.confs[c].intent, r, ch.now),
                        confLog := s.confLog[c := l]), p, c, user, caller, Stop);
    }
  }

  lemma ExpiringUnasked(s: State, p: Pid, c: Id, user: int, caller: Caller, after: After, ch: Choice)
    ensures AfterCancel(ExpireConfirmation(s, c, ch), p, c, user, after).confLog == s.confLog
    ensures ConfirmFailed(ExpireConfirmation(s, c, ch), p, c, user, caller).confLog == s.confLog
  {
    hide AfterCancel, ConfirmFailed;
    ReturnsUnasked(ExpireConfirmation(s, c, ch), p, c, user, caller, after);
  }

  lemma PuttingUnasked(s: State, p: Pid, m: Id, row: Id, stamp: Time, ch: Choice)
    requires s.confs.Keys == s.confLog.Keys
    ensures Unasked(s.confLog, PrepareEntryStep(s, p, m, ch).confLog)
    ensures Unasked(s.confLog, HeldStep(s, p, row, stamp, ch).confLog)
  {
    hide Unasked, C.KeyTaken, NewConfirmation, Goto, Protocol.Done;
    MovesSilent(p);
    StaysUnasked(s.confLog);
    if ch.newId !in s.confs {
      SetUnasked(s.confLog, ch.newId, NewLog(ArmedEntry(m, p)));
      SetUnasked(s.confLog, ch.newId, NewLog(TimedClose(row, p)));
    }
  }

  lemma ConfirmationStepUnasked(s: State, p: Pid, ch: Choice)
    requires p in s.procs && OnConfirmation(s.procs[p]) && !s.procs[p].Call? && !HasResult(s.procs[p])
    ensures Unasked(s.confLog, AdvanceStep(s, p, ch).confLog)
  {
    hide Unasked, AttachCloseStep, AbandonStep, AbandonReadStep, AfterCancel, ExpireConfirmation, TakeStep, TakeReadStep,
         ConfirmFailed, CallStep, CompleteStep, FailStep, RecordStep, ActivateStep, DropStep, ExpireMissionStep, TriggerStep,
         PrepareEntryStep, RecordEntryStep, AttachEntryCloseStep, ReconcileStep, ClaimStep, HeldStep, ClosePreparedStep,
         FinishStep, CloseTradeStep;
    StaysUnasked(s.confLog);
    match s.procs[p] {
      case Take(c, user, caller) => TakeUnasked(s, p, c, user, caller, ch);
      case TakeRead(c, user, now, caller) => ReadUnasked(s, p, c, user, caller, now, ch);
      case TakeExpire(c, user, caller) => ExpiringUnasked(s, p, c, user, caller, Stop, ch);
      case Settle(c, user, caller, outcome) => FailUnasked(s, p, c, user, caller, ch);
      case Record(c, user, caller, r) => RecordUnasked(s, p, c, user, caller, r, ch);
      case Activate(c) => ActivateSilent(s, p, c, ch);
      case Drop(c, user, cause) => DropSilent(s, p, c, user, cause, ch);
    }
  }

  lemma GotoSilent(s: State, p: Pid, pc: Pc)
    ensures Goto(s, p, pc).confLog == s.confLog && Protocol.Done(s, p).confLog == s.confLog
  {}

  /** Moving a process notes nothing. */
  lemma MovesSilent(p: Pid)
    ensures forall s: State, pc: Pc :: Goto(s, p, pc).confLog == s.confLog
    ensures forall s: State :: Protocol.Done(s, p).confLog == s.confLog
  {}

  lemma ActivateSilent(s: State, p: Pid, c: Id, ch: Choice)
    ensures ActivateStep(s, p, c, ch).confLog == s.confLog
  {
    hide S.Activatable, S.Activated, Goto, Protocol.Done;
    MovesSilent(p);
  }

  lemma AfterDropSilent(s: State, p: Pid, c: Id, user: int, cause: Cause)
    ensures AfterDrop(s, p, c, user, cause).confLog == s.confLog
  {}

  lemma DropSilent(s: State, p: Pid, c: Id, user: int, cause: Cause, ch: Choice)
    ensures DropStep(s, p, c, user, cause, ch).confLog == s.confLog
  {
    hide AfterDrop, S.Droppable, S.Dropped;
    AfterDropSilent(s, p, c, user, cause);
    if ch.hit.Some? && ch.hit.value in s.closes && ch.hit.value in s.closeLog {
      var r := ch.hit.value;
      AfterDropSilent(s.(closes := s.closes[r := S.Dropped(s.closes[r], ch.now)],
                         closeLog := s.closeLog[r := s.closeLog[r].(cause := Some(cause), terminals := s.closeLog[r].terminals + 1)]),
                      p, c, user, cause);
    }
  }

  lemma ClaimSilent(s: State, p: Pid, row: Id, now: Time, ch: Choice)
    ensures ClaimStep(s, p, row, now, ch).confLog == s.confLog
  {
    hide S.Claimable, S.Claimed, Goto, Protocol.Done;
    MovesSilent(p);
  }

  lemma FinishSilent(s: State, p: Pid, row: Id, status: S.Status, confirmation: Option<Id>, ch: Choice)
    ensures FinishStep(s, p, row, status, confirmation, ch).confLog == s.confLog
  {
    hide S.Ended, Goto, Protocol.Done;
    MovesSilent(p);
  }

  lemma ReconcileSilent(s: State, p: Pid, row: Id, c: Id, now: Time, ch: Choice)
    ensures ReconcileStep(s, p, row, c, now, ch).confLog == s.confLog
  {
    hide Goto, Protocol.Done;
    MovesSilent(p);
  }

  lemma ClosePreparedSilent(s: State, p: Pid, row: Id, c: Id, stamp: Time, ch: Choice)
    ensures ClosePreparedStep(s, p, row, c, stamp, ch).confLog == s.confLog
  {
    hide Goto, Protocol.Done;
    MovesSilent(p);
  }

  lemma TradeSilent(s: State, p: Pid, c: Id, ch: Choice)
    ensures CloseTradeStep(s, p, c, ch).confLog == s.confLog
  {
    hide J.Closed;
  }

  lemma ExpireMissionSilent(s: State, p: Pid, m: Id, ch: Choice)
    ensures ExpireMissionStep(s, p, m, ch).confLog == s.confLog
  {
    hide A.MarkedExpired, Goto, Protocol.Done;
    MovesSilent(p);
  }

  lemma TriggerSilent(s: State, p: Pid, m: Id, now: Time, ch: Choice)
    ensures TriggerStep(s, p, m, now, ch).confLog == s.confLog
  {
    hide A.Triggerable, A.MarkedTriggered, Goto, Protocol.Done;
    MovesSilent(p);
  }

  lemma RecordEntrySilent(s: State, p: Pid, m: Id, c: Id, ch: Choice)
    ensures RecordEntryStep(s, p, m, c, ch).confLog == s.confLog
  {
    hide A.Recordable, A.Recorded, Goto, Protocol.Done;
    MovesSilent(p);
  }

  lemma AttachStepsSilent(s: State, p: Pid, m: Id, c: Id, ch: Choice)
    ensures AttachCloseStep(s, p, c, ch).confLog == s.confLog
    ensures AttachEntryCloseStep(s, p, m, c, ch).confLog == s.confLog
  {
    hide NewClose, Goto, Protocol.Done;
    MovesSilent(p);
  }

  lemma AbandonUnasked(s: State, p: Pid, c: Id, user: int, now: Time, after: After, ch: Choice)
    ensures AbandonStep(s, p, c, user, after, ch).confLog == s.confLog
    ensures AbandonReadStep(s, p, c, user, now, after, ch).confLog == s.confLog
  {
    hide C.Actionable, AfterCancel;
    ReturnsUnasked(s, p, c, user, ByUser, after);
    if c in s.confs {
      ReturnsUnasked(s.(confs := C.SetStatus(s.confs, c, C.Cancelled)), p, c, user, ByUser, after);
    }
    assert C.Actionable(s.confs, user, c, ch.now) ==> c in s.confs by { ActionableKnown(s, user, c, ch.now); }
  }

  lemma ActionableKnown(s: State, user: int, c: Id, now: Time)
    ensures C.Actionable(s.confs, user, c, now) ==> c in s.confs
  {}

  lemma OtherStepUnasked(s: State, p: Pid, ch: Choice)
    requires p in s.procs && !OnConfirmation(s.procs[p]) && s.confs.Keys == s.confLog.Keys
    ensures Unasked(s.confLog, AdvanceStep(s, p, ch).confLog)
  {
    hide Unasked, AttachCloseStep, AbandonStep, AbandonReadStep, AfterCancel, ExpireConfirmation, TakeStep, TakeReadStep,
         ConfirmFailed, CallStep, CompleteStep, FailStep, RecordStep, ActivateStep, DropStep, ExpireMissionStep, TriggerStep,
         PrepareEntryStep, RecordEntryStep, AttachEntryCloseStep, ReconcileStep, ClaimStep, HeldStep, ClosePreparedStep,
         FinishStep, CloseTradeStep;
    StaysUnasked(s.confLog);
    match s.procs[p] {
      case Abandon(c, user, after) => AbandonUnasked(s, p, c, user, 0, after, ch);
      case AbandonRead(c, user, now, after) => AbandonUnasked(s, p, c, user, now, after, ch);
      case AbandonExpire(c, user, after) => ExpiringUnasked(s, p, c, user, ByUser, after, ch);
      case PrepareEntry(m) => PuttingUnasked(s, p, m, 0, 0, ch);
      case Held(row, stamp) => PuttingUnasked(s, p, 0, row, stamp, ch);
      case AttachClose(c) => AttachStepsSilent(s, p, 0, c, ch);
      case AttachEntryClose(m, c) => AttachStepsSilent(s, p, m, c, ch);
      case ExpireMission(m) => ExpireMissionSilent(s, p, m, ch);
      case Trigger(m, now) => TriggerSilent(s, p, m, now, ch);
      case RecordEntry(m, c) => RecordEntrySilent(s, p, m, c, ch);
      case Reconcile(row, c, now) => ReconcileSilent(s, p, row, c, now, ch);
      case ClosePrepared(row, c, stamp) => ClosePreparedSilent(s, p, row, c, stamp, ch);
      case CloseTrade(c) => TradeSilent(s, p, c, ch);
      case ClaimRow(row, now) => ClaimSilent(s, p, row, now, ch);
      case Finish(row, _, status, confirmation) => FinishSilent(s, p, row, status, confirmation, ch);
    }
  }

  // ---------------------------------------------------------------------------
  // Whole runs
  // ---------------------------------------------------------------------------

  /** What the later log says about c was there before, or some action of the run did it. */
  ghost predicate NotedBy(s: State, run: seq<Action>, t: map<Id, ConfirmationLog>, c: Id)
    requires Legal(s, run) && c in t
  {
    var past := if c in s.confLog then s.confLog[c] else NewLog(Manual);
    && (t[c].userCancel ==> past.userCancel || UserCancels(run, c))
    && (t[c].otherConfirm ==> past.otherConfirm || UserConfirms(run, c))
    && (t[c].late ==> past.late || Happened(s, run, CompletesLate(c)))
    && (t[c].calls > 0 ==> past.calls > 0 || Happened(s, run, Answers(c)) || Happened(s, run, Refuses(c)))
  }

  ghost predicate AllNoted(s: State, run: seq<Action>, t: map<Id, ConfirmationLog>)
    requires Legal(s, run)
  {
    (forall c :: c in s.confLog ==> c in t) && (forall c :: c in t ==> NotedBy(s, run, t, c))
  }

  lemma UnaskedIsNoted(s: State, run: seq<Action>, t: map<Id, ConfirmationLog>)
    requires Legal(s, run) && Unasked(s.confLog, t)
    ensures AllNoted(s, run, t)
  {
    hide Legal, Happened, UserCancels, UserConfirms;
  }

  lemma OneLegal(s: State, a: Action)
    requires Enabled(s, a)
    ensures Legal(s, [a]) && forall e :: Happened(s, [a], e) <==> Occurs(s, a, e)
  {
    hide Enabled, Next, Occurs;
    assert [a][1..] == [];
  }

  lemma RequestNoted(s: State, a: Action)
    requires Enabled(s, a) && Legal(s, [a]) && (a.StartConfirm? || a.StartCancel?)
    ensures AllNoted(s, [a], Next(s, a).confLog)
  {
    hide AdvanceStep, HonestHit, Happened, Legal, Put, A.Swept, A.Stale, CanPut;
    assert [a][0] == a;
    assert UserCancels([a], a.c) || UserConfirms([a], a.c);
  }

  lemma CallNoted(s: State, p: Pid, ch: Choice)
    requires Legal(s, [Advance(p, ch)]) && p in s.procs && s.procs[p].Call?
    requires forall e :: Happened(s, [Advance(p, ch)], e) <==> Occurs(s, Advance(p, ch), e)
    ensures var pc := s.procs[p]; AllNoted(s, [Advance(p, ch)], CallStep(s, p, pc.c, pc.user, pc.caller, ch).confLog)
  {
    hide CallStep, Happened, Legal, Overdue, UserCancels, UserConfirms;
    CallCounted(s, p, s.procs[p].c, s.procs[p].user, s.procs[p].caller, ch);
  }

  lemma CompletionNoted(s: State, p: Pid, ch: Choice)
    requires Legal(s, [Advance(p, ch)]) && p in s.procs && HasResult(s.procs[p])
    requires forall e :: Happened(s, [Advance(p, ch)], e) <==> Occurs(s, Advance(p, ch), e)
    ensures var pc := s.procs[p];
            AllNoted(s, [Advance(p, ch)], CompleteStep(s, p, pc.c, pc.user, pc.caller, pc.outcome.value, ch).confLog)
  {
    hide CompleteStep, Happened, Legal, Overdue, UserCancels, UserConfirms;
    CompleteNoted(s, p, s.procs[p].c, s.procs[p].user, s.procs[p].caller, s.procs[p].outcome.value, ch);
  }

  lemma ExchangeNoted(s: State, p: Pid, ch: Choice)
    requires Legal(s, [Advance(p, ch)]) && p in s.procs && (s.procs[p].Call? || HasResult(s.procs[p]))
    requires forall e :: Happened(s, [Advance(p, ch)], e) <==> Occurs(s, Advance(p, ch), e)
    ensures AllNoted(s, [Advance(p, ch)], AdvanceStep(s, p, ch).confLog)
  {
    hide CallStep, CompleteStep, Happened, Legal, Occurs, AllNoted;
    if s.procs[p].Call? {
      CallNoted(s, p, ch);
    } else {
      CompletionNoted(s, p, ch);
    }
  }

  lemma ActionNoted(s: State, a: Action)
    requires s.confs.Keys == s.confLog.Keys && Enabled(s, a)
    ensures Legal(s, [a]) && AllNoted(s, [a], Next(s, a).confLog)
  {
    hide AllNoted, Unasked, AdvanceStep, HonestHit, C.KeyTaken, Legal, Happened, Occurs;
    OneLegal(s, a);
    StaysUnasked(s.confLog);
    match a {
      case StartConfirm(_, _) => RequestNoted(s, a);
      case StartCancel(_, _) => RequestNoted(s, a);
      case PutManual(c, _, _, _) =>
        SetUnasked(s.confLog, c, NewLog(Manual));
        UnaskedIsNoted(s, [a], Next(s, a).confLog);
      case StartMission(c, _, _) =>
        SetUnasked(s.confLog, c, NewLog(MissionPage(s.nextPid)));
        UnaskedIsNoted(s, [a], Next(s, a).confLog);
      case Advance(p, ch) =>
        if s.procs[p].Call? || HasResult(s.procs[p]) {
          ExchangeNoted(s, p, ch);
        } else {
          if OnConfirmation(s.procs[p]) {
            ConfirmationStepUnasked(s, p, ch);
          } else {
            OtherStepUnasked(s, p, ch);
          }
          UnaskedIsNoted(s, [a], Next(s, a).confLog);
        }
      case _ => UnaskedIsNoted(s, [a], Next(s, a).confLog);
    }
  }

  lemma NotedChain(s: State, run: seq<Action>, t: State, u: map<Id, ConfirmationLog>)
    requires run != [] && Legal(s, run) && Legal(s, [run[0]]) && t == Next(s, run[0])
    requires AllNoted(s, [run[0]], t.confLog) && AllNoted(t, run[1..], u)
    ensures AllNoted(s, run, u)
  {
    hide Next, Enabled, Legal, Happened, UserCancels, UserConfirms;
    forall c | c in u
      ensures NotedBy(s, run, u, c)
    {
      RunAsks(run, c);
      RunHappens(s, run, CompletesLate(c));
      RunHappens(s, run, Answers(c));
      RunHappens(s, run, Refuses(c));
    }
  }

  lemma RunHappens(s: State, run: seq<Action>, e: Event)
    requires run != [] && Legal(s, run) && Legal(s, [run[0]])
    ensures Enabled(s, run[0]) && Legal(Next(s, run[0]), run[1..])
    ensures Happened(s, [run[0]], e) || Happened(Next(s, run[0]), run[1..], e) ==> Happened(s, run, e)
  {
    hide Enabled, Next, Occurs;
    var one := [run[0]];
    assert one[0] == run[0] && one[1..] == [];
    assert !Happened(Next(s, one[0]), one[1..], e);
  }

  lemma RunAsks(run: seq<Action>, c: Id)
    requires run != []
    ensures UserCancels([run[0]], c) || UserCancels(run[1..], c) ==> UserCancels(run, c)
    ensures UserConfirms([run[0]], c) || UserConfirms(run[1..], c) ==> UserConfirms(run, c)
  {
    if UserCancels(run[1..], c) {
      var i :| 0 <= i < |run[1..]| && run[1..][i].StartCancel? && run[1..][i].c == c;
      assert run[i + 1].StartCancel?;
    }
    if UserConfirms(run[1..], c) {
      var i :| 0 <= i < |run[1..]| && run[1..][i].StartConfirm? && run[1..][i].c == c;
      assert run[i + 1].StartConfirm?;
    }
    assert [run[0]][0] == run[0];
  }

  lemma SameKeys(s: State)
    requires Inv(s)
    ensures s.confs.Keys == s.confLog.Keys
  {}

  /** Over every run, what the logs say came from its actions: the users' requests, the exchange's
      answers, and completing writes made when the close had waited too long. */
  lemma {:induction false} NotesComeFromActions(s: State, run: seq<Action>)
    requires Inv(s) && Legal(s, run)
    ensures AllNoted(s, run, Outcome(s, run).confLog)
    decreases |run|
  {
    hide Inv, Next, Enabled, AllNoted, Unasked, Happened;
    if run == [] {
      StaysUnasked(s.confLog);
      UnaskedIsNoted(s, run, s.confLog);
    } else {
      var t := Next(s, run[0]);
      SameKeys(s);
      ActionNoted(s, run[0]);
      NextKeeps(s, run[0]);
      NotesComeFromActions(t, run[1..]);
      NotedChain(s, run, t, Outcome(s, run).confLog);
    }
  }
}
