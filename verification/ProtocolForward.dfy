/** Terminal documents never change again, whatever runs next. */
module ProtocolForward {
  import opened Common
  import opened Protocol
  import opened ProtocolInvariant
  import opened ProtocolRuns
  import PS = ProtocolSteps
  import C = Confirmations
  import S = ScheduledCloses
  import A = ArmedMissions
  import J = Journal
  import opened Decimals

  predicate Ended(status: C.Status) {
    status == C.Executed || status == C.Failed || status == C.Cancelled || status == C.Expired
  }

  ghost predicate ConfsForward(s: C.Docs, t: C.Docs) {
    forall c :: c in s ==> c in t && (Ended(s[c].status) ==> t[c] == s[c])
  }

  ghost predicate MissionsForward(s: A.Rows, t: A.Rows) {
    forall m :: m in s ==> m in t && (s[m].status != A.Armed ==> t[m].status == s[m].status)
  }

  ghost predicate ClosesForward(s: State, t: State) {
    forall r :: r in s.closes && r in s.closeLog ==>
      && r in t.closes && r in t.closeLog && t.closes[r].entry == s.closes[r].entry
      && (S.IsTerminal(s.closes[r].status) ==> t.closes[r] == s.closes[r] && t.closeLog[r] == s.closeLog[r])
  }

  /** A final row stays as it is; an open row stays or becomes final, once. */
  ghost predicate JournalForward(s: J.Rows, t: J.Rows) {
    forall id :: id in s ==>
      && id in t
      && (s[id].outcome != J.Open ==> t[id] == s[id])
      && (s[id].outcome == J.Open ==> t[id] == s[id] || t[id].outcome != J.Open)
  }

  ghost predicate Forward(s: State, t: State) {
    && s.clock <= t.clock
    && ConfsForward(s.confs, t.confs) && MissionsForward(s.missions, t.missions)
    && ClosesForward(s, t) && JournalForward(s.journal, t.journal)
  }

  lemma ForwardTrans(s: State, t: State, u: State)
    requires Forward(s, t) && Forward(t, u)
    ensures Forward(s, u)
  {}

  // ---------------------------------------------------------------------------
  // Changes to one collection
  // ---------------------------------------------------------------------------

  ghost predicate OnlyConfirmations(s: State, t: State) {
    && t.clock == s.clock && t.closes == s.closes && t.closeLog == s.closeLog
    && t.missions == s.missions && t.journal == s.journal
  }

  ghost predicate OnlyCloses(s: State, t: State) {
    t.clock == s.clock && t.confs == s.confs && t.missions == s.missions && t.journal == s.journal
  }

  ghost predicate OnlyMissions(s: State, t: State) {
    && t.clock == s.clock && t.confs == s.confs && t.closes == s.closes && t.closeLog == s.closeLog
    && t.journal == s.journal
  }

  ghost predicate OnlyJournal(s: State, t: State) {
    && t.clock == s.clock && t.confs == s.confs && t.closes == s.closes && t.closeLog == s.closeLog
    && t.missions == s.missions
  }

  lemma ConfForward(s: State, t: State)
    requires OnlyConfirmations(s, t) && ConfsForward(s.confs, t.confs)
    ensures Forward(s, t)
  {}

  lemma CloseForward(s: State, t: State)
    requires OnlyCloses(s, t) && ClosesForward(s, t)
    ensures Forward(s, t)
  {}

  lemma MissionForward(s: State, t: State)
    requires OnlyMissions(s, t) && MissionsForward(s.missions, t.missions)
    ensures Forward(s, t)
  {}

  lemma JournalStepForward(s: State, t: State)
    requires OnlyJournal(s, t) && JournalForward(s.journal, t.journal)
    ensures Forward(s, t)
  {}

  lemma SameForward(s: State, t: State)
    requires OnlyConfirmations(s, t) && t.confs == s.confs
    ensures Forward(s, t)
  {}

  lemma SignedOutcome(pnl: Decimal)
    ensures J.OutcomeOf(pnl) != J.Open
  {
    J.OutcomeIsSign(pnl);
  }

  lemma JournalledForward(journal: J.Rows, c: Id, intent: C.Intent, r: C.ExecutionResult, closedAt: Time)
    requires c !in journal
    ensures JournalForward(journal, Journalled(journal, c, intent, r, closedAt))
  {
    hide J.OutcomeOf, IsDryRun;
    SignedOutcome(r.realizedPnl);
  }

  lemma ClosedForward(journal: J.Rows, c: Id, u: J.CloseUpdate)
    ensures JournalForward(journal, J.Closed(journal, c, u))
  {
    hide J.OutcomeOf;
    SignedOutcome(u.pnl);
  }

  // ---------------------------------------------------------------------------
  // Every step
  // ---------------------------------------------------------------------------

  lemma OneForward(docs: C.Docs, c: Id, d: C.Confirmation)
    requires c in docs ==> !Ended(docs[c].status)
    ensures ConfsForward(docs, docs[c := d])
    ensures ConfsForward(docs, docs)
  {}

  lemma DoneForward(s: State, p: Pid, pc: Pc)
    ensures Forward(s, Protocol.Done(s, p)) && Forward(s, Goto(s, p, pc))
  {
    hide Forward;
    SameForward(s, Protocol.Done(s, p));
    SameForward(s, Goto(s, p, pc));
  }

  lemma AfterCancelForward(s: State, p: Pid, c: Id, user: int, after: After)
    ensures Forward(s, AfterCancel(s, p, c, user, after))
  {
    hide Forward;
    var t := AfterCancel(s, p, c, user, after);
    assert OnlyConfirmations(s, t) && t.confs == s.confs;
    SameForward(s, t);
  }

  lemma AbandonForward(s: State, p: Pid, c: Id, user: int, after: After, ch: Choice)
    ensures Forward(s, AbandonStep(s, p, c, user, after, ch))
  {
    hide Forward, ConfsForward;
    if !ch.fail && C.Actionable(s.confs, user, c, ch.now) {
      var u := s.(confs := C.SetStatus(s.confs, c, C.Cancelled));
      OneForward(s.confs, c, u.confs[c]);
      ConfForward(s, u);
      AfterCancelForward(u, p, c, user, after);
      ForwardTrans(s, u, AfterCancel(u, p, c, user, after));
    } else {
      AfterCancelForward(s, p, c, user, after);
      SameForward(s, Goto(s, p, AbandonRead(c, user, ch.now, after)));
    }
  }

  lemma ExpiredForward(s: State, c: Id, ch: Choice)
    ensures Forward(s, ExpireConfirmation(s, c, ch))
  {
    hide Forward, ConfsForward;
    if !ch.fail && C.HasStatus(s.confs, c, C.Pending) {
      OneForward(s.confs, c, s.confs[c].(status := C.Expired));
      ConfForward(s, s.(confs := C.SetStatus(s.confs, c, C.Expired)));
    } else {
      SameForward(s, s);
    }
  }

  lemma ExpireForward(s: State, p: Pid, c: Id, user: int, after: After, caller: Caller, ch: Choice)
    ensures Forward(s, AfterCancel(ExpireConfirmation(s, c, ch), p, c, user, after))
    ensures Forward(s, ConfirmFailed(ExpireConfirmation(s, c, ch), p, c, user, caller))
  {
    hide *;
    var u := ExpireConfirmation(s, c, ch);
    ExpiredForward(s, c, ch);
    AfterCancelForward(u, p, c, user, after);
    ConfirmFailedForward(u, p, c, user, caller);
    ForwardTrans(s, u, AfterCancel(u, p, c, user, after));
    ForwardTrans(s, u, ConfirmFailed(u, p, c, user, caller));
  }

  lemma ConfirmFailedForward(s: State, p: Pid, c: Id, user: int, caller: Caller)
    ensures Forward(s, ConfirmFailed(s, p, c, user, caller))
    ensures Forward(s, ConfirmOk(s, p, c, caller))
  {
    hide Forward;
    SameForward(s, ConfirmFailed(s, p, c, user, caller));
    SameForward(s, ConfirmOk(s, p, c, caller));
  }

  lemma TakeForward(s: State, p: Pid, c: Id, user: int, caller: Caller, ch: Choice)
    ensures Forward(s, TakeStep(s, p, c, user, caller, ch))
  {
    hide Forward, Goto, ConfirmFailed;
    if ch.fail {
      ConfirmFailedForward(s, p, c, user, caller);
    } else if C.Actionable(s.confs, user, c, ch.now) && c in s.confLog {
      var l := s.confLog[c].(taker := Some(p), takes := s.confLog[c].takes + 1);
      var u := s.(confs := C.SetStatus(s.confs, c, C.Executing), confLog := s.confLog[c := l]);
      DocumentForward(s, c, u.confs[c], l);
      DoneForward(u, p, Call(c, user, caller));
      ForwardTrans(s, u, Goto(u, p, Call(c, user, caller)));
    } else {
      DoneForward(s, p, TakeRead(c, user, ch.now, caller));
    }
  }

  lemma LogForward(s: State, p: Pid, c: Id, l: ConfirmationLog, pc: Pc)
    ensures Forward(s, Goto(s.(confLog := s.confLog[c := l]), p, pc))
  {
    hide Forward;
    SameForward(s, Goto(s.(confLog := s.confLog[c := l]), p, pc));
  }

  lemma DocumentForward(s: State, c: Id, d: C.Confirmation, l: ConfirmationLog)
    requires c in s.confs && !Ended(s.confs[c].status)
    ensures Forward(s, s.(confs := s.confs[c := d], confLog := s.confLog[c := l]))
  {
    hide Forward, ConfsForward;
    OneForward(s.confs, c, d);
    ConfForward(s, s.(confs := s.confs[c := d], confLog := s.confLog[c := l]));
  }

  lemma RowForward(s: State, r: Id, x: S.ScheduledClose, l: CloseLog)
    requires r in s.closes && !S.IsTerminal(s.closes[r].status) && x.entry == s.closes[r].entry
    ensures Forward(s, s.(closes := s.closes[r := x], closeLog := s.closeLog[r := l]))
  {
    hide Forward;
    CloseForward(s, s.(closes := s.closes[r := x], closeLog := s.closeLog[r := l]));
  }

  lemma CallForward(s: State, p: Pid, c: Id, user: int, caller: Caller, ch: Choice)
    ensures Forward(s, CallStep(s, p, c, user, caller, ch))
  {
    hide Forward;
    if ch.branch == 0 || c !in s.confLog {
      DoneForward(s, p, Settle(c, user, caller, None));
    } else {
      var outcome := if ch.branch == 1 then None else Some(ch.result);
      LogForward(s, p, c, s.confLog[c].(calls := s.confLog[c].calls + 1), Settle(c, user, caller, outcome));
    }
  }

  lemma CompleteForward(s: State, p: Pid, c: Id, user: int, caller: Caller, r: C.ExecutionResult, ch: Choice)
    ensures Forward(s, CompleteStep(s, p, c, user, caller, r, ch))
  {
    hide Forward, Overdue, ConfirmFailed, C.ToDoc;
    if ch.fail || !C.HasStatus(s.confs, c, C.Executing) || c !in s.confLog {
      ConfirmFailedForward(s, p, c, user, caller);
    } else {
      var l := s.confLog[c].(late := s.confLog[c].late || Overdue(s, c));
      var u := s.(confs := C.Completed(s.confs, c, r, ch.now), confLog := s.confLog[c := l]);
      DocumentForward(s, c, C.Completed(s.confs, c, r, ch.now)[c], l);
      DoneForward(u, p, Record(c, user, caller, r));
      ForwardTrans(s, u, Goto(u, p, Record(c, user, caller, r)));
    }
  }

  lemma FailForward(s: State, p: Pid, c: Id, user: int, caller: Caller, ch: Choice)
    ensures Forward(s, FailStep(s, p, c, user, caller, ch))
  {
    hide Forward, ConfsForward, ConfirmFailed;
    ConfirmFailedForward(s, p, c, user, caller);
    if !ch.fail && C.HasStatus(s.confs, c, C.Executing) {
      var u := s.(confs := C.MarkedFailed(s.confs, c, ch.now));
      OneForward(s.confs, c, C.MarkedFailed(s.confs, c, ch.now)[c]);
      ConfForward(s, u);
      ConfirmFailedForward(u, p, c, user, caller);
      ForwardTrans(s, u, ConfirmFailed(u, p, c, user, caller));
    }
  }

  lemma RecordForward(s: State, p: Pid, c: Id, user: int, caller: Caller, r: C.ExecutionResult, ch: Choice)
    requires c !in s.journal
    ensures Forward(s, RecordStep(s, p, c, user, caller, r, ch))
  {
    hide Forward, JournalForward, Journalled, ConfirmOk;
    if c in s.confs && c in s.confLog {
      JournalledForward(s.journal, c, s.confs[c].intent, r, ch.now);
      var u := s.(journal := if ch.fail then s.journal else Journalled(s.journal, c, s.confs[c].intent, r, ch.now),
                  confLog := s.confLog[c := s.confLog[c].(returned := s.confLog[c].returned + {r})]);
      UnchangedJournal(s.journal);
      JournalStepForward(s, u);
      ConfirmFailedForward(u, p, c, user, caller);
      ForwardTrans(s, u, ConfirmOk(u, p, c, caller));
    } else {
      DoneForward(s, p, CloseTrade(c));
    }
  }

  lemma UnchangedJournal(journal: J.Rows)
    ensures JournalForward(journal, journal)
  {}

  lemma CloseTradeForward(s: State, p: Pid, c: Id, ch: Choice)
    ensures Forward(s, CloseTradeStep(s, p, c, ch))
  {
    hide Forward, JournalForward, J.Closed;
    DoneForward(s, p, CloseTrade(c));
    if !ch.fail {
      var u := s.(journal := J.Closed(s.journal, c, ch.update));
      ClosedForward(s.journal, c, ch.update);
      JournalStepForward(s, u);
      DoneForward(u, p, CloseTrade(c));
      ForwardTrans(s, u, Protocol.Done(u, p));
    }
  }

  lemma ActivateForward(s: State, p: Pid, c: Id, ch: Choice)
    ensures Forward(s, ActivateStep(s, p, c, ch))
  {
    hide Forward;
    DoneForward(s, p, Activate(c));
    match ch.hit {
      case None =>
      case Some(r) =>
        if !ch.fail && r in s.closes && r in s.closeLog && S.Activatable(s.closes[r], c) {
          var x, l := S.Activated(s.closes[r], ch.now), s.closeLog[r].(activatedAt := Some(ch.now));
          var u := s.(closes := s.closes[r := x], closeLog := s.closeLog[r := l]);
          RowForward(s, r, x, l);
          DoneForward(u, p, Activate(c));
          ForwardTrans(s, u, Protocol.Done(u, p));
        }
    }
  }

  lemma AfterDropForward(s: State, p: Pid, c: Id, user: int, cause: Cause)
    ensures Forward(s, AfterDrop(s, p, c, user, cause))
  {
    hide Forward;
    DoneForward(s, p, Abandon(c, user, Stop));
  }

  lemma DropForward(s: State, p: Pid, c: Id, user: int, cause: Cause, ch: Choice)
    ensures Forward(s, DropStep(s, p, c, user, cause, ch))
  {
    hide Forward, AfterDrop;
    AfterDropForward(s, p, c, user, cause);
    match ch.hit {
      case None =>
      case Some(r) =>
        if !ch.fail && r in s.closes && r in s.closeLog && S.Droppable(s.closes[r], c) {
          var x := S.Dropped(s.closes[r], ch.now);
          var l := s.closeLog[r].(cause := Some(cause), terminals := s.closeLog[r].terminals + 1);
          var u := s.(closes := s.closes[r := x], closeLog := s.closeLog[r := l]);
          RowForward(s, r, x, l);
          AfterDropForward(u, p, c, user, cause);
          ForwardTrans(s, u, AfterDrop(u, p, c, user, cause));
        }
    }
  }

  lemma ClaimForward(s: State, p: Pid, row: Id, now: Time, ch: Choice)
    ensures Forward(s, ClaimStep(s, p, row, now, ch))
  {
    hide Forward;
    DoneForward(s, p, Held(row, now));
    if !ch.fail && row in s.closes && row in s.closeLog && S.Claimable(s.closes[row], now) {
      var x, l := S.Claimed(s.closes[row], now), s.closeLog[row].(claims := s.closeLog[row].claims + [Claim(p, now, s.clock)]);
      var u := s.(closes := s.closes[row := x], closeLog := s.closeLog[row := l]);
      RowForward(s, row, x, l);
      DoneForward(u, p, Held(row, now));
      ForwardTrans(s, u, Goto(u, p, Held(row, now)));
    }
  }

  lemma FinishForward(s: State, p: Pid, row: Id, status: S.Status, confirmation: Option<Id>, ch: Choice)
    ensures Forward(s, FinishStep(s, p, row, status, confirmation, ch))
  {
    hide Forward;
    DoneForward(s, p, CloseTrade(row));
    if !ch.fail && row in s.closes && row in s.closeLog && s.closes[row].status == S.Executing {
      var x, l := S.Ended(s.closes[row], status, confirmation, ch.now), s.closeLog[row].(terminals := s.closeLog[row].terminals + 1);
      var u := s.(closes := s.closes[row := x], closeLog := s.closeLog[row := l]);
      RowForward(s, row, x, l);
      DoneForward(u, p, CloseTrade(row));
      ForwardTrans(s, u, Protocol.Done(u, p));
    }
  }

  lemma PutForward(s: State, c: Id, d: C.Confirmation, o: Origin)
    requires c !in s.confs
    ensures Forward(s, Put(s, c, d, o))
  {
    hide Forward, ConfsForward;
    OneForward(s.confs, c, d);
    ConfForward(s, Put(s, c, d, o));
  }

  lemma HeldForward(s: State, p: Pid, row: Id, stamp: Time, ch: Choice)
    ensures Forward(s, HeldStep(s, p, row, stamp, ch))
  {
    hide Forward, Put, C.KeyTaken;
    if ch.branch == 0 || row !in s.closes || ch.branch == 1 || ch.fail || !CanPut(s, ch.newId, C.ConfirmKey(ch.newId)) {
      DoneForward(s, p, Finish(row, stamp, S.Skipped, None));
      DoneForward(s, p, Finish(row, stamp, S.Done, None));
    } else {
      var d := NewConfirmation(s.closes[row].userId, C.CloseOrder(Some(s.closes[row].entry)), C.ConfirmKey(ch.newId), ch.expiresAt);
      var u := Put(s, ch.newId, d, TimedClose(row, p));
      PutForward(s, ch.newId, d, TimedClose(row, p));
      DoneForward(u, p, ClosePrepared(row, ch.newId, stamp));
      ForwardTrans(s, u, Goto(u, p, ClosePrepared(row, ch.newId, stamp)));
    }
  }

  lemma SaveForward(s: State, r: Id, x: S.ScheduledClose)
    requires r !in s.closes
    ensures Forward(s, SaveClose(s, r, x))
  {
    hide Forward;
    CloseForward(s, SaveClose(s, r, x));
  }

  lemma AttachForward(s: State, p: Pid, c: Id, ch: Choice)
    ensures Forward(s, AttachCloseStep(s, p, c, ch))
  {
    hide Forward;
    if c in s.confs && ch.gate && !ch.fail && ch.newId !in s.closes {
      var u := SaveClose(s, ch.newId, NewClose(ch.template, s.confs[c].userId, c, ch.now));
      SaveForward(s, ch.newId, NewClose(ch.template, s.confs[c].userId, c, ch.now));
      DoneForward(u, p, CloseTrade(c));
      ForwardTrans(s, u, Protocol.Done(u, p));
    } else {
      DoneForward(s, p, if c in s.confs then Abandon(c, s.confs[c].userId, Stop) else CloseTrade(c));
    }
  }

  lemma AttachEntryForward(s: State, p: Pid, m: Id, c: Id, ch: Choice)
    ensures Forward(s, AttachEntryCloseStep(s, p, m, c, ch))
  {
    hide Forward, SaveClose, NewClose;
    if c in s.confs {
      var user := s.confs[c].userId;
      var pc := if ch.branch != 0 && (ch.fail || ch.newId in s.closes) then Abandon(c, user, Stop)
                else if ch.gate then Take(c, user, ByTrigger) else Abandon(c, user, DropEntryClose);
      if ch.branch != 0 && !ch.fail && ch.newId !in s.closes {
        var x := NewClose(ch.template, user, c, ch.now);
        SaveForward(s, ch.newId, x);
        DoneForward(SaveClose(s, ch.newId, x), p, pc);
        ForwardTrans(s, SaveClose(s, ch.newId, x), Goto(SaveClose(s, ch.newId, x), p, pc));
      } else {
        DoneForward(s, p, pc);
      }
    } else {
      DoneForward(s, p, CloseTrade(c));
    }
  }

  lemma PrepareEntryForward(s: State, p: Pid, m: Id, ch: Choice)
    ensures Forward(s, PrepareEntryStep(s, p, m, ch))
  {
    hide Forward, Put, C.KeyTaken;
    DoneForward(s, p, PrepareEntry(m));
    if !ch.fail && m in s.missions && CanPut(s, ch.newId, C.ArmedKey(m)) {
      var d := NewConfirmation(s.missions[m].userKey, C.OpenEntry, C.ArmedKey(m), ch.expiresAt);
      var u := Put(s, ch.newId, d, ArmedEntry(m, p));
      PutForward(s, ch.newId, d, ArmedEntry(m, p));
      DoneForward(u, p, RecordEntry(m, ch.newId));
      ForwardTrans(s, u, Goto(u, p, RecordEntry(m, ch.newId)));
    }
  }

  lemma MissionSetForward(s: State, m: Id, x: A.ArmedMission)
    requires m in s.missions ==> s.missions[m].status == A.Armed
    ensures Forward(s, s.(missions := s.missions[m := x]))
  {
    hide Forward;
    MissionForward(s, s.(missions := s.missions[m := x]));
  }

  lemma ExpireMissionForward(s: State, p: Pid, m: Id, ch: Choice)
    ensures Forward(s, ExpireMissionStep(s, p, m, ch))
  {
    hide Forward;
    DoneForward(s, p, ExpireMission(m));
    if !ch.fail && m in s.missions && s.missions[m].status == A.Armed {
      var u := s.(missions := s.missions[m := A.MarkedExpired(s.missions[m], ch.now)]);
      MissionSetForward(s, m, A.MarkedExpired(s.missions[m], ch.now));
      DoneForward(u, p, ExpireMission(m));
      ForwardTrans(s, u, Protocol.Done(u, p));
    }
  }

  lemma TriggerForward(s: State, p: Pid, m: Id, now: Time, ch: Choice)
    ensures Forward(s, TriggerStep(s, p, m, now, ch))
  {
    hide Forward;
    DoneForward(s, p, PrepareEntry(m));
    if !ch.fail && m in s.missions && A.Triggerable(s.missions[m], now) {
      var x := A.MarkedTriggered(s.missions[m], ch.template.side, now);
      var u := s.(missions := s.missions[m := x], triggerer := s.triggerer[m := p]);
      MissionForward(s, u);
      DoneForward(u, p, PrepareEntry(m));
      ForwardTrans(s, u, Goto(u, p, PrepareEntry(m)));
    }
  }

  lemma RecordEntryForward(s: State, p: Pid, m: Id, c: Id, ch: Choice)
    ensures Forward(s, RecordEntryStep(s, p, m, c, ch))
  {
    hide Forward;
    if c !in s.confs {
      DoneForward(s, p, CloseTrade(c));
    } else if ch.fail || m !in s.missions || !A.Recordable(s.missions[m], c) {
      DoneForward(s, p, Abandon(c, s.confs[c].userId, Stop));
    } else {
      var u := s.(missions := s.missions[m := A.Recorded(s.missions[m], c, ch.now)]);
      var pc := if ch.gate then AttachEntryClose(m, c) else Abandon(c, s.confs[c].userId, Stop);
      MissionForward(s, u);
      DoneForward(u, p, pc);
      ForwardTrans(s, u, Goto(u, p, pc));
    }
  }

  lemma AbandonReadForward(s: State, p: Pid, c: Id, user: int, now: Time, after: After, ch: Choice)
    ensures Forward(s, AbandonReadStep(s, p, c, user, now, after, ch))
  {
    hide Forward;
    AfterCancelForward(s, p, c, user, after);
    DoneForward(s, p, AbandonExpire(c, user, after));
  }

  lemma TakeReadForward(s: State, p: Pid, c: Id, user: int, now: Time, caller: Caller, ch: Choice)
    ensures Forward(s, TakeReadStep(s, p, c, user, now, caller, ch))
  {
    hide Forward, ConfirmFailed, ConfirmOk;
    ConfirmFailedForward(s, p, c, user, caller);
    DoneForward(s, p, TakeExpire(c, user, caller));
    if !ch.fail && c in s.confs && c in s.confLog && C.Answer(s.confs[c], user, now).Finished? {
      ReturnedForward(s, p, c, user, caller, C.Answer(s.confs[c], user, now).result);
    }
  }

  lemma ReturnedForward(s: State, p: Pid, c: Id, user: int, caller: Caller, r: C.ExecutionResult)
    requires c in s.confLog
    ensures Forward(s, ConfirmOk(s.(confLog := s.confLog[c := s.confLog[c].(returned := s.confLog[c].returned + {r})]), p, c, caller))
  {
    hide Forward, ConfirmOk;
    var u := s.(confLog := s.confLog[c := s.confLog[c].(returned := s.confLog[c].returned + {r})]);
    SameForward(s, u);
    ConfirmFailedForward(u, p, c, user, caller);
    ForwardTrans(s, u, ConfirmOk(u, p, c, caller));
  }

  lemma ReconcileForward(s: State, p: Pid, row: Id, c: Id, now: Time, ch: Choice)
    ensures Forward(s, ReconcileStep(s, p, row, c, now, ch))
  {
    hide Forward, Goto, Protocol.Done;
    DoneForward(s, p, Activate(c));
    if row in s.closes {
      DoneForward(s, p, Drop(c, s.closes[row].userId, EntryEnded));
      DoneForward(s, p, Drop(c, s.closes[row].userId, EntryStale(row)));
    }
  }

  lemma ClosePreparedForward(s: State, p: Pid, row: Id, c: Id, stamp: Time, ch: Choice)
    ensures Forward(s, ClosePreparedStep(s, p, row, c, stamp, ch))
  {
    hide Forward, Goto, Protocol.Done;
    if c in s.confs {
      DoneForward(s, p, Take(c, s.confs[c].userId, ByClose(row, stamp)));
      DoneForward(s, p, Abandon(c, s.confs[c].userId, SkipRow(row, stamp)));
    } else {
      DoneForward(s, p, CloseTrade(c));
    }
  }

  lemma ConfirmationStepForward(s: State, p: Pid, ch: Choice)
    requires Inv(s) && p in s.procs && OnConfirmation(s.procs[p])
    ensures Forward(s, AdvanceStep(s, p, ch))
  {
    hide Inv, Forward, AttachCloseStep, AbandonStep, AbandonReadStep, AfterCancel, ExpireConfirmation, TakeStep, TakeReadStep,
         ConfirmFailed, CallStep, CompleteStep, FailStep, RecordStep, ActivateStep, DropStep, ExpireMissionStep, TriggerStep,
         PrepareEntryStep, RecordEntryStep, AttachEntryCloseStep, ReconcileStep, ClaimStep, HeldStep, ClosePreparedStep,
         FinishStep, CloseTradeStep;
    match s.procs[p] {
      case Take(c, user, caller) => TakeForward(s, p, c, user, caller, ch);
      case TakeRead(c, user, now, caller) => TakeReadForward(s, p, c, user, now, caller, ch);
      case TakeExpire(c, user, caller) => ExpireForward(s, p, c, user, Stop, caller, ch);
      case Call(c, user, caller) => CallForward(s, p, c, user, caller, ch);
      case Activate(c) => ActivateForward(s, p, c, ch);
      case Drop(c, user, cause) => DropForward(s, p, c, user, cause, ch);
      case _ => SettleForward(s, p, ch);
    }
  }

  lemma SettleForward(s: State, p: Pid, ch: Choice)
    requires Inv(s) && p in s.procs && (s.procs[p].Settle? || s.procs[p].Record?)
    ensures Forward(s, AdvanceStep(s, p, ch))
  {
    hide Inv, Forward, AttachCloseStep, AbandonStep, AbandonReadStep, AfterCancel, ExpireConfirmation, TakeStep, TakeReadStep,
         ConfirmFailed, CallStep, CompleteStep, FailStep, RecordStep, ActivateStep, DropStep, ExpireMissionStep, TriggerStep,
         PrepareEntryStep, RecordEntryStep, AttachEntryCloseStep, ReconcileStep, ClaimStep, HeldStep, ClosePreparedStep,
         FinishStep, CloseTradeStep;
    UnrecordedYet(s, p);
    match s.procs[p] {
      case Settle(c, user, caller, outcome) =>
        if outcome.Some? {
          CompleteForward(s, p, c, user, caller, outcome.value, ch);
        } else {
          FailForward(s, p, c, user, caller, ch);
        }
      case Record(c, user, caller, r) => RecordForward(s, p, c, user, caller, r, ch);
    }
  }

  lemma EntryStepForward(s: State, p: Pid, ch: Choice)
    requires p in s.procs && (OnEntry(s.procs[p]) || OnAbandon(s.procs[p]))
    ensures Forward(s, AdvanceStep(s, p, ch))
  {
    hide Forward, AttachCloseStep, AbandonStep, AbandonReadStep, AfterCancel, ExpireConfirmation, TakeStep, TakeReadStep,
         ConfirmFailed, CallStep, CompleteStep, FailStep, RecordStep, ActivateStep, DropStep, ExpireMissionStep, TriggerStep,
         PrepareEntryStep, RecordEntryStep, AttachEntryCloseStep, ReconcileStep, ClaimStep, HeldStep, ClosePreparedStep,
         FinishStep, CloseTradeStep;
    match s.procs[p] {
      case AttachClose(c) => AttachForward(s, p, c, ch);
      case Abandon(c, user, after) => AbandonForward(s, p, c, user, after, ch);
      case AbandonRead(c, user, now, after) => AbandonReadForward(s, p, c, user, now, after, ch);
      case AbandonExpire(c, user, after) => ExpireForward(s, p, c, user, after, ByUser, ch);
      case ExpireMission(m) => ExpireMissionForward(s, p, m, ch);
      case Trigger(m, now) => TriggerForward(s, p, m, now, ch);
      case PrepareEntry(m) => PrepareEntryForward(s, p, m, ch);
      case RecordEntry(m, c) => RecordEntryForward(s, p, m, c, ch);
      case AttachEntryClose(m, c) => AttachEntryForward(s, p, m, c, ch);
      case CloseTrade(c) => CloseTradeForward(s, p, c, ch);
    }
  }

  lemma CloseStepForward(s: State, p: Pid, ch: Choice)
    requires p in s.procs && !OnConfirmation(s.procs[p]) && !OnEntry(s.procs[p]) && !OnAbandon(s.procs[p])
    ensures Forward(s, AdvanceStep(s, p, ch))
  {
    hide Forward, AttachCloseStep, AbandonStep, AbandonReadStep, AfterCancel, ExpireConfirmation, TakeStep, TakeReadStep,
         ConfirmFailed, CallStep, CompleteStep, FailStep, RecordStep, ActivateStep, DropStep, ExpireMissionStep, TriggerStep,
         PrepareEntryStep, RecordEntryStep, AttachEntryCloseStep, ReconcileStep, ClaimStep, HeldStep, ClosePreparedStep,
         FinishStep, CloseTradeStep;
    match s.procs[p] {
      case Reconcile(row, c, now) => ReconcileForward(s, p, row, c, now, ch);
      case ClaimRow(row, now) => ClaimForward(s, p, row, now, ch);
      case Held(row, stamp) => HeldForward(s, p, row, stamp, ch);
      case ClosePrepared(row, c, stamp) => ClosePreparedForward(s, p, row, c, stamp, ch);
      case Finish(row, stamp, status, confirmation) => FinishForward(s, p, row, status, confirmation, ch);
      case _ => assert false;
    }
  }

  lemma AdvanceForward(s: State, p: Pid, ch: Choice)
    requires Inv(s) && p in s.procs
    ensures Forward(s, AdvanceStep(s, p, ch))
  {
    hide *;
    if OnConfirmation(s.procs[p]) {
      ConfirmationStepForward(s, p, ch);
    } else if OnEntry(s.procs[p]) || OnAbandon(s.procs[p]) {
      EntryStepForward(s, p, ch);
    } else {
      CloseStepForward(s, p, ch);
    }
  }

  lemma UnrecordedYet(s: State, p: Pid)
    requires Inv(s) && p in s.procs
    ensures s.procs[p].Record? ==> s.procs[p].c !in s.journal
  {
    PS.ProcFacts(s, p);
  }

  lemma SweepForward(s: State, now: Time)
    ensures Forward(s, s.(missions := A.Swept(s.missions, now)))
  {
    hide Forward;
    MissionForward(s, s.(missions := A.Swept(s.missions, now)));
  }

  lemma MissionActionForward(s: State, a: Action)
    requires Enabled(s, a) && (a.Arm? || a.Disarm? || a.Extend? || a.Sweep?)
    ensures Forward(s, Next(s, a))
  {
    hide Forward, AdvanceStep, Put, HonestHit, A.Swept;
    match a {
      case Arm(m, user, window, expiresAt, now) =>
        MissionSetForward(s, m, A.ArmedMission(user, A.Armed, "", expiresAt, window, None, None, now));
      case Disarm(m, _, now) =>
        if s.missions[m].status == A.Armed {
          MissionSetForward(s, m, A.MarkedDisarmed(s.missions[m], now));
        } else {
          SameForward(s, s);
        }
      case Extend(m, window, expiresAt, now) =>
        if s.missions[m].status == A.Armed {
          MissionSetForward(s, m, A.Extended(s.missions[m], window, expiresAt, now));
        } else {
          SameForward(s, s);
        }
      case Sweep(now) => SweepForward(s, now);
    }
  }

  lemma PutActionForward(s: State, a: Action)
    requires Enabled(s, a) && (a.PutManual? || a.StartMission?)
    ensures Forward(s, Next(s, a))
  {
    hide Forward, AdvanceStep, C.KeyTaken, HonestHit;
    var t := Next(s, a);
    OneForward(s.confs, a.c, t.confs[a.c]);
    ConfForward(s, t);
  }

  lemma StartForward(s: State, a: Action)
    requires Enabled(s, a)
    requires a.StartConfirm? || a.StartCancel? || a.StartWatch? || a.StartReconcile? || a.StartPoll? || a.StartResult? || a.Crash?
    ensures Forward(s, Next(s, a))
  {
    hide Forward, AdvanceStep, HonestHit;
    var t := Next(s, a);
    assert OnlyConfirmations(s, t) && t.confs == s.confs;
    SameForward(s, t);
  }

  lemma TickForward(s: State, elapsed: nat)
    ensures Forward(s, s.(clock := s.clock + elapsed))
  {}

  lemma NextForward(s: State, a: Action)
    requires Inv(s) && Enabled(s, a)
    ensures Forward(s, Next(s, a))
  {
    hide Inv, Forward;
    if a.Advance? {
      AdvanceForward(s, a.p, a.ch);
    } else if a.Tick? {
      TickForward(s, a.elapsed);
    } else if a.PutManual? || a.StartMission? {
      PutActionForward(s, a);
    } else if a.Arm? || a.Disarm? || a.Extend? || a.Sweep? {
      MissionActionForward(s, a);
    } else {
      StartForward(s, a);
    }
  }

  /** Nothing a run does undoes a terminal document. */
  lemma {:induction false} RunForward(s: State, run: seq<Action>)
    requires Inv(s) && Legal(s, run)
    ensures Forward(s, Outcome(s, run))
    decreases |run|
  {
    hide Inv, Next, Enabled, Forward;
    if run == [] {
      SameForward(s, s);
    } else {
      NextForward(s, run[0]);
      NextKeeps(s, run[0]);
      RunForward(Next(s, run[0]), run[1..]);
      ForwardTrans(s, Next(s, run[0]), Outcome(s, run));
    }
  }
}
