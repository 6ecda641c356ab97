/** What the rows of the trade journal hold, and who wrote it. */
module ProtocolJournal {
  import opened Common
  import opened Decimals
  import opened Protocol
  import opened ProtocolInvariant
  import opened ProtocolRuns
  import opened ProtocolEvents
  import F = ProtocolForward
  import PS = ProtocolSteps
  import Text
  import C = Confirmations
  import S = ScheduledCloses
  import A = ArmedMissions
  import J = Journal

  // ---------------------------------------------------------------------------
  // What a row is to hold
  // ---------------------------------------------------------------------------

  /** The confirmation was executed for good with this result. */
  ghost predicate ExecutedWith(s: State, c: Id, r: C.ExecutionResult) {
    c in s.confs && s.confs[c].status == C.Executed && s.confs[c].result.Some? && r == C.FromDoc(s.confs[c].result.value)
  }

  ghost predicate SignOf(o: J.Outcome, pnl: real) {
    o == (if pnl > 0.0 then J.Win else if pnl < 0.0 then J.Loss else J.Breakeven)
  }

  /** An open row is an executed entry's, in its mode, which is no dry run; it has no result yet. */
  ghost predicate OpenRow(s: State, id: Id)
    requires id in s.journal
  {
    exists r :: ExecutedWith(s, id, r) && s.confs[id].intent == C.OpenEntry && OpenedBy(s.journal[id], r)
  }

  ghost predicate OpenedBy(row: J.Trade, r: C.ExecutionResult) {
    row.outcome == J.Open && row.mode == r.mode && Text.Lower(Text.TrimSpace(r.mode)) != "dry_run"
  }

  /** The mode of a finalised row: the writer's, or that of the entry if the writer gives none. */
  ghost predicate ModeOf(s: State, id: Id, mode: string)
    requires id in s.journal
  {
    if mode != "" then s.journal[id].mode == mode else exists r :: ExecutedWith(s, id, r) && s.journal[id].mode == r.mode
  }

  ghost predicate ExecutedEntry(s: State, id: Id) {
    exists r :: ExecutedWith(s, id, r) && s.confs[id].intent == C.OpenEntry
  }

  /** The row of an entry holds the reconciler's update. */
  ghost predicate ReportedRow(s: State, id: Id, u: J.CloseUpdate) {
    && id in s.journal && ExecutedEntry(s, id)
    && var row := s.journal[id];
       row.exit == u.exit && row.pnl == u.pnl && row.closedAt == u.closedAt && SignOf(row.outcome, Val(u.pnl)) && ModeOf(s, id, u.mode)
  }

  /** The row of an entry holds the result of an executed close order that names the entry. */
  ghost predicate ClosedRow(s: State, id: Id, c: Id, at: Time) {
    && id in s.journal && ExecutedEntry(s, id)
    && c in s.confs && s.confs[c].intent == C.CloseOrder(Some(id))
    && s.journal[id].closedAt == at
    && exists r :: ExecutedWith(s, c, r) && HoldsResult(s.journal[id], r) && ModeOf(s, id, r.mode)
  }

  ghost predicate HoldsResult(row: J.Trade, r: C.ExecutionResult) {
    Val(row.exit) == Val(r.exitPrice) && Val(row.pnl) == Val(r.realizedPnl) && SignOf(row.outcome, Val(r.realizedPnl))
  }

  /** The row of a manual close order holds its own result, without an exit price. */
  ghost predicate ManualRow(s: State, id: Id, at: Time) {
    id in s.journal && id in s.confs && s.confs[id].intent == C.CloseOrder(None) && s.journal[id].closedAt == at
    && exists r :: ExecutedWith(s, id, r) && HoldsManually(s.journal[id], r)
  }

  ghost predicate HoldsManually(row: J.Trade, r: C.ExecutionResult) {
    row.mode == r.mode && Val(row.pnl) == Val(r.realizedPnl) && SignOf(row.outcome, Val(r.realizedPnl)) && Val(row.exit) == 0.0
  }

  // ---------------------------------------------------------------------------
  // Steps that leave the journal alone
  // ---------------------------------------------------------------------------

  lemma MovesKeep(p: Pid)
    ensures forall s: State, pc: Pc :: Goto(s, p, pc).journal == s.journal
    ensures forall s: State :: Protocol.Done(s, p).journal == s.journal
  {}

  lemma ReturnsKeep(p: Pid)
    ensures forall s: State, c: Id, user: int, after: After :: AfterCancel(s, p, c, user, after).journal == s.journal
    ensures forall s: State, c: Id, caller: Caller :: ConfirmOk(s, p, c, caller).journal == s.journal
    ensures forall s: State, c: Id, user: int, caller: Caller :: ConfirmFailed(s, p, c, user, caller).journal == s.journal
    ensures forall s: State, c: Id, user: int, cause: Cause :: AfterDrop(s, p, c, user, cause).journal == s.journal
  {
    hide Goto, Protocol.Done;
    MovesKeep(p);
  }

  lemma TakingKeeps(s: State, p: Pid, ch: Choice)
    requires p in s.procs && (s.procs[p].Take? || s.procs[p].TakeRead? || s.procs[p].TakeExpire? || s.procs[p].Call?)
    ensures AdvanceStep(s, p, ch).journal == s.journal
  {
    hide Goto, Protocol.Done, AfterCancel, ConfirmOk, ConfirmFailed, AfterDrop, C.Actionable, C.Answer;
    MovesKeep(p);
    ReturnsKeep(p);
  }

  lemma CompletingKeeps(s: State, p: Pid, c: Id, user: int, caller: Caller, r: C.ExecutionResult, ch: Choice)
    ensures CompleteStep(s, p, c, user, caller, r, ch).journal == s.journal
    ensures FailStep(s, p, c, user, caller, ch).journal == s.journal
  {
    hide Goto, Protocol.Done, ConfirmOk, ConfirmFailed, Overdue, C.Completed, C.MarkedFailed;
    MovesKeep(p);
    ReturnsKeep(p);
  }

  lemma SettlingKeeps(s: State, p: Pid, ch: Choice)
    requires p in s.procs && s.procs[p].Settle?
    ensures AdvanceStep(s, p, ch).journal == s.journal
  {
    hide CompleteStep, FailStep;
    var pc := s.procs[p];
    CompletingKeeps(s, p, pc.c, pc.user, pc.caller, if pc.outcome.Some? then pc.outcome.value else ch.result, ch);
  }

  lemma AbandoningKeeps(s: State, p: Pid, ch: Choice)
    requires p in s.procs && (s.procs[p].Abandon? || s.procs[p].AbandonRead? || s.procs[p].AbandonExpire?)
    ensures AdvanceStep(s, p, ch).journal == s.journal
  {
    hide Goto, Protocol.Done, AfterCancel, C.Actionable, C.LapsedPending;
    MovesKeep(p);
    ReturnsKeep(p);
  }

  lemma MissionsKeep(s: State, p: Pid, ch: Choice)
    requires p in s.procs && (s.procs[p].ExpireMission? || s.procs[p].Trigger? || s.procs[p].PrepareEntry? || s.procs[p].RecordEntry?)
    ensures AdvanceStep(s, p, ch).journal == s.journal
  {
    hide Goto, Protocol.Done, A.Triggerable, A.MarkedTriggered, A.Recordable, A.Recorded, CanPut, NewConfirmation;
    MovesKeep(p);
  }

  lemma AttachingKeeps(s: State, p: Pid, ch: Choice)
    requires p in s.procs && (s.procs[p].AttachClose? || s.procs[p].AttachEntryClose?)
    ensures AdvanceStep(s, p, ch).journal == s.journal
  {
    hide Goto, Protocol.Done, NewClose;
    MovesKeep(p);
  }

  lemma RowsKeep(s: State, p: Pid, ch: Choice)
    requires p in s.procs && (s.procs[p].Activate? || s.procs[p].Drop? || s.procs[p].ClaimRow? || s.procs[p].Finish?)
    ensures AdvanceStep(s, p, ch).journal == s.journal
  {
    hide Goto, Protocol.Done, AfterDrop, S.Activatable, S.Droppable, S.Claimable, S.Activated, S.Dropped, S.Claimed, S.Ended;
    MovesKeep(p);
    ReturnsKeep(p);
  }

  lemma ClosesKeep(s: State, p: Pid, ch: Choice)
    requires p in s.procs && (s.procs[p].Reconcile? || s.procs[p].Held? || s.procs[p].ClosePrepared?)
    ensures AdvanceStep(s, p, ch).journal == s.journal
  {
    hide Goto, Protocol.Done, CanPut, NewConfirmation;
    MovesKeep(p);
  }

  /** Only two kinds of step write to the journal. */
  lemma StepKeeps(s: State, p: Pid, ch: Choice)
    requires p in s.procs && !s.procs[p].Record? && !s.procs[p].CloseTrade?
    ensures AdvanceStep(s, p, ch).journal == s.journal
  {
    hide AdvanceStep;
    var pc := s.procs[p];
    if pc.Take? || pc.TakeRead? || pc.TakeExpire? || pc.Call? {
      TakingKeeps(s, p, ch);
    } else if pc.Settle? {
      SettlingKeeps(s, p, ch);
    } else if pc.Abandon? || pc.AbandonRead? || pc.AbandonExpire? {
      AbandoningKeeps(s, p, ch);
    } else if pc.AttachClose? || pc.AttachEntryClose? {
      AttachingKeeps(s, p, ch);
    } else if pc.ExpireMission? || pc.Trigger? || pc.PrepareEntry? || pc.RecordEntry? {
      MissionsKeep(s, p, ch);
    } else if pc.Activate? || pc.Drop? || pc.ClaimRow? || pc.Finish? {
      RowsKeep(s, p, ch);
    } else {
      ClosesKeep(s, p, ch);
    }
  }

  predicate Writes(s: State, a: Action) {
    a.Advance? && a.p in s.procs && (s.procs[a.p].Record? || s.procs[a.p].CloseTrade?) && !a.ch.fail
  }

  lemma ActionKeeps(s: State, a: Action)
    requires Enabled(s, a) && !Writes(s, a)
    ensures Next(s, a).journal == s.journal
  {
    hide AdvanceStep, HonestHit, C.KeyTaken, A.Swept, A.Stale;
    if a.Advance? {
      if s.procs[a.p].Record? || s.procs[a.p].CloseTrade? {
        FailedWriteKeeps(s, a.p, a.ch);
      } else {
        StepKeeps(s, a.p, a.ch);
      }
    }
  }

  lemma FailedWriteKeeps(s: State, p: Pid, ch: Choice)
    requires p in s.procs && (s.procs[p].Record? || s.procs[p].CloseTrade?) && ch.fail
    ensures AdvanceStep(s, p, ch).journal == s.journal
  {
    hide Goto, Protocol.Done, ConfirmOk, Journalled, J.Closed;
    MovesKeep(p);
    ReturnsKeep(p);
  }

  // ---------------------------------------------------------------------------
  // Steps that write
  // ---------------------------------------------------------------------------

  /** What recording an execution does: the documents stay, the journal takes the result. */
  lemma RecordWrites(s: State, p: Pid, c: Id, ch: Choice)
    requires Recording(s, p, c) && !ch.fail && c in s.confs && c in s.confLog
    ensures var t := AdvanceStep(s, p, ch);
            t.confs == s.confs && t.journal == Journalled(s.journal, c, s.confs[c].intent, s.procs[p].result, ch.now)
  {
    hide ConfirmOk, Journalled;
    ReturnsKeep(p);
    ReturnsKeepDocs(p);
  }

  lemma ReturnsKeepDocs(p: Pid)
    ensures forall s: State, c: Id, caller: Caller :: ConfirmOk(s, p, c, caller).confs == s.confs
  {}

  lemma ReportWrites(s: State, p: Pid, e: Id, ch: Choice)
    requires Reporting(s, p, e) && !ch.fail
    ensures AdvanceStep(s, p, ch).confs == s.confs && AdvanceStep(s, p, ch).journal == J.Closed(s.journal, e, ch.update)
  {
    hide J.Closed;
  }

  lemma FinalisedIs(row: J.Trade, u: J.CloseUpdate)
    ensures var f := J.Finalised(row, u);
            && f.exit == u.exit && f.pnl == u.pnl && f.closedAt == u.closedAt && SignOf(f.outcome, Val(u.pnl))
            && f.mode == (if u.mode != "" then u.mode else row.mode)
  {
    hide Val;
    SignIs(u.pnl);
  }

  lemma SignIs(pnl: Decimal)
    ensures SignOf(J.OutcomeOf(pnl), Val(pnl)) && J.OutcomeOf(pnl) != J.Open
  {
    hide Val, J.OutcomeOf;
    J.OutcomeIsSign(pnl);
  }

  ghost predicate OpenRows(s: State) {
    forall id :: IsOpenRow(s, id) ==> OpenRow(s, id)
  }

  /** The result a recording process holds is the one its confirmation was executed with. */
  lemma RecordingHas(s: State, p: Pid, c: Id)
    requires Inv(s) && Recording(s, p, c)
    ensures Known(s, c) && c !in s.journal && s.confs[c].result.Some?
    ensures ExecutedWith(s, c, C.FromDoc(s.confs[c].result.value))
    ensures C.SameResult(s.procs[p].result, C.FromDoc(s.confs[c].result.value))
  {
    hide Inv, C.SameResult, C.FromDoc;
    PS.ProcFacts(s, p);
  }

  /** An open row finalised by an update. */
  lemma ClosingRow(s: State, t: State, id: Id, u: J.CloseUpdate)
    requires IsOpenRow(s, id) && OpenRow(s, id) && t.confs == s.confs && t.journal == J.Closed(s.journal, id, u)
    ensures ReportedRow(t, id, u)
  {
    hide Val, C.FromDoc, Text.Lower, Text.TrimSpace;
    FinalisedIs(s.journal[id], u);
    hide J.Finalised;
    var r :| ExecutedWith(s, id, r) && s.confs[id].intent == C.OpenEntry && OpenedBy(s.journal[id], r);
    assert ExecutedWith(t, id, r);
  }

  lemma OrderedClose(s: State, t: State, id: Id, c: Id, q: C.ExecutionResult, at: Time)
    requires IsOpenRow(s, id) && OpenRow(s, id) && t.confs == s.confs
    requires t.journal == J.Closed(s.journal, id, J.CloseUpdate(q.mode, q.exitPrice, q.realizedPnl, at))
    requires c in s.confs && s.confs[c].intent == C.CloseOrder(Some(id)) && s.confs[c].result.Some?
    requires ExecutedWith(s, c, C.FromDoc(s.confs[c].result.value)) && C.SameResult(q, C.FromDoc(s.confs[c].result.value))
    ensures ClosedRow(t, id, c, at)
  {
    var r := C.FromDoc(s.confs[c].result.value);
    hide Val, C.FromDoc, J.Closed;
    ClosingRow(s, t, id, J.CloseUpdate(q.mode, q.exitPrice, q.realizedPnl, at));
    assert ExecutedWith(t, c, r) && HoldsResult(t.journal[id], r) && ModeOf(t, id, r.mode);
  }

  lemma ManualClose(s: State, t: State, c: Id, q: C.ExecutionResult, at: Time)
    requires c in s.confs && s.confs[c].intent == C.CloseOrder(None) && s.confs[c].result.Some? && t.confs == s.confs
    requires ExecutedWith(s, c, C.FromDoc(s.confs[c].result.value)) && C.SameResult(q, C.FromDoc(s.confs[c].result.value))
    requires t.journal == Journalled(s.journal, c, C.CloseOrder(None), q, at)
    ensures ManualRow(t, c, at) && t.journal[c].outcome != J.Open
    ensures forall id :: id in t.journal && id != c ==> id in s.journal && t.journal[id] == s.journal[id]
  {
    var r := C.FromDoc(s.confs[c].result.value);
    hide Val, C.FromDoc, J.OutcomeOf;
    SignIs(q.realizedPnl);
    ZeroIs();
    assert ExecutedWith(t, c, r) && HoldsManually(t.journal[c], r);
  }

  lemma ZeroIs()
    ensures Val(ZERO) == 0.0
  {}

  lemma Opening(s: State, t: State, c: Id, q: C.ExecutionResult, at: Time)
    requires c in s.confs && c !in s.journal && s.confs[c].intent == C.OpenEntry && s.confs[c].result.Some? && t.confs == s.confs
    requires ExecutedWith(s, c, C.FromDoc(s.confs[c].result.value)) && C.SameResult(q, C.FromDoc(s.confs[c].result.value))
    requires t.journal == Journalled(s.journal, c, C.OpenEntry, q, at)
    ensures c in t.journal ==> OpenRow(t, c)
    ensures c in t.journal <==> Text.Lower(Text.TrimSpace(q.mode)) != "dry_run"
    ensures forall id :: id in t.journal && id != c ==> id in s.journal && t.journal[id] == s.journal[id]
  {
    var r := C.FromDoc(s.confs[c].result.value);
    hide Val, C.FromDoc, Text.Lower, Text.TrimSpace;
    if c in t.journal {
      assert ExecutedWith(t, c, r) && OpenedBy(t.journal[c], r);
    }
  }

  // ---------------------------------------------------------------------------
  // One action
  // ---------------------------------------------------------------------------

  /** What the action a has written into the row of id, if it changed it. */
  ghost predicate WrittenNow(s: State, a: Action, t: State, id: Id)
    requires id in t.journal
  {
    || (id in s.journal && t.journal[id] == s.journal[id])
    || (t.journal[id].outcome == J.Open && OpenRow(t, id))
    || (exists at :: Occurs(s, a, Records(id, at)) && t.journal[id].outcome != J.Open && ManualRow(t, id, at))
    || (exists c, at :: Occurs(s, a, Closes(c, id, at)) && ClosedRow(t, id, c, at))
    || (exists u :: Occurs(s, a, Reports(id, u)) && ReportedRow(t, id, u))
  }

  /** What an event has left in the journal. */
  ghost predicate Pinned(t: State, e: Event) {
    match e
    case Records(c, at) =>
      && (exists r :: ExecutedWith(t, c, r))
      && (t.confs[c].intent == C.OpenEntry ==>
            exists r :: ExecutedWith(t, c, r) && (Text.Lower(Text.TrimSpace(r.mode)) == "dry_run" || c in t.journal))
      && (t.confs[c].intent == C.CloseOrder(None) ==> ManualRow(t, c, at) && t.journal[c].outcome != J.Open)
    case Closes(c, id, at) => ClosedRow(t, id, c, at) && t.journal[id].outcome != J.Open
    case Reports(id, u) => ReportedRow(t, id, u) && t.journal[id].outcome != J.Open
    case _ => true
  }

  lemma OtherRows(s: State, t: State, e: Id, u: J.CloseUpdate)
    requires t.journal == J.Closed(s.journal, e, u)
    ensures forall id :: id in t.journal && id != e ==> id in s.journal && t.journal[id] == s.journal[id]
    ensures !IsOpenRow(s, e) ==> t.journal == s.journal
    ensures e in t.journal ==> e in s.journal
  {
    hide J.Finalised;
  }

  lemma ReportWritten(s: State, a: Action, e: Id)
    requires Inv(s) && OpenRows(s) && Enabled(s, a) && a.Advance? && Reporting(s, a.p, e) && !a.ch.fail
    ensures forall id :: id in Next(s, a).journal ==> WrittenNow(s, a, Next(s, a), id)
    ensures IsOpenRow(s, e) ==> Pinned(Next(s, a), Reports(e, a.ch.update))
  {
    hide Inv, AdvanceStep, HonestHit, OpenRow, ReportedRow, ClosedRow, ManualRow, J.Closed;
    var t := Next(s, a);
    ReportWrites(s, a.p, e, a.ch);
    OtherRows(s, t, e, a.ch.update);
    if IsOpenRow(s, e) {
      ClosingRow(s, t, e, a.ch.update);
      ReportedIsFinal(t, e, a.ch.update);
      assert Occurs(s, a, Reports(e, a.ch.update));
    }
  }

  lemma ReportedIsFinal(t: State, id: Id, u: J.CloseUpdate)
    requires ReportedRow(t, id, u)
    ensures id in t.journal && t.journal[id].outcome != J.Open
  {}

  lemma ClosedIsFinal(t: State, id: Id, c: Id, at: Time)
    requires ClosedRow(t, id, c, at)
    ensures id in t.journal && t.journal[id].outcome != J.Open
  {
    hide Val;
  }

  lemma RecordWritten(s: State, a: Action, c: Id)
    requires Inv(s) && OpenRows(s) && Enabled(s, a) && a.Advance? && Recording(s, a.p, c) && !a.ch.fail
    ensures forall id :: id in Next(s, a).journal ==> WrittenNow(s, a, Next(s, a), id)
    ensures Pinned(Next(s, a), Records(c, a.ch.now))
    ensures forall e :: Occurs(s, a, Closes(c, e, a.ch.now)) ==> Pinned(Next(s, a), Closes(c, e, a.ch.now))
  {
    hide Inv, AdvanceStep, HonestHit, OpenRow, ReportedRow, ClosedRow, ManualRow, J.Closed, C.FromDoc, C.SameResult, Text.Lower, Text.TrimSpace;
    var t := Next(s, a);
    var q := s.procs[a.p].result;
    RecordingHas(s, a.p, c);
    RecordWrites(s, a.p, c, a.ch);
    var r := C.FromDoc(s.confs[c].result.value);
    assert ExecutedWith(t, c, r);
    match s.confs[c].intent {
      case OpenEntry =>
        Opening(s, t, c, q, a.ch.now);
        assert q.mode == r.mode by { SameMode(q, r); }
      case CloseOrder(Some(e)) =>
        var u := J.CloseUpdate(q.mode, q.exitPrice, q.realizedPnl, a.ch.now);
        OtherRows(s, t, e, u);
        if IsOpenRow(s, e) {
          OrderedClose(s, t, e, c, q, a.ch.now);
          ClosedIsFinal(t, e, c, a.ch.now);
          assert Occurs(s, a, Closes(c, e, a.ch.now));
        }
      case CloseOrder(None) =>
        ManualClose(s, t, c, q, a.ch.now);
        assert Occurs(s, a, Records(c, a.ch.now));
      case OtherOrder =>
    }
  }

  lemma SameMode(q: C.ExecutionResult, r: C.ExecutionResult)
    requires C.SameResult(q, r)
    ensures q.mode == r.mode
  {}

  lemma ActionWrites(s: State, a: Action)
    requires Inv(s) && OpenRows(s) && Enabled(s, a)
    ensures forall id :: id in Next(s, a).journal ==> WrittenNow(s, a, Next(s, a), id)
    ensures forall e :: Occurs(s, a, e) ==> Pinned(Next(s, a), e)
  {
    hide Inv, Next, Enabled, OpenRows, Pinned, WrittenNow;
    if Writes(s, a) && s.procs[a.p].Record? {
      RecordWritten(s, a, s.procs[a.p].c);
      OnlyRecords(s, a);
    } else if Writes(s, a) {
      ReportWritten(s, a, s.procs[a.p].c);
      OnlyReports(s, a);
    } else {
      ActionKeeps(s, a);
      NothingWritten(s, a);
    }
  }

  lemma OnlyRecords(s: State, a: Action)
    requires Writes(s, a) && s.procs[a.p].Record? && Enabled(s, a)
    requires forall e :: Occurs(s, a, Closes(s.procs[a.p].c, e, a.ch.now)) ==> Pinned(Next(s, a), Closes(s.procs[a.p].c, e, a.ch.now))
    requires Pinned(Next(s, a), Records(s.procs[a.p].c, a.ch.now))
    ensures forall e :: Occurs(s, a, e) ==> Pinned(Next(s, a), e)
  {
    hide Next, Enabled, ManualRow, ClosedRow, ReportedRow, Overdue;
  }

  lemma OnlyReports(s: State, a: Action)
    requires Writes(s, a) && s.procs[a.p].CloseTrade? && Enabled(s, a)
    requires IsOpenRow(s, s.procs[a.p].c) ==> Pinned(Next(s, a), Reports(s.procs[a.p].c, a.ch.update))
    ensures forall e :: Occurs(s, a, e) ==> Pinned(Next(s, a), e)
  {
    hide Next, Enabled, ManualRow, ClosedRow, ReportedRow, Overdue;
  }

  lemma NothingWritten(s: State, a: Action)
    requires Enabled(s, a) && !Writes(s, a) && Next(s, a).journal == s.journal
    ensures forall id :: id in Next(s, a).journal ==> WrittenNow(s, a, Next(s, a), id)
    ensures forall e :: Occurs(s, a, e) ==> Pinned(Next(s, a), e)
  {
    hide Next, Enabled, ManualRow, ClosedRow, ReportedRow, OpenRow, Overdue;
  }

  // ---------------------------------------------------------------------------
  // Whole runs
  // ---------------------------------------------------------------------------

  /** Executed documents and final rows carry everything said of a final row along. */
  lemma RowsGoOn(s: State, t: State, id: Id, c: Id, at: Time, u: J.CloseUpdate)
    requires F.Forward(s, t) && id in s.journal
    ensures id in t.journal
    ensures s.journal[id].outcome != J.Open ==>
              && t.journal[id] == s.journal[id] && (ManualRow(s, id, at) ==> ManualRow(t, id, at))
              && (ClosedRow(s, id, c, at) ==> ClosedRow(t, id, c, at)) && (ReportedRow(s, id, u) ==> ReportedRow(t, id, u))
    ensures IsOpenRow(t, id) ==> t.journal[id] == s.journal[id] && (OpenRow(s, id) ==> OpenRow(t, id))
  {
    hide Val, C.FromDoc, Text.Lower, Text.TrimSpace;
    ResultsGoOn(s, t);
    hide F.Forward, ExecutedWith;
  }

  lemma SameIntent(s: State, t: State, c: Id)
    requires F.Forward(s, t) && exists r :: ExecutedWith(s, c, r)
    ensures c in s.confs && c in t.confs && t.confs[c] == s.confs[c]
  {}

  lemma ResultsGoOn(s: State, t: State)
    requires F.Forward(s, t)
    ensures forall c, r :: ExecutedWith(s, c, r) ==> ExecutedWith(t, c, r) && t.confs[c] == s.confs[c]
    ensures forall id :: id in s.journal ==> id in t.journal
    ensures forall id :: id in s.journal && (s.journal[id].outcome != J.Open || t.journal[id].outcome == J.Open) ==>
              t.journal[id] == s.journal[id]
  {
    hide C.FromDoc;
  }

  lemma PinnedGoesOn(s: State, t: State, e: Event)
    requires F.Forward(s, t) && Pinned(s, e)
    ensures Pinned(t, e)
  {
    hide F.Forward, ManualRow, ClosedRow, ReportedRow, OpenRow, ExecutedWith, Text.Lower, Text.TrimSpace, C.FromDoc;
    match e {
      case Records(c, at) => RecordedGoesOn(s, t, c, at);
      case Closes(c, id, at) => ClosedIsFinal(s, id, c, at); RowsGoOn(s, t, id, c, at, J.CloseUpdate("", ZERO, ZERO, 0));
      case Reports(id, u) => ReportedIsFinal(s, id, u); RowsGoOn(s, t, id, 0, 0, u);
      case _ =>
    }
  }

  lemma RecordedGoesOn(s: State, t: State, c: Id, at: Time)
    requires F.Forward(s, t) && Pinned(s, Records(c, at))
    ensures Pinned(t, Records(c, at))
  {
    hide F.Forward, ManualRow, ClosedRow, ReportedRow, OpenRow, Text.Lower, Text.TrimSpace, C.FromDoc, ExecutedWith;
    ResultsGoOn(s, t);
    SameIntent(s, t, c);
    if s.confs[c].intent == C.CloseOrder(None) {
      ManualIsExecuted(s, c, at);
      RowsGoOn(s, t, c, c, at, J.CloseUpdate("", ZERO, ZERO, 0));
    }
  }

  lemma ManualIsExecuted(s: State, c: Id, at: Time)
    requires ManualRow(s, c, at)
    ensures c in s.journal && exists r :: ExecutedWith(s, c, r)
  {}

  lemma {:induction false} Pins(s: State, run: seq<Action>, e: Event)
    requires Inv(s) && OpenRows(s) && Legal(s, run) && Happened(s, run, e)
    ensures Pinned(Outcome(s, run), e)
    decreases |run|
  {
    hide Inv, Next, Enabled, OpenRows, Pinned, Occurs, WrittenNow, F.Forward;
    var m := Next(s, run[0]);
    ActionWrites(s, run[0]);
    OpenRowsKeep(s, run[0]);
    NextKeeps(s, run[0]);
    if Occurs(s, run[0], e) {
      F.RunForward(m, run[1..]);
      PinnedGoesOn(m, Outcome(s, run), e);
    } else {
      Pins(m, run[1..], e);
    }
  }

  lemma OpenRowsKeep(s: State, a: Action)
    requires Inv(s) && OpenRows(s) && Enabled(s, a)
    ensures OpenRows(Next(s, a))
  {
    hide Inv, Next, Enabled, OpenRow, ManualRow, ClosedRow, ReportedRow, Occurs, F.Forward;
    var t := Next(s, a);
    ActionWrites(s, a);
    F.NextForward(s, a);
    forall id | IsOpenRow(t, id) ensures OpenRow(t, id) {
      assert WrittenNow(s, a, t, id);
      if id in s.journal && t.journal[id] == s.journal[id] {
        RowsGoOn(s, t, id, 0, 0, J.CloseUpdate("", ZERO, ZERO, 0));
      } else if exists c, at :: Occurs(s, a, Closes(c, id, at)) && ClosedRow(t, id, c, at) {
        var c, at :| Occurs(s, a, Closes(c, id, at)) && ClosedRow(t, id, c, at);
        ClosedIsFinal(t, id, c, at);
      } else if exists u :: Occurs(s, a, Reports(id, u)) && ReportedRow(t, id, u) {
        var u :| Occurs(s, a, Reports(id, u)) && ReportedRow(t, id, u);
        ReportedIsFinal(t, id, u);
      }
    }
  }

  /** Who finalised a row of the later state, and that it holds what was written. */
  ghost predicate FinalisedIn(s: State, run: seq<Action>, t: State, id: Id)
    requires Legal(s, run) && id in t.journal
  {
    || (id in s.journal && t.journal[id] == s.journal[id])
    || (exists at :: Happened(s, run, Records(id, at)) && ManualRow(t, id, at))
    || (exists c, at :: Happened(s, run, Closes(c, id, at)) && ClosedRow(t, id, c, at))
    || (exists u :: Happened(s, run, Reports(id, u)) && ReportedRow(t, id, u))
  }

  lemma FinalRowGoesOn(s: State, run: seq<Action>, m: State, t: State, id: Id)
    requires run != [] && Legal(s, run) && m == Next(s, run[0])
    requires F.Forward(m, t) && id in m.journal && id in t.journal && t.journal[id] == m.journal[id] && m.journal[id].outcome != J.Open
    requires WrittenNow(s, run[0], m, id)
    ensures FinalisedIn(s, run, t, id)
  {
    hide Next, Enabled, ManualRow, ClosedRow, ReportedRow, OpenRow, F.Forward, Occurs;
    var none := J.CloseUpdate("", ZERO, ZERO, 0);
    RowsGoOn(m, t, id, 0, 0, none);
    if exists c, at :: Occurs(s, run[0], Closes(c, id, at)) && ClosedRow(m, id, c, at) {
      var c, at :| Occurs(s, run[0], Closes(c, id, at)) && ClosedRow(m, id, c, at);
      RowsGoOn(m, t, id, c, at, none);
      assert Happened(s, run, Closes(c, id, at)) && ClosedRow(t, id, c, at);
    } else if exists u :: Occurs(s, run[0], Reports(id, u)) && ReportedRow(m, id, u) {
      var u :| Occurs(s, run[0], Reports(id, u)) && ReportedRow(m, id, u);
      RowsGoOn(m, t, id, 0, 0, u);
      assert Happened(s, run, Reports(id, u)) && ReportedRow(t, id, u);
    } else if exists at :: Occurs(s, run[0], Records(id, at)) && ManualRow(m, id, at) {
      var at :| Occurs(s, run[0], Records(id, at)) && ManualRow(m, id, at);
      RowsGoOn(m, t, id, 0, at, none);
      assert Happened(s, run, Records(id, at)) && ManualRow(t, id, at);
    }
  }

  lemma LaterFinalised(s: State, run: seq<Action>, m: State, t: State, id: Id)
    requires run != [] && Legal(s, run) && m == Next(s, run[0]) && id in t.journal
    requires FinalisedIn(m, run[1..], t, id) && !(id in m.journal && t.journal[id] == m.journal[id])
    ensures FinalisedIn(s, run, t, id)
  {
    hide Next, Enabled, ManualRow, ClosedRow, ReportedRow, Occurs;
    if exists c, at :: Happened(m, run[1..], Closes(c, id, at)) && ClosedRow(t, id, c, at) {
      var c, at :| Happened(m, run[1..], Closes(c, id, at)) && ClosedRow(t, id, c, at);
      assert Happened(s, run, Closes(c, id, at));
    } else if exists u :: Happened(m, run[1..], Reports(id, u)) && ReportedRow(t, id, u) {
      var u :| Happened(m, run[1..], Reports(id, u)) && ReportedRow(t, id, u);
      assert Happened(s, run, Reports(id, u));
    } else if exists at :: Happened(m, run[1..], Records(id, at)) && ManualRow(t, id, at) {
      var at :| Happened(m, run[1..], Records(id, at)) && ManualRow(t, id, at);
      assert Happened(s, run, Records(id, at));
    }
  }

  lemma {:induction false} RowsComeFromActions(s: State, run: seq<Action>, id: Id)
    requires Inv(s) && OpenRows(s) && Legal(s, run) && id in Outcome(s, run).journal
    ensures OpenRows(Outcome(s, run))
    ensures Outcome(s, run).journal[id].outcome != J.Open ==> FinalisedIn(s, run, Outcome(s, run), id)
    decreases |run|
  {
    hide Inv, Next, Enabled, OpenRows, WrittenNow, F.Forward, Happened, ManualRow, ClosedRow, ReportedRow;
    if run != [] {
      var m, t := Next(s, run[0]), Outcome(s, run);
      ActionWrites(s, run[0]);
      OpenRowsKeep(s, run[0]);
      NextKeeps(s, run[0]);
      F.RunForward(m, run[1..]);
      RowsComeFromActions(m, run[1..], id);
      if t.journal[id].outcome != J.Open {
        if id in m.journal && t.journal[id] == m.journal[id] {
          FinalRowGoesOn(s, run, m, t, id);
        } else {
          LaterFinalised(s, run, m, t, id);
        }
      }
    }
  }
}
