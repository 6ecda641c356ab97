/** Every action of the protocol keeps the invariant. */
module ProtocolSteps {
  import opened Common
  import opened Protocol
  import opened ProtocolInvariant
  import C = Confirmations
  import opened Decimals
  import DecimalText
  import S = ScheduledCloses
  import A = ArmedMissions
  import J = Journal

  // ---------------------------------------------------------------------------
  // Changing one document
  // ---------------------------------------------------------------------------

  ghost predicate Acting(s: State, a: Pid) {
    a in s.procs || a == s.nextPid
  }

  lemma OneConfirmationGuarantee(s: State, t: State, a: Pid, c: Id, d: C.Confirmation, l: ConfirmationLog)
    requires Inv(s) && Acting(s, a) && Known(s, c)
    requires t == s.(confs := s.confs[c := d], confLog := s.confLog[c := l])
    requires ConfMoves(a, s, t, c)
    ensures Guarantee(a, s, t)
  {
    hide Inv, Overdue, ConfMoves, CloseMoves;
    KeysMatch(s);
    forall x | Known(s, x) ensures ConfMoves(a, s, t, x) {
      if x != c {
        DocumentStays(s, t, a, x);
      }
    }
    ClosesStay(s, t, a);
  }

  lemma KeysMatch(s: State)
    requires Inv(s)
    ensures s.confs.Keys == s.confLog.Keys && s.closes.Keys == s.closeLog.Keys
  {}

  lemma DocumentStays(s: State, t: State, a: Pid, x: Id)
    requires Known(s, x) && Known(t, x) && t.confs[x] == s.confs[x] && t.confLog[x] == s.confLog[x]
    ensures ConfMoves(a, s, t, x)
  {}

  lemma ClosesStay(s: State, t: State, a: Pid)
    requires t.closes == s.closes && t.closeLog == s.closeLog
    ensures forall r :: r in s.closes && r in s.closeLog ==> CloseMoves(a, s, t, r)
  {}

  lemma ConfirmationChanged(s: State, t: State, a: Pid, c: Id, d: C.Confirmation, l: ConfirmationLog)
    requires Inv(s) && Acting(s, a) && Known(s, c)
    requires t == s.(confs := s.confs[c := d], confLog := s.confLog[c := l])
    requires ConfMoves(a, s, t, c) && ConfOk(t, c)
    ensures RestOk(t, a) && RetiredBut(t, None)
  {
    OneConfirmationGuarantee(s, t, a, c, d, l);
    ChangedConfirmationFacts(s, t, a, c, d, l);
    assert t.missions == s.missions && t.triggerer == s.triggerer && t.nextPid == s.nextPid;
    assert t.closes == s.closes && t.journal == s.journal;
    hide *;
    InvParts(s);
    MissionsUnchanged(s, t);
    ChangeKeepsRest(s, t, a);
  }

  lemma ChangedConfirmationFacts(s: State, t: State, a: Pid, c: Id, d: C.Confirmation, l: ConfirmationLog)
    requires WellFormed(s) && OnePerPreparer(s) && RetiredBut(s, None) && Known(s, c)
    requires t == s.(confs := s.confs[c := d], confLog := s.confLog[c := l])
    requires ConfMoves(a, s, t, c)
    ensures WellFormed(t) && OnePerPreparer(t) && RetiredBut(t, None)
    ensures forall x :: x in t.confs && !SameConf(s, t, x) ==> x == c
    ensures forall r :: r in t.closes ==> SameClose(s, t, r)
  {}

  lemma MissionsUnchanged(s: State, t: State)
    requires t.missions == s.missions && t.triggerer == s.triggerer && t.nextPid == s.nextPid
    requires forall m :: m in s.missions ==> MissionOk(s, m)
    ensures forall m :: m in t.missions ==> MissionOk(t, m)
  {
    forall m | m in t.missions ensures MissionOk(t, m) {
      assert MissionOk(s, m);
    }
  }

  /** Only closes changed, so every confirmation still obeys the guarantee. */
  lemma ClosesGuarantee(s: State, t: State, a: Pid)
    requires WellFormed(s) && Acting(s, a)
    requires t == s.(closes := t.closes, closeLog := t.closeLog)
    requires forall q :: q in s.closes && q in s.closeLog ==> CloseMoves(a, s, t, q)
    requires forall q :: q in t.closes && q !in s.closes ==>
               Known(s, t.closes[q].entry) && PreparedBy(s.confLog[t.closes[q].entry].origin) == Some(a)
    requires forall q :: q in t.closeLog && q !in s.closeLog ==> t.closeLog[q].claims == []
    ensures Guarantee(a, s, t)
  {
    hide Overdue, CloseMoves;
    forall y | Known(s, y) ensures ConfMoves(a, s, t, y) {}
  }

  lemma ConfirmationsSame(s: State, t: State)
    requires WellFormed(s) && t.confs == s.confs && t.confLog == s.confLog
    ensures forall c :: c in t.confs ==> SameConf(s, t, c)
    ensures OnePerPreparer(s) ==> OnePerPreparer(t)
  {}

  lemma ClosesSame(s: State, t: State)
    requires WellFormed(s) && t.closes == s.closes && t.closeLog == s.closeLog
    ensures forall r :: r in t.closes ==> SameClose(s, t, r)
  {}

  lemma OtherClosesSame(s: State, t: State, r: Id, x: S.ScheduledClose, l: CloseLog)
    requires WellFormed(s) && t.closes == s.closes[r := x] && t.closeLog == s.closeLog[r := l]
    ensures forall q :: q in t.closes && q != r ==> SameClose(s, t, q)
  {}

  lemma InvParts(s: State)
    requires Inv(s)
    ensures WellFormed(s) && OnePerPreparer(s) && S.OnePerEntry(s.closes) && RetiredBut(s, None)
    ensures forall m :: m in s.missions ==> MissionOk(s, m)
  {}

  lemma CloseChanged(s: State, t: State, a: Pid, r: Id, x: S.ScheduledClose, l: CloseLog)
    requires Inv(s) && Acting(s, a) && r in s.closes && r in s.closeLog
    requires t == s.(closes := s.closes[r := x], closeLog := s.closeLog[r := l])
    requires CloseMoves(a, s, t, r) && CloseOk(t, r)
    ensures RestOk(t, a)
    ensures x.status != S.Cancelled || l.cause != Some(TriggerGaveUp) ==> RetiredBut(t, None)
    ensures x.entry in s.confLog && s.confLog[x.entry].origin.ArmedEntry? ==> RetiredBut(t, Some(s.confLog[x.entry].origin.pid))
  {
    ChangedCloseFacts(s, t, a, r, x, l);
    hide *;
    InvParts(s);
    RetiredAfterClose(s, t, r, x, l);
    MissionsUnchanged(s, t);
    EntriesUnchanged(s.closes, r, x);
    ConfirmationsSame(s, t);
    OtherClosesSame(s, t, r, x, l);
    ChangeKeepsRest(s, t, a);
  }

  lemma ChangedCloseFacts(s: State, t: State, a: Pid, r: Id, x: S.ScheduledClose, l: CloseLog)
    requires WellFormed(s) && Acting(s, a) && r in s.closes && r in s.closeLog
    requires t == s.(closes := s.closes[r := x], closeLog := s.closeLog[r := l])
    requires CloseMoves(a, s, t, r)
    ensures Guarantee(a, s, t) && WellFormed(t) && x.entry == s.closes[r].entry
  {
    forall q | q in s.closes && q in s.closeLog ensures CloseMoves(a, s, t, q) {}
    ClosesGuarantee(s, t, a);
  }

  lemma EntriesUnchanged(rows: S.Rows, r: Id, x: S.ScheduledClose)
    requires S.OnePerEntry(rows) && r in rows && rows[r].entry == x.entry
    ensures S.OnePerEntry(rows[r := x])
  {}

  lemma RetiredAfterClose(s: State, t: State, r: Id, x: S.ScheduledClose, l: CloseLog)
    requires RetiredBut(s, None)
    requires t == s.(closes := s.closes[r := x], closeLog := s.closeLog[r := l])
    requires r in s.closes && x.entry == s.closes[r].entry
    ensures x.status != S.Cancelled || l.cause != Some(TriggerGaveUp) ==> RetiredBut(t, None)
    ensures x.entry in s.confLog && s.confLog[x.entry].origin.ArmedEntry? ==> RetiredBut(t, Some(s.confLog[x.entry].origin.pid))
  {}

  lemma ConfirmationAdded(s: State, t: State, a: Pid, c: Id, d: C.Confirmation, o: Origin)
    requires Inv(s) && Acting(s, a) && c !in s.confs
    requires t == Put(s, c, d, o)
    requires PreparedBy(o) == None || (PreparedBy(o) == Some(a) && Unprepared(s, a))
    requires ConfOk(t, c)
    ensures RestOk(t, a) && RetiredBut(t, None)
  {
    hide Inv, ConfOk, CloseOk, MissionOk, ProcOk, Overdue, RetiredBut, PreparedBy, Guarantee, OnePerPreparer, Unprepared;
    InvParts(s);
    AddedUniquely(s, t, a, c, d, o);
    AddedGuarantee(s, t, a, c, d, o);
    AddedRetired(s, t, c, d, o);
    MissionsUnchanged(s, t);
    ChangeKeepsRest(s, t, a);
  }

  lemma AddedGuarantee(s: State, t: State, a: Pid, c: Id, d: C.Confirmation, o: Origin)
    requires WellFormed(s) && Acting(s, a) && c !in s.confs
    requires t == Put(s, c, d, o) && (PreparedBy(o) == None || PreparedBy(o) == Some(a))
    ensures Guarantee(a, s, t)
  {
    hide Overdue, ConfMoves, CloseMoves;
    forall x | Known(s, x) ensures ConfMoves(a, s, t, x) {
      DocumentStays(s, t, a, x);
    }
    ClosesStay(s, t, a);
  }

  lemma AddedRetired(s: State, t: State, c: Id, d: C.Confirmation, o: Origin)
    requires Inv(s) && c !in s.confs && t == Put(s, c, d, o)
    ensures RetiredBut(t, None)
  {
    forall r | r in s.closes ensures s.closes[r].entry != c { EntryKnown(s, r); }
  }

  lemma EntryKnown(s: State, r: Id)
    requires Inv(s) && r in s.closes
    ensures Known(s, s.closes[r].entry)
  {
    assert CloseOk(s, r);
  }

  lemma AddedUniquely(s: State, t: State, a: Pid, c: Id, d: C.Confirmation, o: Origin)
    requires WellFormed(s) && OnePerPreparer(s) && c !in s.confs && t == Put(s, c, d, o)
    requires PreparedBy(o) == None || (PreparedBy(o) == Some(a) && Unprepared(s, a))
    ensures OnePerPreparer(t)
  {}

  lemma CloseAdded(s: State, t: State, a: Pid, r: Id, x: S.ScheduledClose)
    requires Inv(s) && Acting(s, a) && r !in s.closes
    requires t == SaveClose(s, r, x) && x.status == S.AwaitingEntry
    requires Known(s, x.entry) && NoCloseFor(s, x.entry) && PreparedBy(s.confLog[x.entry].origin) == Some(a)
    requires s.confLog[x.entry].origin.MissionPage? || s.confLog[x.entry].origin.ArmedEntry?
    ensures RestOk(t, a) && RetiredBut(t, None)
  {
    InvParts(s);
    AddedCloseFacts(s, t, a, r, x);
    EntryAdded(s.closes, r, x);
    hide *;
    MissionsUnchanged(s, t);
    ConfirmationsSame(s, t);
    OtherClosesSame(s, t, r, x, CloseLog(None, [], 0, None));
    ChangeKeepsRest(s, t, a);
  }

  lemma AddedCloseFacts(s: State, t: State, a: Pid, r: Id, x: S.ScheduledClose)
    requires WellFormed(s) && RetiredBut(s, None) && Acting(s, a) && r !in s.closes
    requires t == SaveClose(s, r, x) && x.status == S.AwaitingEntry
    requires Known(s, x.entry) && PreparedBy(s.confLog[x.entry].origin) == Some(a)
    requires s.confLog[x.entry].origin.MissionPage? || s.confLog[x.entry].origin.ArmedEntry?
    ensures Guarantee(a, s, t) && WellFormed(t) && RetiredBut(t, None) && CloseOk(t, r)
  {
    hide RetiredBut, Guarantee, CloseOk;
    SavedMoves(s, t, a, r, x);
    ClosesGuarantee(s, t, a);
    SavedRetired(s, t, r, x);
    SavedOk(s, t, r, x);
  }

  lemma SavedMoves(s: State, t: State, a: Pid, r: Id, x: S.ScheduledClose)
    requires r !in s.closes && s.closes.Keys == s.closeLog.Keys && t == SaveClose(s, r, x)
    ensures forall q :: q in s.closes && q in s.closeLog ==> CloseMoves(a, s, t, q)
  {}

  lemma SavedRetired(s: State, t: State, r: Id, x: S.ScheduledClose)
    requires r !in s.closes && t == SaveClose(s, r, x) && x.status == S.AwaitingEntry && RetiredBut(s, None)
    requires s.closes.Keys == s.closeLog.Keys
    ensures RetiredBut(t, None)
  {}

  lemma SavedOk(s: State, t: State, r: Id, x: S.ScheduledClose)
    requires t == SaveClose(s, r, x) && x.status == S.AwaitingEntry && Known(s, x.entry)
    requires s.confLog[x.entry].origin.MissionPage? || s.confLog[x.entry].origin.ArmedEntry?
    ensures CloseOk(t, r)
  {}

  lemma EntryAdded(rows: S.Rows, r: Id, x: S.ScheduledClose)
    requires S.OnePerEntry(rows) && r !in rows && forall q :: q in rows ==> rows[q].entry != x.entry
    ensures S.OnePerEntry(rows[r := x])
  {}

  lemma MissionsChanged(s: State, t: State, a: Pid)
    requires Inv(s) && Acting(s, a)
    requires t == s.(missions := t.missions, triggerer := t.triggerer) && s.missions.Keys <= t.missions.Keys
    requires t.triggerer.Keys <= t.missions.Keys
    requires forall m :: m in s.missions && s.missions[m].status == A.Triggered ==> t.missions[m].status == A.Triggered
    requires forall m :: m in s.triggerer ==> m in t.triggerer && t.triggerer[m] == s.triggerer[m]
    requires forall m :: m in t.missions ==> MissionOk(t, m)
    ensures RestOk(t, a) && RetiredBut(t, None)
  {
    InvParts(s);
    DocumentsUnchanged(s, t, a);
    hide *;
    ChangeKeepsRest(s, t, a);
  }

  /** Documents and closes as before: every obligation on them holds as before. */
  lemma DocumentsUnchanged(s: State, t: State, a: Pid)
    requires WellFormed(s) && OnePerPreparer(s) && S.OnePerEntry(s.closes) && RetiredBut(s, None) && Acting(s, a)
    requires t == s.(missions := t.missions, triggerer := t.triggerer, journal := t.journal)
    requires t.triggerer.Keys <= t.missions.Keys
    requires forall m :: m in s.missions ==>
               m in t.missions && (s.missions[m].status == A.Triggered ==> t.missions[m].status == A.Triggered)
    requires forall m :: m in s.triggerer ==> m in t.triggerer && t.triggerer[m] == s.triggerer[m]
    requires forall id :: id in t.journal && id !in s.journal ==> Known(s, id) && s.confLog[id].taker == Some(a)
    ensures Guarantee(a, s, t) && WellFormed(t) && OnePerPreparer(t) && S.OnePerEntry(t.closes) && RetiredBut(t, None)
    ensures forall x :: x in t.confs ==> SameConf(s, t, x)
    ensures forall r :: r in t.closes ==> SameClose(s, t, r)
    ensures t.journal == s.journal ==> forall id :: id in t.journal ==> id in s.journal
  {
    hide OnePerPreparer, RetiredBut, S.OnePerEntry, ConfMoves, CloseMoves, SameConf, SameClose;
    ConfirmationsSame(s, t);
    ClosesSame(s, t);
    DocumentsStay(s, t, a);
    UntouchedFacts(s, t);
  }

  lemma DocumentsStay(s: State, t: State, a: Pid)
    requires t.confs == s.confs && t.confLog == s.confLog && t.closes == s.closes && t.closeLog == s.closeLog && t.clock == s.clock
    ensures forall y :: Known(s, y) ==> ConfMoves(a, s, t, y)
    ensures forall q :: q in s.closes && q in s.closeLog ==> CloseMoves(a, s, t, q)
  {
    hide Overdue;
  }

  lemma UntouchedFacts(s: State, t: State)
    requires t.confs == s.confs && t.confLog == s.confLog && t.closes == s.closes && t.closeLog == s.closeLog && t.procs == s.procs
    requires OnePerPreparer(s) && RetiredBut(s, None)
    ensures OnePerPreparer(t) && RetiredBut(t, None)
  {}

  lemma JournalChanged(s: State, t: State, a: Pid)
    requires Inv(s) && Acting(s, a)
    requires t == s.(journal := t.journal)
    requires forall id :: id in t.journal && id !in s.journal ==> Known(s, id) && s.confLog[id].taker == Some(a) && TradeOk(s, id)
    ensures RestOk(t, a) && RetiredBut(t, None)
  {
    InvParts(s);
    DocumentsUnchanged(s, t, a);
    NewTradesOk(s, t);
    assert t.missions == s.missions && t.triggerer == s.triggerer && t.nextPid == s.nextPid;
    hide *;
    MissionsUnchanged(s, t);
    ChangeKeepsRest(s, t, a);
  }

  lemma NewTradesOk(s: State, t: State)
    requires t == s.(journal := t.journal)
    requires forall id :: id in t.journal && id !in s.journal ==> TradeOk(s, id)
    ensures forall id :: id in t.journal && id !in s.journal ==> TradeOk(t, id)
  {
    forall id | id in t.journal && id !in s.journal ensures TradeOk(t, id) {
      assert TradeOk(s, id);
    }
  }

  lemma NothingChanged(s: State, a: Pid)
    requires Inv(s)
    ensures RestOk(s, a) && RetiredBut(s, None) && RetiredBut(s, Some(a))
  {}

  // ---------------------------------------------------------------------------
  // Where a call returns to
  // ---------------------------------------------------------------------------

  lemma ProcFacts(s: State, p: Pid)
    requires Inv(s) && p in s.procs
    ensures ProcOk(s, p, s.procs[p]) && Acting(s, p) && p < s.nextPid
  {}

  lemma ConfFacts(s: State, c: Id)
    requires Inv(s) && Known(s, c)
    ensures ConfOk(s, c)
  {}

  lemma CloseFacts(s: State, r: Id)
    requires Inv(s) && r in s.closes
    ensures r in s.closeLog && CloseOk(s, r) && Known(s, s.closes[r].entry) && ConfOk(s, s.closes[r].entry)
  {
    assert CloseOk(s, r);
  }

  lemma CallerKnown(s: State, p: Pid, c: Id, caller: Caller)
    requires CallerOk(s, p, c, caller)
    ensures Known(s, c)
  {}

  lemma AfterCancelLands(s: State, p: Pid, c: Id, user: int, after: After)
    requires RestOk(s, p) && RetiredBut(s, None) && p in s.procs && Known(s, c) && AfterOk(s, p, c, after)
    ensures Inv(AfterCancel(s, p, c, user, after))
  {
    hide RestOk;
    match after {
      case Stop => DoneLands(s, p);
      case DropEntryClose => GotoLands(s, p, Drop(c, user, TriggerGaveUp));
      case SkipRow(r, stamp) => GotoLands(s, p, Finish(r, stamp, S.Skipped, Some(c)));
    }
  }

  lemma ConfirmOkLands(s: State, p: Pid, c: Id, caller: Caller)
    requires RestOk(s, p) && RetiredBut(s, None) && p in s.procs
    requires CallerOk(s, p, c, caller) && s.confs[c].status == C.Executed
    ensures Inv(ConfirmOk(s, p, c, caller))
  {
    hide RestOk;
    match caller {
      case ByUser => GotoLands(s, p, Activate(c));
      case ByTrigger => GotoLands(s, p, Activate(c));
      case ByClose(r, stamp) => GotoLands(s, p, Finish(r, stamp, S.Done, Some(c)));
    }
  }

  lemma ConfirmFailedLands(s: State, p: Pid, c: Id, user: int, caller: Caller)
    requires RestOk(s, p) && RetiredBut(s, None) && p in s.procs
    requires CallerOk(s, p, c, caller) && (caller == ByTrigger ==> GaveUp(s, p, c)) && NotByMe(s, p, c)
    ensures Inv(ConfirmFailed(s, p, c, user, caller))
  {
    hide RestOk;
    match caller {
      case ByUser => DoneLands(s, p);
      case ByTrigger => GotoLands(s, p, Drop(c, user, TriggerGaveUp));
      case ByClose(r, stamp) => GotoLands(s, p, Finish(r, stamp, S.Skipped, Some(c)));
    }
  }

  /** A trigger that has not taken the entry itself can only see it executed by someone else. */
  lemma NotTakenMeansGaveUp(s: State, p: Pid, c: Id)
    requires Known(s, c) && ConfOk(s, c)
    requires s.confLog[c].origin.ArmedEntry? && s.confLog[c].origin.pid == p
    requires s.confLog[c].taker != Some(p) || s.confs[c].status != C.Executed
    ensures GaveUp(s, p, c)
  {}

  // ---------------------------------------------------------------------------
  // Cancelling a confirmation
  // ---------------------------------------------------------------------------

  lemma EndPending(s: State, t: State, p: Pid, c: Id, status: C.Status)
    requires Inv(s) && p in s.procs && Known(s, c) && s.confs[c].status == C.Pending
    requires status == C.Cancelled || (status == C.Expired && s.confs[c].expiresAt <= s.clock)
    requires t == s.(confs := C.SetStatus(s.confs, c, status))
    ensures RestOk(t, p) && RetiredBut(t, None) && Known(t, c) && ConfOk(t, c) && ConfMoves(p, s, t, c) && Guarantee(p, s, t)
  {
    hide Inv, ConfOk, ConfMoves;
    ProcFacts(s, p);
    ConfFacts(s, c);
    assert t == s.(confs := s.confs[c := t.confs[c]], confLog := s.confLog[c := s.confLog[c]]);
    EndPendingFacts(s, t, p, c, status);
    hide *;
    ConfirmationChanged(s, t, p, c, t.confs[c], s.confLog[c]);
    OneConfirmationGuarantee(s, t, p, c, t.confs[c], s.confLog[c]);
  }

  lemma EndPendingFacts(s: State, t: State, p: Pid, c: Id, status: C.Status)
    requires Known(s, c) && s.confs[c].status == C.Pending && ConfOk(s, c)
    requires status == C.Cancelled || (status == C.Expired && s.confs[c].expiresAt <= s.clock)
    requires t == s.(confs := C.SetStatus(s.confs, c, status))
    ensures Known(t, c) && ConfOk(t, c) && ConfMoves(p, s, t, c)
  {}

  lemma AbandonKeeps(s: State, p: Pid, c: Id, user: int, after: After, ch: Choice)
    requires Inv(s) && p in s.procs && s.procs[p] == Abandon(c, user, after) && ch.now <= s.clock
    ensures Inv(AbandonStep(s, p, c, user, after, ch))
  {
    hide Inv, RestOk, RetiredBut, AfterOk;
    ProcFacts(s, p);
    NothingChanged(s, p);
    if ch.fail {
      AfterCancelLands(s, p, c, user, after);
    } else if C.Actionable(s.confs, user, c, ch.now) {
      var t := s.(confs := C.SetStatus(s.confs, c, C.Cancelled));
      EndPending(s, t, p, c, C.Cancelled);
      AfterKept(s, t, p, c, after);
      AfterCancelLands(t, p, c, user, after);
    } else {
      GotoLands(s, p, AbandonRead(c, user, ch.now, after));
    }
  }

  /** Cancelling or expiring a pending confirmation does not make it executed. */
  lemma AfterKept(s: State, t: State, p: Pid, c: Id, after: After)
    requires Guarantee(p, s, t) && Known(s, c) && AfterOk(s, p, c, after)
    requires t.confs[c].status != C.Executed
    requires t == s.(confs := t.confs) && c in t.confs
    ensures AfterOk(t, p, c, after)
  {
    if after.SkipRow? {
      HoldsStable(s, t, p, p, after.row, after.stamp);
    }
  }

  lemma AbandonReadKeeps(s: State, p: Pid, c: Id, user: int, now: Time, after: After, ch: Choice)
    requires Inv(s) && p in s.procs && s.procs[p] == AbandonRead(c, user, now, after)
    ensures Inv(AbandonReadStep(s, p, c, user, now, after, ch))
  {
    hide Inv, RestOk, RetiredBut, AfterOk;
    ProcFacts(s, p);
    NothingChanged(s, p);
    if !ch.fail && c in s.confs && s.confs[c].userId == user && C.LapsedPending(s.confs[c], now) {
      GotoLands(s, p, AbandonExpire(c, user, after));
    } else {
      AfterCancelLands(s, p, c, user, after);
    }
  }

  lemma AbandonExpireKeeps(s: State, p: Pid, c: Id, user: int, after: After, ch: Choice)
    requires Inv(s) && p in s.procs && s.procs[p] == AbandonExpire(c, user, after)
    ensures Inv(AfterCancel(ExpireConfirmation(s, c, ch), p, c, user, after))
  {
    hide Inv, RestOk, RetiredBut, AfterOk;
    ProcFacts(s, p);
    NothingChanged(s, p);
    if !ch.fail && C.HasStatus(s.confs, c, C.Pending) {
      var t := ExpireConfirmation(s, c, ch);
      EndPending(s, t, p, c, C.Expired);
      AfterKept(s, t, p, c, after);
      AfterCancelLands(t, p, c, user, after);
    } else {
      AfterCancelLands(s, p, c, user, after);
    }
  }

  // ---------------------------------------------------------------------------
  // Confirming
  // ---------------------------------------------------------------------------

  lemma TakingGaveUp(s: State, p: Pid, c: Id, caller: Caller)
    requires Known(s, c) && ConfOk(s, c) && CallerOk(s, p, c, caller)
    requires s.confLog[c].taker != Some(p) || s.confs[c].status != C.Executed
    ensures (caller == ByTrigger ==> GaveUp(s, p, c)) && NotByMe(s, p, c)
  {}

  lemma TakenLands(s: State, p: Pid, c: Id, user: int, caller: Caller)
    requires Inv(s) && p in s.procs && s.procs[p] == Take(c, user, caller) && Known(s, c) && s.confs[c].status == C.Pending
    requires s.confs[c].userId == user
    ensures var l := s.confLog[c].(taker := Some(p), takes := s.confLog[c].takes + 1);
            Inv(Goto(s.(confs := C.SetStatus(s.confs, c, C.Executing), confLog := s.confLog[c := l]), p, Call(c, user, caller)))
  {
    hide Inv, RestOk, RetiredBut, CallerOk, ConfOk, Guarantee, ConfMoves;
    ProcFacts(s, p);
    ConfFacts(s, c);
    var l := s.confLog[c].(taker := Some(p), takes := s.confLog[c].takes + 1);
    var t := s.(confs := C.SetStatus(s.confs, c, C.Executing), confLog := s.confLog[c := l]);
    TakenFacts(s, t, p, c, caller, l);
    ConfirmationChanged(s, t, p, c, t.confs[c], l);
    OneConfirmationGuarantee(s, t, p, c, t.confs[c], l);
    CallerStable(s, t, p, p, c, caller);
    GotoLands(t, p, Call(c, user, caller));
  }

  lemma TakeKeeps(s: State, p: Pid, c: Id, user: int, caller: Caller, ch: Choice)
    requires Inv(s) && p in s.procs && s.procs[p] == Take(c, user, caller) && ch.now <= s.clock
    ensures Inv(TakeStep(s, p, c, user, caller, ch))
  {
    hide Inv, RestOk, RetiredBut, CallerOk, ConfOk;
    ProcFacts(s, p);
    NothingChanged(s, p);
    CallerKnown(s, p, c, caller);
    ConfFacts(s, c);
    if ch.fail {
      TakingGaveUp(s, p, c, caller);
      ConfirmFailedLands(s, p, c, user, caller);
    } else if C.Actionable(s.confs, user, c, ch.now) {
      TakenLands(s, p, c, user, caller);
    } else {
      GotoLands(s, p, TakeRead(c, user, ch.now, caller));
    }
  }

  lemma TakenFacts(s: State, t: State, p: Pid, c: Id, caller: Caller, l: ConfirmationLog)
    requires Known(s, c) && ConfOk(s, c) && s.confs[c].status == C.Pending && CallerOk(s, p, c, caller) && p < s.nextPid
    requires l == s.confLog[c].(taker := Some(p), takes := s.confLog[c].takes + 1)
    requires t == s.(confs := C.SetStatus(s.confs, c, C.Executing), confLog := s.confLog[c := l])
    ensures Known(t, c) && ConfOk(t, c) && ConfMoves(p, s, t, c) && t.confLog[c].calls == 0
  {}

  lemma TakeReadFacts(s: State, p: Pid, c: Id, user: int, now: Time, caller: Caller)
    requires Inv(s) && p in s.procs && s.procs[p] == TakeRead(c, user, now, caller)
    ensures Known(s, c) && CallerOk(s, p, c, caller)
    ensures C.LapsedPending(s.confs[c], now) ==> ProcOk(s, p, TakeExpire(c, user, caller))
    ensures RestOk(s, p) && RetiredBut(s, None)
    ensures (caller == ByTrigger ==> GaveUp(s, p, c)) && NotByMe(s, p, c)
    ensures C.Answer(s.confs[c], user, now).Finished? ==> s.confs[c].status == C.Executed
    ensures C.Answer(s.confs[c], user, now).Finished? && s.confs[c].result.Some? ==>
              C.SameResult(C.Answer(s.confs[c], user, now).result, C.FromDoc(s.confs[c].result.value))
  {
    hide Inv, RestOk, RetiredBut, Val, DecimalText.Parse, ConfOk, CallerOk, GaveUp;
    ProcFacts(s, p);
    CallerKnown(s, p, c, caller);
    NothingChanged(s, p);
    ConfFacts(s, c);
    TakingGaveUp(s, p, c, caller);
  }

  lemma TakeReadKeeps(s: State, p: Pid, c: Id, user: int, now: Time, caller: Caller, ch: Choice)
    requires Inv(s) && p in s.procs && s.procs[p] == TakeRead(c, user, now, caller)
    ensures Inv(TakeReadStep(s, p, c, user, now, caller, ch))
  {
    hide Inv, RestOk, RetiredBut, CallerOk, ProcOk, GaveUp, ConfirmOk, ConfirmFailed, C.SameResult, C.FromDoc, C.Answer;
    TakeReadFacts(s, p, c, user, now, caller);
    var answer := C.Answer(s.confs[c], user, now);
    if !ch.fail && answer.Finished? {
      ReturnKeeps(s, p, c, caller, answer.result);
    } else if !ch.fail && s.confs[c].userId == user && C.LapsedPending(s.confs[c], now) {
      GotoLands(s, p, TakeExpire(c, user, caller));
    } else {
      ConfirmFailedLands(s, p, c, user, caller);
    }
  }

  /** A repeated confirm returns the stored result. */
  lemma ReturnKeeps(s: State, p: Pid, c: Id, caller: Caller, r: C.ExecutionResult)
    requires Inv(s) && p in s.procs && Known(s, c) && CallerOk(s, p, c, caller)
    requires s.confs[c].status == C.Executed
    requires s.confs[c].result.Some? ==> C.SameResult(r, C.FromDoc(s.confs[c].result.value))
    ensures Inv(ConfirmOk(s.(confLog := s.confLog[c := s.confLog[c].(returned := s.confLog[c].returned + {r})]), p, c, caller))
  {
    hide Inv, RestOk, RetiredBut, ConfOk, ConfMoves, CallerOk, ConfirmOk, C.SameResult;
    ProcFacts(s, p);
    ConfFacts(s, c);
    var l := s.confLog[c].(returned := s.confLog[c].returned + {r});
    var t := s.(confLog := s.confLog[c := l]);
    ReturnFacts(s, t, p, c, l, r);
    assert t == s.(confs := s.confs[c := s.confs[c]], confLog := s.confLog[c := l]);
    hide *;
    ConfirmationChanged(s, t, p, c, s.confs[c], l);
    OneConfirmationGuarantee(s, t, p, c, s.confs[c], l);
    CallerStable(s, t, p, p, c, caller);
    ConfirmOkLands(t, p, c, caller);
  }

  lemma ReturnFacts(s: State, t: State, p: Pid, c: Id, l: ConfirmationLog, r: C.ExecutionResult)
    requires Known(s, c) && ConfOk(s, c) && s.confs[c].status == C.Executed
    requires l == s.confLog[c].(returned := s.confLog[c].returned + {r})
    requires s.confs[c].result.Some? ==> C.SameResult(r, C.FromDoc(s.confs[c].result.value))
    requires t == s.(confLog := s.confLog[c := l])
    ensures Known(t, c) && ConfOk(t, c) && ConfMoves(p, s, t, c) && t.confs[c].status == C.Executed
  {}

  lemma TakeExpireKeeps(s: State, p: Pid, c: Id, user: int, caller: Caller, ch: Choice)
    requires Inv(s) && p in s.procs && s.procs[p] == TakeExpire(c, user, caller)
    ensures Inv(ConfirmFailed(ExpireConfirmation(s, c, ch), p, c, user, caller))
  {
    hide Inv, RestOk, RetiredBut, CallerOk, ConfOk, Guarantee, ConfMoves;
    ProcFacts(s, p);
    NothingChanged(s, p);
    CallerKnown(s, p, c, caller);
    ConfFacts(s, c);
    if !ch.fail && C.HasStatus(s.confs, c, C.Pending) {
      var t := ExpireConfirmation(s, c, ch);
      EndPending(s, t, p, c, C.Expired);
      CallerStable(s, t, p, p, c, caller);
      TakingGaveUp(t, p, c, caller);
      ConfirmFailedLands(t, p, c, user, caller);
    } else {
      TakingGaveUp(s, p, c, caller);
      ConfirmFailedLands(s, p, c, user, caller);
    }
  }

  lemma CallFacts(s: State, p: Pid, c: Id, user: int, caller: Caller)
    requires ProcOk(s, p, Call(c, user, caller))
    ensures Took(s, p, c, caller) && Known(s, c) && s.confLog[c].calls == 0 && Owns(s, c, user)
    ensures ProcOk(s, p, Settle(c, user, caller, None))
  {}

  lemma CallKeeps(s: State, p: Pid, c: Id, user: int, caller: Caller, ch: Choice)
    requires Inv(s) && p in s.procs && s.procs[p] == Call(c, user, caller)
    ensures Inv(CallStep(s, p, c, user, caller, ch))
  {
    hide Inv, ProcOk, RestOk, RetiredBut, Took;
    ProcFacts(s, p);
    CallFacts(s, p, c, user, caller);
    if ch.branch == 0 {
      NothingChanged(s, p);
      GotoLands(s, p, Settle(c, user, caller, None));
    } else {
      CalledKeeps(s, p, c, user, caller, if ch.branch == 1 then None else Some(ch.result));
    }
  }

  lemma CalledKeeps(s: State, p: Pid, c: Id, user: int, caller: Caller, outcome: Option<C.ExecutionResult>)
    requires Inv(s) && p in s.procs && Took(s, p, c, caller) && s.confLog[c].calls == 0 && Owns(s, c, user)
    ensures Inv(Goto(s.(confLog := s.confLog[c := s.confLog[c].(calls := s.confLog[c].calls + 1)]), p, Settle(c, user, caller, outcome)))
  {
    hide Inv, ConfOk, CallerOk;
    ProcFacts(s, p);
    CallerKnown(s, p, c, caller);
    ConfFacts(s, c);
    var l := s.confLog[c].(calls := s.confLog[c].calls + 1);
    var t := s.(confLog := s.confLog[c := l]);
    CalledFacts(s, t, p, c, l);
    assert t == s.(confs := s.confs[c := s.confs[c]], confLog := s.confLog[c := l]);
    TookStill(s, t, p, c, user, caller, outcome);
    hide *;
    ConfirmationChanged(s, t, p, c, s.confs[c], l);
    GotoLands(t, p, Settle(c, user, caller, outcome));
  }

  lemma TookStill(s: State, t: State, p: Pid, c: Id, user: int, caller: Caller, outcome: Option<C.ExecutionResult>)
    requires Took(s, p, c, caller) && t == s.(confLog := t.confLog) && Owns(s, c, user)
    requires c in t.confLog && t.confLog[c].taker == s.confLog[c].taker && t.confLog[c].origin == s.confLog[c].origin
    requires t.confLog[c].otherConfirm == s.confLog[c].otherConfirm
    ensures ProcOk(t, p, Settle(c, user, caller, outcome))
  {}

  lemma CalledFacts(s: State, t: State, p: Pid, c: Id, l: ConfirmationLog)
    requires Known(s, c) && ConfOk(s, c) && s.confLog[c].taker == Some(p) && s.confLog[c].calls == 0
    requires l == s.confLog[c].(calls := s.confLog[c].calls + 1)
    requires t == s.(confLog := s.confLog[c := l])
    ensures Known(t, c) && ConfOk(t, c) && ConfMoves(p, s, t, c)
  {}

  lemma FailKeeps(s: State, p: Pid, c: Id, user: int, caller: Caller, ch: Choice)
    requires Inv(s) && p in s.procs && s.procs[p] == Settle(c, user, caller, None)
    ensures Inv(FailStep(s, p, c, user, caller, ch))
  {
    hide Inv, RestOk, RetiredBut, CallerOk, ConfOk, Guarantee, ConfMoves, ConfirmFailed;
    ProcFacts(s, p);
    NothingChanged(s, p);
    CallerKnown(s, p, c, caller);
    ConfFacts(s, c);
    if !ch.fail && C.HasStatus(s.confs, c, C.Executing) {
      FailedLands(s, s.(confs := C.MarkedFailed(s.confs, c, ch.now)), p, c, user, caller, ch.now);
    } else {
      TakingGaveUp(s, p, c, caller);
      ConfirmFailedLands(s, p, c, user, caller);
    }
  }

  lemma FailedLands(s: State, t: State, p: Pid, c: Id, user: int, caller: Caller, now: Time)
    requires Inv(s) && p in s.procs && Took(s, p, c, caller) && t == s.(confs := C.MarkedFailed(s.confs, c, now))
    ensures Inv(ConfirmFailed(t, p, c, user, caller))
  {
    hide Inv, RestOk, RetiredBut, ConfOk, ConfMoves, CallerOk, ConfirmFailed;
    CallerKnown(s, p, c, caller);
    ProcFacts(s, p);
    ConfFacts(s, c);
    FailedFacts(s, t, p, c, now);
    assert t == s.(confs := s.confs[c := t.confs[c]], confLog := s.confLog[c := s.confLog[c]]);
    hide *;
    ConfirmationChanged(s, t, p, c, t.confs[c], s.confLog[c]);
    OneConfirmationGuarantee(s, t, p, c, t.confs[c], s.confLog[c]);
    CallerStable(s, t, p, p, c, caller);
    TakingGaveUp(t, p, c, caller);
    ConfirmFailedLands(t, p, c, user, caller);
  }

  lemma FailedFacts(s: State, t: State, p: Pid, c: Id, now: Time)
    requires Known(s, c) && ConfOk(s, c) && s.confs[c].status == C.Executing && s.confLog[c].taker == Some(p)
    requires t == s.(confs := C.MarkedFailed(s.confs, c, now))
    ensures Known(t, c) && ConfOk(t, c) && ConfMoves(p, s, t, c) && t.confs[c].status == C.Failed
  {}

  lemma CompleteKeeps(s: State, p: Pid, c: Id, user: int, caller: Caller, r: C.ExecutionResult, ch: Choice)
    requires Inv(s) && p in s.procs && s.procs[p] == Settle(c, user, caller, Some(r))
    ensures Inv(CompleteStep(s, p, c, user, caller, r, ch))
  {
    hide Inv, RestOk, RetiredBut, CallerOk, ConfOk, ConfMoves, ConfirmFailed, Overdue, C.Completed;
    ProcFacts(s, p);
    CallerKnown(s, p, c, caller);
    if ch.fail || !C.HasStatus(s.confs, c, C.Executing) {
      NothingChanged(s, p);
      ConfFacts(s, c);
      TakingGaveUp(s, p, c, caller);
      ConfirmFailedLands(s, p, c, user, caller);
    } else {
      var l := s.confLog[c].(late := s.confLog[c].late || Overdue(s, c));
      CompletedLands(s, s.(confs := C.Completed(s.confs, c, r, ch.now), confLog := s.confLog[c := l]), p, c, user, caller, r, l, ch.now);
    }
  }

  lemma CompletedLands(s: State, t: State, p: Pid, c: Id, user: int, caller: Caller, r: C.ExecutionResult, l: ConfirmationLog, now: Time)
    requires Inv(s) && p in s.procs && Took(s, p, c, caller) && Owns(s, c, user)
    requires l == s.confLog[c].(late := s.confLog[c].late || Overdue(s, c))
    requires t == s.(confs := C.Completed(s.confs, c, r, now), confLog := s.confLog[c := l])
    ensures Inv(Goto(t, p, Record(c, user, caller, r)))
  {
    hide Inv, RestOk, RetiredBut, CallerOk, ConfOk, ConfMoves, C.SameResult, Guarantee, Overdue, C.ToDoc, C.FromDoc;
    CallerKnown(s, p, c, caller);
    ProcFacts(s, p);
    ConfFacts(s, c);
    NotJournalled(s, c);
    CompletedFacts(s, t, p, c, caller, r, l, now);
    ConfirmationChanged(s, t, p, c, t.confs[c], l);
    OneConfirmationGuarantee(s, t, p, c, t.confs[c], l);
    CallerStable(s, t, p, p, c, caller);
    GotoLands(t, p, Record(c, user, caller, r));
  }

  lemma NotJournalled(s: State, c: Id)
    requires Inv(s) && Known(s, c) && s.confs[c].status != C.Executed
    ensures c !in s.journal
  {
    var journalled := TradeOk(s, c);
  }

  /** An origin is judged by the intent, the missions and the closes alone. */
  lemma OriginAside(s: State, t: State, d: C.Confirmation, e: C.Confirmation, o: Origin)
    requires OriginOk(s, d, o) && e.intent == d.intent && t.nextPid == s.nextPid && t.missions == s.missions
    requires t.triggerer == s.triggerer && t.closes == s.closes && t.closeLog == s.closeLog
    ensures OriginOk(t, e, o)
  {}

  lemma CompletedFacts(s: State, t: State, p: Pid, c: Id, caller: Caller, r: C.ExecutionResult, l: ConfirmationLog, now: Time)
    requires Known(s, c) && ConfOk(s, c) && s.confs[c].status == C.Executing && s.confLog[c].taker == Some(p)
    requires l == s.confLog[c].(late := s.confLog[c].late || Overdue(s, c))
    requires t == s.(confs := C.Completed(s.confs, c, r, now), confLog := s.confLog[c := l])
    ensures Known(t, c) && ConfOk(t, c) && ConfMoves(p, s, t, c) && t.confs[c].status == C.Executed
    ensures t.confs[c].result.Some? && C.SameResult(r, C.FromDoc(t.confs[c].result.value)) && t.confLog[c].taker == Some(p)
  {
    hide Overdue, Val, OriginOk, C.ToDoc, C.FromDoc;
    C.ResultRoundTrip(r);
    OriginAside(s, t, s.confs[c], t.confs[c], s.confLog[c].origin);
  }

  lemma RecordKeeps(s: State, p: Pid, c: Id, user: int, caller: Caller, r: C.ExecutionResult, ch: Choice)
    requires Inv(s) && p in s.procs && s.procs[p] == Record(c, user, caller, r)
    ensures Inv(RecordStep(s, p, c, user, caller, r, ch))
  {
    ProcFacts(s, p);
    var journal := if ch.fail then s.journal else Journalled(s.journal, c, s.confs[c].intent, r, ch.now);
    var t := s.(journal := journal);
    RecordedFacts(s, p, c, r, ch, journal);
    hide Inv, RestOk, RetiredBut, CallerOk, Guarantee, ConfMoves, C.SameResult, Journalled, ProcOk, Completed;
    JournalChanged(s, t, p);
    RecordLands(s, t, p, c, user, caller, r);
    ReturnKeeps(Goto(t, p, Activate(c)), p, c, caller, r);
    assert Goto(t, p, Activate(c)).confLog == s.confLog;
    AfterMove(t, p, c, caller, r);
  }

  /** Only the confirmation's own row can be new. */
  lemma RecordedFacts(s: State, p: Pid, c: Id, r: C.ExecutionResult, ch: Choice, journal: J.Rows)
    requires Known(s, c) && s.confs[c].status == C.Executed && s.confLog[c].taker == Some(p)
    requires journal == if ch.fail then s.journal else Journalled(s.journal, c, s.confs[c].intent, r, ch.now)
    ensures forall id :: id in journal && id !in s.journal ==> Known(s, id) && s.confLog[id].taker == Some(p) && TradeOk(s, id)
  {}

  lemma RecordLands(s: State, t: State, p: Pid, c: Id, user: int, caller: Caller, r: C.ExecutionResult)
    requires Inv(s) && p in s.procs && Completed(s, p, c, caller, r)
    requires t == s.(journal := t.journal) && RestOk(t, p) && RetiredBut(t, None)
    ensures Inv(Goto(t, p, Activate(c))) && CallerOk(Goto(t, p, Activate(c)), p, c, caller)
    ensures Known(s, c) && s.confs[c].status == C.Executed && s.confs[c].result.Some?
    ensures C.SameResult(r, C.FromDoc(s.confs[c].result.value))
  {
    hide RestOk;
    GotoLands(t, p, Activate(c));
  }

  /** Passing through another counter value changes nothing else. */
  lemma AfterMove(t: State, p: Pid, c: Id, caller: Caller, r: C.ExecutionResult)
    requires p in t.procs && c in t.confLog
    ensures var l := t.confLog[c := t.confLog[c].(returned := t.confLog[c].returned + {r})];
            ConfirmOk(Goto(t, p, Activate(c)).(confLog := l), p, c, caller) == ConfirmOk(t.(confLog := l), p, c, caller)
  {
    var l := t.confLog[c := t.confLog[c].(returned := t.confLog[c].returned + {r})];
    var x, y := ConfirmOk(Goto(t, p, Activate(c)).(confLog := l), p, c, caller), ConfirmOk(t.(confLog := l), p, c, caller);
    assert x.procs == y.procs;
  }
}
