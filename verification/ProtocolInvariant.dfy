/** What every state of the protocol satisfies, and what one process's step may do to the facts the
    others rely on. */
module ProtocolInvariant {
  import opened Common
  import opened Protocol
  import C = Confirmations
  import S = ScheduledCloses
  import A = ArmedMissions
  import J = Journal

  function PreparedBy(o: Origin): Option<Pid> {
    match o
    case Manual => None
    case MissionPage(p) => Some(p)
    case ArmedEntry(_, p) => Some(p)
    case TimedClose(_, p) => Some(p)
  }

  predicate Untaken(status: C.Status) {
    status == C.Pending || status == C.Cancelled || status == C.Expired
  }

  predicate Activated(status: S.Status) {
    status == S.Pending || status == S.Executing || status == S.Done || status == S.Skipped
  }

  // ---------------------------------------------------------------------------
  // Facts about one document
  // ---------------------------------------------------------------------------

  ghost predicate OriginOk(s: State, d: C.Confirmation, o: Origin) {
    && (PreparedBy(o).Some? ==> PreparedBy(o).value < s.nextPid)
    && match o
       case Manual => d.intent.CloseOrder? ==> d.intent.entry == None
       case MissionPage(_) => d.intent == C.OpenEntry
       case ArmedEntry(m, p) =>
         && d.intent == C.OpenEntry
         && m in s.missions && s.missions[m].status == A.Triggered && m in s.triggerer && s.triggerer[m] == p
       case TimedClose(r, p) =>
         r in s.closes && d.intent == C.CloseOrder(Some(s.closes[r].entry)) && r in s.closeLog && HasClaim(s.closeLog[r].claims, p)
  }

  ghost predicate HasClaim(claims: seq<Claim>, p: Pid) {
    exists i :: 0 <= i < |claims| && claims[i].pid == p
  }

  ghost predicate ConfOk(s: State, c: Id)
    requires c in s.confs && c in s.confLog
  {
    var d, l := s.confs[c], s.confLog[c];
    && (Untaken(d.status) <==> l.taker == None)
    && l.takes == (if l.taker == None then 0 else 1)
    && l.calls <= l.takes
    && (d.status == C.Executed <==> d.result.Some?) && (d.status == C.Expired ==> d.expiresAt <= s.clock)
    && (forall r :: r in l.returned ==> d.result.Some? && C.SameResult(r, C.FromDoc(d.result.value)))
    && (l.taker.Some? ==> l.taker.value < s.nextPid)
    && (l.origin.ArmedEntry? && l.taker.Some? && l.taker.value != l.origin.pid ==> l.otherConfirm)
    && OriginOk(s, d, l.origin)
  }

  ghost predicate MissionOk(s: State, m: Id)
    requires m in s.missions
  {
    && (s.missions[m].status == A.Triggered <==> m in s.triggerer)
    && (m in s.triggerer ==> s.triggerer[m] < s.nextPid)
    && var x := s.missions[m];
       (x.status == A.Triggered ==> x.triggeredAt.Some? && x.triggeredAt.value < x.expiresAt)
  }

  ghost predicate ClaimsOk(claims: seq<Claim>, dueAt: Time, clock: Time, nextPid: Pid) {
    && (forall i :: 0 <= i < |claims| ==> dueAt <= claims[i].stamp <= claims[i].at <= clock && claims[i].pid < nextPid)
    && (forall i, j :: 0 <= i < j < |claims| ==>
          claims[i].stamp + S.CLAIM_TIMEOUT <= claims[j].stamp && claims[i].pid != claims[j].pid)
  }

  /** Why a dropped close may never be missed. */
  ghost predicate CauseHolds(s: State, c: Id, cause: Cause)
    requires c in s.confs && c in s.confLog
  {
    match cause
    case EntryEnded => s.confs[c].status in {C.Failed, C.Cancelled, C.Expired}
    case EntryStale(r) =>
      && r in s.closes && s.closes[r].entry == c && s.clock > s.closes[r].createdAt + S.AWAITING_TTL
      && (s.confs[c].status == C.Executed ==> s.confLog[c].late)
    case TriggerGaveUp =>
      s.confLog[c].origin.ArmedEntry? && (s.confs[c].status == C.Executed ==> s.confLog[c].otherConfirm)
    case UserCancelled => s.confLog[c].userCancel
  }

  ghost predicate CloseOk(s: State, r: Id)
    requires r in s.closes && r in s.closeLog
  {
    var x, l := s.closes[r], s.closeLog[r];
    && x.entry in s.confs && x.entry in s.confLog
    && (s.confLog[x.entry].origin.MissionPage? || s.confLog[x.entry].origin.ArmedEntry?)
    && (Activated(x.status) ==> s.confs[x.entry].status == C.Executed && l.activatedAt == Some(x.dueAt - x.window))
    && ClaimsOk(l.claims, x.dueAt, s.clock, s.nextPid)
    && (x.status == S.AwaitingEntry || x.status == S.Pending || x.status == S.Cancelled ==> l.claims == [])
    && (x.status == S.AwaitingEntry ==> l.activatedAt == None)
    && (x.status == S.Executing ==> l.claims != [] && x.updatedAt == l.claims[|l.claims| - 1].stamp)
    && l.terminals == (if S.IsTerminal(x.status) then 1 else 0)
    && (x.status == S.Cancelled ==>
          l.cause.Some? && CauseHolds(s, x.entry, l.cause.value))
    && (x.status == S.Done && x.confirmation.Some? ==> OrderExecuted(s, r, x.confirmation.value))
  }

  /** The close order of this row was executed. */
  ghost predicate OrderExecuted(s: State, r: Id, c: Id) {
    Known(s, c) && s.confs[c].status == C.Executed && s.confLog[c].origin.TimedClose? && s.confLog[c].origin.row == r
  }

  /** The trigger that dropped this close is gone. */
  ghost predicate RetiredBut(s: State, p: Option<Pid>) {
    forall r :: r in s.closes && r in s.closeLog && s.closes[r].entry in s.confLog
                && s.closes[r].status == S.Cancelled && s.closeLog[r].cause == Some(TriggerGaveUp)
                && s.confLog[s.closes[r].entry].origin.ArmedEntry? ==>
                  s.confLog[s.closes[r].entry].origin.pid !in s.procs
                  || Some(s.confLog[s.closes[r].entry].origin.pid) == p
  }

  /** A journal row stands for an executed confirmation, and only confirmations that open a trade or
      close one manually have rows. */
  ghost predicate TradeOk(s: State, id: Id) {
    id in s.confs && s.confs[id].status == C.Executed
  }

  // ---------------------------------------------------------------------------
  // Facts about one process
  // ---------------------------------------------------------------------------

  ghost predicate NoCloseFor(s: State, c: Id) {
    forall r :: r in s.closes ==> s.closes[r].entry != c
  }

  ghost predicate Unprepared(s: State, p: Pid) {
    forall c :: c in s.confLog ==> PreparedBy(s.confLog[c].origin) != Some(p)
  }

  ghost predicate NoClaimBy(s: State, p: Pid, r: Id) {
    r in s.closeLog ==> forall i :: 0 <= i < |s.closeLog[r].claims| ==> s.closeLog[r].claims[i].pid != p
  }

  ghost predicate ClaimedBy(claims: seq<Claim>, p: Pid, stamp: Time) {
    exists i :: 0 <= i < |claims| && claims[i].pid == p && claims[i].stamp == stamp
  }

  ghost predicate Holds(s: State, p: Pid, r: Id, stamp: Time) {
    r in s.closes && r in s.closeLog && ClaimedBy(s.closeLog[r].claims, p, stamp)
  }

  ghost predicate Known(s: State, c: Id) {
    c in s.confs && c in s.confLog
  }

  /** The trigger no longer drives this entry towards execution. */
  ghost predicate GaveUp(s: State, p: Pid, c: Id) {
    && Known(s, c) && s.confLog[c].origin.ArmedEntry? && s.confLog[c].origin.pid == p
    && (s.confs[c].status == C.Executed ==> s.confLog[c].otherConfirm)
  }

  ghost predicate AfterOk(s: State, p: Pid, c: Id, after: After) {
    match after
    case Stop => true
    case DropEntryClose => GaveUp(s, p, c)
    case SkipRow(r, stamp) => Holds(s, p, r, stamp) && Known(s, c) && s.confLog[c].origin == TimedClose(r, p) && NotByMe(s, p, c)
  }

  /** Process p has not executed c. */
  ghost predicate NotByMe(s: State, p: Pid, c: Id)
    requires Known(s, c)
  {
    s.confLog[c].taker != Some(p) || s.confs[c].status != C.Executed
  }

  /** A close order sent for the row ends it as done exactly if its process executed it or found it executed. */
  ghost predicate EndOk(s: State, p: Pid, r: Id, status: S.Status, confirmation: Option<Id>) {
    match confirmation
    case None => true
    case Some(c) =>
      && Known(s, c) && s.confLog[c].origin == TimedClose(r, p)
      && (status == S.Done ==> s.confs[c].status == C.Executed) && (status == S.Skipped ==> NotByMe(s, p, c))
  }

  ghost predicate CallerOk(s: State, p: Pid, c: Id, caller: Caller) {
    && Known(s, c)
    && match caller
       case ByUser => s.confLog[c].origin.ArmedEntry? ==> s.confLog[c].otherConfirm
       case ByTrigger => s.confLog[c].origin.ArmedEntry? && s.confLog[c].origin.pid == p
       case ByClose(r, stamp) => s.confLog[c].origin == TimedClose(r, p) && Holds(s, p, r, stamp)
  }

  ghost predicate Taking(s: State, p: Pid, c: Id, caller: Caller) {
    CallerOk(s, p, c, caller) && s.confLog[c].taker != Some(p)
  }

  ghost predicate Took(s: State, p: Pid, c: Id, caller: Caller) {
    CallerOk(s, p, c, caller) && s.confLog[c].taker == Some(p) && s.confs[c].status == C.Executing
  }

  ghost predicate Completed(s: State, p: Pid, c: Id, caller: Caller, r: C.ExecutionResult) {
    && CallerOk(s, p, c, caller) && s.confLog[c].taker == Some(p)
    && s.confs[c].status == C.Executed && s.confs[c].result.Some?
    && C.SameResult(r, C.FromDoc(s.confs[c].result.value))
    && c !in s.journal
  }

  /** If the confirmation still pends, its time is over. */
  ghost predicate Lapsed(s: State, c: Id) {
    c in s.confs && s.confs[c].status == C.Pending ==> s.confs[c].expiresAt <= s.clock
  }

  ghost predicate Owns(s: State, c: Id, user: int) {
    c in s.confs && s.confs[c].userId == user
  }

  ghost predicate DropOk(s: State, p: Pid, c: Id, cause: Cause) {
    && Known(s, c) && CauseHolds(s, c, cause)
    && (cause == TriggerGaveUp ==> s.confLog[c].origin.pid == p)
  }

  ghost predicate ProcOk(s: State, p: Pid, pc: Pc) {
    match pc
    case AttachClose(c) => Known(s, c) && s.confLog[c].origin == MissionPage(p) && NoCloseFor(s, c)
    case Abandon(c, _, after) => Known(s, c) && AfterOk(s, p, c, after)
    case AbandonRead(c, _, now, after) => Known(s, c) && AfterOk(s, p, c, after) && now <= s.clock
    case AbandonExpire(c, _, after) => Known(s, c) && AfterOk(s, p, c, after) && Lapsed(s, c)
    case Take(c, _, caller) => Taking(s, p, c, caller)
    case TakeRead(c, _, now, caller) => Taking(s, p, c, caller) && now <= s.clock
    case TakeExpire(c, _, caller) => Taking(s, p, c, caller) && Lapsed(s, c)
    case Call(c, user, caller) => Took(s, p, c, caller) && s.confLog[c].calls == 0 && Owns(s, c, user)
    case Settle(c, user, caller, _) => Took(s, p, c, caller) && Owns(s, c, user)
    case Record(c, user, caller, r) => Completed(s, p, c, caller, r) && Owns(s, c, user)
    case Activate(c) => Known(s, c) && s.confs[c].status == C.Executed
    case Drop(c, _, cause) => DropOk(s, p, c, cause)
    case ExpireMission(m) => m in s.missions
    case Trigger(m, _) => m in s.missions && Unprepared(s, p)
    case PrepareEntry(m) => m in s.missions && m in s.triggerer && s.triggerer[m] == p && Unprepared(s, p)
    case RecordEntry(m, c) => Known(s, c) && s.confLog[c].origin == ArmedEntry(m, p) && NoCloseFor(s, c) && s.confLog[c].taker != Some(p)
    case AttachEntryClose(m, c) =>
      Known(s, c) && s.confLog[c].origin == ArmedEntry(m, p) && NoCloseFor(s, c) && s.confLog[c].taker != Some(p)
    case Reconcile(r, c, now) => r in s.closes && s.closes[r].entry == c && now <= s.clock
    case ClaimRow(r, now) => r in s.closes && now <= s.clock && Unprepared(s, p) && NoClaimBy(s, p, r)
    case Held(r, stamp) => Holds(s, p, r, stamp) && Unprepared(s, p)
    case ClosePrepared(r, c, stamp) =>
      Known(s, c) && s.confLog[c].origin == TimedClose(r, p) && Holds(s, p, r, stamp) && s.confLog[c].taker != Some(p)
    case Finish(r, stamp, status, c) => Holds(s, p, r, stamp) && (status == S.Done || status == S.Skipped) && EndOk(s, p, r, status, c)
    case CloseTrade(_) => true
  }

  // ---------------------------------------------------------------------------
  // The invariant
  // ---------------------------------------------------------------------------

  ghost predicate WellFormed(s: State) {
    && s.confs.Keys == s.confLog.Keys && s.closes.Keys == s.closeLog.Keys
    && s.triggerer.Keys <= s.missions.Keys
    && (forall p :: p in s.procs ==> p < s.nextPid)
  }

  /** A process prepares at most one confirmation. */
  ghost predicate OnePerPreparer(s: State) {
    forall c, d ::
      c in s.confLog && d in s.confLog
      && PreparedBy(s.confLog[c].origin).Some? && PreparedBy(s.confLog[c].origin) == PreparedBy(s.confLog[d].origin)
      ==> c == d
  }

  /** The invariant but for what process p relies on. */
  ghost predicate RestOk(s: State, p: Pid) {
    && WellFormed(s) && OnePerPreparer(s) && S.OnePerEntry(s.closes)
    && (forall c :: c in s.confs ==> ConfOk(s, c))
    && (forall m :: m in s.missions ==> MissionOk(s, m))
    && (forall r :: r in s.closes ==> CloseOk(s, r))
    && (forall t :: t in s.journal ==> TradeOk(s, t))
    && (forall q :: q in s.procs && q != p ==> ProcOk(s, q, s.procs[q]))
  }

  ghost predicate Inv(s: State) {
    && (forall p :: p in s.procs ==> ProcOk(s, p, s.procs[p]))
    && RetiredBut(s, None)
    && RestOk(s, s.nextPid)
  }

  // ---------------------------------------------------------------------------
  // What a step of process a guarantees to everyone else
  // ---------------------------------------------------------------------------

  ghost predicate ConfMoves(a: Pid, s: State, t: State, c: Id)
    requires Known(s, c)
  {
    && Known(t, c)
    && var d, e, l, k := s.confs[c], t.confs[c], s.confLog[c], t.confLog[c];
       && e.intent == d.intent && e.userId == d.userId && k.origin == l.origin
       && (l.userCancel ==> k.userCancel) && (l.otherConfirm ==> k.otherConfirm) && (l.late ==> k.late)
       && (k.taker == l.taker || (l.taker == None && k.taker == Some(a)))
       && (k.calls == l.calls || l.taker == Some(a))
       && (e.status == C.Pending ==> d.status == C.Pending && e.expiresAt == d.expiresAt)
       && (|| (e.status == d.status && e.result == d.result)
           || (d.status == C.Pending && (e.status == C.Cancelled || e.status == C.Expired))
           || (d.status == C.Pending && e.status == C.Executing && k.taker == Some(a))
           || (d.status == C.Executing && l.taker == Some(a) && e.status == C.Failed)
           || (d.status == C.Executing && l.taker == Some(a) && e.status == C.Executed
               && (l.origin.ArmedEntry? && l.origin.pid != a ==> k.otherConfirm)
               && (Overdue(s, c) ==> k.late)))
  }

  ghost predicate CloseMoves(a: Pid, s: State, t: State, r: Id)
    requires r in s.closes && r in s.closeLog
  {
    && r in t.closes && r in t.closeLog
    && t.closes[r].entry == s.closes[r].entry && t.closes[r].createdAt == s.closes[r].createdAt
    && (t.closeLog[r].claims == s.closeLog[r].claims
        || (|t.closeLog[r].claims| == |s.closeLog[r].claims| + 1
            && t.closeLog[r].claims[..|s.closeLog[r].claims|] == s.closeLog[r].claims
            && t.closeLog[r].claims[|s.closeLog[r].claims|].pid == a))
  }

  ghost predicate Guarantee(a: Pid, s: State, t: State) {
    && (a in s.procs || a == s.nextPid)
    && s.clock <= t.clock && s.nextPid <= t.nextPid
    && (forall p :: p in t.procs && p != a ==> p in s.procs && t.procs[p] == s.procs[p])
    && (forall c :: Known(s, c) ==> ConfMoves(a, s, t, c))
    && (forall c :: Known(t, c) && !Known(s, c) ==> PreparedBy(t.confLog[c].origin) == None || PreparedBy(t.confLog[c].origin) == Some(a))
    && (forall r :: r in s.closes && r in s.closeLog ==> CloseMoves(a, s, t, r))
    && (forall r :: r in t.closes && r !in s.closes ==>
          Known(s, t.closes[r].entry) && PreparedBy(s.confLog[t.closes[r].entry].origin) == Some(a))
    && (forall r :: r in t.closeLog && r !in s.closeLog ==> t.closeLog[r].claims == [])
    && (forall m :: m in s.missions ==> m in t.missions && (s.missions[m].status == A.Triggered ==> t.missions[m].status == A.Triggered))
    && (forall m :: m in s.triggerer ==> m in t.triggerer && t.triggerer[m] == s.triggerer[m])
    && (forall id :: id in t.journal && id !in s.journal ==> id in t.confLog && t.confLog[id].taker == Some(a))
  }

  // ---------------------------------------------------------------------------
  // Facts survive the steps of others
  // ---------------------------------------------------------------------------

  lemma HoldsStable(s: State, t: State, a: Pid, p: Pid, r: Id, stamp: Time)
    requires Guarantee(a, s, t) && Holds(s, p, r, stamp)
    ensures Holds(t, p, r, stamp)
  {
    assert CloseMoves(a, s, t, r);
    var i :| 0 <= i < |s.closeLog[r].claims| && s.closeLog[r].claims[i].pid == p && s.closeLog[r].claims[i].stamp == stamp;
    assert t.closeLog[r].claims[i] == s.closeLog[r].claims[i];
  }

  lemma CallerStable(s: State, t: State, a: Pid, p: Pid, c: Id, caller: Caller)
    requires Guarantee(a, s, t) && CallerOk(s, p, c, caller)
    ensures CallerOk(t, p, c, caller)
  {
    assert ConfMoves(a, s, t, c);
    if caller.ByClose? {
      HoldsStable(s, t, a, p, caller.row, caller.stamp);
    }
  }

  lemma GaveUpStable(s: State, t: State, a: Pid, p: Pid, c: Id)
    requires Guarantee(a, s, t) && GaveUp(s, p, c) && p != a
    ensures GaveUp(t, p, c)
  {
    assert ConfMoves(a, s, t, c);
  }

  lemma NotByMeStable(s: State, t: State, a: Pid, p: Pid, c: Id)
    requires Guarantee(a, s, t) && Known(s, c) && NotByMe(s, p, c) && p != a
    ensures Known(t, c) && NotByMe(t, p, c) && t.confLog[c].origin == s.confLog[c].origin
  {
    assert ConfMoves(a, s, t, c);
  }

  lemma EndStable(s: State, t: State, a: Pid, p: Pid, r: Id, status: S.Status, confirmation: Option<Id>)
    requires Guarantee(a, s, t) && EndOk(s, p, r, status, confirmation) && p != a
    ensures EndOk(t, p, r, status, confirmation)
  {
    hide Guarantee;
    if confirmation.Some? {
      KnownStable(s, t, a, p, confirmation.value);
      if status == S.Skipped {
        NotByMeStable(s, t, a, p, confirmation.value);
      }
    }
  }

  lemma AfterStable(s: State, t: State, a: Pid, p: Pid, c: Id, after: After)
    requires Guarantee(a, s, t) && AfterOk(s, p, c, after) && p != a
    ensures AfterOk(t, p, c, after)
  {
    match after {
      case Stop =>
      case DropEntryClose => GaveUpStable(s, t, a, p, c);
      case SkipRow(r, stamp) => HoldsStable(s, t, a, p, r, stamp); NotByMeStable(s, t, a, p, c);
    }
  }

  lemma CauseStable(s: State, t: State, a: Pid, c: Id, cause: Cause)
    requires WellFormed(s) && Guarantee(a, s, t) && Known(s, c) && CauseHolds(s, c, cause)
    requires cause == TriggerGaveUp ==> s.confLog[c].origin.pid != a
    ensures Known(t, c) && CauseHolds(t, c, cause)
  {
    hide Guarantee, WellFormed, Overdue;
    MovesOf(s, t, a, c);
    if cause.EntryStale? {
      RowStable(s, t, a, cause.row);
      assert Overdue(s, c) by { OverdueBy(s, cause.row); }
    }
  }

  lemma MovesOf(s: State, t: State, a: Pid, c: Id)
    requires Guarantee(a, s, t) && Known(s, c)
    ensures ConfMoves(a, s, t, c)
  {}

  lemma OverdueBy(s: State, r: Id)
    requires r in s.closes && s.clock > s.closes[r].createdAt + S.AWAITING_TTL
    ensures Overdue(s, s.closes[r].entry)
  {}

  /** Time and pids only grow. */
  lemma LaterState(s: State, t: State, a: Pid)
    requires Guarantee(a, s, t)
    ensures s.clock <= t.clock && s.nextPid <= t.nextPid
  {}

  lemma UnpreparedStable(s: State, t: State, a: Pid, p: Pid)
    requires WellFormed(s) && WellFormed(t) && Guarantee(a, s, t) && Unprepared(s, p) && p != a
    ensures Unprepared(t, p)
  {
    forall c | c in t.confLog
      ensures PreparedBy(t.confLog[c].origin) != Some(p)
    {
      if Known(s, c) {
        assert ConfMoves(a, s, t, c);
      } else {
        assert Known(t, c);
      }
    }
  }

  lemma NoCloseStable(s: State, t: State, a: Pid, p: Pid, c: Id)
    requires WellFormed(s) && Guarantee(a, s, t) && NoCloseFor(s, c) && p != a
    requires Known(s, c) && PreparedBy(s.confLog[c].origin) == Some(p)
    ensures NoCloseFor(t, c)
  {
    forall r | r in t.closes
      ensures t.closes[r].entry != c
    {
      if r in s.closes {
        assert CloseMoves(a, s, t, r);
      }
    }
  }

  lemma NoClaimStable(s: State, t: State, a: Pid, p: Pid, r: Id)
    requires WellFormed(s) && Guarantee(a, s, t) && NoClaimBy(s, p, r) && p != a && r in s.closes
    ensures NoClaimBy(t, p, r)
  {
    assert CloseMoves(a, s, t, r);
    var before, after := s.closeLog[r].claims, t.closeLog[r].claims;
    forall i | 0 <= i < |after|
      ensures after[i].pid != p
    {
      if i < |before| {
        assert after[i] == before[i];
      }
    }
  }

  lemma KnownStable(s: State, t: State, a: Pid, p: Pid, c: Id)
    requires Guarantee(a, s, t) && Known(s, c)
    ensures Known(t, c) && t.confLog[c].origin == s.confLog[c].origin
    ensures (Lapsed(s, c) ==> Lapsed(t, c)) && forall user :: Owns(s, c, user) ==> Owns(t, c, user)
    ensures s.confs[c].status == C.Executed ==> t.confs[c].status == C.Executed && t.confs[c].result == s.confs[c].result
    ensures p != a ==> (t.confLog[c].taker == Some(p) <==> s.confLog[c].taker == Some(p))
    ensures p != a && s.confLog[c].taker == Some(p) ==>
              t.confLog[c].calls == s.confLog[c].calls
              && (s.confs[c].status == C.Executing ==> t.confs[c].status == C.Executing)
  {
    assert ConfMoves(a, s, t, c);
  }

  lemma CompletedStable(s: State, t: State, a: Pid, p: Pid, c: Id, caller: Caller, r: C.ExecutionResult)
    requires Guarantee(a, s, t) && Completed(s, p, c, caller, r) && p != a
    ensures Completed(t, p, c, caller, r) && forall user :: Owns(s, c, user) ==> Owns(t, c, user)
  {
    CallerStable(s, t, a, p, c, caller);
    KnownStable(s, t, a, p, c);
  }

  lemma RowStable(s: State, t: State, a: Pid, r: Id)
    requires WellFormed(s) && Guarantee(a, s, t) && r in s.closes
    ensures r in s.closeLog && r in t.closes && r in t.closeLog && s.clock <= t.clock
    ensures t.closes[r].entry == s.closes[r].entry && t.closes[r].createdAt == s.closes[r].createdAt
  {
    assert CloseMoves(a, s, t, r);
  }

  lemma MissionStable(s: State, t: State, a: Pid, m: Id)
    requires Guarantee(a, s, t) && m in s.missions
    ensures m in t.missions && (m in s.triggerer ==> m in t.triggerer && t.triggerer[m] == s.triggerer[m])
    ensures s.missions[m].status == A.Triggered ==> t.missions[m].status == A.Triggered
  {}

  predicate OnConfirmation(pc: Pc) {
    pc.Take? || pc.TakeRead? || pc.TakeExpire? || pc.Call? || pc.Settle? || pc.Record? || pc.Activate? || pc.Drop?
  }

  predicate OnAbandon(pc: Pc) {
    pc.Abandon? || pc.AbandonRead? || pc.AbandonExpire? || pc.CloseTrade?
  }

  predicate OnEntry(pc: Pc) {
    pc.AttachClose? || pc.ExpireMission? || pc.Trigger? || pc.PrepareEntry? || pc.RecordEntry? || pc.AttachEntryClose?
  }

  lemma OnTakingStable(s: State, t: State, a: Pid, p: Pid, pc: Pc)
    requires Guarantee(a, s, t) && ProcOk(s, p, pc) && p != a
    requires pc.Take? || pc.TakeRead? || pc.TakeExpire? || pc.Call? || pc.Settle?
    ensures ProcOk(t, p, pc)
  {
    hide Guarantee, WellFormed, Taking, Took, CauseHolds, Completed, AfterOk, Unprepared, NoCloseFor, Holds, NoClaimBy, DropOk,
         Lapsed, Owns;
    LaterState(s, t, a);
    match pc {
      case Take(c, _, caller) => TakingStable(s, t, a, p, c, caller);
      case TakeRead(c, _, _, caller) => TakingStable(s, t, a, p, c, caller);
      case TakeExpire(c, _, caller) => TakingStable(s, t, a, p, c, caller);
      case Call(c, _, caller) => TookStable(s, t, a, p, c, caller);
      case Settle(c, _, caller, _) => TookStable(s, t, a, p, c, caller);
    }
  }

  lemma OnConfirmationStable(s: State, t: State, a: Pid, p: Pid, pc: Pc)
    requires WellFormed(s) && WellFormed(t) && Guarantee(a, s, t) && ProcOk(s, p, pc) && p != a && OnConfirmation(pc)
    ensures ProcOk(t, p, pc)
  {
    hide Guarantee, WellFormed, Taking, Took, CauseHolds, Completed, AfterOk, Unprepared, NoCloseFor, Holds, NoClaimBy, DropOk,
         Lapsed, Owns;
    LaterState(s, t, a);
    match pc {
      case Record(c, _, caller, r) => CompletedStable(s, t, a, p, c, caller, r);
      case Activate(c) => KnownStable(s, t, a, p, c);
      case Drop(c, _, cause) => DropStable(s, t, a, p, c, cause);
      case _ => OnTakingStable(s, t, a, p, pc);
    }
  }

  lemma DropStable(s: State, t: State, a: Pid, p: Pid, c: Id, cause: Cause)
    requires WellFormed(s) && Guarantee(a, s, t) && DropOk(s, p, c, cause) && p != a
    ensures DropOk(t, p, c, cause)
  {
    hide Guarantee, WellFormed, CauseHolds;
    CauseStable(s, t, a, c, cause);
    KnownStable(s, t, a, p, c);
  }

  lemma OnAbandonStable(s: State, t: State, a: Pid, p: Pid, pc: Pc)
    requires WellFormed(s) && WellFormed(t) && Guarantee(a, s, t) && ProcOk(s, p, pc) && p != a && OnAbandon(pc)
    ensures ProcOk(t, p, pc)
  {
    hide Guarantee, WellFormed, AfterOk, Lapsed;
    LaterState(s, t, a);
    if !pc.CloseTrade? {
      KnownStable(s, t, a, p, pc.c);
      AfterStable(s, t, a, p, pc.c, pc.after);
    }
  }

  lemma OnMissionStable(s: State, t: State, a: Pid, p: Pid, pc: Pc)
    requires WellFormed(s) && WellFormed(t) && Guarantee(a, s, t) && ProcOk(s, p, pc) && p != a
    requires pc.ExpireMission? || pc.Trigger? || pc.PrepareEntry?
    ensures ProcOk(t, p, pc)
  {
    hide Guarantee, WellFormed, Unprepared, NoCloseFor, AfterOk, Taking, Took, Completed, DropOk, Holds, NoClaimBy;
    match pc {
      case ExpireMission(m) => MissionStable(s, t, a, m);
      case Trigger(m, _) => MissionStable(s, t, a, m); UnpreparedStable(s, t, a, p);
      case PrepareEntry(m) => MissionStable(s, t, a, m); UnpreparedStable(s, t, a, p);
    }
  }

  lemma OnEntryStable(s: State, t: State, a: Pid, p: Pid, pc: Pc)
    requires WellFormed(s) && WellFormed(t) && Guarantee(a, s, t) && ProcOk(s, p, pc) && p != a && OnEntry(pc)
    ensures ProcOk(t, p, pc)
  {
    hide Guarantee, WellFormed, Unprepared, NoCloseFor, AfterOk, Taking, Took, Completed, DropOk, Holds, NoClaimBy;
    match pc {
      case AttachClose(c) => KnownStable(s, t, a, p, c); NoCloseStable(s, t, a, p, c);
      case RecordEntry(m, c) => KnownStable(s, t, a, p, c); NoCloseStable(s, t, a, p, c);
      case AttachEntryClose(m, c) => KnownStable(s, t, a, p, c); NoCloseStable(s, t, a, p, c);
      case _ => OnMissionStable(s, t, a, p, pc);
    }
  }

  lemma OnCloseStable(s: State, t: State, a: Pid, p: Pid, pc: Pc)
    requires WellFormed(s) && WellFormed(t) && Guarantee(a, s, t) && ProcOk(s, p, pc) && p != a
    requires !OnConfirmation(pc) && !OnAbandon(pc) && !OnEntry(pc)
    ensures ProcOk(t, p, pc)
  {
    hide Guarantee, WellFormed, Unprepared, NoClaimBy, Holds, EndOk;
    match pc {
      case Reconcile(r, c, now) => RowStable(s, t, a, r);
      case ClaimRow(r, now) => RowStable(s, t, a, r); UnpreparedStable(s, t, a, p); NoClaimStable(s, t, a, p, r);
      case Held(r, stamp) => HoldsStable(s, t, a, p, r, stamp); UnpreparedStable(s, t, a, p);
      case ClosePrepared(r, c, stamp) => KnownStable(s, t, a, p, c); HoldsStable(s, t, a, p, r, stamp);
      case Finish(r, stamp, status, c) => HoldsStable(s, t, a, p, r, stamp); EndStable(s, t, a, p, r, status, c);
      case _ =>
    }
  }

  /** A process that does not step keeps its facts. */
  lemma ProcStable(s: State, t: State, a: Pid, p: Pid, pc: Pc)
    requires WellFormed(s) && WellFormed(t) && Guarantee(a, s, t) && ProcOk(s, p, pc) && p != a
    ensures ProcOk(t, p, pc)
  {
    hide *;
    if OnConfirmation(pc) {
      OnConfirmationStable(s, t, a, p, pc);
    } else if OnAbandon(pc) {
      OnAbandonStable(s, t, a, p, pc);
    } else if OnEntry(pc) {
      OnEntryStable(s, t, a, p, pc);
    } else {
      OnCloseStable(s, t, a, p, pc);
    }
  }

  lemma TakingStable(s: State, t: State, a: Pid, p: Pid, c: Id, caller: Caller)
    requires Guarantee(a, s, t) && Taking(s, p, c, caller) && p != a
    ensures Taking(t, p, c, caller) && (Lapsed(s, c) ==> Lapsed(t, c))
  {
    CallerStable(s, t, a, p, c, caller);
    KnownStable(s, t, a, p, c);
  }

  lemma TookStable(s: State, t: State, a: Pid, p: Pid, c: Id, caller: Caller)
    requires Guarantee(a, s, t) && Took(s, p, c, caller) && p != a
    ensures Took(t, p, c, caller) && c in s.confLog && c in t.confLog && t.confLog[c].calls == s.confLog[c].calls
    ensures forall user :: Owns(s, c, user) ==> Owns(t, c, user)
  {
    CallerStable(s, t, a, p, c, caller);
    KnownStable(s, t, a, p, c);
  }

  lemma ConfStable(s: State, t: State, a: Pid, c: Id)
    requires WellFormed(s) && WellFormed(t) && Guarantee(a, s, t)
    requires Known(s, c) && ConfOk(s, c) && Known(t, c) && t.confs[c] == s.confs[c] && t.confLog[c] == s.confLog[c]
    ensures ConfOk(t, c)
  {
    hide Guarantee, WellFormed, OriginOk;
    LaterState(s, t, a);
    OriginStable(s, t, a, s.confs[c], s.confLog[c].origin);
  }

  lemma OriginStable(s: State, t: State, a: Pid, d: C.Confirmation, o: Origin)
    requires WellFormed(s) && Guarantee(a, s, t) && OriginOk(s, d, o)
    ensures OriginOk(t, d, o)
  {
    hide Guarantee, WellFormed, HasClaim;
    LaterState(s, t, a);
    match o {
      case Manual =>
      case MissionPage(_) =>
      case ArmedEntry(m, _) => MissionStable(s, t, a, m);
      case TimedClose(r, p) => RowStable(s, t, a, r); ClaimStable(s, t, a, r, p);
    }
  }

  lemma ClaimStable(s: State, t: State, a: Pid, r: Id, p: Pid)
    requires Guarantee(a, s, t) && r in s.closes && r in s.closeLog && HasClaim(s.closeLog[r].claims, p)
    ensures r in t.closeLog && HasClaim(t.closeLog[r].claims, p)
  {
    assert CloseMoves(a, s, t, r);
    var before, after := s.closeLog[r].claims, t.closeLog[r].claims;
    var i :| 0 <= i < |before| && before[i].pid == p;
    assert after[i] == after[..|before|][i];
  }

  lemma RetiredIsNotActing(s: State, t: State, a: Pid, r: Id)
    requires Guarantee(a, s, t) && RetiredBut(s, None)
    requires r in s.closes && r in s.closeLog && s.closes[r].status == S.Cancelled && s.closeLog[r].cause == Some(TriggerGaveUp)
    requires Known(s, s.closes[r].entry) && ConfOk(s, s.closes[r].entry) && s.confLog[s.closes[r].entry].origin.ArmedEntry?
    ensures s.confLog[s.closes[r].entry].origin.pid != a
  {}

  lemma OrderStable(s: State, t: State, a: Pid, r: Id, c: Id)
    requires Guarantee(a, s, t) && OrderExecuted(s, r, c)
    ensures OrderExecuted(t, r, c)
  {
    hide Guarantee;
    KnownStable(s, t, a, a, c);
  }

  lemma CloseStable(s: State, t: State, a: Pid, r: Id)
    requires WellFormed(s) && WellFormed(t) && Guarantee(a, s, t)
    requires r in s.closes && CloseOk(s, r) && ConfOk(s, s.closes[r].entry) && RetiredBut(s, None)
    requires r in t.closes && t.closes[r] == s.closes[r] && t.closeLog[r] == s.closeLog[r]
    ensures CloseOk(t, r)
  {
    hide ConfMoves, ConfOk, RetiredBut, CauseHolds, ClaimsOk, Guarantee, WellFormed, OrderExecuted;
    var c := s.closes[r].entry;
    if s.closes[r].confirmation.Some? && OrderExecuted(s, r, s.closes[r].confirmation.value) {
      OrderStable(s, t, a, r, s.closes[r].confirmation.value);
    }
    RowStable(s, t, a, r);
    KnownStable(s, t, a, a, c);
    LaterState(s, t, a);
    ClaimsLater(s.closeLog[r].claims, s.closes[r].dueAt, s.clock, s.nextPid, t.clock, t.nextPid);
    if s.closes[r].status == S.Cancelled {
      var cause := s.closeLog[r].cause.value;
      if cause == TriggerGaveUp {
        CauseIsOfTrigger(s, c);
        RetiredIsNotActing(s, t, a, r);
      }
      CauseStable(s, t, a, c, cause);
    }
  }

  lemma ClaimsLater(claims: seq<Claim>, dueAt: Time, clock: Time, nextPid: Pid, clock': Time, nextPid': Pid)
    requires ClaimsOk(claims, dueAt, clock, nextPid) && clock <= clock' && nextPid <= nextPid'
    ensures ClaimsOk(claims, dueAt, clock', nextPid')
  {}

  lemma CauseIsOfTrigger(s: State, c: Id)
    requires Known(s, c) && CauseHolds(s, c, TriggerGaveUp)
    ensures s.confLog[c].origin.ArmedEntry?
  {}

  // ---------------------------------------------------------------------------
  // One step
  // ---------------------------------------------------------------------------

  ghost predicate SameConf(s: State, t: State, c: Id) {
    Known(s, c) && Known(t, c) && t.confs[c] == s.confs[c] && t.confLog[c] == s.confLog[c]
  }

  ghost predicate SameClose(s: State, t: State, r: Id) {
    && r in s.closes && r in s.closeLog && r in t.closes && r in t.closeLog
    && t.closes[r] == s.closes[r] && t.closeLog[r] == s.closeLog[r]
  }

  /** A change by process a that keeps its guarantee leaves everyone else in order. */
  lemma ChangeKeepsRest(s: State, t: State, a: Pid)
    requires Inv(s) && WellFormed(t) && Guarantee(a, s, t)
    requires OnePerPreparer(t) && S.OnePerEntry(t.closes)
    requires forall c :: c in t.confs && !SameConf(s, t, c) ==> ConfOk(t, c)
    requires forall m :: m in t.missions ==> MissionOk(t, m)
    requires forall r :: r in t.closes && !SameClose(s, t, r) ==> CloseOk(t, r)
    requires forall id :: id in t.journal && id !in s.journal ==> TradeOk(t, id)
    ensures RestOk(t, a)
  {
    forall c | c in t.confs ensures ConfOk(t, c) {
      if SameConf(s, t, c) {
        ConfStable(s, t, a, c);
      }
    }
    forall r | r in t.closes ensures CloseOk(t, r) {
      if SameClose(s, t, r) {
        CloseStable(s, t, a, r);
      }
    }
    forall id | id in t.journal ensures TradeOk(t, id) {
      if id in s.journal {
        assert TradeOk(s, id);
        KnownStable(s, t, a, a, id);
      }
    }
    forall p | p in t.procs && p != a ensures ProcOk(t, p, t.procs[p]) {
      ProcStable(s, t, a, p, s.procs[p]);
    }
  }

  // ---------------------------------------------------------------------------
  // Moving the program counter
  // ---------------------------------------------------------------------------

  /** Documents and rows do not depend on where processes stand. */
  ghost predicate SameStores(s: State, t: State) {
    && t.clock == s.clock && t.confs == s.confs && t.confLog == s.confLog && t.closes == s.closes
    && t.closeLog == s.closeLog && t.missions == s.missions && t.triggerer == s.triggerer && t.journal == s.journal
    && t.nextPid == s.nextPid
  }

  lemma ProcFrame(s: State, t: State, p: Pid, pc: Pc)
    requires SameStores(s, t) && ProcOk(s, p, pc)
    ensures ProcOk(t, p, pc)
  {
    assert t == s.(procs := t.procs);
  }

  /** Process p moved, or went if a trigger may have been it: what holds of all processes still does. */
  lemma MovedFacts(s: State, t: State, gone: Option<Pid>, p: Pid)
    requires SameStores(s, t) && OnePerPreparer(s) && RetiredBut(s, gone)
    requires t.procs.Keys <= s.procs.Keys && (gone.Some? ==> gone.value !in t.procs)
    ensures OnePerPreparer(t) && RetiredBut(t, None)
  {}

  lemma GotoLands(s: State, p: Pid, pc: Pc)
    requires RestOk(s, p) && RetiredBut(s, None) && p in s.procs && ProcOk(s, p, pc)
    ensures Inv(Goto(s, p, pc))
  {
    hide ProcOk, ConfOk, CloseOk, MissionOk, TradeOk, RetiredBut, OnePerPreparer, S.OnePerEntry;
    var t := Goto(s, p, pc);
    MovedFacts(s, t, None, p);
    forall q | q in t.procs ensures ProcOk(t, q, t.procs[q]) {
      ProcFrame(s, t, q, t.procs[q]);
    }
    StoresFrame(s, t);
  }

  lemma DoneLands(s: State, p: Pid)
    requires RestOk(s, p) && RetiredBut(s, Some(p))
    ensures Inv(Protocol.Done(s, p))
  {
    hide ProcOk, ConfOk, CloseOk, MissionOk, TradeOk, RetiredBut, OnePerPreparer, S.OnePerEntry;
    var t := Protocol.Done(s, p);
    MovedFacts(s, t, Some(p), p);
    forall q | q in t.procs ensures ProcOk(t, q, t.procs[q]) {
      ProcFrame(s, t, q, t.procs[q]);
    }
    StoresFrame(s, t);
  }

  lemma ConfFrame(s: State, t: State, c: Id)
    requires SameStores(s, t) && Known(s, c) && ConfOk(s, c)
    ensures Known(t, c) && ConfOk(t, c)
  {}

  lemma CloseFrame(s: State, t: State, r: Id)
    requires SameStores(s, t) && r in s.closes && r in s.closeLog && CloseOk(s, r)
    ensures r in t.closes && r in t.closeLog && CloseOk(t, r)
  {
    assert t == s.(procs := t.procs);
  }

  lemma StoresFrame(s: State, t: State)
    requires SameStores(s, t)
    requires forall c :: c in s.confs ==> c in s.confLog && ConfOk(s, c)
    requires forall m :: m in s.missions ==> MissionOk(s, m)
    requires forall r :: r in s.closes ==> r in s.closeLog && CloseOk(s, r)
    requires forall id :: id in s.journal ==> TradeOk(s, id)
    ensures forall c :: c in t.confs ==> c in t.confLog && ConfOk(t, c)
    ensures forall m :: m in t.missions ==> MissionOk(t, m)
    ensures forall r :: r in t.closes ==> r in t.closeLog && CloseOk(t, r)
    ensures forall id :: id in t.journal ==> TradeOk(t, id)
  {
    hide ConfOk, CloseOk;
    forall c | c in t.confs ensures c in t.confLog && ConfOk(t, c) {
      ConfFrame(s, t, c);
    }
    forall r | r in t.closes ensures r in t.closeLog && CloseOk(t, r) {
      CloseFrame(s, t, r);
    }
    forall m | m in t.missions ensures MissionOk(t, m) {
      assert MissionOk(s, m);
    }
    forall id | id in t.journal ensures TradeOk(t, id) {
      assert TradeOk(s, id);
    }
  }
}
