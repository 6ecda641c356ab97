/** The steps on closes and armed missions, the start of handlers, and whole runs. */
module ProtocolRuns {
  import opened Common
  import opened Protocol
  import opened ProtocolInvariant
  import opened ProtocolSteps
  import C = Confirmations
  import S = ScheduledCloses
  import A = ArmedMissions
  import J = Journal

  // ---------------------------------------------------------------------------
  // Saving, arming and dropping a close
  // ---------------------------------------------------------------------------

  /** Saves a process's own awaiting close. */
  lemma SaveKeepsRest(s: State, t: State, p: Pid, c: Id, r: Id, x: S.ScheduledClose)
    requires Inv(s) && p in s.procs && r !in s.closes && Known(s, c) && NoCloseFor(s, c)
    requires s.confLog[c].origin.MissionPage? || s.confLog[c].origin.ArmedEntry?
    requires PreparedBy(s.confLog[c].origin) == Some(p)
    requires x.entry == c && x.status == S.AwaitingEntry && t == SaveClose(s, r, x)
    ensures RestOk(t, p) && RetiredBut(t, None)
  {
    hide *;
    ProcFacts(s, p);
    CloseAdded(s, t, p, r, x);
  }

  lemma AttachCloseKeeps(s: State, p: Pid, c: Id, ch: Choice)
    requires Inv(s) && p in s.procs && s.procs[p] == AttachClose(c)
    ensures Inv(AttachCloseStep(s, p, c, ch))
  {
    hide Inv, RestOk, RetiredBut, NoCloseFor;
    ProcFacts(s, p);
    NothingChanged(s, p);
    if !ch.gate {
      DoneLands(s, p);
    } else if ch.fail || ch.newId in s.closes {
      GotoLands(s, p, Abandon(c, s.confs[c].userId, Stop));
    } else {
      var x := NewClose(ch.template, s.confs[c].userId, c, ch.now);
      var t := SaveClose(s, ch.newId, x);
      SaveKeepsRest(s, t, p, c, ch.newId, x);
      NoneRetired(t, p);
      DoneLands(t, p);
    }
  }

  lemma NoneRetired(s: State, p: Pid)
    requires RetiredBut(s, None)
    ensures RetiredBut(s, Some(p))
  {}

  lemma EntryFacts(s: State, p: Pid, m: Id, c: Id)
    requires Inv(s) && p in s.procs && (s.procs[p] == AttachEntryClose(m, c) || s.procs[p] == RecordEntry(m, c))
    ensures Known(s, c) && NoCloseFor(s, c) && s.confLog[c].origin == ArmedEntry(m, p)
    ensures PreparedBy(s.confLog[c].origin) == Some(p)
    ensures Taking(s, p, c, ByTrigger) && GaveUp(s, p, c)
  {
    hide Inv;
    ProcFacts(s, p);
    ConfFacts(s, c);
    NotTakenMeansGaveUp(s, p, c);
  }

  lemma AttachEntryCloseKeeps(s: State, p: Pid, m: Id, c: Id, ch: Choice)
    requires Inv(s) && p in s.procs && s.procs[p] == AttachEntryClose(m, c)
    ensures Inv(AttachEntryCloseStep(s, p, m, c, ch))
  {
    hide Inv, RestOk, RetiredBut, NoCloseFor, PreparedBy;
    EntryFacts(s, p, m, c);
    NothingChanged(s, p);
    var user := s.confs[c].userId;
    if ch.branch != 0 && (ch.fail || ch.newId in s.closes) {
      GotoLands(s, p, Abandon(c, user, Stop));
    } else if ch.branch == 0 {
      AttachedLands(s, p, c, user, ch.gate);
    } else {
      var x := NewClose(ch.template, user, c, ch.now);
      var t := SaveClose(s, ch.newId, x);
      SaveKeepsRest(s, t, p, c, ch.newId, x);
      AttachedLands(t, p, c, user, ch.gate);
    }
  }

  lemma AttachedLands(t: State, p: Pid, c: Id, user: int, gate: bool)
    requires RestOk(t, p) && RetiredBut(t, None) && p in t.procs
    requires Known(t, c) && Taking(t, p, c, ByTrigger) && GaveUp(t, p, c)
    ensures Inv(if gate then Goto(t, p, Take(c, user, ByTrigger)) else Goto(t, p, Abandon(c, user, DropEntryClose)))
  {
    hide RestOk, RetiredBut, Taking, GaveUp;
    if gate {
      GotoLands(t, p, Take(c, user, ByTrigger));
    } else {
      GotoLands(t, p, Abandon(c, user, DropEntryClose));
    }
  }

  lemma ActivatedFacts(s: State, t: State, p: Pid, c: Id, r: Id, now: Time)
    requires r in s.closes && r in s.closeLog && CloseOk(s, r) && S.Activatable(s.closes[r], c)
    requires Known(s, c) && s.confs[c].status == C.Executed
    requires t == s.(closes := s.closes[r := S.Activated(s.closes[r], now)],
                     closeLog := s.closeLog[r := s.closeLog[r].(activatedAt := Some(now))])
    ensures CloseOk(t, r) && CloseMoves(p, s, t, r)
  {}

  lemma ActivateFacts(s: State, p: Pid, c: Id)
    requires Inv(s) && p in s.procs && s.procs[p] == Activate(c)
    ensures Known(s, c) && s.confs[c].status == C.Executed && Acting(s, p)
  {
    ProcFacts(s, p);
  }

  lemma ActivateKeeps(s: State, p: Pid, c: Id, ch: Choice)
    requires Inv(s) && p in s.procs && s.procs[p] == Activate(c)
    ensures Inv(ActivateStep(s, p, c, ch))
  {
    hide Inv, RestOk, RetiredBut, CloseOk, CloseMoves, ProcOk;
    ActivateFacts(s, p, c);
    NothingChanged(s, p);
    DoneLands(s, p);
    if ch.hit.Some? && !ch.fail && ch.hit.value in s.closes && S.Activatable(s.closes[ch.hit.value], c) {
      var r := ch.hit.value;
      CloseFacts(s, r);
      var x, l := S.Activated(s.closes[r], ch.now), s.closeLog[r].(activatedAt := Some(ch.now));
      var t := s.(closes := s.closes[r := x], closeLog := s.closeLog[r := l]);
      ActivatedFacts(s, t, p, c, r, ch.now);
      CloseChanged(s, t, p, r, x, l);
      NoneRetired(t, p);
      DoneLands(t, p);
    }
  }

  lemma DroppedFacts(s: State, t: State, p: Pid, c: Id, r: Id, cause: Cause, now: Time)
    requires r in s.closes && r in s.closeLog && CloseOk(s, r) && S.Droppable(s.closes[r], c)
    requires Known(s, c) && CauseHolds(s, c, cause)
    requires t == s.(closes := s.closes[r := S.Dropped(s.closes[r], now)],
                     closeLog := s.closeLog[r := s.closeLog[r].(cause := Some(cause), terminals := s.closeLog[r].terminals + 1)])
    ensures CloseOk(t, r) && CloseMoves(p, s, t, r) && CauseHolds(t, c, cause)
  {}

  lemma DropFacts(s: State, p: Pid, c: Id, user: int, cause: Cause)
    requires Inv(s) && p in s.procs && s.procs[p] == Drop(c, user, cause)
    ensures Known(s, c) && CauseHolds(s, c, cause)
    ensures cause == TriggerGaveUp ==> s.confLog[c].origin.ArmedEntry? && s.confLog[c].origin.pid == p
  {
    ProcFacts(s, p);
  }

  lemma AfterDropLands(s: State, p: Pid, c: Id, user: int, cause: Cause)
    requires RestOk(s, p) && p in s.procs && Known(s, c)
    requires if cause == UserCancelled then RetiredBut(s, None) else RetiredBut(s, Some(p))
    ensures Inv(AfterDrop(s, p, c, user, cause))
  {
    hide RestOk, RetiredBut;
    if cause == UserCancelled {
      GotoLands(s, p, Abandon(c, user, Stop));
    } else {
      DoneLands(s, p);
    }
  }

  lemma DropLands(s: State, p: Pid, c: Id, user: int, cause: Cause, r: Id, now: Time)
    requires Inv(s) && p in s.procs && s.procs[p] == Drop(c, user, cause)
    requires r in s.closes && r in s.closeLog && S.Droppable(s.closes[r], c)
    ensures var l := s.closeLog[r].(cause := Some(cause), terminals := s.closeLog[r].terminals + 1);
            Inv(AfterDrop(s.(closes := s.closes[r := S.Dropped(s.closes[r], now)], closeLog := s.closeLog[r := l]), p, c, user, cause))
  {
    hide Inv, RestOk, RetiredBut, CloseOk, CloseMoves, CauseHolds, ProcOk, AfterDrop;
    DropFacts(s, p, c, user, cause);
    ProcFacts(s, p);
    CloseFacts(s, r);
    var x := S.Dropped(s.closes[r], now);
    var l := s.closeLog[r].(cause := Some(cause), terminals := s.closeLog[r].terminals + 1);
    var t := s.(closes := s.closes[r := x], closeLog := s.closeLog[r := l]);
    DroppedFacts(s, t, p, c, r, cause, now);
    CloseChanged(s, t, p, r, x, l);
    if cause != TriggerGaveUp {
      NoneRetired(t, p);
    }
    AfterDropLands(t, p, c, user, cause);
  }

  lemma DropKeeps(s: State, p: Pid, c: Id, user: int, cause: Cause, ch: Choice)
    requires Inv(s) && p in s.procs && s.procs[p] == Drop(c, user, cause)
    ensures Inv(DropStep(s, p, c, user, cause, ch))
  {
    hide Inv, RestOk, RetiredBut, CloseOk, CloseMoves, CauseHolds, ProcOk, AfterDrop;
    DropFacts(s, p, c, user, cause);
    ProcFacts(s, p);
    NothingChanged(s, p);
    AfterDropLands(s, p, c, user, cause);
    if ch.hit.Some? && !ch.fail && ch.hit.value in s.closes && S.Droppable(s.closes[ch.hit.value], c) {
      var r := ch.hit.value;
      CloseFacts(s, r);
      DropLands(s, p, c, user, cause, r, ch.now);
    }
  }

  lemma ReconcileFacts(s: State, p: Pid, row: Id, c: Id, now: Time)
    requires Inv(s) && p in s.procs && s.procs[p] == Reconcile(row, c, now)
    ensures row in s.closes && Known(s, c)
    ensures s.confs[c].status == C.Executed ==> ProcOk(s, p, Activate(c))
    ensures s.confs[c].status in {C.Failed, C.Cancelled, C.Expired} ==> ProcOk(s, p, Drop(c, s.closes[row].userId, EntryEnded))
    ensures s.confs[c].status != C.Executed && s.closes[row].createdAt < now - S.AWAITING_TTL ==>
              ProcOk(s, p, Drop(c, s.closes[row].userId, EntryStale(row)))
  {
    hide Inv, ConfOk, ClaimsOk;
    ProcFacts(s, p);
    CloseFacts(s, row);
  }

  lemma ReconcileKeeps(s: State, p: Pid, row: Id, c: Id, now: Time, ch: Choice)
    requires Inv(s) && p in s.procs && s.procs[p] == Reconcile(row, c, now)
    ensures Inv(ReconcileStep(s, p, row, c, now, ch))
  {
    hide Inv, RestOk, RetiredBut, ProcOk, Goto, Protocol.Done;
    ReconcileFacts(s, p, row, c, now);
    NothingChanged(s, p);
    DoneLands(s, p);
    if !ch.fail {
      var user := s.closes[row].userId;
      if s.confs[c].status == C.Executed {
        GotoLands(s, p, Activate(c));
      } else if s.confs[c].status in {C.Failed, C.Cancelled, C.Expired} {
        GotoLands(s, p, Drop(c, user, EntryEnded));
      } else if s.closes[row].createdAt < now - S.AWAITING_TTL {
        GotoLands(s, p, Drop(c, user, EntryStale(row)));
      }
    }
  }

  // ---------------------------------------------------------------------------
  // Running a timed close
  // ---------------------------------------------------------------------------

  lemma ClaimedFacts(s: State, t: State, p: Pid, r: Id, now: Time)
    requires r in s.closes && r in s.closeLog && CloseOk(s, r) && S.Claimable(s.closes[r], now)
    requires now <= s.clock && p < s.nextPid && NoClaimBy(s, p, r)
    requires t == s.(closes := s.closes[r := S.Claimed(s.closes[r], now)],
                     closeLog := s.closeLog[r := s.closeLog[r].(claims := s.closeLog[r].claims + [Claim(p, now, s.clock)])])
    ensures CloseOk(t, r) && CloseMoves(p, s, t, r) && Holds(t, p, r, now)
  {
    hide ClaimsOk, CauseHolds;
    var before, after := s.closeLog[r].claims, t.closeLog[r].claims;
    assert after[|before|] == Claim(p, now, s.clock);
    ClaimsExtended(before, Claim(p, now, s.clock), s.closes[r].dueAt, s.clock, s.nextPid);
  }

  /** A claim the filter lets through comes a lease after every earlier one. */
  lemma ClaimsExtended(claims: seq<Claim>, claim: Claim, dueAt: Time, clock: Time, nextPid: Pid)
    requires ClaimsOk(claims, dueAt, clock, nextPid)
    requires dueAt <= claim.stamp <= claim.at <= clock && claim.pid < nextPid
    requires forall i :: 0 <= i < |claims| ==> claims[i].pid != claim.pid
    requires claims != [] ==> claims[|claims| - 1].stamp + S.CLAIM_TIMEOUT <= claim.stamp
    ensures ClaimsOk(claims + [claim], dueAt, clock, nextPid)
  {
    if claims != [] {
      var last := |claims| - 1;
      assert forall i :: 0 <= i < last ==> claims[i].stamp + S.CLAIM_TIMEOUT <= claims[last].stamp;
    }
  }

  lemma ClaimRowFacts(s: State, p: Pid, row: Id, now: Time)
    requires Inv(s) && p in s.procs && s.procs[p] == ClaimRow(row, now)
    ensures row in s.closes && now <= s.clock && Unprepared(s, p) && NoClaimBy(s, p, row) && Acting(s, p) && p < s.nextPid
  {
    ProcFacts(s, p);
  }

  lemma HeldFrame(s: State, t: State, p: Pid, row: Id, stamp: Time)
    requires t.confLog == s.confLog && Unprepared(s, p) && Holds(t, p, row, stamp)
    ensures ProcOk(t, p, Held(row, stamp))
  {}

  lemma ClaimKeeps(s: State, p: Pid, row: Id, now: Time, ch: Choice)
    requires Inv(s) && p in s.procs && s.procs[p] == ClaimRow(row, now)
    ensures Inv(ClaimStep(s, p, row, now, ch))
  {
    hide Inv, RestOk, RetiredBut, CloseOk, CloseMoves, NoClaimBy, Holds, ProcOk, Unprepared;
    ClaimRowFacts(s, p, row, now);
    CloseFacts(s, row);
    NothingChanged(s, p);
    DoneLands(s, p);
    if !ch.fail && S.Claimable(s.closes[row], now) {
      var x := S.Claimed(s.closes[row], now);
      var l := s.closeLog[row].(claims := s.closeLog[row].claims + [Claim(p, now, s.clock)]);
      var t := s.(closes := s.closes[row := x], closeLog := s.closeLog[row := l]);
      ClaimedFacts(s, t, p, row, now);
      CloseChanged(s, t, p, row, x, l);
      HeldFrame(s, t, p, row, now);
      GotoLands(t, p, Held(row, now));
    }
  }

  lemma HeldFacts(s: State, p: Pid, row: Id, stamp: Time)
    requires Inv(s) && p in s.procs && s.procs[p] == Held(row, stamp)
    ensures Holds(s, p, row, stamp) && row in s.closes && Unprepared(s, p) && Acting(s, p) && p < s.nextPid
    ensures row in s.closeLog && HasClaim(s.closeLog[row].claims, p)
    ensures ProcOk(s, p, Finish(row, stamp, S.Done, None)) && ProcOk(s, p, Finish(row, stamp, S.Skipped, None))
  {
    hide Inv, Taking, Took, Completed, DropOk, AfterOk, NoCloseFor, NoClaimBy, Unprepared;
    ProcFacts(s, p);
  }

  lemma PreparedFrame(s: State, t: State, p: Pid, row: Id, c: Id, d: C.Confirmation, stamp: Time)
    requires c !in s.confs && t == Put(s, c, d, TimedClose(row, p)) && Holds(s, p, row, stamp)
    ensures ProcOk(t, p, ClosePrepared(row, c, stamp))
  {}

  lemma HeldKeeps(s: State, p: Pid, row: Id, stamp: Time, ch: Choice)
    requires Inv(s) && p in s.procs && s.procs[p] == Held(row, stamp)
    ensures Inv(HeldStep(s, p, row, stamp, ch))
  {
    hide Inv, RestOk, RetiredBut, Holds, HasClaim, Unprepared, ConfOk, ProcOk;
    HeldFacts(s, p, row, stamp);
    NothingChanged(s, p);
    if ch.branch == 1 {
      GotoLands(s, p, Finish(row, stamp, S.Done, None));
    } else if ch.branch == 0 || ch.fail || !CanPut(s, ch.newId, C.ConfirmKey(ch.newId)) {
      GotoLands(s, p, Finish(row, stamp, S.Skipped, None));
    } else {
      var d := NewConfirmation(s.closes[row].userId, C.CloseOrder(Some(s.closes[row].entry)), C.ConfirmKey(ch.newId), ch.expiresAt);
      var t := Put(s, ch.newId, d, TimedClose(row, p));
      NewConfirmationFacts(s, t, p, ch.newId, d, TimedClose(row, p));
      ConfirmationAdded(s, t, p, ch.newId, d, TimedClose(row, p));
      PreparedFrame(s, t, p, row, ch.newId, d, stamp);
      GotoLands(t, p, ClosePrepared(row, ch.newId, stamp));
    }
  }

  lemma NewConfirmationFacts(s: State, t: State, p: Pid, c: Id, d: C.Confirmation, o: Origin)
    requires c !in s.confs && t == Put(s, c, d, o) && d.status == C.Pending && d.result == None
    requires OriginOk(s, d, o)
    ensures Known(t, c) && ConfOk(t, c)
  {}

  lemma ClosePreparedKeeps(s: State, p: Pid, row: Id, c: Id, stamp: Time, ch: Choice)
    requires Inv(s) && p in s.procs && s.procs[p] == ClosePrepared(row, c, stamp)
    ensures Inv(ClosePreparedStep(s, p, row, c, stamp, ch))
  {
    hide Inv, RestOk, RetiredBut, Holds;
    ProcFacts(s, p);
    NothingChanged(s, p);
    if ch.gate {
      GotoLands(s, p, Take(c, s.confs[c].userId, ByClose(row, stamp)));
    } else {
      GotoLands(s, p, Abandon(c, s.confs[c].userId, SkipRow(row, stamp)));
    }
  }

  lemma FinishedFacts(s: State, t: State, p: Pid, r: Id, status: S.Status, confirmation: Option<Id>, now: Time)
    requires r in s.closes && r in s.closeLog && CloseOk(s, r) && s.closes[r].status == S.Executing
    requires (status == S.Done || status == S.Skipped) && EndOk(s, p, r, status, confirmation)
    requires t == s.(closes := s.closes[r := S.Ended(s.closes[r], status, confirmation, now)],
                     closeLog := s.closeLog[r := s.closeLog[r].(terminals := s.closeLog[r].terminals + 1)])
    ensures CloseOk(t, r) && CloseMoves(p, s, t, r)
  {}

  lemma FinishFacts(s: State, p: Pid, row: Id, stamp: Time, status: S.Status, confirmation: Option<Id>)
    requires Inv(s) && p in s.procs && s.procs[p] == Finish(row, stamp, status, confirmation)
    ensures Acting(s, p) && row in s.closes && row in s.closeLog && CloseOk(s, row) && Known(s, s.closes[row].entry)
    ensures (status == S.Done || status == S.Skipped) && EndOk(s, p, row, status, confirmation)
  {
    hide Inv;
    ProcFacts(s, p);
    CloseFacts(s, row);
  }

  lemma FinishKeeps(s: State, p: Pid, row: Id, stamp: Time, status: S.Status, confirmation: Option<Id>, ch: Choice)
    requires Inv(s) && p in s.procs && s.procs[p] == Finish(row, stamp, status, confirmation)
    ensures Inv(FinishStep(s, p, row, status, confirmation, ch))
  {
    hide Inv, RestOk, RetiredBut, CloseOk, CloseMoves, Holds, EndOk;
    FinishFacts(s, p, row, stamp, status, confirmation);
    NothingChanged(s, p);
    DoneLands(s, p);
    if !ch.fail && s.closes[row].status == S.Executing {
      var x := S.Ended(s.closes[row], status, confirmation, ch.now);
      var l := s.closeLog[row].(terminals := s.closeLog[row].terminals + 1);
      var t := s.(closes := s.closes[row := x], closeLog := s.closeLog[row := l]);
      FinishedFacts(s, t, p, row, status, confirmation, ch.now);
      CloseChanged(s, t, p, row, x, l);
      NoneRetired(t, p);
      DoneLands(t, p);
    }
  }

  // ---------------------------------------------------------------------------
  // Armed missions
  // ---------------------------------------------------------------------------

  /** A mission that was not armed keeps its status. */
  lemma MissionChanged(s: State, t: State, a: Pid, m: Id, x: A.ArmedMission)
    requires Inv(s) && Acting(s, a)
    requires t == s.(missions := s.missions[m := x])
    requires x.status == A.Triggered <==> m in s.missions && s.missions[m].status == A.Triggered
    requires x.status == A.Triggered ==> x.triggeredAt == s.missions[m].triggeredAt && x.expiresAt == s.missions[m].expiresAt
    ensures RestOk(t, a) && RetiredBut(t, None)
  {
    hide ConfOk, CloseOk, ProcOk, TradeOk, RetiredBut;
    forall k | k in t.missions ensures MissionOk(t, k) {
      if k in s.missions {
        assert MissionOk(s, k);
      }
    }
    MissionsChanged(s, t, a);
  }

  lemma ExpireMissionKeeps(s: State, p: Pid, m: Id, ch: Choice)
    requires Inv(s) && p in s.procs && s.procs[p] == ExpireMission(m)
    ensures Inv(ExpireMissionStep(s, p, m, ch))
  {
    hide Inv, RestOk, RetiredBut;
    ProcFacts(s, p);
    NothingChanged(s, p);
    DoneLands(s, p);
    if !ch.fail && s.missions[m].status == A.Armed {
      var x := A.MarkedExpired(s.missions[m], ch.now);
      var t := s.(missions := s.missions[m := x]);
      MissionChanged(s, t, p, m, x);
      NoneRetired(t, p);
      DoneLands(t, p);
    }
  }

  lemma TriggerKeeps(s: State, p: Pid, m: Id, now: Time, ch: Choice)
    requires Inv(s) && p in s.procs && s.procs[p] == Trigger(m, now)
    ensures Inv(TriggerStep(s, p, m, now, ch))
  {
    hide Inv, RestOk, RetiredBut, Unprepared;
    ProcFacts(s, p);
    NothingChanged(s, p);
    DoneLands(s, p);
    if !ch.fail && A.Triggerable(s.missions[m], now) {
      var x := A.MarkedTriggered(s.missions[m], ch.template.side, now);
      var t := s.(missions := s.missions[m := x], triggerer := s.triggerer[m := p]);
      TriggeredFacts(s, t, p, m, x);
      MissionsChanged(s, t, p);
      UnpreparedFrame(s, t, p);
      GotoLands(t, p, PrepareEntry(m));
    }
  }

  lemma UnpreparedFrame(s: State, t: State, p: Pid)
    requires t.confLog == s.confLog && Unprepared(s, p)
    ensures Unprepared(t, p)
  {}

  lemma TriggeredFacts(s: State, t: State, p: Pid, m: Id, x: A.ArmedMission)
    requires Inv(s) && p in s.procs && m in s.missions && s.missions[m].status == A.Armed && x.status == A.Triggered
    requires x.triggeredAt.Some? && x.triggeredAt.value < x.expiresAt
    requires t == s.(missions := s.missions[m := x], triggerer := s.triggerer[m := p])
    ensures t.triggerer.Keys <= t.missions.Keys
    ensures forall k :: k in s.triggerer ==> k in t.triggerer && t.triggerer[k] == s.triggerer[k]
    ensures forall k :: k in t.missions ==> MissionOk(t, k)
  {
    hide ConfOk, CloseOk, ProcOk, TradeOk, RetiredBut;
    assert MissionOk(s, m);
    forall k | k in t.missions ensures MissionOk(t, k) {
      assert MissionOk(s, k);
    }
  }

  lemma PrepareEntryKeeps(s: State, p: Pid, m: Id, ch: Choice)
    requires Inv(s) && p in s.procs && s.procs[p] == PrepareEntry(m)
    ensures Inv(PrepareEntryStep(s, p, m, ch))
  {
    hide Inv, RestOk, RetiredBut, Unprepared, NoCloseFor;
    ProcFacts(s, p);
    MissionFacts(s, m);
    NothingChanged(s, p);
    if ch.fail || !CanPut(s, ch.newId, C.ArmedKey(m)) {
      DoneLands(s, p);
    } else {
      var d := NewConfirmation(s.missions[m].userKey, C.OpenEntry, C.ArmedKey(m), ch.expiresAt);
      var t := Put(s, ch.newId, d, ArmedEntry(m, p));
      NewConfirmationFacts(s, t, p, ch.newId, d, ArmedEntry(m, p));
      ConfirmationAdded(s, t, p, ch.newId, d, ArmedEntry(m, p));
      UnseenEntry(s, t, ch.newId);
      GotoLands(t, p, RecordEntry(m, ch.newId));
    }
  }

  lemma MissionFacts(s: State, m: Id)
    requires Inv(s) && m in s.missions
    ensures MissionOk(s, m)
  {}

  lemma UnseenEntry(s: State, t: State, c: Id)
    requires Inv(s) && c !in s.confs && t.closes == s.closes
    ensures NoCloseFor(t, c)
  {
    forall r | r in t.closes ensures t.closes[r].entry != c {
      EntryKnown(s, r);
    }
  }

  lemma RecordEntryKeeps(s: State, p: Pid, m: Id, c: Id, ch: Choice)
    requires Inv(s) && p in s.procs && s.procs[p] == RecordEntry(m, c)
    ensures Inv(RecordEntryStep(s, p, m, c, ch))
  {
    hide Inv, RestOk, RetiredBut, NoCloseFor, GaveUp;
    EntryFacts(s, p, m, c);
    ProcFacts(s, p);
    NothingChanged(s, p);
    var user := s.confs[c].userId;
    if ch.fail || m !in s.missions || !A.Recordable(s.missions[m], c) {
      GotoLands(s, p, Abandon(c, user, Stop));
    } else {
      var x := A.Recorded(s.missions[m], c, ch.now);
      var t := s.(missions := s.missions[m := x]);
      MissionChanged(s, t, p, m, x);
      NoCloseFrame(s, t, c);
      if ch.gate {
        GotoLands(t, p, AttachEntryClose(m, c));
      } else {
        GotoLands(t, p, Abandon(c, user, Stop));
      }
    }
  }

  lemma NoCloseFrame(s: State, t: State, c: Id)
    requires t.closes == s.closes && NoCloseFor(s, c)
    ensures NoCloseFor(t, c)
  {}

  lemma CloseTradeKeeps(s: State, p: Pid, c: Id, ch: Choice)
    requires Inv(s) && p in s.procs && s.procs[p] == CloseTrade(c)
    ensures Inv(CloseTradeStep(s, p, c, ch))
  {
    hide Inv, RestOk, RetiredBut;
    ProcFacts(s, p);
    NothingChanged(s, p);
    if ch.fail {
      DoneLands(s, p);
    } else {
      var t := s.(journal := J.Closed(s.journal, c, ch.update));
      JournalChanged(s, t, p);
      NoneRetired(t, p);
      DoneLands(t, p);
    }
  }

  // ---------------------------------------------------------------------------
  // Starting handlers
  // ---------------------------------------------------------------------------

  /** A change that belongs to no running process keeps the invariant. */
  lemma OutsideKeeps(s: State, t: State)
    requires RestOk(t, s.nextPid) && RetiredBut(t, None) && t.procs == s.procs && t.nextPid == s.nextPid
    ensures Inv(t)
  {}

  lemma TickKeeps(s: State, elapsed: nat)
    requires Inv(s)
    ensures Inv(s.(clock := s.clock + elapsed))
  {
    var t := s.(clock := s.clock + elapsed);
    InvParts(s);
    ClockGuarantee(s, t);
    hide *;
    ConfirmationsSame(s, t);
    ClosesSame(s, t);
    MissionsUnchanged(s, t);
    ChangeKeepsRest(s, t, s.nextPid);
    OutsideKeeps(s, t);
  }

  lemma ClockGuarantee(s: State, t: State)
    requires WellFormed(s) && RetiredBut(s, None) && s.clock <= t.clock && t == s.(clock := t.clock)
    ensures Guarantee(s.nextPid, s, t) && WellFormed(t) && RetiredBut(t, None)
  {
    hide Overdue;
    forall x | Known(s, x) ensures ConfMoves(s.nextPid, s, t, x) {}
    forall r | r in s.closes && r in s.closeLog ensures CloseMoves(s.nextPid, s, t, r) {}
  }

  lemma ClosesSame(s: State, t: State)
    requires WellFormed(s) && t.closes == s.closes && t.closeLog == s.closeLog
    ensures forall r :: r in t.closes ==> SameClose(s, t, r)
  {}

  /** A new process that has not done anything yet. */
  ghost function Idle(s: State): State {
    Spawn(s, CloseTrade(0))
  }

  lemma IdleKeeps(s: State)
    requires Inv(s)
    ensures Inv(Idle(s)) && s.nextPid in Idle(s).procs && Unprepared(Idle(s), s.nextPid)
  {
    var t := Idle(s);
    InvParts(s);
    IdleGuarantee(s, t);
    IdleRetired(s, t);
    IdleUnprepared(s, t);
    hide *;
    ConfirmationsSame(s, t);
    ClosesSame(s, t);
    IdleMissions(s, t);
    ChangeKeepsRest(s, t, s.nextPid);
    IdleIsInv(s, t);
  }

  lemma IdleGuarantee(s: State, t: State)
    requires WellFormed(s) && t == Idle(s)
    ensures Guarantee(s.nextPid, s, t) && WellFormed(t)
  {
    hide Overdue;
    forall x | Known(s, x) ensures ConfMoves(s.nextPid, s, t, x) {}
    forall r | r in s.closes && r in s.closeLog ensures CloseMoves(s.nextPid, s, t, r) {}
  }

  lemma IdleRetired(s: State, t: State)
    requires Inv(s) && t == Idle(s)
    ensures RetiredBut(t, None)
  {
    hide ProcOk, CloseOk, MissionOk, TradeOk;
    forall c | c in s.confs && s.confLog[c].origin.ArmedEntry? ensures s.confLog[c].origin.pid < s.nextPid {
      ConfFacts(s, c);
    }
  }

  lemma IdleUnprepared(s: State, t: State)
    requires Inv(s) && t == Idle(s)
    ensures Unprepared(t, s.nextPid)
  {
    hide ProcOk, CloseOk, MissionOk, TradeOk;
    forall c | c in s.confLog ensures PreparedBy(s.confLog[c].origin) != Some(s.nextPid) {
      assert c in s.confs;
      ConfFacts(s, c);
    }
  }

  lemma IdleMissions(s: State, t: State)
    requires t == Idle(s) && forall m :: m in s.missions ==> MissionOk(s, m)
    ensures forall m :: m in t.missions ==> MissionOk(t, m)
  {
    forall m | m in t.missions ensures MissionOk(t, m) {
      assert MissionOk(s, m);
    }
  }

  lemma IdleIsInv(s: State, t: State)
    requires t == Idle(s) && RestOk(t, s.nextPid) && RetiredBut(t, None)
    ensures Inv(t) && s.nextPid in t.procs
  {}

  /** Giving the idle process work is the same as spawning it with that work. */
  lemma GotoIsSpawn(s: State, t: State, pc: Pc)
    requires t.procs == Idle(s).procs && t.nextPid == s.nextPid + 1
    ensures Goto(t, s.nextPid, pc) == Spawn(t.(procs := s.procs, nextPid := s.nextPid), pc)
    ensures s.nextPid in t.procs
  {
    assert Goto(t, s.nextPid, pc).procs == s.procs[s.nextPid := pc];
  }

  lemma SpawnLands(s: State, pc: Pc)
    requires Inv(s) && ProcOk(Idle(s), s.nextPid, pc)
    ensures Inv(Spawn(s, pc))
  {
    IdleKeeps(s);
    GotoIsSpawn(s, Idle(s), pc);
    assert Idle(s).(procs := s.procs, nextPid := s.nextPid) == s;
    hide *;
    NothingChanged(Idle(s), s.nextPid);
    GotoLands(Idle(s), s.nextPid, pc);
  }

  lemma PutManualKeeps(s: State, c: Id, user: int, intent: C.Intent, expiresAt: Time)
    requires Inv(s) && Enabled(s, PutManual(c, user, intent, expiresAt))
    ensures Inv(Next(s, PutManual(c, user, intent, expiresAt)))
  {
    hide Inv, RestOk, RetiredBut, ConfOk;
    var d := NewConfirmation(user, intent, C.ConfirmKey(c), expiresAt);
    var t := Put(s, c, d, Manual);
    NewConfirmationFacts(s, t, s.nextPid, c, d, Manual);
    ConfirmationAdded(s, t, s.nextPid, c, d, Manual);
    OutsideKeeps(s, t);
  }

  lemma StartMissionKeeps(s: State, c: Id, user: int, expiresAt: Time)
    requires Inv(s) && CanPut(s, c, C.ConfirmKey(c))
    ensures var d := NewConfirmation(user, C.OpenEntry, C.ConfirmKey(c), expiresAt);
            Inv(Spawn(Put(s, c, d, MissionPage(s.nextPid)), AttachClose(c)))
  {
    var p, u, o := s.nextPid, Idle(s), MissionPage(s.nextPid);
    var d := NewConfirmation(user, C.OpenEntry, C.ConfirmKey(c), expiresAt);
    var t := Put(u, c, d, o);
    IdleKeeps(s);
    UnseenEntry(s, t, c);
    MissionPageFacts(s, t, c, d);
    GotoIsSpawn(s, t, AttachClose(c));
    assert t.(procs := s.procs, nextPid := s.nextPid) == Put(s, c, d, o);
    hide *;
    ConfirmationAdded(u, t, p, c, d, o);
    GotoLands(t, p, AttachClose(c));
  }

  lemma MissionPageFacts(s: State, t: State, c: Id, d: C.Confirmation)
    requires c !in s.confs && d.status == C.Pending && d.result == None && d.intent == C.OpenEntry
    requires t == Put(Idle(s), c, d, MissionPage(s.nextPid)) && NoCloseFor(t, c)
    ensures ConfOk(t, c) && Acting(Idle(s), s.nextPid) && PreparedBy(MissionPage(s.nextPid)) == Some(s.nextPid)
    ensures ProcOk(t, s.nextPid, AttachClose(c))
  {}

  /** Noting that a user asked for something harms no one. */
  lemma FlagFacts(s: State, t: State, p: Pid, c: Id, l: ConfirmationLog)
    requires Known(s, c) && ConfOk(s, c)
    requires l == s.confLog[c].(userCancel := l.userCancel, otherConfirm := l.otherConfirm)
    requires (s.confLog[c].userCancel ==> l.userCancel) && (s.confLog[c].otherConfirm ==> l.otherConfirm)
    requires t == s.(confLog := s.confLog[c := l])
    ensures Known(t, c) && ConfOk(t, c) && ConfMoves(p, s, t, c)
  {}

  lemma FlagFrame(s: State, t: State, p: Pid, c: Id, l: ConfirmationLog, pc: Pc)
    requires t == Idle(s).(confLog := s.confLog[c := l]) && p == s.nextPid
    requires ProcOk(t, s.nextPid, pc)
    ensures ProcOk(t, p, pc) && Acting(Idle(s), p) && p in t.procs
  {}

  lemma FlagKeeps(s: State, c: Id, l: ConfirmationLog, pc: Pc)
    requires Inv(s) && Known(s, c)
    requires l == s.confLog[c].(userCancel := l.userCancel, otherConfirm := l.otherConfirm)
    requires (s.confLog[c].userCancel ==> l.userCancel) && (s.confLog[c].otherConfirm ==> l.otherConfirm)
    requires ProcOk(Idle(s).(confLog := s.confLog[c := l]), s.nextPid, pc)
    ensures Inv(Spawn(s.(confLog := s.confLog[c := l]), pc))
  {
    hide Inv, ProcOk, ConfOk, ConfMoves;
    var p, u := s.nextPid, Idle(s);
    IdleKeeps(s);
    ConfFacts(u, c);
    var t := u.(confLog := u.confLog[c := l]);
    FlagFacts(u, t, p, c, l);
    assert t == u.(confs := u.confs[c := u.confs[c]], confLog := u.confLog[c := l]);
    GotoIsSpawn(s, t, pc);
    assert t.(procs := s.procs, nextPid := s.nextPid) == s.(confLog := s.confLog[c := l]);
    FlagFrame(s, t, p, c, l, pc);
    hide *;
    ConfirmationChanged(u, t, p, c, u.confs[c], l);
    GotoLands(t, p, pc);
  }

  lemma StartConfirmKeeps(s: State, c: Id, user: int)
    requires Inv(s) && Enabled(s, StartConfirm(c, user))
    ensures Inv(Next(s, StartConfirm(c, user)))
  {
    hide Inv, ProcOk, AdvanceStep;
    var l := s.confLog[c].(otherConfirm := s.confLog[c].otherConfirm || s.confLog[c].origin.ArmedEntry?);
    UserTaking(s, c, user, l);
    FlagKeeps(s, c, l, Take(c, user, ByUser));
  }

  lemma UserTaking(s: State, c: Id, user: int, l: ConfirmationLog)
    requires Inv(s) && Known(s, c)
    requires l == s.confLog[c].(otherConfirm := s.confLog[c].otherConfirm || s.confLog[c].origin.ArmedEntry?)
    ensures ProcOk(Idle(s).(confLog := s.confLog[c := l]), s.nextPid, Take(c, user, ByUser))
  {
    hide Inv;
    ConfFacts(s, c);
  }

  lemma StartCancelKeeps(s: State, c: Id, user: int)
    requires Inv(s) && Enabled(s, StartCancel(c, user))
    ensures Inv(Next(s, StartCancel(c, user)))
  {
    hide Inv, AdvanceStep;
    FlagKeeps(s, c, s.confLog[c].(userCancel := true), Drop(c, user, UserCancelled));
  }

  lemma MissionActionKeeps(s: State, m: Id, x: A.ArmedMission)
    requires Inv(s) && x.status != A.Triggered && (m in s.missions ==> s.missions[m].status != A.Triggered)
    ensures Inv(s.(missions := s.missions[m := x]))
  {
    hide Inv, RestOk, RetiredBut;
    var t := s.(missions := s.missions[m := x]);
    MissionChanged(s, t, s.nextPid, m, x);
    OutsideKeeps(s, t);
  }

  lemma SweepKeeps(s: State, now: Time)
    requires Inv(s)
    ensures Inv(s.(missions := A.Swept(s.missions, now)))
  {
    var t := s.(missions := A.Swept(s.missions, now));
    forall m | m in t.missions ensures MissionOk(t, m) {
      MissionFacts(s, m);
    }
    InvParts(s);
    hide Inv, RestOk, RetiredBut, MissionOk;
    MissionsChanged(s, t, s.nextPid);
    OutsideKeeps(s, t);
  }

  lemma WatchKeeps(s: State, m: Id, now: Time)
    requires Inv(s) && m in s.missions
    ensures Inv(Spawn(s, if A.Stale(s.missions[m], now) then ExpireMission(m) else Trigger(m, now)))
  {
    IdleKeeps(s);
    hide Inv, Unprepared;
    SpawnLands(s, if A.Stale(s.missions[m], now) then ExpireMission(m) else Trigger(m, now));
  }

  lemma StartReconcileKeeps(s: State, row: Id, now: Time)
    requires Inv(s) && row in s.closes && now <= s.clock
    ensures Inv(Spawn(s, Reconcile(row, s.closes[row].entry, now)))
  {
    hide Inv;
    SpawnLands(s, Reconcile(row, s.closes[row].entry, now));
  }

  lemma ClaimRowIsOk(s: State, p: Pid, row: Id, now: Time)
    requires row in s.closes && now <= s.clock && Unprepared(s, p) && NoClaimBy(s, p, row)
    ensures ProcOk(s, p, ClaimRow(row, now))
  {}

  lemma StartPollKeeps(s: State, row: Id, now: Time)
    requires Inv(s) && row in s.closes && now <= s.clock
    ensures Inv(Spawn(s, ClaimRow(row, now)))
  {
    var u := Idle(s);
    assert row in u.closes && now <= u.clock;
    hide *;
    IdleKeeps(s);
    NoClaimYet(s, row);
    ClaimRowIsOk(u, s.nextPid, row, now);
    SpawnLands(s, ClaimRow(row, now));
  }

  lemma StartResultKeeps(s: State, c: Id)
    requires Inv(s)
    ensures Inv(Spawn(s, CloseTrade(c)))
  {
    hide Inv;
    SpawnLands(s, CloseTrade(c));
  }

  lemma NoClaimYet(s: State, row: Id)
    requires Inv(s) && row in s.closes
    ensures NoClaimBy(Idle(s), s.nextPid, row)
  {
    hide Inv;
    CloseFacts(s, row);
  }

  // ---------------------------------------------------------------------------
  // Every step, every run
  // ---------------------------------------------------------------------------

  lemma AdvanceKeeps(s: State, p: Pid, ch: Choice)
    requires Inv(s) && p in s.procs && ch.now <= s.clock
    ensures Inv(AdvanceStep(s, p, ch))
  {
    hide Inv, AttachCloseStep, AbandonStep, AbandonReadStep, AfterCancel, ExpireConfirmation, TakeStep, TakeReadStep,
         ConfirmFailed, CallStep, CompleteStep, FailStep, RecordStep, ActivateStep, DropStep, ExpireMissionStep, TriggerStep,
         PrepareEntryStep, RecordEntryStep, AttachEntryCloseStep, ReconcileStep, ClaimStep, HeldStep, ClosePreparedStep,
         FinishStep, CloseTradeStep;
    match s.procs[p] {
      case AttachClose(c) => AttachCloseKeeps(s, p, c, ch);
      case Abandon(c, user, after) => AbandonKeeps(s, p, c, user, after, ch);
      case AbandonRead(c, user, now, after) => AbandonReadKeeps(s, p, c, user, now, after, ch);
      case AbandonExpire(c, user, after) => AbandonExpireKeeps(s, p, c, user, after, ch);
      case Take(c, user, caller) => TakeKeeps(s, p, c, user, caller, ch);
      case TakeRead(c, user, now, caller) => TakeReadKeeps(s, p, c, user, now, caller, ch);
      case TakeExpire(c, user, caller) => TakeExpireKeeps(s, p, c, user, caller, ch);
      case Call(c, user, caller) => CallKeeps(s, p, c, user, caller, ch);
      case Settle(c, user, caller, outcome) =>
        if outcome.Some? {
          CompleteKeeps(s, p, c, user, caller, outcome.value, ch);
        } else {
          FailKeeps(s, p, c, user, caller, ch);
        }
      case Record(c, user, caller, r) => RecordKeeps(s, p, c, user, caller, r, ch);
      case Activate(c) => ActivateKeeps(s, p, c, ch);
      case Drop(c, user, cause) => DropKeeps(s, p, c, user, cause, ch);
      case ExpireMission(m) => ExpireMissionKeeps(s, p, m, ch);
      case Trigger(m, now) => TriggerKeeps(s, p, m, now, ch);
      case PrepareEntry(m) => PrepareEntryKeeps(s, p, m, ch);
      case RecordEntry(m, c) => RecordEntryKeeps(s, p, m, c, ch);
      case AttachEntryClose(m, c) => AttachEntryCloseKeeps(s, p, m, c, ch);
      case Reconcile(row, c, now) => ReconcileKeeps(s, p, row, c, now, ch);
      case ClaimRow(row, now) => ClaimKeeps(s, p, row, now, ch);
      case Held(row, stamp) => HeldKeeps(s, p, row, stamp, ch);
      case ClosePrepared(row, c, stamp) => ClosePreparedKeeps(s, p, row, c, stamp, ch);
      case Finish(row, stamp, status, confirmation) => FinishKeeps(s, p, row, stamp, status, confirmation, ch);
      case CloseTrade(c) => CloseTradeKeeps(s, p, c, ch);
    }
  }

  lemma NextKeeps(s: State, a: Action)
    requires Inv(s) && Enabled(s, a)
    ensures Inv(Next(s, a))
  {
    hide Inv, RestOk, RetiredBut, AdvanceStep, HonestHit, Put, C.KeyTaken, A.Swept, A.Stale;
    match a {
      case Tick(elapsed) => TickKeeps(s, elapsed);
      case PutManual(c, user, intent, expiresAt) => PutManualKeeps(s, c, user, intent, expiresAt);
      case StartMission(c, user, expiresAt) => StartMissionKeeps(s, c, user, expiresAt);
      case StartConfirm(c, user) => StartConfirmKeeps(s, c, user);
      case StartCancel(c, user) => StartCancelKeeps(s, c, user);
      case Arm(m, user, window, expiresAt, now) =>
        MissionActionKeeps(s, m, A.ArmedMission(user, A.Armed, "", expiresAt, window, None, None, now));
      case Disarm(m, user, now) =>
        if s.missions[m].status == A.Armed {
          MissionActionKeeps(s, m, A.MarkedDisarmed(s.missions[m], now));
        }
      case Extend(m, window, expiresAt, now) =>
        if s.missions[m].status == A.Armed {
          MissionActionKeeps(s, m, A.Extended(s.missions[m], window, expiresAt, now));
        }
      case Sweep(now) => SweepKeeps(s, now);
      case StartWatch(m, now) => WatchKeeps(s, m, now);
      case StartReconcile(row, now) => StartReconcileKeeps(s, row, now);
      case StartPoll(row, now) => StartPollKeeps(s, row, now);
      case StartResult(c) => StartResultKeeps(s, c);
      case Advance(p, ch) => AdvanceKeeps(s, p, ch);
      case Crash(p) => NothingChanged(s, p); DoneLands(s, p);
    }
  }

  lemma InitIsOk()
    ensures Inv(INIT)
  {}

  /** Every state of every run satisfies the invariant. */
  lemma {:induction false} RunKeeps(s: State, run: seq<Action>)
    requires Inv(s) && Legal(s, run)
    ensures Inv(Outcome(s, run))
    decreases |run|
  {
    hide Inv, Next, Enabled;
    if run != [] {
      NextKeeps(s, run[0]);
      RunKeeps(Next(s, run[0]), run[1..]);
    }
  }
}
