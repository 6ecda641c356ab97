/** What happens in a run that no document keeps, and what an action leaves alone. */
module ProtocolEvents {
  import opened Common
  import opened Protocol
  import opened ProtocolInvariant
  import C = Confirmations
  import S = ScheduledCloses
  import A = ArmedMissions
  import J = Journal

  datatype Event =
    | Answers(c: Id)          // the executor returned a result for c: the exchange filled the order
    | Refuses(c: Id)          // the executor returned an error for c
    | WriteFails(c: Id)       // the write that was to complete c failed
    | HolderStops(c: Id)      // the process holding the result of c stopped before that write
    | CompletesLate(c: Id)    // that write came after the close of c had waited too long
    | Records(c: Id, at: Time)          // the execution of c was written to the journal, at this time
    | Closes(c: Id, e: Id, at: Time)    // that write found the row of the entry e open, which the close order c names
    | Reports(e: Id, u: J.CloseUpdate)   // the result reconciler found the row of e open and wrote u

  predicate HasResult(pc: Pc) {
    pc.Settle? && pc.outcome.Some?
  }

  /** The process is about to write that c was executed. */
  predicate Holding(s: State, p: Pid, c: Id) {
    p in s.procs && HasResult(s.procs[p]) && s.procs[p].c == c
  }

  predicate Calling(s: State, p: Pid, c: Id) {
    p in s.procs && s.procs[p].Call? && s.procs[p].c == c
  }

  predicate Recording(s: State, p: Pid, c: Id) {
    p in s.procs && s.procs[p].Record? && s.procs[p].c == c
  }

  predicate Reporting(s: State, p: Pid, e: Id) {
    p in s.procs && s.procs[p].CloseTrade? && s.procs[p].c == e
  }

  predicate IsOpenRow(s: State, id: Id) {
    id in s.journal && s.journal[id].outcome == J.Open
  }

  ghost predicate Occurs(s: State, a: Action, e: Event) {
    match e
    case Answers(c) => a.Advance? && Calling(s, a.p, c) && a.ch.branch >= 2
    case Refuses(c) => a.Advance? && Calling(s, a.p, c) && a.ch.branch == 1
    case WriteFails(c) => a.Advance? && Holding(s, a.p, c) && a.ch.fail
    case HolderStops(c) => a.Crash? && Holding(s, a.p, c)
    case Records(c, at) => a.Advance? && Recording(s, a.p, c) && !a.ch.fail && a.ch.now == at
    case Closes(c, e, at) =>
      && a.Advance? && Recording(s, a.p, c) && !a.ch.fail && a.ch.now == at
      && c in s.confs && s.confs[c].intent == C.CloseOrder(Some(e)) && IsOpenRow(s, e)
    case Reports(e, u) => a.Advance? && Reporting(s, a.p, e) && !a.ch.fail && a.ch.update == u && IsOpenRow(s, e)
    case CompletesLate(c) => a.Advance? && Holding(s, a.p, c) && !a.ch.fail && Overdue(s, c)
  }

  /** Some action of the run is such an event, in the state it is taken in. */
  ghost predicate Happened(s: State, run: seq<Action>, e: Event)
    requires Legal(s, run)
    decreases |run|
  {
    run != [] && (Occurs(s, run[0], e) || Happened(Next(s, run[0]), run[1..], e))
  }

  // ---------------------------------------------------------------------------
  // A step moves only the process that takes it
  // ---------------------------------------------------------------------------

  /** Every process but p stands where it stood. */
  ghost predicate OthersStand(s: map<Pid, Pc>, t: map<Pid, Pc>, p: Pid) {
    forall q :: q in s && q != p ==> q in t && t[q] == s[q]
  }

  lemma Steps(s: State, p: Pid, pc: Pc)
    ensures OthersStand(s.procs, Goto(s, p, pc).procs, p) && OthersStand(s.procs, Protocol.Done(s, p).procs, p)
  {}

  lemma Returns(s: State, p: Pid, c: Id, user: int, caller: Caller, after: After, cause: Cause)
    ensures OthersStand(s.procs, AfterCancel(s, p, c, user, after).procs, p)
    ensures OthersStand(s.procs, ConfirmOk(s, p, c, caller).procs, p)
    ensures OthersStand(s.procs, ConfirmFailed(s, p, c, user, caller).procs, p)
    ensures OthersStand(s.procs, AfterDrop(s, p, c, user, cause).procs, p)
  {
    hide OthersStand, Goto, Protocol.Done;
    AllSteps(p);
  }

  lemma AllSteps(p: Pid)
    ensures forall s: State, pc: Pc :: OthersStand(s.procs, Goto(s, p, pc).procs, p)
    ensures forall s: State :: OthersStand(s.procs, Protocol.Done(s, p).procs, p)
  {
    forall s: State, pc: Pc ensures OthersStand(s.procs, Goto(s, p, pc).procs, p) { Steps(s, p, pc); }
    forall s: State ensures OthersStand(s.procs, Protocol.Done(s, p).procs, p) { Steps(s, p, CloseTrade(0)); }
  }

  lemma AllReturns(p: Pid)
    ensures forall s: State, c: Id, user: int, after: After :: OthersStand(s.procs, AfterCancel(s, p, c, user, after).procs, p)
    ensures forall s: State, c: Id, caller: Caller :: OthersStand(s.procs, ConfirmOk(s, p, c, caller).procs, p)
    ensures forall s: State, c: Id, user: int, caller: Caller :: OthersStand(s.procs, ConfirmFailed(s, p, c, user, caller).procs, p)
    ensures forall s: State, c: Id, user: int, cause: Cause :: OthersStand(s.procs, AfterDrop(s, p, c, user, cause).procs, p)
  {
    hide OthersStand, AfterCancel, ConfirmOk, ConfirmFailed, AfterDrop;
    forall s: State, c: Id, user: int, after: After ensures OthersStand(s.procs, AfterCancel(s, p, c, user, after).procs, p) {
      Returns(s, p, c, user, ByUser, after, EntryEnded);
    }
    forall s: State, c: Id, caller: Caller ensures OthersStand(s.procs, ConfirmOk(s, p, c, caller).procs, p) {
      Returns(s, p, c, 0, caller, Stop, EntryEnded);
    }
    forall s: State, c: Id, user: int, caller: Caller ensures OthersStand(s.procs, ConfirmFailed(s, p, c, user, caller).procs, p) {
      Returns(s, p, c, user, caller, Stop, EntryEnded);
    }
    forall s: State, c: Id, user: int, cause: Cause ensures OthersStand(s.procs, AfterDrop(s, p, c, user, cause).procs, p) {
      Returns(s, p, c, user, ByUser, Stop, cause);
    }
  }

  lemma ConfirmStands(s: State, p: Pid, ch: Choice)
    requires p in s.procs && (s.procs[p].Take? || s.procs[p].TakeRead? || s.procs[p].TakeExpire? || s.procs[p].Call?)
    ensures OthersStand(s.procs, AdvanceStep(s, p, ch).procs, p)
  {
    hide OthersStand, Goto, Protocol.Done, AfterCancel, ConfirmOk, ConfirmFailed, AfterDrop, C.Actionable, C.Answer;
    AllSteps(p);
    AllReturns(p);
  }

  lemma CompleteStands(s: State, p: Pid, c: Id, user: int, caller: Caller, r: C.ExecutionResult, ch: Choice)
    ensures OthersStand(s.procs, CompleteStep(s, p, c, user, caller, r, ch).procs, p)
    ensures OthersStand(s.procs, FailStep(s, p, c, user, caller, ch).procs, p)
  {
    hide OthersStand, Goto, Protocol.Done, AfterCancel, ConfirmOk, ConfirmFailed, AfterDrop,
         Overdue, C.Completed, C.MarkedFailed;
    AllSteps(p);
    AllReturns(p);
  }

  lemma SettleStands(s: State, p: Pid, ch: Choice)
    requires p in s.procs && s.procs[p].Settle?
    ensures OthersStand(s.procs, AdvanceStep(s, p, ch).procs, p)
  {
    hide OthersStand, CompleteStep, FailStep;
    var pc := s.procs[p];
    CompleteStands(s, p, pc.c, pc.user, pc.caller, if pc.outcome.Some? then pc.outcome.value else ch.result, ch);
  }

  lemma RecordStands(s: State, p: Pid, ch: Choice)
    requires p in s.procs && s.procs[p].Record?
    ensures OthersStand(s.procs, AdvanceStep(s, p, ch).procs, p)
  {
    hide OthersStand, Goto, Protocol.Done, AfterCancel, ConfirmOk, ConfirmFailed, AfterDrop,
         Journalled;
    AllSteps(p);
    AllReturns(p);
  }

  lemma ExpiringStands(s: State, c: Id, ch: Choice)
    ensures ExpireConfirmation(s, c, ch).procs == s.procs
  {}

  lemma AbandonStands(s: State, p: Pid, ch: Choice)
    requires p in s.procs && OnAbandon(s.procs[p])
    ensures OthersStand(s.procs, AdvanceStep(s, p, ch).procs, p)
  {
    hide OthersStand, Goto, Protocol.Done, AfterCancel, ConfirmOk, ConfirmFailed, AfterDrop,
         C.Actionable, C.LapsedPending, J.Closed, ExpireConfirmation;
    if s.procs[p].AbandonExpire? {
      ExpiringStands(s, s.procs[p].c, ch);
    }
    AllSteps(p);
    AllReturns(p);
  }

  lemma MissionStands(s: State, p: Pid, ch: Choice)
    requires p in s.procs && (s.procs[p].ExpireMission? || s.procs[p].Trigger? || s.procs[p].PrepareEntry? || s.procs[p].RecordEntry?)
    ensures OthersStand(s.procs, AdvanceStep(s, p, ch).procs, p)
  {
    hide OthersStand, Goto, Protocol.Done, AfterCancel, ConfirmOk, ConfirmFailed, AfterDrop,
         A.Triggerable, A.MarkedTriggered, A.Recordable, A.Recorded, CanPut, NewConfirmation;
    AllSteps(p);
    AllReturns(p);
  }

  lemma AttachStands(s: State, p: Pid, ch: Choice)
    requires p in s.procs && (s.procs[p].AttachClose? || s.procs[p].AttachEntryClose?)
    ensures OthersStand(s.procs, AdvanceStep(s, p, ch).procs, p)
  {
    hide OthersStand, Goto, Protocol.Done, AfterCancel, ConfirmOk, ConfirmFailed, AfterDrop, NewClose;
    AllSteps(p);
    AllReturns(p);
  }

  lemma RowStands(s: State, p: Pid, ch: Choice)
    requires p in s.procs && (s.procs[p].Activate? || s.procs[p].Drop? || s.procs[p].ClaimRow? || s.procs[p].Finish?)
    ensures OthersStand(s.procs, AdvanceStep(s, p, ch).procs, p)
  {
    hide OthersStand, Goto, Protocol.Done, AfterCancel, ConfirmOk, ConfirmFailed, AfterDrop,
         S.Activatable, S.Droppable, S.Claimable, S.Activated, S.Dropped, S.Claimed, S.Ended;
    AllSteps(p);
    AllReturns(p);
  }

  lemma CloseStands(s: State, p: Pid, ch: Choice)
    requires p in s.procs && (s.procs[p].Reconcile? || s.procs[p].Held? || s.procs[p].ClosePrepared?)
    ensures OthersStand(s.procs, AdvanceStep(s, p, ch).procs, p)
  {
    hide OthersStand, Goto, Protocol.Done, AfterCancel, ConfirmOk, ConfirmFailed, AfterDrop,
         CanPut, NewConfirmation;
    AllSteps(p);
    AllReturns(p);
  }

  lemma AdvanceStands(s: State, p: Pid, ch: Choice)
    requires p in s.procs
    ensures OthersStand(s.procs, AdvanceStep(s, p, ch).procs, p)
  {
    hide AdvanceStep, OthersStand;
    var pc := s.procs[p];
    if pc.Take? || pc.TakeRead? || pc.TakeExpire? || pc.Call? {
      ConfirmStands(s, p, ch);
    } else if pc.Settle? {
      SettleStands(s, p, ch);
    } else if pc.Record? {
      RecordStands(s, p, ch);
    } else if OnAbandon(pc) {
      AbandonStands(s, p, ch);
    } else if pc.AttachClose? || pc.AttachEntryClose? {
      AttachStands(s, p, ch);
    } else if OnEntry(pc) {
      MissionStands(s, p, ch);
    } else if pc.Activate? || pc.Drop? || pc.ClaimRow? || pc.Finish? {
      RowStands(s, p, ch);
    } else {
      CloseStands(s, p, ch);
    }
  }

  /** An action that is neither a step nor the end of q leaves q where it stands. */
  lemma ActionStands(s: State, a: Action, q: Pid)
    requires WellFormed(s) && Enabled(s, a) && q in s.procs && (a.Advance? || a.Crash? ==> a.p != q)
    ensures q in Next(s, a).procs && Next(s, a).procs[q] == s.procs[q]
  {
    hide AdvanceStep, HonestHit, C.KeyTaken, A.Swept;
    if a.Advance? {
      AdvanceStands(s, a.p, a.ch);
    }
  }

  predicate Untouched(run: seq<Action>, q: Pid) {
    forall i :: 0 <= i < |run| && (run[i].Advance? || run[i].Crash?) ==> run[i].p != q
  }
}
