/** What becomes of an order the exchange was called for, and where processes stand as runs go on. */
module ProtocolProgress {
  import opened Common
  import opened Protocol
  import opened ProtocolInvariant
  import opened ProtocolRuns
  import opened ProtocolEvents
  import F = ProtocolForward
  import PS = ProtocolSteps
  import C = Confirmations
  import S = ScheduledCloses

  // ---------------------------------------------------------------------------
  // Results of the exchange
  // ---------------------------------------------------------------------------

  ghost predicate Held(s: State, c: Id) {
    exists p :: Holding(s, p, c)
  }

  predicate Executed(s: State, c: Id) {
    c in s.confs && s.confs[c].status == C.Executed
  }

  /** The result the exchange gave for c is held by a process, or recorded for good. */
  ghost predicate Kept(s: State, c: Id) {
    Held(s, c) || Executed(s, c)
  }

  /** What can make that result go missing. */
  ghost predicate Dropped(s: State, run: seq<Action>, c: Id)
    requires Legal(s, run)
  {
    Happened(s, run, WriteFails(c)) || Happened(s, run, HolderStops(c))
  }

  lemma AnswerIsHeld(s: State, a: Action, c: Id)
    requires Inv(s) && Enabled(s, a) && Occurs(s, a, Answers(c))
    ensures Held(Next(s, a), c)
  {
    hide Inv, ProcOk, HonestHit;
    PS.ProcFacts(s, a.p);
    CalledKnown(s, a.p, c);
    hide Took;
    assert Holding(Next(s, a), a.p, c);
  }

  lemma CalledKnown(s: State, p: Pid, c: Id)
    requires Calling(s, p, c) && ProcOk(s, p, s.procs[p])
    ensures c in s.confLog
  {}

  lemma HeldIsTaken(s: State, p: Pid, c: Id)
    requires Inv(s) && Holding(s, p, c)
    ensures Known(s, c) && C.HasStatus(s.confs, c, C.Executing)
  {
    hide Inv;
    PS.ProcFacts(s, p);
  }

  lemma HolderWrites(s: State, p: Pid, c: Id, ch: Choice)
    requires Inv(s) && Holding(s, p, c) && !ch.fail
    ensures Executed(AdvanceStep(s, p, ch), c)
  {
    hide Inv, Overdue, C.ToDoc, ConfirmFailed, FailStep;
    HeldIsTaken(s, p, c);
  }

  /** A held result stays held, is recorded, or is lost with its write or its process. */
  lemma HeldGoesOn(s: State, a: Action, p: Pid, c: Id)
    requires Inv(s) && Enabled(s, a) && Holding(s, p, c)
    ensures var t := Next(s, a);
            Held(t, c) || Executed(t, c) || Occurs(s, a, WriteFails(c)) || Occurs(s, a, HolderStops(c))
  {
    hide Inv, AdvanceStep, HonestHit;
    if (a.Advance? || a.Crash?) && a.p == p {
      if a.Advance? && !a.ch.fail {
        HolderWrites(s, p, c, a.ch);
      }
    } else {
      WellFormedNow(s);
      ActionStands(s, a, p);
      hide Next, Enabled;
      assert Holding(Next(s, a), p, c);
    }
  }

  lemma WellFormedNow(s: State)
    requires Inv(s)
    ensures WellFormed(s)
  {}

  lemma ExecutedGoesOn(s: State, a: Action, c: Id)
    requires Inv(s) && Enabled(s, a) && Executed(s, c)
    ensures Executed(Next(s, a), c)
  {
    hide Inv, Next, Enabled;
    F.NextForward(s, a);
  }

  lemma KeptGoesOn(s: State, a: Action, c: Id)
    requires Inv(s) && Enabled(s, a) && Kept(s, c)
    ensures Kept(Next(s, a), c) || Occurs(s, a, WriteFails(c)) || Occurs(s, a, HolderStops(c))
  {
    hide Inv, Next, Enabled, Occurs, Executed;
    if Executed(s, c) {
      ExecutedGoesOn(s, a, c);
    } else {
      var p :| Holding(s, p, c);
      HeldGoesOn(s, a, p, c);
    }
  }

  lemma {:induction false} KeptInRun(s: State, run: seq<Action>, c: Id)
    requires Inv(s) && Legal(s, run) && Kept(s, c)
    ensures Kept(Outcome(s, run), c) || Dropped(s, run, c)
    decreases |run|
  {
    hide Inv, Next, Enabled, Kept, Occurs;
    if run != [] {
      KeptGoesOn(s, run[0], c);
      NextKeeps(s, run[0]);
      if Kept(Next(s, run[0]), c) {
        KeptInRun(Next(s, run[0]), run[1..], c);
      }
    }
  }

  /** Over every run: what the exchange filled is held or recorded at the end, unless the completing
      write failed or its process stopped before it. */
  lemma {:induction false} FillsAreKept(s: State, run: seq<Action>, c: Id)
    requires Inv(s) && Legal(s, run) && Happened(s, run, Answers(c))
    ensures Kept(Outcome(s, run), c) || Dropped(s, run, c)
    decreases |run|
  {
    hide Inv, Next, Enabled, Kept, Occurs;
    NextKeeps(s, run[0]);
    if Occurs(s, run[0], Answers(c)) {
      AnswerIsHeld(s, run[0], c);
      assert Kept(Next(s, run[0]), c) by { HeldIsKept(Next(s, run[0]), c); }
      KeptInRun(Next(s, run[0]), run[1..], c);
    } else {
      FillsAreKept(Next(s, run[0]), run[1..], c);
    }
  }

  lemma HeldIsKept(s: State, c: Id)
    ensures Held(s, c) ==> Kept(s, c)
  {}

  // ---------------------------------------------------------------------------
  // A process others leave alone
  // ---------------------------------------------------------------------------

  lemma {:induction false} Stands(s: State, run: seq<Action>, p: Pid)
    requires Inv(s) && Legal(s, run) && p in s.procs && Untouched(run, p)
    ensures p in Outcome(s, run).procs && Outcome(s, run).procs[p] == s.procs[p]
    decreases |run|
  {
    hide Inv, Next, Enabled;
    if run != [] {
      WellFormedNow(s);
      ActionStands(s, run[0], p);
      NextKeeps(s, run[0]);
      Stands(Next(s, run[0]), run[1..], p);
    }
  }
}
