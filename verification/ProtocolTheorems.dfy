/** What every run of the mission protocol guarantees, whatever crashes, fails or interleaves. */
module ProtocolTheorems {
  import opened Common
  import opened Protocol
  import opened ProtocolInvariant
  import opened ProtocolRuns
  import opened ProtocolForward
  import opened ProtocolEvents
  import opened ProtocolRequests
  import opened ProtocolProgress
  import opened ProtocolJournal
  import PS = ProtocolSteps
  import C = Confirmations
  import S = ScheduledCloses
  import A = ArmedMissions
  import J = Journal

  lemma RunOk(run: seq<Action>)
    requires Legal(INIT, run)
    ensures Inv(Outcome(INIT, run))
  {
    InitIsOk();
    hide *;
    RunKeeps(INIT, run);
  }

  /** A run passes through the outcome of each of its prefixes. */
  lemma {:induction false} RunSplits(s: State, first: seq<Action>, rest: seq<Action>)
    requires Legal(s, first + rest)
    ensures Legal(s, first) && Legal(Outcome(s, first), rest)
    ensures Outcome(s, first + rest) == Outcome(Outcome(s, first), rest)
    decreases |first|
  {
    hide Next, Enabled;
    if first == [] {
      assert first + rest == rest;
    } else {
      assert (first + rest)[0] == first[0] && (first + rest)[1..] == first[1..] + rest;
      RunSplits(Next(s, first[0]), first[1..], rest);
    }
  }

  // ---------------------------------------------------------------------------
  // No lost close
  // ---------------------------------------------------------------------------

  /** The close of a durably executed entry is cancelled only if a user asked to cancel the entry, a
      user confirmed an armed mission's entry by hand, or the write recording its execution came after
      the close had waited its whole awaiting time. */
  lemma NoLostClose(run: seq<Action>, r: Id)
    requires Legal(INIT, run) && r in Outcome(INIT, run).closes
    ensures var s := Outcome(INIT, run);
            var c := s.closes[r].entry;
            && c in s.confs && c in s.confLog
            && (s.confs[c].status == C.Executed && s.closes[r].status == S.Cancelled ==>
                  || UserCancels(run, c)
                  || (s.confLog[c].origin.ArmedEntry? && UserConfirms(run, c))
                  || Happened(INIT, run, CompletesLate(c)))
  {
    hide Inv, Legal, Outcome, CloseOk, ConfOk, Happened, UserCancels, UserConfirms;
    RunOk(run);
    InitIsOk();
    var s := Outcome(INIT, run);
    PS.CloseFacts(s, r);
    NotesComeFromActions(INIT, run);
    assert NotedBy(INIT, run, s.confLog, s.closes[r].entry);
    if s.closes[r].status == S.Cancelled && s.confs[s.closes[r].entry].status == C.Executed {
      DroppedFor(s, r);
    }
  }

  /** What NoLostClose says of executed entries, said of every entry the exchange filled: its close is
      cancelled only for the same causes, or if the write that was to record the fill failed, or the
      process holding the fill stopped before that write or has yet to make it. */
  lemma FilledEntryKeepsClose(run: seq<Action>, r: Id)
    requires Legal(INIT, run) && r in Outcome(INIT, run).closes
    ensures var s := Outcome(INIT, run);
            var c := s.closes[r].entry;
            && c in s.confLog
            && (s.confLog[c].calls > 0 ==> Happened(INIT, run, Answers(c)) || Happened(INIT, run, Refuses(c)))
            && (Happened(INIT, run, Answers(c)) && s.closes[r].status == S.Cancelled ==>
                  || UserCancels(run, c)
                  || (s.confLog[c].origin.ArmedEntry? && UserConfirms(run, c))
                  || Happened(INIT, run, CompletesLate(c))
                  || Happened(INIT, run, WriteFails(c))
                  || Happened(INIT, run, HolderStops(c))
                  || exists p :: Holding(s, p, c))
  {
    hide Inv, Legal, Outcome, CloseOk, ConfOk, Happened, UserCancels, UserConfirms;
    NoLostClose(run, r);
    InitIsOk();
    var s := Outcome(INIT, run);
    var c := s.closes[r].entry;
    NotesComeFromActions(INIT, run);
    assert NotedBy(INIT, run, s.confLog, c);
    if Happened(INIT, run, Answers(c)) {
      FillsAreKept(INIT, run, c);
    }
  }

  lemma DroppedFor(s: State, r: Id)
    requires r in s.closes && r in s.closeLog && CloseOk(s, r) && s.closes[r].status == S.Cancelled
    requires ConfOk(s, s.closes[r].entry) && s.confs[s.closes[r].entry].status == C.Executed
    ensures var l := s.confLog[s.closes[r].entry]; l.userCancel || (l.origin.ArmedEntry? && l.otherConfirm) || l.late
  {}

  lemma OnlyMatch(s: State, c: Id, r: Id, ch: Choice)
    requires S.OnePerEntry(s.closes) && HonestHit(s, Activate(c), ch) && r in s.closes && S.Activatable(s.closes[r], c)
    ensures ch.hit == Some(r)
  {}

  /** Once there, one successful write makes the awaiting close due one window later, in any state
      others may have produced; if the close no longer awaits, someone has moved it before. */
  lemma ReconcilerArmsClose(s: State, p: Pid, r: Id, ch: Choice)
    requires Inv(s) && p in s.procs && s.procs[p].Activate? && Enabled(s, Advance(p, ch)) && !ch.fail
    requires r in s.closes && s.closes[r].entry == s.procs[p].c && s.closes[r].status == S.AwaitingEntry
    ensures var t := AdvanceStep(s, p, ch);
            && r in t.closes && t.closes[r] == S.Activated(s.closes[r], ch.now)
            && (forall q :: q in s.closes && q != r ==> q in t.closes && t.closes[q] == s.closes[q])
  {
    hide Inv, RestOk, RetiredBut, ProcOk, CloseOk, ConfOk, Protocol.Done;
    PS.CloseFacts(s, r);
    assert S.OnePerEntry(s.closes) by { PS.InvParts(s); }
    OnlyMatch(s, s.procs[p].c, r, ch);
    DoneKeeps(s.(closes := s.closes[r := S.Activated(s.closes[r], ch.now)],
                 closeLog := s.closeLog[r := s.closeLog[r].(activatedAt := Some(ch.now))]), p);
  }

  lemma ReconcilerDropsClose(s: State, p: Pid, r: Id, ch: Choice)
    requires Inv(s) && p in s.procs && s.procs[p].Drop? && Enabled(s, Advance(p, ch)) && !ch.fail
    requires r in s.closes && s.closes[r].entry == s.procs[p].c && s.closes[r].status == S.AwaitingEntry
    ensures r in AdvanceStep(s, p, ch).closes && AdvanceStep(s, p, ch).closes[r] == S.Dropped(s.closes[r], ch.now)
  {
    hide RestOk, RetiredBut, ProcOk, S.Dropped;
    PS.CloseFacts(s, r);
    assert S.OnePerEntry(s.closes) by { PS.InvParts(s); }
    hide Inv;
    OnlyDropped(s, p, r, ch);
    AllDropRows(s, p, ch);
  }

  lemma OnlyDropped(s: State, p: Pid, r: Id, ch: Choice)
    requires S.OnePerEntry(s.closes) && p in s.procs && s.procs[p].Drop? && HonestHit(s, s.procs[p], ch)
    requires r in s.closes && S.Droppable(s.closes[r], s.procs[p].c)
    ensures ch.hit == Some(r)
  {}

  /** A drop leaves the rows as they were but for the one it hits. */
  lemma AllDropRows(s: State, p: Pid, ch: Choice)
    requires p in s.procs && s.procs[p].Drop?
    ensures AdvanceStep(s, p, ch).closes
         == (if ch.hit.Some? && !ch.fail && ch.hit.value in s.closes && ch.hit.value in s.closeLog
                && S.Droppable(s.closes[ch.hit.value], s.procs[p].c)
             then s.closes[ch.hit.value := S.Dropped(s.closes[ch.hit.value], ch.now)] else s.closes)
  {
    hide S.Droppable, S.Dropped, AfterDrop;
    AfterDropRows(p);
  }

  lemma AfterDropRows(p: Pid)
    ensures forall s: State, c: Id, user: int, cause: Cause :: AfterDrop(s, p, c, user, cause).closes == s.closes
  {}

  lemma ActivateRows(s: State, p: Pid, ch: Choice, r: Id)
    requires p in s.procs && s.procs[p].Activate? && r in s.closes && s.closes[r].status != S.AwaitingEntry
    ensures r in AdvanceStep(s, p, ch).closes && AdvanceStep(s, p, ch).closes[r].status != S.AwaitingEntry
  {
    hide Protocol.Done;
    DoneKeeps(s, p);
    if ch.hit.Some? && ch.hit.value in s.closes && ch.hit.value in s.closeLog && S.Activatable(s.closes[ch.hit.value], s.procs[p].c) {
      var q := ch.hit.value;
      DoneKeeps(s.(closes := s.closes[q := S.Activated(s.closes[q], ch.now)],
                   closeLog := s.closeLog[q := s.closeLog[q].(activatedAt := Some(ch.now))]), p);
    }
  }

  /** The write of a reconciler leaves no row awaiting that it is to resolve. */
  lemma ReconcilerWrites(s: State, p: Pid, r: Id, ch: Choice)
    requires Inv(s) && p in s.procs && Enabled(s, Advance(p, ch)) && !ch.fail
    requires s.procs[p].Activate? || s.procs[p].Drop?
    requires r in s.closes && s.closes[r].entry == s.procs[p].c
    ensures var t := AdvanceStep(s, p, ch);
            && r in t.closes && t.closes[r].status != S.AwaitingEntry
            && (s.procs[p].Activate? && s.closes[r].status == S.AwaitingEntry ==> t.closes[r] == S.Activated(s.closes[r], ch.now))
  {
    hide Inv, AdvanceStep, HonestHit, S.Droppable;
    if s.closes[r].status == S.AwaitingEntry {
      if s.procs[p].Activate? {
        ReconcilerArmsClose(s, p, r, ch);
      } else {
        ReconcilerDropsClose(s, p, r, ch);
      }
    } else if s.procs[p].Activate? {
      ActivateRows(s, p, ch, r);
    } else {
      AllDropRows(s, p, ch);
    }
  }

  /** What a reconciler reads of its entry decides where it goes. */
  lemma ReconcilerReads(s: State, p: Pid, ch: Choice)
    requires Inv(s) && p in s.procs && s.procs[p].Reconcile? && !ch.fail
    ensures var pc := s.procs[p];
            var t := AdvanceStep(s, p, ch);
            && pc.row in s.closes && s.closes[pc.row].entry == pc.c && t.closes == s.closes && t.confs == s.confs
            && (Resolves(s, pc.row, pc.now) ==>
                  && p in t.procs && (t.procs[p].Activate? || t.procs[p].Drop?) && t.procs[p].c == pc.c
                  && (pc.c in s.confs && s.confs[pc.c].status == C.Executed ==> t.procs[p].Activate?))
  {
    hide Inv, ReconcileStep;
    var pc := s.procs[p];
    ReconcilerKnows(s, p);
    ReadDecides(s, p, pc.row, pc.c, pc.now, ch);
  }

  lemma ReadDecides(s: State, p: Pid, row: Id, c: Id, now: Time, ch: Choice)
    requires row in s.closes && s.closes[row].entry == c && !ch.fail
    ensures var t := ReconcileStep(s, p, row, c, now, ch);
            && t.closes == s.closes && t.confs == s.confs
            && (Resolves(s, row, now) ==>
                  && p in t.procs && (t.procs[p].Activate? || t.procs[p].Drop?) && t.procs[p].c == c
                  && (c in s.confs && s.confs[c].status == C.Executed ==> t.procs[p].Activate?))
  {
    hide Goto, Protocol.Done;
    GotoKeeps(s, p, Activate(c));
    GotoKeeps(s, p, Drop(c, s.closes[row].userId, EntryEnded));
    GotoKeeps(s, p, Drop(c, s.closes[row].userId, EntryStale(row)));
    DoneKeeps(s, p);
  }

  lemma ReconcilerKnows(s: State, p: Pid)
    requires Inv(s) && p in s.procs && s.procs[p].Reconcile?
    ensures s.procs[p].row in s.closes && s.closes[s.procs[p].row].entry == s.procs[p].c
  {
    hide Inv;
    PS.ProcFacts(s, p);
  }

  lemma GotoKeeps(s: State, p: Pid, pc: Pc)
    ensures var t := Goto(s, p, pc); t.closes == s.closes && t.confs == s.confs && p in t.procs && t.procs[p] == pc
  {}

  lemma DoneKeeps(s: State, p: Pid)
    ensures Protocol.Done(s, p).closes == s.closes && Protocol.Done(s, p).confs == s.confs
  {}

  /** A reconciler that begins now will settle this close: its entry has ended, or it waited too long. */
  predicate Resolves(s: State, r: Id, now: Time) {
    r in s.closes
    && ((s.closes[r].entry in s.confs && Ended(s.confs[s.closes[r].entry].status)) || s.closes[r].createdAt < now - S.AWAITING_TTL)
  }

  /** A reconciler's pass over one close, with anything others do before, between and in between its
      read and its write. If what it reads settles the close and neither call fails nor the process
      stops, the close no longer awaits: an executed entry's close is armed at the write if it still
      awaited then, and cancelled only for the causes of NoLostClose; that of an entry which failed,
      was cancelled or expired is cancelled. */
  lemma ReconciledClose(first: seq<Action>, ch: Choice, middle: seq<Action>, last: Choice, p: Pid)
    requires Legal(INIT, first + [Advance(p, ch)] + middle + [Advance(p, last)])
    requires Legal(INIT, first) && p in Outcome(INIT, first).procs && Outcome(INIT, first).procs[p].Reconcile?
    requires var s := Outcome(INIT, first); Resolves(s, s.procs[p].row, s.procs[p].now)
    requires !ch.fail && !last.fail && Untouched(middle, p)
    ensures Legal(INIT, first + [Advance(p, ch)] + middle)
    ensures var s, t, u := Outcome(INIT, first), Outcome(INIT, first + [Advance(p, ch)] + middle),
                           Outcome(INIT, first + [Advance(p, ch)] + middle + [Advance(p, last)]);
            var r := s.procs[p].row;
            && r in s.closes && r in t.closes && r in u.closes && u.closes[r].entry == s.closes[r].entry
            && u.closes[r].status != S.AwaitingEntry
            && var c := s.closes[r].entry;
               && c in s.confs && c in u.confs && c in u.confLog
               && (s.confs[c].status == C.Executed && t.closes[r].status == S.AwaitingEntry ==>
                     u.closes[r] == S.Activated(t.closes[r], last.now))
               && (s.confs[c].status == C.Executed && u.closes[r].status == S.Cancelled ==>
                     var run := first + [Advance(p, ch)] + middle + [Advance(p, last)];
                     || UserCancels(run, c)
                     || (u.confLog[c].origin.ArmedEntry? && UserConfirms(run, c))
                     || Happened(INIT, run, CompletesLate(c)))
               && (Ended(s.confs[c].status) && s.confs[c].status != C.Executed ==> u.closes[r].status == S.Cancelled)
  {
    hide Inv, Legal, Outcome, Happened, UserCancels, UserConfirms, Next, Enabled, AdvanceStep, Resolves, Untouched;
    var read, write := Advance(p, ch), Advance(p, last);
    var run := first + [read] + middle + [write];
    LaterIsForward(first + [read] + middle, [write]);
    LaterIsForward(first + [read], middle);
    LaterIsForward(first, [read]);
    RunSplits(INIT, first + [read] + middle, [write]);
    RunSplits(INIT, first + [read], middle);
    RunSplits(INIT, first, [read]);
    var s, a, t, u := Outcome(INIT, first), Outcome(INIT, first + [read]), Outcome(INIT, first + [read] + middle), Outcome(INIT, run);
    OneStep(s, read);
    OneStep(t, write);
    ReconcilerReads(s, p, ch);
    Stands(a, middle, p);
    var r := s.procs[p].row;
    RowGoesOn(a, t, r);
    ReconcilerWrites(t, p, r, last);
    RowGoesOn(t, u, r);
    NoLostClose(run, r);
    EntriesGoOn(s, a, t, u, r);
  }

  lemma OneStep(s: State, a: Action)
    requires Legal(s, [a])
    ensures Enabled(s, a) && Outcome(s, [a]) == Next(s, a)
    ensures a.Advance? ==> a.p in s.procs && Next(s, a) == AdvanceStep(s, a.p, a.ch)
  {
    hide AdvanceStep, HonestHit;
    assert [a][0] == a && [a][1..] == [];
  }

  lemma RowGoesOn(s: State, t: State, r: Id)
    requires Inv(s) && Forward(s, t) && r in s.closes
    ensures r in t.closes && t.closes[r].entry == s.closes[r].entry
  {
    PS.CloseFacts(s, r);
    hide Inv;
  }

  /** A close that no longer awaits an entry which ended without executing is cancelled. */
  lemma EntriesGoOn(s: State, a: State, t: State, u: State, r: Id)
    requires Inv(s) && Inv(u) && Forward(s, a) && Forward(a, t) && Forward(t, u)
    requires r in s.closes && r in u.closes && u.closes[r].entry == s.closes[r].entry
    ensures var c := s.closes[r].entry;
            && c in s.confs && c in u.confs
            && (Ended(s.confs[c].status) ==> u.confs[c] == s.confs[c])
            && (Ended(s.confs[c].status) && s.confs[c].status != C.Executed && u.closes[r].status != S.AwaitingEntry ==>
                  u.closes[r].status == S.Cancelled)
  {
    hide Inv, Forward;
    ForwardTrans(s, a, t);
    ForwardTrans(s, t, u);
    CloseEntry(s, r);
    CloseEntry(u, r);
    EndedGoesOn(s, u, s.closes[r].entry);
  }

  lemma CloseEntry(s: State, r: Id)
    requires Inv(s) && r in s.closes
    ensures s.closes[r].entry in s.confs
    ensures Activated(s.closes[r].status) ==> s.confs[s.closes[r].entry].status == C.Executed
  {
    hide Inv;
    PS.CloseFacts(s, r);
  }

  lemma EndedGoesOn(s: State, t: State, c: Id)
    requires Forward(s, t) && c in s.confs
    ensures c in t.confs && (Ended(s.confs[c].status) ==> t.confs[c] == s.confs[c])
  {}

  // ---------------------------------------------------------------------------
  // A close acts only after its entry
  // ---------------------------------------------------------------------------

  /** A close is pending, claimed, done or skipped only if its entry executed; it is claimed no sooner
      than one whole window after the moment it was armed. */
  lemma CloseOnlyAfterEntry(run: seq<Action>, r: Id)
    requires Legal(INIT, run) && r in Outcome(INIT, run).closes && r in Outcome(INIT, run).closeLog
    ensures var s := Outcome(INIT, run);
            var x, l := s.closes[r], s.closeLog[r];
            && (Activated(x.status) ==> x.entry in s.confs && s.confs[x.entry].status == C.Executed)
            && (l.claims != [] ==> l.activatedAt.Some?)
            && (forall i :: 0 <= i < |l.claims| ==> l.activatedAt.value + x.window <= l.claims[i].stamp <= l.claims[i].at)
  {
    hide Legal, Outcome, Inv;
    RunOk(run);
    PS.CloseFacts(Outcome(INIT, run), r);
  }

  /** The entry was executed already when its close became active, and is executed ever after. */
  lemma ExecutedEntryStays(first: seq<Action>, rest: seq<Action>, r: Id)
    requires Legal(INIT, first + rest) && Legal(INIT, first)
    requires r in Outcome(INIT, first).closes && Activated(Outcome(INIT, first).closes[r].status)
    ensures var s, t := Outcome(INIT, first), Outcome(INIT, first + rest);
            s.closes[r].entry in s.confs && s.closes[r].entry in t.confs
            && t.confs[s.closes[r].entry] == s.confs[s.closes[r].entry] && t.confs[s.closes[r].entry].status == C.Executed
  {
    hide Legal, Outcome;
    LaterIsForward(first, rest);
    PS.CloseFacts(Outcome(INIT, first), r);
    hide Inv;
  }

  lemma LaterIsForward(first: seq<Action>, rest: seq<Action>)
    requires Legal(INIT, first + rest)
    ensures Legal(INIT, first) && Inv(Outcome(INIT, first)) && Inv(Outcome(INIT, first + rest))
    ensures Forward(Outcome(INIT, first), Outcome(INIT, first + rest))
  {
    hide *;
    RunSplits(INIT, first, rest);
    RunOk(first);
    RunOk(first + rest);
    RunForward(Outcome(INIT, first), rest);
  }

  // ---------------------------------------------------------------------------
  // Armed missions
  // ---------------------------------------------------------------------------

  ghost predicate EntryOf(s: State, m: Id, c: Id) {
    c in s.confs && c in s.confLog && s.confLog[c].origin.ArmedEntry? && s.confLog[c].origin.mission == m
  }

  /** However many watchers run, an armed mission has at most one entry, and the exchange is called
      for it at most once. */
  lemma SingleEntry(run: seq<Action>, m: Id, c: Id, d: Id)
    requires Legal(INIT, run) && EntryOf(Outcome(INIT, run), m, c) && EntryOf(Outcome(INIT, run), m, d)
    ensures c == d && Outcome(INIT, run).confLog[c].calls <= 1
  {
    hide Legal, Outcome, Inv;
    RunOk(run);
    var s := Outcome(INIT, run);
    PS.InvParts(s);
    PS.ConfFacts(s, c);
    PS.ConfFacts(s, d);
  }

  /** A mission that was ever disarmed or expired never gets an entry, then or later. */
  lemma HonestDisarm(first: seq<Action>, rest: seq<Action>, m: Id, c: Id)
    requires Legal(INIT, first + rest) && Legal(INIT, first)
    requires m in Outcome(INIT, first).missions
    requires Outcome(INIT, first).missions[m].status in {A.Disarmed, A.Expired}
    ensures !EntryOf(Outcome(INIT, first + rest), m, c)
  {
    hide Legal, Outcome, Inv;
    LaterIsForward(first, rest);
    var t := Outcome(INIT, first + rest);
    if EntryOf(t, m, c) {
      PS.ConfFacts(t, c);
    }
  }

  /** A triggered mission was triggered before it expired. */
  lemma TriggersInTime(run: seq<Action>, m: Id)
    requires Legal(INIT, run) && m in Outcome(INIT, run).missions && Outcome(INIT, run).missions[m].status == A.Triggered
    ensures var s := Outcome(INIT, run);
            var x := s.missions[m];
            x.triggeredAt.Some? && x.triggeredAt.value < x.expiresAt
  {
    hide Legal, Outcome, Inv;
    RunOk(run);
    PS.InvParts(Outcome(INIT, run));
    assert MissionOk(Outcome(INIT, run), m);
  }

  // ---------------------------------------------------------------------------
  // The lease on a timed close
  // ---------------------------------------------------------------------------

  /** Claims of one close are a whole lease apart and by different pollers; a close ends at most once. */
  lemma LeaseSpacing(run: seq<Action>, r: Id, i: nat, j: nat)
    requires Legal(INIT, run) && r in Outcome(INIT, run).closes && r in Outcome(INIT, run).closeLog
    requires i < j < |Outcome(INIT, run).closeLog[r].claims|
    ensures var s := Outcome(INIT, run);
            var claims := s.closeLog[r].claims;
            && claims[i].stamp + S.CLAIM_TIMEOUT <= claims[j].stamp && claims[i].pid != claims[j].pid
  {
    RunOk(run);
    PS.CloseFacts(Outcome(INIT, run), r);
  }

  lemma EndsAtMostOnce(run: seq<Action>, r: Id)
    requires Legal(INIT, run) && r in Outcome(INIT, run).closes
    ensures var s := Outcome(INIT, run);
            r in s.closeLog && s.closeLog[r].terminals == (if S.IsTerminal(s.closes[r].status) then 1 else 0)
  {
    RunOk(run);
    PS.CloseFacts(Outcome(INIT, run), r);
  }

  /** Once a close has ended, neither it nor its record of claims ever changes. */
  lemma EndedCloseIsFrozen(first: seq<Action>, rest: seq<Action>, r: Id)
    requires Legal(INIT, first + rest) && Legal(INIT, first)
    requires r in Outcome(INIT, first).closes && S.IsTerminal(Outcome(INIT, first).closes[r].status)
    ensures var s, t := Outcome(INIT, first), Outcome(INIT, first + rest);
            && r in t.closes && t.closes[r] == s.closes[r]
            && r in s.closeLog && r in t.closeLog && t.closeLog[r] == s.closeLog[r]
  {
    hide Legal, Outcome;
    LaterIsForward(first, rest);
    PS.CloseFacts(Outcome(INIT, first), r);
    hide Inv;
  }

  /** A live process that claimed the close at that moment. */
  ghost predicate Holder(s: State, r: Id, p: Pid, stamp: Time) {
    p in s.procs && Holds(s, p, r, stamp)
  }

  /** If every process gives up or finishes within the lease, a close never has two holders. */
  lemma OneHolderWithinLease(run: seq<Action>, r: Id, p: Pid, a: Time, q: Pid, b: Time)
    requires Legal(INIT, run)
    requires Holder(Outcome(INIT, run), r, p, a) && Holder(Outcome(INIT, run), r, q, b)
    requires Outcome(INIT, run).clock < a + S.CLAIM_TIMEOUT && Outcome(INIT, run).clock < b + S.CLAIM_TIMEOUT
    ensures p == q && a == b
  {
    RunOk(run);
    var s := Outcome(INIT, run);
    PS.CloseFacts(s, r);
    hide Inv, Legal, Outcome;
    TwoClaims(s, r, p, a, q, b);
  }

  lemma TwoClaims(s: State, r: Id, p: Pid, a: Time, q: Pid, b: Time)
    requires r in s.closes && r in s.closeLog && CloseOk(s, r) && Holds(s, p, r, a) && Holds(s, q, r, b)
    requires s.clock < a + S.CLAIM_TIMEOUT && s.clock < b + S.CLAIM_TIMEOUT
    ensures p == q && a == b
  {
    var claims := s.closeLog[r].claims;
    var i :| 0 <= i < |claims| && claims[i].pid == p && claims[i].stamp == a;
    var j :| 0 <= j < |claims| && claims[j].pid == q && claims[j].stamp == b;
    assert claims[i].stamp <= claims[i].at <= s.clock && claims[j].stamp <= claims[j].at <= s.clock;
    assert !(i < j) && !(j < i);
  }

  /** Close orders of a row: each was prepared under a claim of its own, and is sent at most once. */
  lemma OneCloseOrderPerClaim(run: seq<Action>, r: Id, c: Id, d: Id)
    requires Legal(INIT, run)
    requires var s := Outcome(INIT, run);
             && c in s.confs && d in s.confs && c in s.confLog && d in s.confLog
             && s.confLog[c].origin.TimedClose? && s.confLog[c].origin.row == r
             && s.confLog[d].origin.TimedClose? && s.confLog[d].origin.row == r
    ensures var s := Outcome(INIT, run);
            && s.confLog[c].calls <= 1
            && r in s.closeLog && HasClaim(s.closeLog[r].claims, s.confLog[c].origin.pid)
            && (c != d ==> s.confLog[c].origin.pid != s.confLog[d].origin.pid)
  {
    hide Legal, Outcome, Inv, HasClaim;
    RunOk(run);
    var s := Outcome(INIT, run);
    PS.InvParts(s);
    PS.ConfFacts(s, c);
    PS.ConfFacts(s, d);
  }

  /** A close that is done with an order had that order executed; it was prepared under the row's own claim and
      closes the row's own entry. */
  lemma DoneMeansExecuted(run: seq<Action>, r: Id)
    requires Legal(INIT, run) && r in Outcome(INIT, run).closes
    requires var x := Outcome(INIT, run).closes[r]; x.status == S.Done && x.confirmation.Some?
    ensures var s := Outcome(INIT, run);
            var c := s.closes[r].confirmation.value;
            && c in s.confs && s.confs[c].status == C.Executed && s.confs[c].intent == C.CloseOrder(Some(s.closes[r].entry))
            && c in s.confLog && s.confLog[c].origin.TimedClose? && s.confLog[c].origin.row == r
  {
    hide Legal, Outcome, Inv;
    RunOk(run);
    var s := Outcome(INIT, run);
    PS.CloseFacts(s, r);
    PS.ConfFacts(s, s.closes[r].confirmation.value);
  }

  /** In every run, a process that ends a close it holds writes what became of its order: done if the order is
      executed, skipped only if this process did not execute it. */
  lemma EndsAsOrdered(run: seq<Action>, p: Pid, ch: Choice)
    requires Legal(INIT, run) && Enabled(Outcome(INIT, run), Advance(p, ch)) && Outcome(INIT, run).procs[p].Finish? && !ch.fail
    requires var s := Outcome(INIT, run);
             s.procs[p].row in s.closes && s.closes[s.procs[p].row].status == S.Executing
    ensures var s := Outcome(INIT, run);
            var pc, t := s.procs[p], AdvanceStep(s, p, ch);
            && pc.row in t.closes && t.closes[pc.row].status == pc.status && t.closes[pc.row].confirmation == pc.confirmation
            && (pc.status == S.Done || pc.status == S.Skipped)
            && (pc.confirmation.Some? ==>
                  var c := pc.confirmation.value;
                  && c in s.confs && c in s.confLog && s.confLog[c].origin == TimedClose(pc.row, p)
                  && (pc.status == S.Done ==> s.confs[c].status == C.Executed)
                  && (pc.status == S.Skipped ==> s.confLog[c].taker != Some(p) || s.confs[c].status != C.Executed))
  {
    hide Legal, Outcome, Inv, HonestHit, FinishStep, CloseOk, Holds;
    RunOk(run);
    var s := Outcome(INIT, run);
    var pc := s.procs[p];
    PS.ProcFacts(s, p);
    PS.CloseFacts(s, pc.row);
    FinishWrites(s, p, pc.row, pc.status, pc.confirmation, ch);
  }

  lemma FinishWrites(s: State, p: Pid, row: Id, status: S.Status, confirmation: Option<Id>, ch: Choice)
    requires row in s.closes && row in s.closeLog && s.closes[row].status == S.Executing && !ch.fail
    ensures var t := FinishStep(s, p, row, status, confirmation, ch);
            row in t.closes && t.closes[row].status == status && t.closes[row].confirmation == confirmation
  {}

  // ---------------------------------------------------------------------------
  // Confirm once, one journal result
  // ---------------------------------------------------------------------------

  /** A confirmation is taken and sent to the exchange at most once, and every successful confirm of
      it returns one and the same result. */
  lemma ConfirmOnce(run: seq<Action>, c: Id, q: C.ExecutionResult, r: C.ExecutionResult)
    requires Legal(INIT, run) && c in Outcome(INIT, run).confs && c in Outcome(INIT, run).confLog
    ensures var l := Outcome(INIT, run).confLog[c];
            && l.takes <= 1 && l.calls <= l.takes
            && (q in l.returned && r in l.returned ==> C.SameResult(q, r) && Outcome(INIT, run).confs[c].status == C.Executed)
  {
    RunOk(run);
    PS.ConfFacts(Outcome(INIT, run), c);
  }

  /** A process that calls the exchange for a confirmation, settles it or records it does so for its owner. */
  lemma OnlyOwnersConfirm(run: seq<Action>, p: Pid)
    requires Legal(INIT, run) && p in Outcome(INIT, run).procs
    ensures var s := Outcome(INIT, run);
            var pc := s.procs[p];
            pc.Call? || pc.Settle? || pc.Record? ==> pc.c in s.confs && s.confs[pc.c].userId == pc.user
  {
    hide Legal, Outcome, Inv, Took, Completed;
    RunOk(run);
    PS.ProcFacts(Outcome(INIT, run), p);
  }

  /** A confirmation is marked expired only when its time is over. */
  lemma ExpiredHadLapsed(run: seq<Action>, c: Id)
    requires Legal(INIT, run) && c in Outcome(INIT, run).confs && Outcome(INIT, run).confs[c].status == C.Expired
    ensures Outcome(INIT, run).confs[c].expiresAt <= Outcome(INIT, run).clock
  {
    hide Legal, Outcome, Inv;
    RunOk(run);
    var s := Outcome(INIT, run);
    SameKeys(s);
    PS.ConfFacts(s, c);
  }

  /** An executed confirmation keeps its result; a cancelled, failed or expired one never executes. */
  lemma EndedConfirmationIsFrozen(first: seq<Action>, rest: seq<Action>, c: Id)
    requires Legal(INIT, first + rest) && Legal(INIT, first)
    requires c in Outcome(INIT, first).confs && Ended(Outcome(INIT, first).confs[c].status)
    ensures var s, t := Outcome(INIT, first), Outcome(INIT, first + rest);
            c in t.confs && t.confs[c] == s.confs[c]
  {
    hide Legal, Outcome, Inv;
    LaterIsForward(first, rest);
  }

  /** A journal row appears only for an executed confirmation, is never removed, is finalised at most
      once and never reopened. */
  lemma JournalIsFinal(first: seq<Action>, rest: seq<Action>, id: Id)
    requires Legal(INIT, first + rest) && Legal(INIT, first) && id in Outcome(INIT, first).journal
    ensures var s, t := Outcome(INIT, first), Outcome(INIT, first + rest);
            && id in s.confs && s.confs[id].status == C.Executed
            && id in t.journal
            && (s.journal[id].outcome != J.Open ==> t.journal[id] == s.journal[id])
            && (t.journal[id].outcome == J.Open ==> t.journal[id] == s.journal[id])
  {
    hide Legal, Outcome;
    LaterIsForward(first, rest);
    var s := Outcome(INIT, first);
    JournalledIsExecuted(s, id);
    hide Inv;
  }

  /** What every journal row holds. An open row is an executed entry's, no dry run. A final row is the row of an
      executed manual close, with its result; or the row of an executed entry with the result of an executed
      close order that names it, or with an update the result reconciler wrote, by an action of the run. */
  lemma JournalHoldsResults(run: seq<Action>, id: Id)
    requires Legal(INIT, run) && id in Outcome(INIT, run).journal
    ensures var s := Outcome(INIT, run);
            if s.journal[id].outcome == J.Open then OpenRow(s, id)
            else
              || (exists at :: Happened(INIT, run, Records(id, at)) && ManualRow(s, id, at))
              || (exists c, at :: Happened(INIT, run, Closes(c, id, at)) && ClosedRow(s, id, c, at))
              || (exists u :: Happened(INIT, run, Reports(id, u)) && ReportedRow(s, id, u))
  {
    hide Inv, Legal, Outcome, Happened, OpenRow, ManualRow, ClosedRow, ReportedRow;
    InitIsOk();
    assert OpenRows(INIT);
    RowsComeFromActions(INIT, run, id);
  }

  /** The other way about: what a recorded execution or a reported result wrote into an open row is what the row
      holds ever after, and a recorded entry or manual close has its row. */
  lemma WritesArePinned(run: seq<Action>, e: Event)
    requires Legal(INIT, run) && Happened(INIT, run, e)
    ensures Pinned(Outcome(INIT, run), e)
  {
    hide Inv, Legal, Outcome, Happened, Pinned;
    InitIsOk();
    assert OpenRows(INIT);
    Pins(INIT, run, e);
  }

  lemma JournalledIsExecuted(s: State, id: Id)
    requires Inv(s) && id in s.journal
    ensures id in s.confs && s.confs[id].status == C.Executed
  {
    assert TradeOk(s, id);
  }
}
