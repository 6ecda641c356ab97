/** The life of a live mission across three collections and the journal, as a transition system.

    Each store call is one atomic step. Each handler is a process whose program counter names the
    call it makes next; it may stop for good anywhere. Processes of any number of API instances
    interleave freely. A timestamp a handler passes was read from the clock at some earlier moment.
    A write either happens or fails and changes nothing. */
module Protocol {
  import opened Common
  import opened Decimals
  import Text
  import C = Confirmations
  import S = ScheduledCloses
  import A = ArmedMissions
  import J = Journal

  type Pid = nat

  /** Who prepared a confirmation: a chat command, the mission page, a triggered armed mission, or
      the poller for a timed close. */
  datatype Origin = Manual | MissionPage(pid: Pid) | ArmedEntry(mission: Id, pid: Pid) | TimedClose(row: Id, pid: Pid)

  /** What has happened to a confirmation so far. */
  datatype ConfirmationLog = ConfirmationLog(
    origin: Origin,
    taker: Option<Pid>,                    // the process that took it for execution
    takes: nat,                            // how often it was taken
    calls: nat,                            // how often the exchange executor was called for it
    returned: set<C.ExecutionResult>,      // results of successful confirms
    userCancel: bool,                      // a user asked to cancel it
    otherConfirm: bool,                    // a user confirmed an armed mission's entry
    late: bool)                            // it completed after its close's awaiting time had passed

  datatype Claim = Claim(pid: Pid, stamp: Time, at: Time)

  datatype Cause = EntryEnded | EntryStale(row: Id) | TriggerGaveUp | UserCancelled

  datatype CloseLog = CloseLog(
    activatedAt: Option<Time>, claims: seq<Claim>, terminals: nat, cause: Option<Cause>)

  datatype Caller = ByUser | ByTrigger | ByClose(row: Id, stamp: Time)

  datatype After = Stop | DropEntryClose | SkipRow(row: Id, stamp: Time)

  /** Where a handler stands: the store or exchange call it makes next. */
  datatype Pc =
    | AttachClose(c: Id)                                                   // save the awaiting close of a mission
    | Abandon(c: Id, user: int, after: After)                              // cancel a confirmation
    | AbandonRead(c: Id, user: int, now: Time, after: After)               // see why it could not be cancelled
    | AbandonExpire(c: Id, user: int, after: After)                        // mark it expired
    | Take(c: Id, user: int, caller: Caller)                               // take it for execution
    | TakeRead(c: Id, user: int, now: Time, caller: Caller)                // see why it could not be taken
    | TakeExpire(c: Id, user: int, caller: Caller)                         // mark it expired
    | Call(c: Id, user: int, caller: Caller)                               // call the executor
    | Settle(c: Id, user: int, caller: Caller, outcome: Option<C.ExecutionResult>)  // complete or fail it
    | Record(c: Id, user: int, caller: Caller, result: C.ExecutionResult)  // write the journal
    | Activate(c: Id)                                                      // arm the close of an executed entry
    | Drop(c: Id, user: int, cause: Cause)                                 // cancel the close of an entry
    | ExpireMission(m: Id)
    | Trigger(m: Id, now: Time)                                            // claim an armed mission
    | PrepareEntry(m: Id)                                                  // prepare its one entry
    | RecordEntry(m: Id, c: Id)                                            // note the confirmation on the mission
    | AttachEntryClose(m: Id, c: Id)                                       // save the awaiting close of its entry
    | Reconcile(row: Id, c: Id, now: Time)                                 // read an awaiting close's entry status
    | ClaimRow(row: Id, now: Time)                                         // claim a due close
    | Held(row: Id, stamp: Time)                                           // look at positions, prepare the close order
    | ClosePrepared(row: Id, c: Id, stamp: Time)                           // last look at the gate
    | Finish(row: Id, stamp: Time, status: S.Status, confirmation: Option<Id>)
    | CloseTrade(c: Id)                                                    // finalise a journal row from exchange fills

  datatype State = State(
    clock: Time,
    confs: C.Docs,
    confLog: map<Id, ConfirmationLog>,
    closes: S.Rows,
    closeLog: map<Id, CloseLog>,
    missions: A.Rows,
    triggerer: map<Id, Pid>,
    journal: J.Rows,
    procs: map<Pid, Pc>,
    nextPid: Pid)

  /** Everything a step leaves open: whether the call fails, what the gates say, the time read, fresh
      ids, which matching row is hit, and what the exchange answers. */
  datatype Choice = Choice(
    fail: bool, gate: bool, now: Time, expiresAt: Time, newId: Id, hit: Option<Id>, branch: nat,
    template: S.ScheduledClose, result: C.ExecutionResult, update: J.CloseUpdate)

  datatype Action =
    | Tick(elapsed: nat)
    | PutManual(c: Id, user: int, intent: C.Intent, expiresAt: Time)
    | StartMission(c: Id, user: int, expiresAt: Time)
    | StartConfirm(c: Id, user: int)
    | StartCancel(c: Id, user: int)
    | Arm(m: Id, user: int, window: Time, expiresAt: Time, now: Time)
    | Disarm(m: Id, user: int, now: Time)
    | Extend(m: Id, window: Time, expiresAt: Time, now: Time)
    | Sweep(now: Time)
    | StartWatch(m: Id, now: Time)
    | StartReconcile(row: Id, now: Time)
    | StartPoll(row: Id, now: Time)
    | StartResult(c: Id)
    | Advance(p: Pid, ch: Choice)
    | Crash(p: Pid)

  const INIT := State(0, map[], map[], map[], map[], map[], map[], map[], map[], 0)

  // ---------------------------------------------------------------------------
  // Building blocks
  // ---------------------------------------------------------------------------

  function Goto(s: State, p: Pid, pc: Pc): State {
    s.(procs := s.procs[p := pc])
  }

  function Done(s: State, p: Pid): State {
    s.(procs := s.procs - {p})
  }

  function Spawn(s: State, pc: Pc): State {
    s.(procs := s.procs[s.nextPid := pc], nextPid := s.nextPid + 1)
  }

  function NewConfirmation(user: int, intent: C.Intent, key: C.Key, expiresAt: Time): C.Confirmation {
    C.Confirmation(user, intent, key, C.Pending, expiresAt, None)
  }

  function NewLog(origin: Origin): ConfirmationLog {
    ConfirmationLog(origin, None, 0, 0, {}, false, false, false)
  }

  predicate CanPut(s: State, c: Id, key: C.Key) {
    c !in s.confs && !C.KeyTaken(s.confs, key)
  }

  function Put(s: State, c: Id, d: C.Confirmation, origin: Origin): State {
    s.(confs := s.confs[c := d], confLog := s.confLog[c := NewLog(origin)])
  }

  function NewClose(template: S.ScheduledClose, user: int, entry: Id, now: Time): S.ScheduledClose {
    template.(userId := user, entry := entry, status := S.AwaitingEntry, confirmation := None,
              createdAt := now, updatedAt := now, purgeAt := None)
  }

  function SaveClose(s: State, row: Id, close: S.ScheduledClose): State {
    s.(closes := s.closes[row := close], closeLog := s.closeLog[row := CloseLog(None, [], 0, None)])
  }

  predicate IsDryRun(mode: string) {
    Text.Lower(Text.TrimSpace(mode)) == "dry_run"
  }

  /** Some close protecting this entry was saved more than the awaiting time ago. */
  ghost predicate Overdue(s: State, c: Id) {
    exists r :: r in s.closes && s.closes[r].entry == c && s.clock > s.closes[r].createdAt + S.AWAITING_TTL
  }

  function AfterCancel(s: State, p: Pid, c: Id, user: int, after: After): State {
    match after
    case Stop => Done(s, p)
    case DropEntryClose => Goto(s, p, Drop(c, user, TriggerGaveUp))
    case SkipRow(row, stamp) => Goto(s, p, Finish(row, stamp, S.Skipped, Some(c)))
  }

  function ConfirmOk(s: State, p: Pid, c: Id, caller: Caller): State {
    match caller
    case ByUser => Goto(s, p, Activate(c))
    case ByTrigger => Goto(s, p, Activate(c))
    case ByClose(row, stamp) => Goto(s, p, Finish(row, stamp, S.Done, Some(c)))
  }

  /** A user's failed confirm leaves the close to the reconciler; the trigger drops it. */
  function ConfirmFailed(s: State, p: Pid, c: Id, user: int, caller: Caller): State {
    match caller
    case ByUser => Done(s, p)
    case ByTrigger => Goto(s, p, Drop(c, user, TriggerGaveUp))
    case ByClose(row, stamp) => Goto(s, p, Finish(row, stamp, S.Skipped, Some(c)))
  }

  // ---------------------------------------------------------------------------
  // Steps of the confirm and cancel calls
  // ---------------------------------------------------------------------------

  function AbandonStep(s: State, p: Pid, c: Id, user: int, after: After, ch: Choice): State {
    if ch.fail then AfterCancel(s, p, c, user, after)
    else if C.Actionable(s.confs, user, c, ch.now) then
      AfterCancel(s.(confs := C.SetStatus(s.confs, c, C.Cancelled)), p, c, user, after)
    else Goto(s, p, AbandonRead(c, user, ch.now, after))
  }

  function AbandonReadStep(s: State, p: Pid, c: Id, user: int, now: Time, after: After, ch: Choice): State {
    if !ch.fail && c in s.confs && s.confs[c].userId == user && C.LapsedPending(s.confs[c], now) then
      Goto(s, p, AbandonExpire(c, user, after))
    else AfterCancel(s, p, c, user, after)
  }

  function ExpireConfirmation(s: State, c: Id, ch: Choice): State {
    if !ch.fail && C.HasStatus(s.confs, c, C.Pending) then s.(confs := C.SetStatus(s.confs, c, C.Expired)) else s
  }

  function TakeStep(s: State, p: Pid, c: Id, user: int, caller: Caller, ch: Choice): State {
    if ch.fail then ConfirmFailed(s, p, c, user, caller)
    else if C.Actionable(s.confs, user, c, ch.now) && c in s.confLog then
      Goto(s.(confs := C.SetStatus(s.confs, c, C.Executing),
              confLog := s.confLog[c := s.confLog[c].(taker := Some(p), takes := s.confLog[c].takes + 1)]),
           p, Call(c, user, caller))
    else Goto(s, p, TakeRead(c, user, ch.now, caller))
  }

  function TakeReadStep(s: State, p: Pid, c: Id, user: int, now: Time, caller: Caller, ch: Choice): State {
    if ch.fail || c !in s.confs || c !in s.confLog then ConfirmFailed(s, p, c, user, caller)
    else match C.Answer(s.confs[c], user, now)
      case Finished(r) =>
        ConfirmOk(s.(confLog := s.confLog[c := s.confLog[c].(returned := s.confLog[c].returned + {r})]), p, c, caller)
      case _ =>
        if s.confs[c].userId == user && C.LapsedPending(s.confs[c], now) then Goto(s, p, TakeExpire(c, user, caller))
        else ConfirmFailed(s, p, c, user, caller)
  }

  /** No executor for the user, or the executor's answer: an error, or a result. */
  function CallStep(s: State, p: Pid, c: Id, user: int, caller: Caller, ch: Choice): State {
    if ch.branch == 0 || c !in s.confLog then Goto(s, p, Settle(c, user, caller, None))
    else
      Goto(s.(confLog := s.confLog[c := s.confLog[c].(calls := s.confLog[c].calls + 1)]),
           p, Settle(c, user, caller, if ch.branch == 1 then None else Some(ch.result)))
  }

  function FailStep(s: State, p: Pid, c: Id, user: int, caller: Caller, ch: Choice): State {
    ConfirmFailed(if !ch.fail && C.HasStatus(s.confs, c, C.Executing) then s.(confs := C.MarkedFailed(s.confs, c, ch.now)) else s,
                  p, c, user, caller)
  }

  ghost function CompleteStep(s: State, p: Pid, c: Id, user: int, caller: Caller, result: C.ExecutionResult, ch: Choice): State {
    if ch.fail || !C.HasStatus(s.confs, c, C.Executing) || c !in s.confLog then ConfirmFailed(s, p, c, user, caller)
    else
      Goto(s.(confs := C.Completed(s.confs, c, result, ch.now),
              confLog := s.confLog[c := s.confLog[c].(late := s.confLog[c].late || Overdue(s, c))]),
           p, Record(c, user, caller, result))
  }

  /** An entry opens its journal row; a timed close finalises its entry's row; a manual close is
      journalled on its own. Dry runs of entries are not journalled. */
  function Journalled(journal: J.Rows, c: Id, intent: C.Intent, r: C.ExecutionResult, closedAt: Time): J.Rows {
    match intent
    case OpenEntry => if IsDryRun(r.mode) then journal else J.Saved(journal, c, J.Opened(r.mode))
    case CloseOrder(Some(entry)) => J.Closed(journal, entry, J.CloseUpdate(r.mode, r.exitPrice, r.realizedPnl, closedAt))
    case CloseOrder(None) => J.Saved(journal, c, J.Trade(r.mode, J.OutcomeOf(r.realizedPnl), ZERO, r.realizedPnl, closedAt))
    case OtherOrder => journal
  }

  function RecordStep(s: State, p: Pid, c: Id, user: int, caller: Caller, r: C.ExecutionResult, ch: Choice): State {
    if c !in s.confs || c !in s.confLog then Done(s, p)
    else
      ConfirmOk(s.(journal := if ch.fail then s.journal else Journalled(s.journal, c, s.confs[c].intent, r, ch.now),
                   confLog := s.confLog[c := s.confLog[c].(returned := s.confLog[c].returned + {r})]),
                p, c, caller)
  }

  // ---------------------------------------------------------------------------
  // Steps on the closes
  // ---------------------------------------------------------------------------

  /** Saves the awaiting close. A closed gate saves nothing and is no error. */
  function AttachCloseStep(s: State, p: Pid, c: Id, ch: Choice): State {
    if c !in s.confs then Done(s, p)
    else if !ch.gate then Done(s, p)
    else if ch.fail || ch.newId in s.closes then Goto(s, p, Abandon(c, s.confs[c].userId, Stop))
    else Done(SaveClose(s, ch.newId, NewClose(ch.template, s.confs[c].userId, c, ch.now)), p)
  }

  function AttachEntryCloseStep(s: State, p: Pid, m: Id, c: Id, ch: Choice): State {
    if c !in s.confs then Done(s, p)
    else
      var user := s.confs[c].userId;
      if ch.branch != 0 && (ch.fail || ch.newId in s.closes) then Goto(s, p, Abandon(c, user, Stop))
      else
        var saved := if ch.branch == 0 then s else SaveClose(s, ch.newId, NewClose(ch.template, user, c, ch.now));
        if ch.gate then Goto(saved, p, Take(c, user, ByTrigger))
        else Goto(saved, p, Abandon(c, user, DropEntryClose))
  }

  function ActivateStep(s: State, p: Pid, c: Id, ch: Choice): State {
    match ch.hit
    case Some(r) =>
      if !ch.fail && r in s.closes && r in s.closeLog && S.Activatable(s.closes[r], c) then
        Done(s.(closes := s.closes[r := S.Activated(s.closes[r], ch.now)],
                closeLog := s.closeLog[r := s.closeLog[r].(activatedAt := Some(ch.now))]), p)
      else Done(s, p)
    case None => Done(s, p)
  }

  function AfterDrop(s: State, p: Pid, c: Id, user: int, cause: Cause): State {
    if cause == UserCancelled then Goto(s, p, Abandon(c, user, Stop)) else Done(s, p)
  }

  function DropStep(s: State, p: Pid, c: Id, user: int, cause: Cause, ch: Choice): State {
    match ch.hit
    case Some(r) =>
      if !ch.fail && r in s.closes && r in s.closeLog && S.Droppable(s.closes[r], c) then
        AfterDrop(s.(closes := s.closes[r := S.Dropped(s.closes[r], ch.now)],
                     closeLog := s.closeLog[r := s.closeLog[r].(cause := Some(cause), terminals := s.closeLog[r].terminals + 1)]),
                  p, c, user, cause)
      else AfterDrop(s, p, c, user, cause)
    case None => AfterDrop(s, p, c, user, cause)
  }

  /** Executed entries arm their close, ended entries drop it, anything else waits out its time. */
  function ReconcileStep(s: State, p: Pid, row: Id, c: Id, now: Time, ch: Choice): State {
    if ch.fail || row !in s.closes then Done(s, p)
    else
      var stale := s.closes[row].createdAt < now - S.AWAITING_TTL;
      var user := s.closes[row].userId;
      if c in s.confs && s.confs[c].status == C.Executed then Goto(s, p, Activate(c))
      else if c in s.confs && s.confs[c].status in {C.Failed, C.Cancelled, C.Expired} then Goto(s, p, Drop(c, user, EntryEnded))
      else if stale then Goto(s, p, Drop(c, user, EntryStale(row)))
      else Done(s, p)
  }

  function ClaimStep(s: State, p: Pid, row: Id, now: Time, ch: Choice): State {
    if !ch.fail && row in s.closes && row in s.closeLog && S.Claimable(s.closes[row], now) then
      Goto(s.(closes := s.closes[row := S.Claimed(s.closes[row], now)],
              closeLog := s.closeLog[row := s.closeLog[row].(claims := s.closeLog[row].claims + [Claim(p, now, s.clock)])]),
           p, Held(row, now))
    else Done(s, p)
  }

  /** A closed gate, a missing key or unreadable positions skip the row; a missing position ends it;
      otherwise the close order is prepared. */
  function HeldStep(s: State, p: Pid, row: Id, stamp: Time, ch: Choice): State {
    if ch.branch == 0 || row !in s.closes then Goto(s, p, Finish(row, stamp, S.Skipped, None))
    else if ch.branch == 1 then Goto(s, p, Finish(row, stamp, S.Done, None))
    else if ch.fail || !CanPut(s, ch.newId, C.ConfirmKey(ch.newId)) then Goto(s, p, Finish(row, stamp, S.Skipped, None))
    else
      var d := NewConfirmation(s.closes[row].userId, C.CloseOrder(Some(s.closes[row].entry)), C.ConfirmKey(ch.newId), ch.expiresAt);
      Goto(Put(s, ch.newId, d, TimedClose(row, p)), p, ClosePrepared(row, ch.newId, stamp))
  }

  function ClosePreparedStep(s: State, p: Pid, row: Id, c: Id, stamp: Time, ch: Choice): State {
    if c !in s.confs then Done(s, p)
    else if ch.gate then Goto(s, p, Take(c, s.confs[c].userId, ByClose(row, stamp)))
    else Goto(s, p, Abandon(c, s.confs[c].userId, SkipRow(row, stamp)))
  }

  function FinishStep(s: State, p: Pid, row: Id, status: S.Status, confirmation: Option<Id>, ch: Choice): State {
    if !ch.fail && row in s.closes && row in s.closeLog && s.closes[row].status == S.Executing then
      Done(s.(closes := s.closes[row := S.Ended(s.closes[row], status, confirmation, ch.now)],
              closeLog := s.closeLog[row := s.closeLog[row].(terminals := s.closeLog[row].terminals + 1)]), p)
    else Done(s, p)
  }

  // ---------------------------------------------------------------------------
  // Steps on armed missions
  // ---------------------------------------------------------------------------

  function ExpireMissionStep(s: State, p: Pid, m: Id, ch: Choice): State {
    if !ch.fail && m in s.missions && s.missions[m].status == A.Armed then
      Done(s.(missions := s.missions[m := A.MarkedExpired(s.missions[m], ch.now)]), p)
    else Done(s, p)
  }

  function TriggerStep(s: State, p: Pid, m: Id, now: Time, ch: Choice): State {
    if !ch.fail && m in s.missions && A.Triggerable(s.missions[m], now) then
      Goto(s.(missions := s.missions[m := A.MarkedTriggered(s.missions[m], ch.template.side, now)],
              triggerer := s.triggerer[m := p]), p, PrepareEntry(m))
    else Done(s, p)
  }

  function PrepareEntryStep(s: State, p: Pid, m: Id, ch: Choice): State {
    if ch.fail || m !in s.missions || !CanPut(s, ch.newId, C.ArmedKey(m)) then Done(s, p)
    else
      var d := NewConfirmation(s.missions[m].userKey, C.OpenEntry, C.ArmedKey(m), ch.expiresAt);
      Goto(Put(s, ch.newId, d, ArmedEntry(m, p)), p, RecordEntry(m, ch.newId))
  }

  function RecordEntryStep(s: State, p: Pid, m: Id, c: Id, ch: Choice): State {
    if c !in s.confs then Done(s, p)
    else if ch.fail || m !in s.missions || !A.Recordable(s.missions[m], c) then Goto(s, p, Abandon(c, s.confs[c].userId, Stop))
    else
      var noted := s.(missions := s.missions[m := A.Recorded(s.missions[m], c, ch.now)]);
      if ch.gate then Goto(noted, p, AttachEntryClose(m, c)) else Goto(noted, p, Abandon(c, s.confs[c].userId, Stop))
  }

  function CloseTradeStep(s: State, p: Pid, c: Id, ch: Choice): State {
    Done(if ch.fail then s else s.(journal := J.Closed(s.journal, c, ch.update)), p)
  }

  // ---------------------------------------------------------------------------
  // The whole system
  // ---------------------------------------------------------------------------

  ghost function AdvanceStep(s: State, p: Pid, ch: Choice): State
    requires p in s.procs
  {
    match s.procs[p]
    case AttachClose(c) => AttachCloseStep(s, p, c, ch)
    case Abandon(c, user, after) => AbandonStep(s, p, c, user, after, ch)
    case AbandonRead(c, user, now, after) => AbandonReadStep(s, p, c, user, now, after, ch)
    case AbandonExpire(c, user, after) => AfterCancel(ExpireConfirmation(s, c, ch), p, c, user, after)
    case Take(c, user, caller) => TakeStep(s, p, c, user, caller, ch)
    case TakeRead(c, user, now, caller) => TakeReadStep(s, p, c, user, now, caller, ch)
    case TakeExpire(c, user, caller) => ConfirmFailed(ExpireConfirmation(s, c, ch), p, c, user, caller)
    case Call(c, user, caller) => CallStep(s, p, c, user, caller, ch)
    case Settle(c, user, caller, outcome) =>
      (match outcome
       case Some(r) => CompleteStep(s, p, c, user, caller, r, ch)
       case None => FailStep(s, p, c, user, caller, ch))
    case Record(c, user, caller, r) => RecordStep(s, p, c, user, caller, r, ch)
    case Activate(c) => ActivateStep(s, p, c, ch)
    case Drop(c, user, cause) => DropStep(s, p, c, user, cause, ch)
    case ExpireMission(m) => ExpireMissionStep(s, p, m, ch)
    case Trigger(m, now) => TriggerStep(s, p, m, now, ch)
    case PrepareEntry(m) => PrepareEntryStep(s, p, m, ch)
    case RecordEntry(m, c) => RecordEntryStep(s, p, m, c, ch)
    case AttachEntryClose(m, c) => AttachEntryCloseStep(s, p, m, c, ch)
    case Reconcile(row, c, now) => ReconcileStep(s, p, row, c, now, ch)
    case ClaimRow(row, now) => ClaimStep(s, p, row, now, ch)
    case Held(row, stamp) => HeldStep(s, p, row, stamp, ch)
    case ClosePrepared(row, c, stamp) => ClosePreparedStep(s, p, row, c, stamp, ch)
    case Finish(row, stamp, status, confirmation) => FinishStep(s, p, row, status, confirmation, ch)
    case CloseTrade(c) => CloseTradeStep(s, p, c, ch)
  }

  /** The row a guarded update hits is one that matches, and none is hit only if none matches. */
  ghost predicate HonestHit(s: State, pc: Pc, ch: Choice) {
    match pc
    case Activate(c) =>
      (match ch.hit
       case Some(r) => r in s.closes && S.Activatable(s.closes[r], c)
       case None => forall r :: r in s.closes ==> !S.Activatable(s.closes[r], c))
    case Drop(c, _, _) =>
      (match ch.hit
       case Some(r) => r in s.closes && S.Droppable(s.closes[r], c)
       case None => forall r :: r in s.closes ==> !S.Droppable(s.closes[r], c))
    case _ => true
  }

  ghost predicate Enabled(s: State, a: Action) {
    match a
    case Tick(elapsed) => true
    case PutManual(c, user, intent, expiresAt) =>
      CanPut(s, c, C.ConfirmKey(c)) && (intent.CloseOrder? ==> intent.entry == None)
    case StartMission(c, user, expiresAt) => CanPut(s, c, C.ConfirmKey(c))
    case StartConfirm(c, user) => c in s.confs && c in s.confLog
    case StartCancel(c, user) => c in s.confs && c in s.confLog
    case Arm(m, user, window, expiresAt, now) => m !in s.missions
    case Disarm(m, user, now) => m in s.missions && s.missions[m].userKey == user
    case Extend(m, window, expiresAt, now) => m in s.missions
    case Sweep(now) => true
    case StartWatch(m, now) => m in s.missions && s.missions[m].status == A.Armed && now <= s.clock
    case StartReconcile(row, now) => row in s.closes && s.closes[row].status == S.AwaitingEntry && now <= s.clock
    case StartPoll(row, now) => row in s.closes && now <= s.clock
    case StartResult(c) => J.IsOpen(s.journal, c)
    case Advance(p, ch) => p in s.procs && ch.now <= s.clock && HonestHit(s, s.procs[p], ch)
    case Crash(p) => p in s.procs
  }

  ghost function Next(s: State, a: Action): State
    requires Enabled(s, a)
  {
    match a
    case Tick(elapsed) => s.(clock := s.clock + elapsed)
    case PutManual(c, user, intent, expiresAt) => Put(s, c, NewConfirmation(user, intent, C.ConfirmKey(c), expiresAt), Manual)
    case StartMission(c, user, expiresAt) =>
      Spawn(Put(s, c, NewConfirmation(user, C.OpenEntry, C.ConfirmKey(c), expiresAt), MissionPage(s.nextPid)), AttachClose(c))
    case StartConfirm(c, user) =>
      Spawn(s.(confLog := s.confLog[c := s.confLog[c].(otherConfirm := s.confLog[c].otherConfirm || s.confLog[c].origin.ArmedEntry?)]),
            Take(c, user, ByUser))
    case StartCancel(c, user) =>
      Spawn(s.(confLog := s.confLog[c := s.confLog[c].(userCancel := true)]), Drop(c, user, UserCancelled))
    case Arm(m, user, window, expiresAt, now) =>
      s.(missions := s.missions[m := A.ArmedMission(user, A.Armed, "", expiresAt, window, None, None, now)])
    case Disarm(m, user, now) =>
      if s.missions[m].status == A.Armed then s.(missions := s.missions[m := A.MarkedDisarmed(s.missions[m], now)]) else s
    case Extend(m, window, expiresAt, now) =>
      if s.missions[m].status == A.Armed then s.(missions := s.missions[m := A.Extended(s.missions[m], window, expiresAt, now)]) else s
    case Sweep(now) => s.(missions := A.Swept(s.missions, now))
    case StartWatch(m, now) => Spawn(s, if A.Stale(s.missions[m], now) then ExpireMission(m) else Trigger(m, now))
    case StartReconcile(row, now) => Spawn(s, Reconcile(row, s.closes[row].entry, now))
    case StartPoll(row, now) => Spawn(s, ClaimRow(row, now))
    case StartResult(c) => Spawn(s, CloseTrade(c))
    case Advance(p, ch) => AdvanceStep(s, p, ch)
    case Crash(p) => Done(s, p)
  }

  /** Every action of the run is enabled where it is taken. */
  ghost predicate Legal(s: State, run: seq<Action>)
    decreases |run|
  {
    run == [] || (Enabled(s, run[0]) && Legal(Next(s, run[0]), run[1..]))
  }

  /** The state a legal run ends in. */
  ghost function Outcome(s: State, run: seq<Action>): State
    requires Legal(s, run)
    decreases |run|
  {
    if run == [] then s else Outcome(Next(s, run[0]), run[1..])
  }
}
