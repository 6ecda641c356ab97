# Verified model of the ANNY trading bot

This project models the parts of the trading bot whose mistakes cost money, and proves what they promise.
`dafny verify dfyconfig.toml` checks everything.

**The life of a live mission.** `Protocol` is a transition system over the four collections that a mission
spans: confirmations, armed missions, scheduled closes and the trade journal. One store call is one atomic
step. Handlers, watchers, pollers and reconcilers of any number of instances are processes. Each stands at
the call it makes next, and may stop there for good. A write either happens or fails and changes nothing; a
timestamp is a clock reading of any earlier moment; gates, executor answers, fresh ids and the choice among
matching rows are left open. The guards are those of the Mongo filters. The same guards are the bodies of the
store classes (`ConfirmationStore`, `ScheduledCloseStore`, `ArmedMissionStore`, `TradeJournal`), whose methods
are proved against the functions the protocol steps with. `ProtocolInvariant`, `ProtocolSteps` and
`ProtocolRuns` prove by rely and guarantee that one invariant holds in every state of every run;
`ProtocolForward` that terminal documents never change; `ProtocolRequests` that what a confirmation's log says
(user requests, executor calls, late completion) was done by actions of the run; `ProtocolEvents` and
`ProtocolProgress` follow the exchange's results and the processes through a run, `ProtocolJournal` what is written
into the journal. `ProtocolTheorems` draws the conclusions. `KeptCloses` is a run in which everything works, and
`LostCloses` gives the runs in which a close is lost. History values (executor calls, claims,
activation times, flags) are part of the state but no guard reads them.

**The paper campaign.** `PaperRules`, `Paper`, `PaperTheorems`, `Campaign`, `WalkForward`, `Diagnostics` and
`AnnyBasic` model the paper engine, the preview and the walk-forward validation. Prices are reals; booked
profits are exact decimals of four places. A strategy is any function of the closes so far, or the ANNY Basic
model, whose QQE indicator is any function of closes.

**The trailing stop.** `Trailing` is the decision, stated on exact decimals and explained on reals.
`StopMoves` is the exchange protocol of moving a stop, where each call may work, fail, or work and report
failure; every intermediate book of orders is kept in a trace.

**Exchange arithmetic.** `Rationals`, `Decimals`, `DecimalText`, `Sizing`, `MakerEntry` and `Fills` model the
decimal type, order sizing, the maker-first entry and the realised result of a position.

**Two refinements.** `Commands` is the printer and parser of open and close commands, with `Decisions` on which
decisions are accepted and what they become; `Merkle` is the level loop of the daily root.

Where code and comments differ the model follows the code:

- `QuoFloor` truncates toward zero, though its comment speaks of flooring: -1 / 2 at scale 0 gives 0
  (`Decimals.NegativeHalfIsCut`). It floors exactly the non-negative quotients and those that need no cut
  (`Decimals.TruncatedIsFloorExactly`).
- `ComputeStop` says an active trail cannot turn a winner into a loss. After rounding to the tick a long's stop
  can lie below entry by less than one tick; `Trailing.LongBreakEven` says exactly when it does not.
- `reconcileAwaitingCloses` says that an executed entry never loses its close. It does lose it when a user's
  cancel drops the close first, when a user confirms an armed mission's entry by hand, or when the write that
  records the execution comes after the awaiting time; `ProtocolTheorems.NoLostClose` says that these are all.
  The close of a live position, filled but not recorded as executed, is also lost when that write fails, or when
  the process holding the fill stops before it or is still to make it; `ProtocolTheorems.FilledEntryKeepsClose`
  says that nothing else loses it. `LostCloses` has a run for each of the three causes, for the failed write, for
  the stopped process and for the write still to come.
- `stopPct` is described as clamped to a floor and a cap. The cap is applied last: without a fixed distance the
  result is never above the cap, and lies between floor and cap exactly when the floor is not above the cap
  (`PaperRules.StopIsClamped`). With a floor of 10 % and the default cap every stop is at 6 %
  (`PaperRules.StopBelowItsFloor`).
- `makerFirstEntry` relies on a refusal meaning that nothing filled and on the cancel answering with the executed
  quantity. Otherwise it can buy more than was asked; `MakerEntry.OverfillExactly` says for which answers.
- The estimate of trades is meant as the least a campaign needs. The expectation per trade is cut to eight
  decimals first, and the estimate is a true lower bound for every target exactly when nothing was cut
  (`Campaign.EstimateHoldsExactly`).
- A decision has no plan, but a quantity of three words such as `5 plan 2` gives its order one
  (`Decisions.FivePlanTwo`). An accepted decision is carried with its own values and no plan exactly when its size,
  trimmed, is one word (`Decisions.CarriedExactly`); `Decisions.AcceptedExactly` says which are accepted.
- A walk-forward with one test bar per fold always fails: its blocks have one candle less than a paper run asks
  for (`WalkForward.OneTestBarFails`). `WalkForward.AllRunExactly` says when all folds run.

## Model

| member | source | states |
|---|---|---|
| ProtocolTheorems.NoLostClose | internal/api/scheduled_close.go:321-357 | in every state of every run, the close of a durably executed entry is cancelled only if a user asked to cancel that entry, a user confirmed an armed mission's entry by hand, or the write recording its execution was made after the close's awaiting time had passed; each of the three is an action of the run |
| ProtocolTheorems.FilledEntryKeepsClose | internal/orders/service.go:355-403 | over every run: an executor call was answered with a result or an error; if with a result, the entry's close is cancelled only for the three causes of NoLostClose, or the completing write failed, or the process holding the result stopped before it or has yet to make it |
| ProtocolTheorems.ReconciledClose | internal/api/scheduled_close.go:337-357 | over every run: when a reconciler has read that the entry ended, or that the close waited too long, and has made its write without a failed call or a stop, then whatever others did in between the close no longer awaits; an executed entry's close is armed by that write if it still awaited, and cancelled only for the three causes; the close of an entry that ended otherwise is cancelled |
| ProtocolTheorems.ReconcilerArmsClose | internal/app/scheduled_closes.go:110-125 | a successful activation makes the awaiting close of that entry pending one window later and touches no other row |
| ProtocolTheorems.CloseOnlyAfterEntry | internal/app/scheduled_closes.go:55-72 | a close is pending, claimed, done or skipped only if its entry executed; every claim comes at least one whole window after activation |
| ProtocolTheorems.ExecutedEntryStays | internal/storage/mongo/confirmations.go:109-193 | when a close is active its entry is executed already, and keeps that document in every later state |
| ProtocolTheorems.SingleEntry | internal/api/armed_mission.go:539-590 | however many watchers, instances and crashes, an armed mission has at most one entry confirmation and at most one executor call for it |
| ProtocolTheorems.HonestDisarm | internal/app/armed_missions.go:78-123 | a mission that was disarmed or expired at any point of a run has no entry confirmation in any later state |
| ProtocolTheorems.TriggersInTime | internal/app/armed_missions.go:107-123 | in every state of every run a triggered mission was triggered before it expired |
| ProtocolTheorems.LeaseSpacing | internal/app/scheduled_closes.go:48-72 | two claims of one close are at least the claim timeout apart and by different pollers |
| ProtocolTheorems.EndsAtMostOnce | internal/api/scheduled_close.go:165-179 | exactly one terminal transition has happened to a terminal close, none to any other |
| ProtocolTheorems.EndedCloseIsFrozen | internal/app/scheduled_closes.go:97-108 | a terminal close is never claimed or changed again by anything that follows |
| ProtocolTheorems.OneHolderWithinLease | internal/api/scheduled_close.go:407-468 | if live holders are within their lease, a close has at most one holder |
| ProtocolTheorems.OneCloseOrderPerClaim | internal/api/scheduled_close.go:422-468 | each close order was prepared under a claim of its own, different orders under different claims, and is sent at most once |
| ProtocolTheorems.DoneMeansExecuted | internal/api/scheduled_close.go:455-468 | a close that is done with an order had that order executed; it names the row's entry and was prepared for the row |
| ProtocolTheorems.EndsAsOrdered | internal/api/scheduled_close.go:455-468 | in every state of every run, a process that ends its close writes done only if its order is executed, and skipped only if it did not execute the order itself |
| ProtocolTheorems.ConfirmOnce | internal/orders/service.go:355-403 | a confirmation is taken at most once, sent to the exchange at most once, and all its successful confirms return the same result |
| ProtocolTheorems.OnlyOwnersConfirm | internal/storage/mongo/confirmations.go:79-107 | in every state of every run, a process that calls the exchange for a confirmation, settles it or records it acts for its owner |
| ProtocolTheorems.ExpiredHadLapsed | internal/storage/mongo/confirmations.go:79-193 | in every state of every run, an expired confirmation's time is over |
| ProtocolTheorems.EndedConfirmationIsFrozen | internal/storage/mongo/confirmations.go:79-193 | an executed, failed, cancelled or expired confirmation never changes again |
| ProtocolTheorems.JournalIsFinal | internal/storage/mongo/journal.go:58-124 | a journal row belongs to an executed confirmation, is never removed, is finalised at most once and never reopened |
| ProtocolTheorems.JournalHoldsResults | internal/orders/service.go:430-536 | over every run: an open row is an executed entry's in its mode, no dry run; a final row was written by an action of the run, either by the result reconciler with its exit, profit and time, or by recording an executed close order that names the entry, with the exit price and realised profit stored for that order, or by recording an executed manual close with its own; the outcome is always the sign of the profit |
| ProtocolTheorems.WritesArePinned | internal/orders/service.go:494-536 | over every run: what a recorded close or a reported result wrote into an open row is what the row holds at the end, a recorded entry that is no dry run has a row, and a recorded manual close has its final row |
| ProtocolRuns.RunKeeps | internal/api/scheduled_close.go:385-468 | the protocol's invariant holds after every legal run of handlers, crashes and failed writes |
| ProtocolRuns.NextKeeps | internal/api/armed_mission.go:507-590 | any one step of any process, arrival, crash or clock tick keeps the invariant |
| ProtocolInvariant.ChangeKeepsRest | internal/orders/service.go:355-403 | a write that keeps its process's guarantee leaves every document and every other handler in order |
| ProtocolForward.RunForward | internal/storage/mongo/confirmations.go:109-193 | whatever a run does, terminal confirmations, left missions, ended closes and final journal rows stay as they are |
| ProtocolRequests.NotesComeFromActions | internal/api/command.go:108-138 | over every run, a cancel or hand confirm noted on a confirmation was asked for, an executor call was answered, and a late completion is a completing write made when the close was overdue, each by an action of the run |
| ProtocolProgress.FillsAreKept | internal/orders/service.go:355-384 | over every run, a result the exchange gave is at the end held by a process or recorded as executed, unless its completing write failed or its process stopped before that write |
| ProtocolProgress.Stands | internal/api/scheduled_close.go:385-468 | whatever other processes do, one that is neither stepped nor stopped stands at the same call |
| LostCloses.LostByUserCancel | internal/api/command.go:108-114 | a state reachable without any failed call in which a user's cancel has dropped the close of an entry that executed |
| LostCloses.LostByLateSettlement | internal/api/scheduled_close.go:336-355 | a state reachable without any failed call in which the close was dropped as stale and the entry executed afterwards |
| LostCloses.LostByUserConfirm | internal/api/armed_mission.go:580-583 | a state reachable without any failed call in which the trigger, finding its entry taken by a user's confirm, dropped the close and the entry executed |
| LostCloses.LostByFailedWrite | internal/orders/service.go:381-383 | a reachable state in which the exchange was called, the completing write failed and the close is gone, with none of the three causes |
| LostCloses.LostByStop | internal/api/scheduled_close.go:349-355 | a state reachable without any failed call in which the process holding the fill stopped and the reconciler dropped the close as stale, with none of the three causes |
| LostCloses.LostByPendingWrite | internal/api/scheduled_close.go:349-355 | a state reachable without any failed call in which the close was dropped as stale while a process holds the fill and has yet to record it, with none of the three causes |
| KeptCloses.MissionEndsInLoss | internal/api/scheduled_close.go:407-468 | a state reachable without any failed call in which the close is done with its order, and the entry's row is a loss with the order's exit price 101 and profit -5 |
| Reconciler.ReconcileAwaitingCloses | internal/api/scheduled_close.go:328-357 | one pass, in which any read or write may fail, resolves the oldest awaiting closes up to its limit by their entries' statuses, leaves one whose calls fail and all other rows alone, and with no more than the limit reaches every awaiting close |
| Reconciler.ExecutedEntriesAreArmed | internal/api/scheduled_close.go:343-354 | after a pass over no more than the limit, every awaiting close whose calls worked is pending exactly if its entry executed, due one window after its turn, and cancelled exactly if the entry ended otherwise or was still open past the awaiting time |
| Confirmations.ConfirmationStore.Put | internal/storage/mongo/confirmations.go:51-61 | a confirmation is stored only under a fresh id and a fresh idempotency key |
| Confirmations.ConfirmationStore.TakeForExecution | internal/storage/mongo/confirmations.go:79-107 | exactly a user's live pending confirmation is taken; otherwise the answer tells what became of it and a lapsed one is expired |
| Confirmations.ConfirmationStore.Complete | internal/storage/mongo/confirmations.go:109-125 | only an executing confirmation is completed, with its result and retention |
| Confirmations.ConfirmationStore.Fail | internal/storage/mongo/confirmations.go:127-143 | only an executing confirmation is marked failed |
| Confirmations.ConfirmationStore.Cancel | internal/storage/mongo/confirmations.go:145-193 | only a live pending confirmation is cancelled; an executing one is refused; cancelling twice is no error |
| Confirmations.ResultRoundTrip | internal/storage/mongo/confirmations.go:305-337 | storing a result as text and reading it back gives an equal result, and the same text again |
| ScheduledCloses.ScheduledCloseStore.Save | internal/app/scheduled_closes.go:26-29 | a close is inserted only under a fresh id |
| ScheduledCloses.ScheduledCloseStore.ClaimDue | internal/app/scheduled_closes.go:48-72 | a close is claimed exactly when due and either pending or held past the claim timeout |
| ScheduledCloses.ScheduledCloseStore.MarkTerminal | internal/app/scheduled_closes.go:97-108 | only a claimed close is marked done or skipped |
| ScheduledCloses.ScheduledCloseStore.ActivateByEntryConfirmation | internal/app/scheduled_closes.go:110-125 | one awaiting close of the entry, if there is any, becomes pending and due one window later |
| ScheduledCloses.ScheduledCloseStore.CancelByEntryConfirmation | internal/app/scheduled_closes.go:127-140 | one awaiting or pending close of the entry, if there is any, is cancelled |
| ScheduledCloses.ScheduledCloseStore.ListAwaitingEntry | internal/app/scheduled_closes.go:142-157 | the list holds distinct awaiting closes, oldest first, and misses one only if it is full of older ones |
| ArmedMissions.ArmedMissionStore.Save | internal/app/armed_missions.go:26-29 | a mission is inserted only under a fresh id |
| ArmedMissions.ArmedMissionStore.Disarm | internal/app/armed_missions.go:78-95 | the owner's disarm leaves a mission that is no longer armed and changes one only if it was armed |
| ArmedMissions.ArmedMissionStore.MarkExpired | internal/app/armed_missions.go:97-105 | only an armed mission expires |
| ArmedMissions.ArmedMissionStore.MarkTriggered | internal/app/armed_missions.go:107-123 | exactly an armed mission whose time has not passed is claimed for its entry |
| ArmedMissions.ArmedMissionStore.SetTriggeredConfirmation | internal/app/armed_missions.go:125-138 | a triggered mission records one confirmation, and again only the same |
| ArmedMissions.ArmedMissionStore.ExtendWindow | internal/app/armed_missions.go:140-154 | only an armed mission's window is extended |
| ArmedMissions.ArmedMissionStore.ExpireStale | internal/app/armed_missions.go:156-168 | all and only the armed missions past their time expire, and the count is theirs |
| Journal.OutcomeIsSign | internal/orders/service.go:499-505 | the recorded outcome is the sign of the realised result, and never open |
| Journal.TradeJournal.Save | internal/journal/memory.go:22-33 | an open row never replaces a row |
| Journal.TradeJournal.Close | internal/journal/memory.go:35-52 | only an open row is finalised, and it is final afterwards |
| Decimals.Normalize | internal/decimal/decimal.go:267-291 | the loop reaches the normal form without changing the value |
| Decimals.NormalIsUnique | internal/decimal/decimal.go:267-291 | two normal decimals of one value are identical |
| Decimals.AddIsExact | internal/decimal/decimal.go:186-197 | sums and differences agree with rational arithmetic |
| Decimals.MulIsExact | internal/decimal/decimal.go:175-184 | products agree with rational arithmetic |
| Decimals.NegAbsAreExact | internal/decimal/decimal.go:148-162 | negation and absolute value are exact |
| Decimals.CmpIsExact | internal/decimal/decimal.go:143-168 | comparison is the order of the values |
| Decimals.QuoFloorTruncates | internal/decimal/decimal.go:209-228 | division cuts the exact quotient toward zero at the scale, and fails exactly for a zero divisor or a negative scale |
| Decimals.TruncatedBounds | internal/decimal/decimal.go:219-227 | the cut is by less than one unit of the scale, toward zero |
| Decimals.TruncatedIsFloorExactly | internal/decimal/decimal.go:209-228 | cutting at a scale is flooring exactly for non-negative values and multiples of the scale's unit |
| Decimals.NegativeHalfIsCut | internal/decimal/decimal.go:209-228 | -1 / 2 at scale 0 gives 0, where the floor is -1 |
| Decimals.FloorToStepIsStepFloor | internal/decimal/decimal.go:230-258 | flooring to a step is defined exactly for positive steps and non-negative values, and equals the real floor to the step |
| Decimals.StepFloorIsGreatest | internal/decimal/decimal.go:230-258 | no multiple of the step lies between the result and the value |
| Decimals.StepFloorOfMultiple | internal/decimal/decimal.go:230-258 | a value is its own floor exactly when it is a multiple of the step |
| DecimalText.StringRoundTrip | internal/decimal/decimal.go:29-135 | parsing the printed text gives the decimal back in normal form |
| DecimalText.StringIsCanonical | internal/decimal/decimal.go:111-135 | decimals of one value print alike |
| DecimalText.ParsedIsNormal | internal/decimal/decimal.go:29-80 | whatever parses is in normal form |
| Sizing.UsdtSizing | internal/exchange/binance/executor.go:515-537 | a USDT size buys a multiple of the step that it can pay for, and one step more would cost more; for steps of at most sixteen decimals |
| Sizing.QtySizing | internal/exchange/binance/executor.go:519-536 | a quantity is cut to the largest step multiple not above it |
| Sizing.UsdtFails | internal/exchange/binance/executor.go:522-534 | exactly when a USDT size has no quantity |
| MakerEntry.MakerFirstEntry | internal/exchange/binance/executor.go:346-414 | the poll, cancel and remainder loop ends as its specification says, and cancels exactly once if the limit was accepted and not seen filled, else never |
| MakerEntry.MarketOnlyWhenSettled | internal/exchange/binance/executor.go:357-403 | no market order follows an unanswered placement, a failed poll, an interruption or a failed cancel |
| MakerEntry.OutcomeMeaning | internal/exchange/binance/executor.go:346-414 | how an entry ends, by the exchange's answers: without an answer to the placement it is left alone; after a refusal the whole request is bought at market; after the deciding poll it is aborted, complete, or topped up at market by what the cancel, or else the poll, leaves open |
| MakerEntry.OverfillExactly | internal/exchange/binance/executor.go:396-413 | limit fills and market remainder exceed the request exactly when a refused limit had filled, or the deciding text (the cancel's quantity, or if that is blank the last poll's) is blank or malformed with a positive fill, or reads less than the fill |
| MakerEntry.NeverOverfills | internal/exchange/binance/executor.go:346-414 | with an exchange that reports the executed total on cancel, a finished entry holds exactly the requested quantity |
| MakerEntry.OverfillsOnSilence | internal/exchange/binance/executor.go:391-402 | with a cancel answer that states no quantity, three units are bought for an order of two |
| Fills.RealizedTrade | internal/exchange/binance/executor.go:127-226 | the loop over the fills in time order computes the specified result |
| Fills.SortIsStable | internal/exchange/binance/executor.go:148-150 | the order is by time, keeps every fill, and keeps the given order within an instant |
| Fills.ClosedExactlyWhenCovered | internal/exchange/binance/executor.go:152-211 | for readable fills a result is reported exactly when they cover the entry quantity, and the included quantities then sum to exactly it |
| Fills.FailsExactly | internal/exchange/binance/executor.go:141-184 | the reading fails exactly for an entry without quantity, or a fill it cannot read before the exit covers the entry |
| Fills.Conservation | internal/exchange/binance/executor.go:186-206 | what was taken and what remains always add up to the entry quantity |
| Fills.ExitPriceWithin | internal/exchange/binance/executor.go:213-218 | the exit price lies between the least and greatest price of the fills taken in, up to 1e-8 |
| Fills.ExitPriceIsAverage | internal/exchange/binance/executor.go:197-218 | the exit price is the average price, by quantity, of the fills taken in until they cover the entry, cut to eight decimals |
| Fills.ClosesWithLastFill | internal/exchange/binance/executor.go:200-225 | the trade closes at the time of the fill with which the exit comes to cover the entry, or now if that fill has no time |
| Fills.ResultNearExact | internal/exchange/binance/executor.go:186-199 | the net result differs from exact proration by at most 1e-16 of the split fill's profit and commission |
| Fills.LaterFillsChangeNothing | internal/exchange/binance/executor.go:204-211 | a reported result is final: later fills, readable or not, never change it |
| Trailing.ComputeStopMeaning | internal/monitor/trailing.go:33-66 | the stop moves exactly when the trail is active and its candidate is tighter than the current stop, and moves to the candidate |
| Trailing.PercentOfIsPercent | internal/monitor/trailing.go:68-74 | a percentage is the exact one cut to eight decimals |
| Trailing.MoveNeverLoosens | internal/exchange/binance/executor.go:731-734 | rounding a tighter candidate down never loosens a tick-aligned stop |
| Trailing.LongNeedsAlignment | internal/exchange/binance/executor.go:731-734 | for longs that holds for all candidates exactly when the stop is tick-aligned |
| Trailing.LongBreakEven | internal/monitor/trailing.go:43-53 | a moved long stop is above entry less one tick and never above the mark; it is at or above entry exactly when entry is on a tick or the trail has passed the next tick |
| Trailing.ShortBreakEven | internal/monitor/trailing.go:54-63 | a moved short stop is at or below entry and above the mark less one tick |
| Trailing.LongCanEndBelowEntry | internal/monitor/trailing.go:27-32 | entry 100.5, mark 102, tick 1: the moved stop is 100 |
| Trailing.OnlineIsBatch | internal/monitor/runner.go:79-116 | after any sequence of marks the ratchet is the tightest of the first stop and all activated tick-floored candidates |
| StopMoves.Exchange.CurrentStop | internal/exchange/binance/executor.go:682-701 | reports some live stop of the symbol, and none exactly when there is none |
| StopMoves.Exchange.MoveStopLoss | internal/exchange/binance/executor.go:722-763 | the whole new book and every intermediate one, for every fate of the two calls |
| StopMoves.MoveIsSafe | internal/exchange/binance/executor.go:716-763 | whatever the calls do, no state a move passes through loosens the protection of any symbol, and stops stay tick-aligned |
| StopMoves.StaysGuarded | internal/monitor/multi.go:102-133 | a position that had a stop has one in every later state of the trace |
| StopMoves.Trailer.TrailPosition | internal/monitor/multi.go:108-133 | one position: protection never loosens, with fresh ids or used ones, and orders of other symbols stay; when every call works and the id is new the one stop moves as the policy says; a used id leaves the book as it was |
| StopMoves.Trailer.TrailUser | internal/monitor/multi.go:102-133 | all positions of an account in turn: protection never loosens whatever fails and whichever ids were used; with fresh ids each position with a symbol of its own whose calls work has its one stop moved one step of the ratchet, whatever fails for the others, and orders of other symbols stay |
| StopMoves.Trailer.TrailMarks | internal/monitor/runner.go:79-116 | after any sequence of ticks that work, from one aligned stop, the book holds exactly one stop of the symbol, and it is where the ratchet over the marks puts it |
| StopMoves.TrailedIsNextStop | internal/monitor/runner.go:87-107 | the trigger a successful move leaves is one step of the ratchet |
| Campaign.Simulate | internal/campaign/simulate.go:31-65 | the preview trades exactly while the rules say to continue and books the evenly spread outcomes |
| Campaign.WinsPace | internal/campaign/simulate.go:67-77 | wins keep pace with the win rate to within one trade |
| Campaign.PnlNearExpectation | internal/campaign/simulate.go:46-60 | the result after n trades is at most n true expectations and trails them by less than one reward and risk |
| Campaign.ExpectedMeaning | internal/campaign/campaign.go:30-39 | the expectation of one trade, cut to eight decimals |
| Campaign.SixDecimalsAreExact | internal/campaign/campaign.go:30-39 | with reward and risk of at most six decimals nothing is cut |
| Campaign.EstimateIsCeiling | internal/campaign/campaign.go:44-71 | the estimate is the least number of average trades that reaches the target |
| Campaign.EstimateExists | internal/campaign/campaign.go:44-71 | a plan has an estimate as soon as some machine-sized number of average trades reaches the target |
| Campaign.VerdictMeaning | internal/campaign/campaign.go:94-105 | target before drawdown before trade count, and otherwise continue: when exactly each verdict is given, on the values |
| Campaign.Sandwich | internal/campaign/simulate.go:31-65 | with a positive expectation, a drawdown budget of one reward and risk and caps no smaller than the bound, the goal has an estimate and the preview reaches the target after at most the bounding number of trades; after at least the estimated number when nothing is cut off the expectation |
| Campaign.EstimateHoldsExactly | internal/campaign/campaign.go:44-71 | for a positive expectation without caps, the estimate is a lower bound of the preview for every target exactly when nothing is cut off the expectation |
| Campaign.CutEdgeOverestimates | internal/campaign/campaign.go:30-39 | with a cut expectation the target of a hundred true expectations is reached by trade 100 while at least 101 are estimated |
| Campaign.FineEdgeIsCut | internal/campaign/campaign.go:30-39 | with nine decimals two trades are estimated for a target that one trade reaches |
| PaperRules.AtrPct | internal/campaign/paper.go:383-412 | the volatility loop computes the mean of the true ranges relative to the close, over the bars up to the entry that have a positive close |
| PaperRules.StopIsFixed | internal/campaign/paper.go:366-370 | a fixed stop distance is taken as it is |
| PaperRules.StopPct | internal/campaign/paper.go:366-379 | the stop distance is positive and at least the lesser of floor and cap, or the fixed distance |
| PaperRules.StopIsClamped | internal/campaign/paper.go:366-379 | without a fixed distance the stop is the average relative range times its factor if that lies between floor and cap, the floor below and the cap above; never above the cap, and within both exactly when the floor is not above the cap |
| PaperRules.StopBelowItsFloor | internal/campaign/paper.go:366-379 | a floor of 0.1 with the default cap gives every stop a distance of 0.06 |
| PaperRules.DefaultsAre | internal/campaign/paper.go:141-174 | what is left open takes its default |
| PaperRules.Resolve | internal/campaign/paper.go:338-360 | the first candle that touches a level decides, the stop wins a candle that touches both, and otherwise the last candle looked at closes the trade |
| PaperRules.ResolveTrade | internal/campaign/paper.go:338-360 | the scanning loop finds that resolution |
| PaperTheorems.BookedIs | internal/campaign/paper.go:255-311 | a trade's result is the reward at its target, minus the risk at its stop, and at a timeout the price move on its position but no more than these, each less the fees of both legs and rounded to four decimals; it is won exactly if the unrounded result is positive |
| PaperRules.SettingsAreKept | internal/campaign/paper.go:141-174 | settings that are given are kept |
| PaperRules.UsdtIsNear | internal/campaign/paper.go:527-533 | the booked profit is within half a unit of the fourth decimal |
| Paper.RunPaper | internal/campaign/paper.go:131-330 | the run is the specified one, fails exactly for too few candles or a model without its main candles, and reports the true maximum drawdown |
| Paper.MaxDrawdownUsdt | internal/campaign/paper.go:457-472 | the one-pass loop finds the maximum over all i <= j of equity i less equity j, from equity zero |
| PaperTheorems.Accounting | internal/campaign/paper.go:213-330 | trades never overlap; each is entered after the warmup where the strategy and the bias enter, has the bracket of its entry's stop distance on its sides, ends on the first candle touching it, and is booked by its outcome; no entry is passed over; counters, setups, losing streak and running profit agree with the trades, the rules said to continue before each, and the run ends by a rule or at the last candle |
| PaperTheorems.RunningIsPrefixSum | internal/campaign/paper.go:296-318 | every running profit is the sum of the profits so far |
| PaperTheorems.BoundedOvershoot | internal/campaign/paper.go:214-217 | a positive drawdown budget is never overshot by as much as one worst trade |
| PaperTheorems.NoLookAhead | internal/campaign/paper.go:209-330 | without a planning window, all trades on a series are trades on every longer one, but perhaps for a last timeout cut short by the end; for strategies on closes, and for ANNY Basic also when its main series grows by candles that had not closed |
| PaperTheorems.ResolveIsCausal | internal/campaign/paper.go:338-360 | more candles change a resolution only if it was a timeout cut short by the end |
| AnnyBasic.ClosedBefore | internal/strategy/annybasic/adapter.go:125-134 | the longest front of the main candles that have all closed |
| AnnyBasic.CdcTransitionFresh | internal/strategy/annybasic/adapter.go:78-99 | the loop answers yes exactly when some bar within the window had another zone and every bar since had the current one |
| AnnyBasic.RecentQqeCross | internal/strategy/annybasic/adapter.go:101-123 | the loop answers the cross of the latest crossing bar within the window, all bars since it being readable |
| AnnyBasic.CrossIs | internal/strategy/annybasic/adapter.go:101-123 | a cross up is momentum rising above its signal, a cross down its falling below |
| AnnyBasic.AverageTrueRange | internal/strategy/annybasic/adapter.go:150-165 | the loop computes the mean of the true ranges over the period |
| AnnyBasic.TrueRangeIs | internal/strategy/annybasic/adapter.go:167-174 | a true range spans the candle and the close before it |
| AnnyBasic.EmaMoves | internal/strategy/annybasic/indicators.go:115-132 | each value moves the exponential average two over the period plus one of the way towards itself |
| AnnyBasic.DecideMeaning | internal/strategy/annybasic/model.go:73-130 | the model stops exactly at ten of profit, fifteen trades or two losses in a row, and enters a side exactly in a calm aligned market with zone, momentum and cross of that side |
| AnnyBasic.EntryMeaning | internal/strategy/annybasic/adapter.go:18-76 | an observed bar is entered exactly when the account's limits leave room and the candles make the setup: the trend of the closed main candles points the side's way and turned there within four bars, their momentum is on its side and crossed within four bars, the execution averages agree, and the market is calm |
| AnnyBasic.ObservationIsCausal | internal/strategy/annybasic/adapter.go:18-76 | an observation depends on no later execution candle and on no main candle that has not closed |
| Diagnostics.RecordKeepsTop | internal/campaign/paper.go:474-488 | after every record the top blocker is the most frequent reason, the least one on a tie |
| Diagnostics.FinalizeChangesNothing | internal/campaign/paper.go:490-506 | the closing scan, in any order, changes nothing |
| Diagnostics.MergeIgnoresOrder | internal/campaign/walkforward.go:174-178 | adding a fold's counts does not depend on the order of map iteration |
| WalkForward.SplitWalkForwardFolds | internal/campaign/walkforward.go:52-103 | a fold count tiles all candles with sizes that differ by at most one and two test bars at least; a fold size tiles a front that leaves less than warmup and two bars; each window has its number, warmup and times; and exactly when there are too few candles |
| WalkForward.FilterCandlesByTime | internal/campaign/walkforward.go:191-203 | with times set, exactly the candles inside the window, in order; otherwise all |
| WalkForward.FoldIsLocal | internal/campaign/walkforward.go:109-131 | with times set, a fold's result depends on nothing outside its window |
| WalkForward.WindowTimesAreSet | internal/campaign/walkforward.go:205-218 | non-decreasing set open times give every window set times that enclose its candles |
| WalkForward.WindowHoldsItsOwn | internal/campaign/walkforward.go:133-145 | on candles that open one after another a window holds its own candles and none before them; none after them exactly if the gap behind it is no smaller than its last step |
| WalkForward.EvenWindowsAreApart | internal/campaign/walkforward.go:133-145 | on evenly spaced candles a window holds exactly its own |
| WalkForward.FoldSeesItsOwn | internal/campaign/walkforward.go:120-122 | the model's fold sees exactly the main candles that open from the window's first candle on and before its end |
| WalkForward.FoldTradesInTest | internal/campaign/walkforward.go:117-128 | every trade of a fold is entered on a test bar of its window at that candle's close and ends within the window |
| WalkForward.RunPaperWalkForward | internal/campaign/walkforward.go:109-131 | the folds are independent paper runs over exactly the windows of the split, in order, with their sums and verdict; it succeeds exactly when the candles can be split, the test size is not one bar, and the ANNY model has main candles in every window |
| WalkForward.AllRunExactly | internal/campaign/walkforward.go:109-131 | every fold of a split can run exactly when the test size is not one bar and the ANNY model has main candles in every window |
| WalkForward.WindowsAreRoomy | internal/campaign/walkforward.go:52-145 | every window of a split begins when its first candle opens and ends one step after its last, with its warmup and, unless single test bars were asked for, two test bars at least |
| WalkForward.OneTestBarFails | internal/campaign/walkforward.go:62-72 | with one test bar per fold the first fold has too few candles to run |
| WalkForward.AggregateWalkForward | internal/campaign/walkforward.go:146-189 | all counters, profit and counts per reason are the sums over the folds, drawdown the deepest, and the verdict is that of the summed state |
| WalkForward.TopBlockerIgnoresOrder | internal/campaign/walkforward.go:174-188 | the aggregated top blocker is the most frequent reason over all folds, the least on a tie, whatever order maps are visited in |
| Commands.FieldsOfJoin | internal/parser/parser.go:50-53 | words joined by blanks are split into the same words |
| Commands.FieldsOfTexts | internal/parser/parser.go:50-53 | texts joined by blanks are split into the words of each in turn |
| Commands.OpenRoundTrip | internal/signals/signal.go:102-142 | the command printed for a valid open decision parses to an open intent with exactly its values |
| Decisions.AcceptedExactly | internal/signals/signal.go:102-142 | an open decision is accepted exactly when it is valid with a size of one word, or valid but for a quantity of three words, an amount, plan, and 1, 2 or 3 |
| Decisions.CarriedExactly | internal/signals/signal.go:102-142 | an accepted open decision becomes an open order with its own symbol, side, leverage, prices, size and no plan exactly when its trimmed size is one word |
| Decisions.KeywordPlace | internal/parser/parser.go:77-151 | in every accepted open command the words entry, sl, tp, and size or qty stand at their own places |
| Decisions.AcceptedHead | internal/signals/signal.go:102-131 | every field of an accepted open decision that is printed before the size is one word |
| Decisions.QuantityBringsPlan | internal/signals/signal.go:134-142 | a quantity followed by the words plan and 1, 2 or 3 is accepted with that plan, which no field of the decision holds |
| Decisions.FivePlanTwo | internal/signals/signal.go:134-142 | the quantity 5 plan 2 is accepted as five with plan 2 |
| Decisions.BracketsBySide | internal/parser/parser.go:420-439 | at entry five, stop six and target four are accepted for a short and refused for a long, and the other way about |
| Commands.PrintedDecimalIsCarried | internal/signals/signal.go:122-132 | a positive decimal in printed form is carried as itself |
| Commands.AcceptedIsTradable | internal/parser/parser.go:77-151 | every accepted open intent has stop, entry and target in its side's order, positive prices and size, a leverage within the cap and a tradable symbol, whatever text it came from |
| Commands.OpenExactly | internal/parser/parser.go:77-151 | a command whose words are in order is refused exactly when stop and target do not bracket the entry on the side's sides; accepted, it has the values of its words |
| Commands.BaseSymbol | internal/parser/parser.go:398-418 | a base of letters and digits becomes its upper-case USDT pair, one that already ends in USDT is kept, and USDT itself is refused |
| Commands.CloseRoundTrip | internal/signals/signal.go:144-154 | a close decision parses to its symbol and percentage |
| Commands.AcceptedCloseIsPartial | internal/parser/parser.go:153-196 | an accepted close of a symbol closes more than nothing and at most all of a tradable symbol |
| Merkle.MerkleRoot | internal/transparency/transparency.go:58-76 | the level loop ends and computes the specified root |
| Merkle.RootIsTree | internal/transparency/transparency.go:53-57 | that root is the top of the recursive tree that repeats the last node of an odd row |
| Merkle.RootBindsList | internal/transparency/transparency.go:58-76 | different lists of one length with one root exhibit two different inputs of the hash with one value |
| Merkle.LevelHasSameRoot | internal/transparency/transparency.go:58-76 | the root does not bind the length: the first level of hashes of any list of more than one record is a shorter list with the same root, so the equal length in RootBindsList is needed |
| Merkle.RepeatedLastIsUnseen | internal/transparency/transparency.go:61-74 | repeating the last record of an odd list keeps the root too |

## Left out

- ProtocolTheorems.NoLostClose: does not bound how long an executor call may take, so that the completing write may always come late.
- ProtocolTheorems.OneHolderWithinLease: a claim is stamped with the time its poll began, so the lease measured on the clock can be shorter than the claim timeout by the length of a poll.
- Reconciler.ReconcileAwaitingCloses: the pass is uninterrupted; ReconciledClose lets others act between its read and its write, one process per listed row.
- StopMoves.Trailer.TrailUser: stops that trigger or are placed by others between its calls are not modelled, and a symbol is held on one side only, as in one-way mode.
- WalkForward.WindowTimesAreSet: times are whole milliseconds, as the exchange's candles are, so the least step past a last candle is one millisecond where the code takes a nanosecond.
- The time-to-live purge, which removes terminal documents after ninety days.
- The in-memory order store, whose cancel and complete are unguarded; the store classes follow the Mongo filters.
- `MarkCancelled` of a scheduled close, which no handler calls, and `ListDue` and the other listings, which only choose rows.
- The cap of three armed missions, a read followed by a write that holds only for sequential arms.
- Intent and audit records, usage counters, notifications and logs.
- The minimum age and quantity checks of the result reconciler, and reading positions and fills; they decide whether its one journal write is made.
- IEEE rounding in indicators, brackets and paper profits: prices are reals, and a zero entry price moves nothing.
- RSI and QQE inside the ANNY model, and the generic strategies: any functions of closes.
- Names, symbols and win percentage in paper results, and phase and leverage in model decisions: display and sizing only.
- Letters and digits outside ASCII in commands and symbols.
- The commands be, move, trail, add, plan and status: only easy members.
- SHA-256: the hash of a pair is any function.
- Opening orders' margin and leverage calls, stop placement with rollback, and the notional check: only easy members.
- HTTP handlers, Telegram, the dashboard, advisors, news and market-data clients, access records, key storage and configuration: not part of this model.
