# signal-copier, verified

A Dafny model of a Telegram-to-broker signal copier. A channel message such as
"EUR/JPY;10:20;PUT" becomes a signal; a signal becomes a cascade of at most three trades (an
initial one and two "gales" with larger stakes) until one wins; three tables record what happened;
after a restart a recovery pass decides what to do with cascades that were cut off. The whole is a
set of coroutines that interleave at every `await` and can be killed at any of them.

`dafny verify dfyconfig.toml` checks the project.

## How it is built

The pure layers come first. `Gale`, `StateMachine`, `Clock` and `Tables` state what one transition,
one conversion and one SQL statement mean. `Regexes`, `SignalLines`, `Parser`, `Rendering` and `Directions` do
the same for message text: patterns are data, a match is a list of cut points, and the executable
scan is proved equal to that definition. `SignalIds` covers the identity of a signal.

`Protocol` puts the pieces together as a transition system. A world holds the tables, the log of
broker calls, the dry-run broker's map, the queue, all coroutines with their program counters, and
the phase of boot. One step runs one coroutine from one `await` to the next; other steps kill a
coroutine, crash the process, deliver a message, or run recovery. Clock readings, broker answers
and results are arbitrary. `Safety` holds the inductive invariant; `Guarantees`, `Ledger`,
`ThreeLedgers`, `Outcomes`, `Endings`, `Refinement`, `Limits`, `InFlightTrades`, `Timing`,
`BootRecovery` and `RecoveryEndings` hold the theorems over all runs. `Announcements`, `TimedRuns`
and `Overshoot` add the clock: runs whose readings never run back, whose stages are not fired
before their targets, and whose signals come from messages.

`StateStores`, `DryRunBrokers`, `Copiers`, `Supervisors`, `Schedulers`, `Listeners` and
`Reconnects` are the program itself, as classes and loops that update their fields the way the
source does. `Copier.Await` lets everyone else take any number of steps; between two awaits each
method is proved to do exactly one step of the protocol, so every theorem over runs holds of the
code-shaped methods, and they add what only they can say: how a call ends, in which state, and that
the cascade loop terminates. Each coroutine keeps a diary (`Diaries`) of what it hears from outside:
clock readings, broker replies, results, exceptions, and where it slept in between. The contracts
say, in plain numbers, what the coroutine makes of these: which reading decides, what is written,
and with which stamp; and it gives up only after an exception.

## Results worth knowing

- No interleaving, redelivery, exception or restart places two trades for one signal and stage,
  and every call is preceded by its persisted status (`NoDuplicateTrade`, `WriteAhead`).
- A gale is called only after every lower stage of its signal has a closed row that counts as a
  loss, so no trade follows a win (`GaleOnlyAfterLosses`). A row that ends won or lost agrees with
  its stage rows, except that a row ended by `record_timeout` keeps a trade that never reaches the
  daily summary (`TerminalRowsTell`, `EndedByRecovery`).
- The daily trade limit is checked once per signal, so it can be exceeded: with n supervisors in
  flight a day can end with limit - 1 + 3n trades (`LimitOvershoot`). With an expiration over 600 s
  plus the tolerance the clock rules the third stage out and the bound is limit - 1 + 2n
  (`TimedOvershoot`). Both bounds are attained by runs the clock allows (`OvershootAttainedIff`).
- The configuration accepts any positive expiration, but headers speak in minutes: if it is not a
  multiple of 60 s, no message is ever accepted and nothing is ever traded
  (`SomeMessageAcceptedIff`, `NoMinutesNoTrades`).
- A restart never trades an old signal again. The docstring of `adopt` (trigger.py:184-193) says
  the cascade resumes; the status gate returns instead, and the only thing an adopted supervisor
  can still write is a daily-limit rejection (`RestartNeverTrades`, `AdoptionResumesNothing`).
- The product requirements (FR-5.3, and the edge-case table at docs/PRD.md:583) say a result
  timeout counts as a loss and the gale cascade proceeds. In the code a real timeout at the initial
  stage can open the first gale exactly when expiration + 30 s <= 300 s + tolerance, and one at the
  first gale can open the second exactly when the tolerance is at least 30 s and expiration + 0.1 s
  <= 600 s + tolerance (`TimeoutGaleIff`). With an expiration of at least 300 s and a tolerance under
  30 s, as in the defaults of 300 s and 2 s, it never does (`RealTimeoutsNeverGale`). For an
  expiration over 300 s plus the tolerance even an ordinary loss at expiry cannot open the first gale
  (`LossAtExpiryGalesIff`).
- The machine hardcodes five minutes between stages while four other places use the configured
  expiration. They agree exactly when the expiration is 300 s (`SchedulesAgreeIff`).
- `record_timeout` may re-adopt a row, but that branch is dead exactly when the tolerance is at
  most 30 s (`ReadoptUnreachableIff`).
- A header line with an allowed expiration is not enough for a message to parse: the first header
  line decides alone (`ParserMeetsGrammar`, `AllowedHeaderIsNotEnough`).
- The intake window is measured within the local date of reception, so a time just after midnight
  announced just before it is always dropped (`AcceptedIff`).
- FR-3.5, which FR-5.9 extends to every stage, asks that a fire more than the tolerance away from its
  target, on either side, be refused. The initial fire is checked for lateness only
  (state.py:129-139), so it meets the requirement exactly when it is not early; that needs the wall
  clock to be set back while the supervisor waits. A gale has no guard at its own fire
  (trigger.py:399): it is placed whatever the clock says, and meets the requirement exactly when the
  clock is within the tolerance by itself (`TwoSidedGuardIff`, `EarlyFirePlaces`, `FireGuardIff`,
  `GalePlacedAnyTime`). A run the clock allows fires a gale an hour late (`LateGaleHappens`).
- The state machine and the supervisor each have their own payout formula; they agree on every
  result and stake (`PnlFormulasAgree`).
- The drawdown percentage is taken of `start_of_day_balance`, which no broker of the repository
  exposes (`broker/mt5.py` keeps a private field); the model keeps both branches.

## Model

| member | source | states |
|---|---|---|
| StateMachine.TransitionKeepsInv | src/signal_copier/domain/state.py:283-347 | the machine accepts exactly a fire while pending and a result while placed; every accepted event keeps the invariant (stage, stake, trigger, total and error reason all fixed by the status) and strictly lowers the rank |
| StateMachine.TransitionTable | src/signal_copier/domain/state.py:157-347 | every answer of the machine, field by field and in plain numbers: what status, reason, stage, stake, schedule, result and total hold after each accepted event, with 92 hundredths of the stake for a win, and the reason of each rejection |
| StateMachine.ReachableStates | src/signal_copier/domain/state.py:89-111 | whatever events arrive in whatever order, the invariant holds, at most four are accepted, terminal states absorb the rest, and a tie ending or an unknown reason never occurs |
| StateMachine.ClosedForm | src/signal_copier/domain/state.py:242-280 | after any event list, status, reason and total are those of the one verdict a state-free description assigns to the list, in both directions for every status |
| StateMachine.VerdictUnique | src/signal_copier/domain/state.py:242-280 | an event list deserves at most one verdict |
| StateMachine.PnlBounds | src/signal_copier/domain/state.py:142-154 | no run loses more than the three stakes or wins more than one payout of the largest |
| StateMachine.WinsAlwaysProfit | src/signal_copier/domain/state.py:142-154 | over all event lists the machine can be given, every win ends in profit if and only if each stake's payout exceeds the stakes before it; doubling stakes satisfy that |
| Clock.AddMinutesIsAction | src/signal_copier/domain/signal.py:108-113 | adding minutes to a valid time is an action of the integers modulo 1440, and is the identity exactly on multiples of a day |
| Clock.FormatThenRead | src/signal_copier/infra/clock.py:40-47 | a formatted minute of the day is a valid time and reads back as itself |
| Clock.ReadThenFormat | src/signal_copier/domain/signal.py:108-113 | valid times and minutes of the day correspond one to one |
| Clock.ClockRoundTrip | src/signal_copier/infra/clock.py:8-47 | date, minute and text read off a trigger are those it was built from, in any fixed-offset zone |
| Clock.LocalMinuteInRange | src/signal_copier/infra/clock.py:24-47 | any instant lies in the minute that its local date and time denote |
| Clock.GaleTimesAreLocal | src/signal_copier/domain/signal.py:174-175 | the printed gale times are the local times of trigger plus 300 and 600 seconds, across midnight too |
| Safety.StepKeepsInv | src/signal_copier/scheduler/trigger.py:331-594 | every step of every coroutine keeps the invariant: one owner per stored signal, log within what the row's status allows, program counters in agreement with rows; and moves no row back |
| Safety.ReachableInv | src/signal_copier/scheduler/trigger.py:331-594 | the invariant holds in every reachable world |
| Guarantees.StatusForwardOnly | src/signal_copier/infra/state_store.py:91-108 | over any run no row disappears, each only moves up, and a terminal row keeps even its reason and timestamp, although the UPDATE is unconditional |
| Guarantees.NoDuplicateTrade | src/signal_copier/scheduler/trigger.py:399-451 | at most one broker call per signal and stage in every reachable world |
| Guarantees.WriteAhead | src/signal_copier/scheduler/trigger.py:417-451 | a broker call is made only while the stored status is that stage's, for that stage's stake, with only lower stages called before |
| Guarantees.ExactlyOnceIntake | src/signal_copier/telegram/listener.py:130-142 | a signal reaches the queue at most once ever, and only with its row stored and pending |
| Guarantees.SupervisorDate | src/signal_copier/scheduler/trigger.py:753-758 | the date whose summary a supervisor reads and writes is the date in the signal's identity |
| Guarantees.BrokerCallers | src/signal_copier/scheduler/trigger.py:444-451 | only a supervisor about to place calls the broker, once, with its own signal, stage and stake |
| Guarantees.RestartNeverTrades | src/signal_copier/scheduler/trigger.py:338-346 | after a crash no run places another trade for a signal stored before it |
| Guarantees.AdoptionResumesNothing | src/signal_copier/scheduler/trigger.py:175-235 | after a crash a previously stored row is changed by recovery or by a daily-limit rejection and by nothing else |
| ThreeLedgers.RunningTotalIsRowSum | src/signal_copier/scheduler/trigger.py:540-562 | at every await of a cascade a supervisor's total is the sum over the stage rows of its signal, and also the sum of the daily deltas it booked plus the one it is about to book, which at the loop head is none |
| ThreeLedgers.BookedSumIsDailyDeltas | src/signal_copier/scheduler/trigger.py:552-562 | any step changes what a signal has booked by exactly what that step adds, on the signal's behalf, to the realized profit of its date |
| ThreeLedgers.LiveCascadeBooks | src/signal_copier/scheduler/trigger.py:509-562 | a live cascade has booked every trade it closed except the one between its two writes |
| Outcomes.GaleOnlyAfterLosses | src/signal_copier/domain/state.py:261-275 | whenever the broker is called for a stage every lower stage of the signal has a closed losing row, and no call is above a won stage |
| Endings.SupervisorErrorsTell | src/signal_copier/domain/state.py:264-278 | when a supervisor ends a row as expired, exactly its first k stages were called and all k lost; as broker failure, k lost and k + 1 called; a signal the limit turns away while pending was never called |
| Endings.LimitRejectsUntraded | src/signal_copier/scheduler/trigger.py:331-336 | until the first crash a signal the daily limit rejected has no broker call |
| Outcomes.TerminalRowsTell | src/signal_copier/domain/state.py:261-267 | a won row rests on one won stage above lost ones with no call above it; a lost row on three lost stages, unless its last trade never reached the summary |
| Outcomes.EndedByRecovery | src/signal_copier/scheduler/trigger.py:130-167 | the trade a row was waiting on when recovery ended it is not booked then or ever, so its stage row, if any, is open or torn |
| RecoveryEndings.RecoveryWrites | src/signal_copier/scheduler/trigger.py:107-173 | in any run, a row that recovery changes is what a timeout makes of the stage it waited on, at the time it is stamped with: lost at the last stage, otherwise expired if the stamp is more than 300 s plus the tolerance past its trigger, and on the next stage if not |
| RecoveryEndings.RecoveryEnds | src/signal_copier/domain/state.py:264-271 | a row that recovery turns terminal is lost without a reason if it waited on the last stage and expired otherwise |
| Refinement.DriverRefinesMachine | src/signal_copier/scheduler/trigger.py:373-507 | in every reachable world a supervisor's state is the machine run of an event list whose results are those its stage rows record, in order, plus the one in hand, and it shows the verdict that list deserves |
| Ledger.DailySummaryIsRowSum | src/signal_copier/infra/state_store.py:219-258 | for every date and column, closed rows add up to the summary plus the rows not booked, which are exactly those about to be booked or cut off between the writes |
| Ledger.CallsFollowPlan | src/signal_copier/scheduler/trigger.py:373-507 | for every signal the broker calls are a prefix of (initial, a0), (gale1, a1), (gale2, a2) |
| Ledger.DefensiveBranchesUnreachable | src/signal_copier/scheduler/trigger.py:523-536 | every transition the driver asks for is accepted and no stage row collides |
| Ledger.PnlFormulasAgree | src/signal_copier/scheduler/trigger.py:675-688 | the supervisor's own payout formula equals the machine's for every result and stake, and both pay 92 hundredths of the stake for a win, take the stake for a loss, tie or timeout, and leave a failure alone |
| Ledger.ResultBooksPnl | src/signal_copier/domain/state.py:142-154 | the machine accepts any result of a placed state and adds to its total what the supervisor's formula books |
| Limits.LimitOvershoot | src/signal_copier/scheduler/trigger.py:690-721 | with at most n supervisors of a date in flight together, trades stay at most limit - 1 + 3n and profit above minus the floor minus n full cascades, in every interleaving and across restarts |
| TimedRuns.TimedOvershoot | src/signal_copier/scheduler/trigger.py:376-397 | in runs the clock allows, trades stay at most limit - 1 + Kn and profit above minus the floor minus n times the first K stakes, with K = 2 when the expiration exceeds 600 s plus the tolerance and 3 otherwise |
| TimedRuns.TimedConfined | src/signal_copier/domain/state.py:269-271 | with such an expiration no supervisor of a timed run ever reaches the third stage |
| Overshoot.OvershootAttainedIff | src/signal_copier/scheduler/trigger.py:690-721 | with the other limits off, for every trade limit and n as far as one minute has identities, a timed run of announced signals reaches limit - 1 + Kn trades if and only if the expiration is a whole number of minutes |
| Overshoot.NoMinutesNoTrades | src/signal_copier/telegram/listener.py:31-32 | with an expiration that is not a whole number of minutes no timed run stores or trades anything |
| Overshoot.LateGaleHappens | src/signal_copier/scheduler/trigger.py:396-424 | whenever messages can be accepted, a timed run brings a first gale whose wake-up an hour past the tolerance still goes on to the broker |
| Announcements.SomeMessageAcceptedIff | src/signal_copier/domain/signal.py:136-138 | some message can be accepted if and only if the configured expiration is a whole number of minutes |
| Announcements.SigAnnounced | src/signal_copier/telegram/listener.py:91-127 | each of the signals the attaining run uses is what the listener makes of an actual message |
| Announcements.SigsDiffer | src/signal_copier/domain/signal.py:190-191 | these signals have distinct identities |
| InFlightTrades.UnknownTradeUnreachable | src/signal_copier/broker/dry_run.py:80-98 | no supervisor waits on an unknown trade and no placement reuses a known id, whatever the random suffixes |
| InFlightTrades.MapIsExact | src/signal_copier/broker/dry_run.py:60-98 | in runs without a dying coroutine, crashes allowed, the broker's map is exactly the trades placed and not yet awaited |
| Timing.ScheduleDrift | src/signal_copier/domain/gale.py:28-39 | fire target, recovery's rebuilt trigger and the gale table coincide at every stage and differ from the machine's trigger by k times (expiration - 300) |
| Timing.SchedulesAgreeIff | src/signal_copier/domain/state.py:170 | machine and schedule agree in all states of all runs if and only if the expiration is 300 |
| Timing.TwoSidedGuardIff | src/signal_copier/domain/state.py:129-139 | the initial fire is refused outside the tolerance on both sides if and only if it is not earlier than trigger minus tolerance |
| Timing.EarlyFirePlaces | src/signal_copier/domain/state.py:312-330 | for every signal there is an early fire outside the tolerance that is placed |
| Timing.FireGuardIff | src/signal_copier/scheduler/trigger.py:399-424 | at any wake-up of any reachable supervisor nothing is placed outside the tolerance if and only if, while pending, the fire is not early, and, for a gale, the clock is within the tolerance |
| Timing.GalePlacedAnyTime | src/signal_copier/scheduler/trigger.py:396-451 | a gale that wakes up reaches the broker whatever the clock says |
| Timing.TimerIsLate | src/signal_copier/scheduler/trigger.py:651-666 | a wait timer, clipped to 0.1 s or not, expires at least 30 s after the trade did |
| Timing.TimeoutGaleIff | src/signal_copier/scheduler/trigger.py:640-673 | the exact configurations in which a timeout of a wait that began after its own stage's target can open the next stage |
| Timing.RealTimeoutsNeverGale | src/signal_copier/domain/state.py:264-275 | with tolerance under 30 s and expiration at least 300 s a real timeout ends the cascade: expired before the last stage, a plain loss at the last |
| Timing.LossAtExpiryGalesIff | src/signal_copier/domain/state.py:269-273 | a loss no earlier than the initial trade's expiry can open a gale if and only if the expiration is at most 300 s plus the tolerance |
| Timing.TimedOutRowsFinish | src/signal_copier/scheduler/trigger.py:130-167 | for any expiration and a tolerance up to 30 s a row past recovery's window becomes terminal |
| Timing.ReadoptUnreachableIff | src/signal_copier/scheduler/trigger.py:168-173 | the re-adopt branch is dead if and only if the tolerance is at most 30 s |
| BootRecovery.RecoveryIdempotent | src/signal_copier/recovery.py:46-94 | with limits off and tolerance up to 30 s, and messages arriving all the while, a finished boot leaves every placed row inside its window without writing a ledger or calling the broker, and a second boot at the same reading leaves every row stored before it as it was, whatever adopted supervisors do |
| StateStores.InsertKeepsListed | src/signal_copier/infra/state_store.py:208-217 | inserting by trigger keeps the rows ordered and each signal once |
| StateStores.StateStore.UpsertSignal | src/signal_copier/infra/state_store.py:45-80 | inserts a pending row or changes nothing, and says which; no stored row is ever altered |
| StateStores.StateStore.UpdateSignalState | src/signal_copier/infra/state_store.py:91-121 | overwrites status, reason and time of one row; every other row, and the set of rows, stays; a missing row is a no-op |
| StateStores.StateStore.RecordStagePlaced | src/signal_copier/infra/state_store.py:123-171 | appends an open row, or raises on a key conflict and changes nothing |
| StateStores.StateStore.RecordStageResult | src/signal_copier/infra/state_store.py:182-206 | closes exactly the rows with that key, with this result and profit, and leaves all others |
| StateStores.StateStore.BookTrade | src/signal_copier/infra/state_store.py:219-258 | adds one trade and its profit to a date's summary, creating it if absent, and leaves other dates |
| StateStores.StateStore.GetActiveSignals | src/signal_copier/infra/state_store.py:208-217 | returns every placed row once, ordered by trigger |
| DryRunBrokers.Broker.Place | src/signal_copier/broker/dry_run.py:60-78 | an accepted placement is remembered under an id carrying its signal and stage |
| DryRunBrokers.Broker.WaitResult | src/signal_copier/broker/dry_run.py:80-98 | pops exactly that entry, and recognises an unknown id |
| Copiers.OtherStepUndisturbs | src/signal_copier/scheduler/trigger.py:237-265 | no step of anyone else moves a coroutine's program counter, calls the broker for its signal, or writes its signal's row or stage rows; nor does it move recovery or write a row recovery holds |
| Copiers.Copier.Await | src/signal_copier/scheduler/trigger.py:394-397 | after any interleaving the world is reachable from the one before and the suspended coroutine is undisturbed |
| Supervisors.SignalSupervisor.Run | src/signal_copier/scheduler/trigger.py:312-329 | never raises; ends with its coroutine gone, by steps of the protocol only, having called the broker along the plan |
| Supervisors.SignalSupervisor.CheckDailyLimit | src/signal_copier/scheduler/trigger.py:690-721 | no answer means every limit that is on is still respected by the day; an answer names the first, in order, that is on and reached; the drawdown is a percentage of the opening balance, or currency units without one |
| Supervisors.SignalSupervisor.RunInner | src/signal_copier/scheduler/trigger.py:331-353 | gives up only after an exception; otherwise the signal has one of three fates: turned away by the limit its day had reached when checked, its row then an error for that; taken before, its row untouched; or driven, its row then what the machine makes of everything heard |
| Supervisors.SignalSupervisor.PassGate | src/signal_copier/scheduler/trigger.py:338-346 | lets a signal through, to the machine's start state, if and only if its row is pending; otherwise the coroutine ends; the row stays as it was |
| Supervisors.SignalSupervisor.HandleLimitRejection | src/signal_copier/scheduler/trigger.py:723-730 | ends the coroutine with the row an error for the daily limit, stamped before the write |
| Supervisors.SignalSupervisor.DriveCascade | src/signal_copier/scheduler/trigger.py:355-507 | terminates; its calls are a prefix of the plan; without an exception the row's status and reason are those of the machine run over the fire and one result per call, each as it was heard and at the reading taken after it |
| Supervisors.SignalSupervisor.Fire | src/signal_copier/scheduler/trigger.py:389-442 | sets its alarm for the stage's own trigger; a pending state is then fired at a reading taken after the wait: the row ends expired if and only if the reading is past the trigger by more than the tolerance, otherwise placed, stamped at a second reading; a gale goes on untouched |
| Supervisors.SignalSupervisor.PlaceAndSettle | src/signal_copier/scheduler/trigger.py:444-507 | one stage calls the broker exactly once, with its stake, and hears exactly the listed things in order; the next state, the row, and the stage row under the placement time and broker id, closed with what the stage earned, are those of the result heard and the reading after it |
| Supervisors.SignalSupervisor.Place | src/signal_copier/scheduler/trigger.py:446-451 | the clock is read, then the broker called, and the log grows by this call whatever the broker answers; an unsupported pair gives the machine's failed state |
| Supervisors.SignalSupervisor.ApplyErrorTransition | src/signal_copier/scheduler/trigger.py:596-638 | an unsupported pair ends the row as an error for want of a broker, stamped after the notice, unless something raises; no stage row is written |
| Supervisors.SignalSupervisor.WaitForStageResult | src/signal_copier/scheduler/trigger.py:640-673 | the broker's entry is gone before the wait begins; an unknown trade is an error result; the result is the one heard, and an expired timer is a timeout and ran from its reading to 30 s past the expiry, or for 0.1 s |
| Supervisors.SignalSupervisor.ApplyResultAndFinalize | src/signal_copier/scheduler/trigger.py:509-594 | applies the very result it is given at a reading taken then: a win ends the row won; a loss, tie or timeout opens the next stage, expires, or ends the row lost at the last; a failure ends it for want of a broker; the trade's stage row is closed with this result, what it earned and the reading, and the trade is booked; no further stage when the timer really expired |
| Supervisors.SignalSupervisor.BookAndLoop | src/signal_copier/scheduler/trigger.py:552-562 | the signal's date has one trade more than just before, one win or one loss more unless the broker failed, and what the trade earned |
| Schedulers.Scheduler.DispatchOne | src/signal_copier/scheduler/trigger.py:244-252 | takes the oldest signal off the queue and gives it a supervisor of its own |
| Schedulers.Scheduler.Adopt | src/signal_copier/scheduler/trigger.py:175-235 | spawns a supervisor from the beginning of its coroutine, its gale triggers one and two expirations after the first, or nothing for a terminal row |
| Schedulers.Scheduler.RecordTimeout | src/signal_copier/scheduler/trigger.py:107-173 | without an exception the row ends exactly as a timeout at a reading taken after it was read makes it: lost at the last stage; otherwise expired past 300 s and the tolerance, stamped with that reading, and on the next stage before |
| Schedulers.Scheduler.RecoverActiveSignals | src/signal_copier/recovery.py:46-94 | each active row gets exactly one handler, in turn, by its window; an adopted row gets exactly one new supervisor, of its own signal; a timed-out row is rewritten by a timeout; the counts add up to all rows with none abandoned; with a tolerance up to 30 s and no reading behind the first, timed-out rows have ended, lost or expired by their stage |
| Schedulers.TallyPartitions | src/signal_copier/recovery.py:59-94 | the counters count the rows timed out and the rows adopted; the abandoned one stays zero and the other two add up, because the query returns placed rows only |
| Schedulers.HandlerTable | src/signal_copier/recovery.py:63-110 | a placed row is timed out if and only if the clock is more than 330 s past its trigger plus zero, one or two expirations by its stage |
| Schedulers.Scheduler.HandleRow | src/signal_copier/recovery.py:63-92 | a terminal row is abandoned, one past its window timed out, any other adopted; a timed-out row is left as a timeout at the reading makes it |
| Listeners.AcceptedIsProper | src/signal_copier/telegram/listener.py:91-127 | an accepted message is incoming, from the watched channel and not blank, and yields the parsed pair, time and direction on the local date of reception, with coherent triggers, within the window |
| Listeners.RedeliveryKeepsIdentity | src/signal_copier/telegram/listener.py:92-112 | the same text has the same identity if and only if it is read on the same local date |
| Listeners.AcceptedIff | src/signal_copier/telegram/listener.py:101-109 | a parsed message is accepted if and only if its time of day is at most 60 s before or 1800 s after the clock on the same local day |
| Listeners.Listener.ProcessMessage | src/signal_copier/telegram/listener.py:68-145 | ignores exactly own, foreign and blank messages, without reading the clock; refuses one that does not parse for its reason and drops one outside the window, both without writing, though others may act while a refusal is sent; any other is persisted with the parsed fields, the reading and the message number: its row stored pending and the signal last in the queue as the first ever of its identity, or waiting for room behind 1000, or a duplicate, or lost to a database error |
| SignalIds.PayloadInjective | src/signal_copier/domain/signal.py:190-191 | the joined payload determines pair, time, direction and date text |
| SignalIds.IdMeansPayload | src/signal_copier/domain/signal.py:179-191 | identities of parsed messages are equal if and only if their payloads are |
| SignalIds.PayloadSpelled | src/signal_copier/domain/signal.py:190-191 | the payload is pair, time, the word up or down, and date, joined by bars |
| SignalIds.ParsedIsWellFormed | src/signal_copier/domain/signal.py:144-176 | what a successful parse guarantees about its fields |
| SignalIds.WellFormedShape | src/signal_copier/domain/signal.py:92-94 | a well-formed pair is six capitals around a slash, and its time a minute of the day |
| Regexes.ScanComplete | src/signal_copier/domain/signal.py:70-100 | scanning without backtracking finds the match of a deterministic pattern, with its only cut points |
| Regexes.LineScanIff | src/signal_copier/domain/signal.py:70-100 | a line is found at a position if and only if one is there, with the end a greedy tail takes |
| Regexes.SpacesListed | src/signal_copier/domain/signal.py:70-100 | white space is exactly these 29 characters, by code point |
| SignalLines.NoOverlap | src/signal_copier/domain/signal.py:92-100 | no signal line starts inside another, although white space may run over newlines |
| SignalLines.OneDirection | src/signal_copier/domain/signal.py:95-98 | the two alternatives never match at the same place |
| SignalLines.AllLinesAreAll | src/signal_copier/domain/signal.py:141 | the left-to-right search reports every signal line exactly once, in order |
| SignalLines.FirstHeaderIff | src/signal_copier/domain/signal.py:133-135 | the header search finds the first header line if there is one |
| Parser.ParserMeetsGrammar | src/signal_copier/domain/signal.py:132-176 | parsing succeeds with a signal if and only if the text denotes it: first header allowed, one signal line, time in range |
| Parser.FailureReasons | src/signal_copier/domain/signal.py:133-155 | each failure reason is reported if and only if its rule is the first one broken |
| Parser.LinesCounted | src/signal_copier/domain/signal.py:141-145 | none, one or several matches correspond to none, one or several places where a line starts |
| Parser.ParsesVisibleText | src/signal_copier/domain/signal.py:124-129 | the result depends on the visible text only; stripping byte-order marks first is redundant |
| Parser.BlindToZeroWidth | src/signal_copier/domain/signal.py:80-82 | inserting zero-width characters anywhere leaves the result unchanged |
| Parser.BlindToEach | src/signal_copier/domain/signal.py:80-82 | each of the seven characters, by code point, may be inserted anywhere without effect |
| Parser.OnlySevenInvisible | src/signal_copier/domain/signal.py:80-82 | and no other character is invisible |
| Rendering.ParseInvertsRender | src/signal_copier/domain/signal.py:119-176 | a message that begins with a header line and holds one rendered signal line parses back to its fields for any white space, mark and expiration, or is refused for its expiration alone; its other lines follow the header and hold no slash and no zero-width character |
| Directions.PutMeansDown | src/signal_copier/domain/signal.py:92-100 | PUT with any of the three red marks parses as a signal down, for every pair, time, expiration, white space and surrounding lines |
| Directions.CallMeansUp | src/signal_copier/domain/signal.py:92-100 | CALL with any of its three marks parses as a signal up, likewise |
| Directions.PutNeedsRed | src/signal_copier/domain/signal.py:92-100 | PUT with any other visible character for a mark, a green one in particular, is no signal line |
| Directions.CallNeedsGreen | src/signal_copier/domain/signal.py:92-100 | CALL with any visible mark but its own three is no signal line |
| Directions.ExampleParses | src/signal_copier/domain/signal.py:119-176 | one message in full, which parses to its six fields with its own mark and is refused with the other direction's |
| Rendering.AllowedHeaderIsNotEnough | src/signal_copier/domain/signal.py:133-138 | a later header with an allowed expiration does not help |
| Reconnects.BackoffsAgree | src/signal_copier/broker/reconnect.py:21-38 | the broker's backoff equals the Telegram one without jitter and is 0.9 to 1.1 times it, by the draw, with it; both are 1, 2, 4, 8, 16, then 30 seconds |
| Reconnects.BudgetClosedForm | src/signal_copier/telegram/client.py:30-36 | what n sleeps add up to |
| Reconnects.WithRetry | src/signal_copier/broker/reconnect.py:41-86 | at most the allowed calls, one retry fewer, exactly which call decided the outcome, and before each retry its own pause of 1, 2, 4, 8, 16, then 30 seconds, times 0.9 to 1.1 by its draw |
| Reconnects.SleptWithinBudget | src/signal_copier/broker/reconnect.py:21-38 | the pauses add up to within ten percent of the budget |
| Reconnects.Start | src/signal_copier/telegram/client.py:136-172 | ten lost connections are survived in a lifetime, each followed by its backoff; the eleventh, a long flood wait or a clean disconnect ends the loop |

## Left out

- Broker, Telegram and database libraries: their answers, results and exceptions are arbitrary; `broker/mt5.py` is not part of this model.
- Diaries.Diary.Now: clock readings are unconstrained, so a supervisor may be woken before its target; `TimedRuns` and the theorems that need the clock to advance say so.
- Rendering.ParseInvertsRender: lines before the header, and other lines with a slash or invisible characters, are covered by `ParserMeetsGrammar` and `BlindToZeroWidth` only.
- Overshoot.OvershootAttainedIff: the attaining run uses the identities of one minute, 617831552 of them.
- Reconnects.Start: takes the sequence of connection endings as input, because short flood waits can repeat for ever and the loop then never ends.
- Schedulers.Scheduler.DispatchOne: one turn of an endless loop; cancelling the loop is the crash step.
- Supervisors.SignalSupervisor.Run: the notifier is left out except that the unsupported-pair notice, which is not shielded, may raise.
- Guarantees.NoDuplicateTrade: one process at a time; two overlapping deployments on one database are not modelled.
- Parser.ParseSignal: `\d` is taken as the ASCII digits, and a header number too long for the interpreter to convert is not rejected.
- SignalIds.IdOf: the four hashed fields stand for the hash, so collisions and the 12-character cut do not occur; the date text is any injective function of a day number.
- Tables.TradeId: the hashed fields stand for the hash; rounding of the placement time to microseconds is not modelled, and by `DefensiveBranchesUnreachable` no key conflict arises anyway.
- Money and time are real numbers: float, Decimal and DOUBLE PRECISION rounding are not modelled.
- Zones have a fixed offset and dates are day numbers: daylight saving and the calendar are left out.
- The configuration does not change over the life of the database; `signals_count` and `limit_hit`, which no code path changes, are not columns of the model.
- Notification text, channel resolution, replay, authentication and start-up wiring would only add easy members.
- BootRecovery.RecoveryIdempotent: runs end before the scheduler dispatches a queued signal; what later runs may do to old signals is `RestartNeverTrades` and `AdoptionResumesNothing`.
- Liveness of a cascade after an exception or a restart: the code does not provide it; see `RestartNeverTrades`.
