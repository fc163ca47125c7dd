/** The whole copier as a transition system: intake handlers, queue, scheduler, supervisors,
    boot-time recovery, exceptions and crashes. One step runs from one `await` to the next. */
module Protocol {
  import opened Gale
  import opened StateMachine
  import opened Tables
  import Clock

  const QUEUE_CAPACITY: int := 1000
  const STAGE_WINDOW: real := 330.0

  /** Where a supervisor coroutine is suspended. */
  datatype Pc =
    | CheckLimit
    | RejectLimit
    | CheckGate
    | AwaitFire(state: SignalState)
    | PersistFire(fired: SignalState)
    | PlaceTrade(state: SignalState)
    | PersistFailure(failed: SignalState)
    | RecordPlaced(state: SignalState, placedAt: real, brokerId: BrokerTradeId)
    | StartWait(state: SignalState, trade: TradeId, brokerId: BrokerTradeId)
    | AwaitResult(state: SignalState, trade: TradeId, known: bool)
    | RecordResult(state: SignalState, next: SignalState, trade: TradeId, result: StageResult, now: real)
    | PersistResult(next: SignalState, trade: TradeId, result: StageResult, amount: real, now: real)
    | BookDaily(next: SignalState, trade: TradeId, result: StageResult, amount: real)

  datatype Task =
    | IntakeUpsert(signal: Signal)
    | IntakePut(signal: Signal)
    | Supervisor(signal: Signal, pc: Pc)

  datatype RecoveryPc =
    | NextRow
    | ReadTimedOut(id: SignalId, stage: Stage)
    | WriteTimedOut(id: SignalId, state: SignalState, now: real)
    | ReadAdvanced(id: SignalId)

  datatype Phase =
    | Booting
    | Recovering(now: real, rest: seq<SignalRow>, at: RecoveryPc)
    | Running

  datatype Placement = Placement(signalId: SignalId, stage: Stage, amount: real)

  /** `tables` and `log` outlive the process; `inflight`, `queue`, `tasks` and `phase` do not.
      The last three fields are history variables: who was ever enqueued, which closed trades
      reached the daily summary, and which were cut off before reaching it. */
  datatype World = World(
    tables: Tables,
    log: seq<Placement>,
    inflight: set<BrokerTradeId>,
    queue: seq<Signal>,
    tasks: map<nat, Task>,
    nextTask: nat,
    phase: Phase,
    enqueued: seq<SignalId>,
    booked: set<TradeId>,
    torn: set<TradeId>
  )

  const INIT: World := World(EMPTY, [], {}, [], map[], 0, Booting, [], {}, {})

  datatype PlaceOutcome = Placed(suffix: int) | UnsupportedPair | CallRaised

  /** What the outside answers: a clock reading, the broker's reply, a trade result. */
  datatype Oracle = Oracle(now: real, reply: PlaceOutcome, result: StageResult)

  datatype Step =
    | Arrive(signal: Signal)          // a handler has parsed a message and built its signal
    | Upsert(task: nat)
    | Enqueue(task: nat)
    | Dispatch                        // the scheduler takes a signal off the queue
    | Supervise(task: nat, oracle: Oracle)
    | Die(task: nat)                  // an exception or a cancellation ends the coroutine
    | Crash
    | ReadActive(rows: seq<SignalRow>, now: real)
    | Recover(oracle: Oracle)

  /** A signal as the listener builds it, and as adoption rebuilds it from a row. */
  predicate ProperSignal(s: Signal, cfg: Config) {
    && 0 <= s.id.minuteOfDay < 1440
    && s.expirationSeconds == cfg.expirationSeconds
    && s.triggerInitial == Clock.HhmmToUnix(s.id.minuteOfDay, s.id.date, cfg.utcOffset)
    && (s.triggerGale1, s.triggerGale2) == ComputeGaleTriggers(s.triggerInitial, s.expirationSeconds)
  }

  predicate InGap(t: Task) { t.Supervisor? && (t.pc.PersistResult? || t.pc.BookDaily?) }

  function SetPc(w: World, t: nat, pc: Pc): World
    requires t in w.tasks && w.tasks[t].Supervisor?
  {
    w.(tasks := w.tasks[t := Supervisor(w.tasks[t].signal, pc)])
  }

  function Drop(w: World, t: nat): World { w.(tasks := w.tasks - {t}) }

  function Spawn(w: World, task: Task): World {
    w.(tasks := w.tasks[w.nextTask := task], nextTask := w.nextTask + 1)
  }

  function UpdateStatus(w: World, id: SignalId, s: SignalState, now: real): World {
    w.(tables := UpdateSignalState(w.tables, id, s.status, s.errorReason, now))
  }

  /** `_compute_stage_pnl_for_result`: the supervisor's own formula for what a trade earned. */
  function SupervisorPnl(result: StageResult, amount: real): real {
    match result
    case Win => amount * 0.92
    case Loss => -amount
    case Tie => -amount
    case Timeout => -amount
    case Failed => 0.0
  }

  // ----- Supervisor statements, one function per suspension point -----

  function DoCheckLimit(w: World, t: nat, s: Signal, cfg: Config): World
    requires t in w.tasks && w.tasks[t].Supervisor?
  {
    if LimitHit(w.tables, Clock.SignalDate(s.triggerInitial, cfg.utcOffset), cfg).Some?
    then SetPc(w, t, RejectLimit) else SetPc(w, t, CheckGate)
  }

  function DoRejectLimit(w: World, t: nat, s: Signal, now: real): World {
    Drop(w.(tables := UpdateSignalState(w.tables, s.id, Error, Some(DailyLimitHit), now)), t)
  }

  function DoCheckGate(w: World, t: nat, s: Signal, cfg: Config): World
    requires t in w.tasks && w.tasks[t].Supervisor?
  {
    if s.id in w.tables.signals && w.tables.signals[s.id].status != Pending then Drop(w, t)
    else SetPc(w, t, AwaitFire(FromSignal(s, cfg)))
  }

  function DoAwaitFire(w: World, t: nat, state: SignalState, now: real, cfg: Config): World
    requires t in w.tasks && w.tasks[t].Supervisor?
  {
    if state.status != Pending then SetPc(w, t, PlaceTrade(state))
    else match Transition(state, FireEvent(now), cfg)
      case Rejected(_) => Drop(w, t)
      case Accepted(fired) => SetPc(w, t, PersistFire(fired))
  }

  function DoPersistFire(w: World, t: nat, s: Signal, fired: SignalState, now: real): World
    requires t in w.tasks && w.tasks[t].Supervisor?
  {
    var w' := UpdateStatus(w, s.id, fired, now);
    if fired.status == Error then Drop(w', t) else SetPc(w', t, PlaceTrade(fired))
  }

  /** The broker is called whatever it answers; a dry-run broker remembers what it accepted. */
  function DoPlaceTrade(w: World, t: nat, s: Signal, state: SignalState, o: Oracle, cfg: Config): World
    requires t in w.tasks && w.tasks[t].Supervisor?
  {
    if state.stage.None? then Drop(w, t)
    else
      var stage := state.stage.value;
      var w' := w.(log := w.log + [Placement(s.id, stage, state.amount)]);
      match o.reply
      case Placed(suffix) =>
        var id := BrokerTradeId(s.id, stage, suffix);
        SetPc(w'.(inflight := w'.inflight + {id}), t, RecordPlaced(state, o.now, id))
      case UnsupportedPair =>
        (match Transition(state, ResultEvent(Failed, o.now), cfg)
         case Rejected(_) => Drop(w', t)
         case Accepted(failed) => SetPc(w', t, PersistFailure(failed)))
      case CallRaised => Drop(w', t)
  }

  function DoRecordPlaced(
      w: World, t: nat, s: Signal, state: SignalState, placedAt: real, brokerId: BrokerTradeId): World
    requires t in w.tasks && w.tasks[t].Supervisor?
  {
    if state.stage.None? then Drop(w, t)
    else
      var trade := TradeId(s.id, state.stage.value, placedAt);
      match RecordStagePlaced(w.tables, trade, state.amount, state.expiresAt, brokerId)
      case None => Drop(w, t)
      case Some(tables) => SetPc(w.(tables := tables), t, StartWait(state, trade, brokerId))
  }

  /** `wait_result` pops the in-flight entry before it suspends; an unknown id is an error result. */
  function DoStartWait(w: World, t: nat, state: SignalState, trade: TradeId, brokerId: BrokerTradeId): World
    requires t in w.tasks && w.tasks[t].Supervisor?
  {
    SetPc(w.(inflight := w.inflight - {brokerId}), t, AwaitResult(state, trade, brokerId in w.inflight))
  }

  function DoAwaitResult(
      w: World, t: nat, state: SignalState, trade: TradeId, known: bool, o: Oracle, cfg: Config): World
    requires t in w.tasks && w.tasks[t].Supervisor?
  {
    var result := if known then o.result else Failed;
    match Transition(state, ResultEvent(result, o.now), cfg)
    case Rejected(_) => SetPc(w, t, AwaitFire(state))
    case Accepted(next) => SetPc(w, t, RecordResult(state, next, trade, result, o.now))
  }

  function DoRecordResult(w: World, t: nat, pc: Pc): World
    requires t in w.tasks && w.tasks[t].Supervisor? && pc.RecordResult?
  {
    var pnl := SupervisorPnl(pc.result, pc.state.amount);
    SetPc(w.(tables := RecordStageResult(w.tables, pc.trade, pc.result, pnl, pc.now)), t,
          PersistResult(pc.next, pc.trade, pc.result, pc.state.amount, pc.now))
  }

  function DoPersistResult(w: World, t: nat, s: Signal, pc: Pc): World
    requires t in w.tasks && w.tasks[t].Supervisor? && pc.PersistResult?
  {
    SetPc(UpdateStatus(w, s.id, pc.next, pc.now), t, BookDaily(pc.next, pc.trade, pc.result, pc.amount))
  }

  function DoBookDaily(w: World, t: nat, s: Signal, pc: Pc, cfg: Config): World
    requires t in w.tasks && w.tasks[t].Supervisor? && pc.BookDaily?
  {
    var date := Clock.SignalDate(s.triggerInitial, cfg.utcOffset);
    var w' := w.(tables := BookTrade(w.tables, date, pc.result, SupervisorPnl(pc.result, pc.amount)),
                 booked := w.booked + {pc.trade});
    if pc.next.stage.None? then Drop(w', t) else SetPc(w', t, AwaitFire(pc.next))
  }

  function DoSupervise(w: World, t: nat, o: Oracle, cfg: Config): World
    requires t in w.tasks && w.tasks[t].Supervisor?
  {
    var s, pc := w.tasks[t].signal, w.tasks[t].pc;
    match pc
    case CheckLimit => DoCheckLimit(w, t, s, cfg)
    case RejectLimit => DoRejectLimit(w, t, s, o.now)
    case CheckGate => DoCheckGate(w, t, s, cfg)
    case AwaitFire(state) => DoAwaitFire(w, t, state, o.now, cfg)
    case PersistFire(fired) => DoPersistFire(w, t, s, fired, o.now)
    case PlaceTrade(state) => DoPlaceTrade(w, t, s, state, o, cfg)
    case PersistFailure(failed) => Drop(UpdateStatus(w, s.id, failed, o.now), t)
    case RecordPlaced(state, placedAt, brokerId) => DoRecordPlaced(w, t, s, state, placedAt, brokerId)
    case StartWait(state, trade, brokerId) => DoStartWait(w, t, state, trade, brokerId)
    case AwaitResult(state, trade, known) => DoAwaitResult(w, t, state, trade, known, o, cfg)
    case RecordResult(_, _, _, _, _) => DoRecordResult(w, t, pc)
    case PersistResult(_, _, _, _, _) => DoPersistResult(w, t, s, pc)
    case BookDaily(_, _, _, _) => DoBookDaily(w, t, s, pc, cfg)
  }

  // ----- Intake, recovery, crash -----

  function DoUpsert(w: World, t: nat): World
    requires t in w.tasks && w.tasks[t].IntakeUpsert?
  {
    var (tables, inserted) := UpsertSignal(w.tables, w.tasks[t].signal);
    if inserted then w.(tables := tables, tasks := w.tasks[t := IntakePut(w.tasks[t].signal)])
    else Drop(w, t)
  }

  function DoEnqueue(w: World, t: nat): World
    requires t in w.tasks && w.tasks[t].IntakePut?
  {
    var s := w.tasks[t].signal;
    Drop(w.(queue := w.queue + [s], enqueued := w.enqueued + [s.id]), t)
  }

  function DoDispatch(w: World): World
    requires w.queue != []
  {
    Spawn(w.(queue := w.queue[1..]), Supervisor(w.queue[0], CheckLimit))
  }

  function GapTrades(w: World): set<TradeId> {
    set t | t in w.tasks && InGap(w.tasks[t]) :: w.tasks[t].pc.trade
  }

  function DoDie(w: World, t: nat): World
    requires t in w.tasks
  {
    Drop(if InGap(w.tasks[t]) then w.(torn := w.torn + {w.tasks[t].pc.trade}) else w, t)
  }

  function DoCrash(w: World): World {
    w.(inflight := {}, queue := [], tasks := map[], phase := Booting, torn := w.torn + GapTrades(w))
  }

  /** The stage a placed row is waiting on. */
  function StageOf(status: Status): Option<Stage> {
    match status
    case PlacedInitial => Some(Initial)
    case PlacedGale1 => Some(Gale1)
    case PlacedGale2 => Some(Gale2)
    case _ => None
  }

  /** A stage's trigger as recovery and `record_timeout` rebuild it from the row. */
  function StageFireTime(s: Signal, stage: Stage): real {
    s.triggerInitial + (Index(stage) * s.expirationSeconds) as real
  }

  function RebuildSignal(row: SignalRow): Signal {
    row.signal.(triggerGale1 := row.signal.triggerInitial + row.signal.expirationSeconds as real,
                triggerGale2 := row.signal.triggerInitial + (2 * row.signal.expirationSeconds) as real)
  }

  function Adopt(w: World, row: SignalRow): World {
    if IsTerminal(row.status) then w else Spawn(w, Supervisor(RebuildSignal(row), CheckLimit))
  }

  /** The state `record_timeout` reconstructs: no result and no profit so far. */
  function TimedOutState(row: SignalRow, stage: Stage, cfg: Config): SignalState {
    SignalState(
      row.signal.id, row.status, Some(stage), AmountForStage(stage, cfg), StageFireTime(row.signal, stage),
      StageFireTime(row.signal, stage) + row.signal.expirationSeconds as real, None, 0.0, row.errorReason)
  }

  function WithRecovery(w: World, rest: seq<SignalRow>, at: RecoveryPc): World
    requires w.phase.Recovering?
  {
    w.(phase := Recovering(w.phase.now, rest, at))
  }

  /** One row of the recovery loop up to its first `await`. */
  function DoNextRow(w: World): World
    requires w.phase.Recovering?
  {
    var rest := w.phase.rest;
    if rest == [] then w.(phase := Running)
    else
      var row := rest[0];
      match StageOf(row.status)
      case None => WithRecovery(w, rest[1..], NextRow)
      case Some(stage) =>
        if w.phase.now > StageFireTime(row.signal, stage) + STAGE_WINDOW
        then WithRecovery(w, rest[1..], ReadTimedOut(row.signal.id, stage))
        else Adopt(WithRecovery(w, rest[1..], NextRow), row)
  }

  function DoReadTimedOut(w: World, id: SignalId, stage: Stage, now: real, cfg: Config): World
    requires w.phase.Recovering?
  {
    if id !in w.tables.signals then WithRecovery(w, w.phase.rest, NextRow)
    else match Transition(TimedOutState(w.tables.signals[id], stage, cfg), ResultEvent(Timeout, now), cfg)
      case Rejected(_) => WithRecovery(w, w.phase.rest, NextRow)
      case Accepted(next) => WithRecovery(w, w.phase.rest, WriteTimedOut(id, next, now))
  }

  function DoWriteTimedOut(w: World, id: SignalId, state: SignalState, now: real): World
    requires w.phase.Recovering?
  {
    WithRecovery(UpdateStatus(w, id, state, now), w.phase.rest,
                 if IsPlaced(state.status) then ReadAdvanced(id) else NextRow)
  }

  function DoReadAdvanced(w: World, id: SignalId): World
    requires w.phase.Recovering?
  {
    var w' := WithRecovery(w, w.phase.rest, NextRow);
    if id in w.tables.signals then Adopt(w', w.tables.signals[id]) else w'
  }

  function DoRecover(w: World, o: Oracle, cfg: Config): World
    requires w.phase.Recovering?
  {
    match w.phase.at
    case NextRow => DoNextRow(w)
    case ReadTimedOut(id, stage) => DoReadTimedOut(w, id, stage, o.now, cfg)
    case WriteTimedOut(id, state, now) => DoWriteTimedOut(w, id, state, now)
    case ReadAdvanced(id) => DoReadAdvanced(w, id)
  }

  // ----- The transition system -----

  predicate Enabled(w: World, step: Step, cfg: Config) {
    match step
    case Arrive(s) => ProperSignal(s, cfg)
    case Upsert(t) => t in w.tasks && w.tasks[t].IntakeUpsert?
    case Enqueue(t) => t in w.tasks && w.tasks[t].IntakePut? && |w.queue| < QUEUE_CAPACITY
    case Dispatch => w.phase.Running? && w.queue != []
    case Supervise(t, _) => t in w.tasks && w.tasks[t].Supervisor?
    case Die(t) => t in w.tasks
    case Crash => true
    case ReadActive(rows, _) => w.phase.Booting? && IsActiveSnapshot(w.tables, rows)
    case Recover(_) => w.phase.Recovering?
  }

  function Apply(w: World, step: Step, cfg: Config): World
    requires Enabled(w, step, cfg)
  {
    match step
    case Arrive(s) => Spawn(w, IntakeUpsert(s))
    case Upsert(t) => DoUpsert(w, t)
    case Enqueue(t) => DoEnqueue(w, t)
    case Dispatch => DoDispatch(w)
    case Supervise(t, o) => DoSupervise(w, t, o, cfg)
    case Die(t) => DoDie(w, t)
    case Crash => DoCrash(w)
    case ReadActive(rows, now) => w.(phase := Recovering(now, rows, NextRow))
    case Recover(o) => DoRecover(w, o, cfg)
  }

  /** Some run leads from w to w'. */
  predicate Run(w: World, steps: seq<Step>, w': World, cfg: Config)
    decreases |steps|
  {
    if steps == [] then w == w'
    else Enabled(w, steps[0], cfg) && Run(Apply(w, steps[0], cfg), steps[1..], w', cfg)
  }

  ghost predicate Reachable(w: World, cfg: Config) { exists steps :: Run(INIT, steps, w, cfg) }
}
