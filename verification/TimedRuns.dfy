/** Runs as the clock allows them: readings never run back, no stage is fired before its target, and
    every signal comes from a message. */
module TimedRuns {
  import opened Gale
  import opened StateMachine
  import opened Tables
  import opened Protocol
  import opened Safety
  import opened Guarantees
  import opened Ledger
  import opened Limits
  import opened Outcomes
  import opened Timing
  import opened Listeners
  import opened Announcements

  /** The clock reading a step takes. */
  function Reading(step: Step): Option<real> {
    match step
    case Arrive(s) => Some(s.receivedAt)
    case Supervise(_, o) => Some(o.now)
    case ReadActive(_, now) => Some(now)
    case Recover(o) => Some(o.now)
    case _ => None
  }

  function After(step: Step, clock: real): real {
    if Reading(step).Some? then Reading(step).value else clock
  }

  /** A step the clock allows; `heard` are the signals that messages may bring. */
  ghost predicate OnTime(w: World, step: Step, clock: real, heard: iset<Signal>) {
    && clock <= After(step, clock)
    && (step.Arrive? ==> step.signal in heard)
    && (step.Supervise? && step.task in w.tasks && w.tasks[step.task].Supervisor? ==>
          Awake(w.tasks[step.task].signal, w.tasks[step.task].pc, step.oracle.now))
  }

  /** A supervisor waiting for a stage wakes no earlier than the stage's target. */
  predicate Awake(s: Signal, pc: Pc, now: real) {
    pc.AwaitFire? && pc.state.stage.Some? ==> now >= FireTarget(s, pc.state.stage.value)
  }

  /** All steps of the run are on time, starting at this reading. */
  ghost predicate Timed(w: World, steps: seq<Step>, clock: real, heard: iset<Signal>, cfg: Config)
    decreases |steps|
  {
    steps != [] && Enabled(w, steps[0], cfg) ==>
      && OnTime(w, steps[0], clock, heard)
      && Timed(Apply(w, steps[0], cfg), steps[1..], After(steps[0], clock), heard, cfg)
  }

  /** Longer than this, and the first gale cannot even be fired before the second's deadline. */
  predicate TooLong(cfg: Config) { cfg.expirationSeconds as real > 600.0 + cfg.skewTolerance }

  /** How many stages a timed cascade can reach. */
  function MostTrades(cfg: Config): Reach { if TooLong(cfg) then 2 else 3 }

  // ----- With a long expiration no cascade reaches its third stage -----

  /** From its wake-up on, a stage is past its target. */
  predicate PcTimed(s: Signal, pc: Pc, clock: real) {
    match pc
    case PersistFire(st) => StageReached(s, st.stage, clock)
    case PlaceTrade(st) => StageReached(s, st.stage, clock)
    case RecordPlaced(st, _, _) => StageReached(s, st.stage, clock)
    case StartWait(st, _, _) => StageReached(s, st.stage, clock)
    case AwaitResult(st, _, _) => StageReached(s, st.stage, clock)
    case _ => true
  }

  predicate StageReached(s: Signal, stage: Option<Stage>, clock: real) {
    stage.Some? ==> clock >= FireTarget(s, stage.value)
  }

  predicate TaskTimed(t: Task, clock: real) { t.Supervisor? ==> PcTimed(t.signal, t.pc, clock) && PcFits(t.pc, 2) }

  predicate TimedInv(w: World, clock: real) { forall t :: t in w.tasks ==> TaskTimed(w.tasks[t], clock) }

  lemma FireTimed(w: World, t: nat, o: Oracle, clock: real, cfg: Config)
    requires t in w.tasks && w.tasks[t].Supervisor? && TaskInv(w, w.tasks[t], cfg) && TaskTimed(w.tasks[t], clock)
    requires AtGate(w.tasks[t]) || w.tasks[t].pc.AwaitFire? || w.tasks[t].pc.PersistFire?
    requires clock <= o.now && Awake(w.tasks[t].signal, w.tasks[t].pc, o.now)
    ensures var w' := DoSupervise(w, t, o, cfg); t in w'.tasks ==> TaskTimed(w'.tasks[t], o.now)
  {
    if w.tasks[t].pc.AwaitFire? {
      FireKeepsStage(w.tasks[t].pc.state, o.now, w.tasks[t].signal, cfg);
    }
  }

  lemma PlaceTimed(w: World, t: nat, o: Oracle, clock: real, cfg: Config)
    requires t in w.tasks && w.tasks[t].Supervisor? && TaskTimed(w.tasks[t], clock) && clock <= o.now
    requires var pc := w.tasks[t].pc; pc.PlaceTrade? || pc.PersistFailure? || pc.RecordPlaced? || pc.StartWait?
    ensures var w' := DoSupervise(w, t, o, cfg); t in w'.tasks ==> TaskTimed(w'.tasks[t], o.now)
  {
  }

  /** Past the first gale's target the second one's deadline is gone. */
  lemma NoSecondGale(st: SignalState, result: StageResult, now: real, s: Signal, cfg: Config)
    requires StateInv(st, s, cfg) && IsPlaced(st.status) && ProperSignal(s, cfg) && TooLong(cfg)
    requires now >= FireTarget(s, st.stage.value) && Index(st.stage.value) < 2
    ensures var r := Transition(st, ResultEvent(result, now), cfg); r.Accepted? && StageFits(r.state.stage, 2)
  {
  }

  lemma ResultTimed(w: World, t: nat, o: Oracle, clock: real, cfg: Config)
    requires t in w.tasks && w.tasks[t].Supervisor? && TaskTimed(w.tasks[t], clock) && clock <= o.now && TooLong(cfg)
    requires TaskInv(w, w.tasks[t], cfg) && TaskLedger(w, w.tasks[t], cfg) && ProperSignal(w.tasks[t].signal, cfg)
    requires var pc := w.tasks[t].pc; pc.AwaitResult? || pc.RecordResult? || pc.PersistResult? || pc.BookDaily?
    ensures var w' := DoSupervise(w, t, o, cfg); t in w'.tasks ==> TaskTimed(w'.tasks[t], o.now)
  {
    var pc := w.tasks[t].pc;
    if pc.AwaitResult? {
      NoSecondGale(pc.state, if pc.known then o.result else Failed, o.now, w.tasks[t].signal, cfg);
    }
  }

  lemma OwnTimed(w: World, t: nat, o: Oracle, clock: real, cfg: Config)
    requires t in w.tasks && w.tasks[t].Supervisor? && TaskTimed(w.tasks[t], clock) && clock <= o.now && TooLong(cfg)
    requires TaskInv(w, w.tasks[t], cfg) && TaskLedger(w, w.tasks[t], cfg) && ProperSignal(w.tasks[t].signal, cfg)
    requires Awake(w.tasks[t].signal, w.tasks[t].pc, o.now)
    ensures var w' := DoSupervise(w, t, o, cfg); t in w'.tasks ==> TaskTimed(w'.tasks[t], o.now)
  {
    var pc := w.tasks[t].pc;
    if AtGate(w.tasks[t]) || pc.AwaitFire? || pc.PersistFire? {
      FireTimed(w, t, o, clock, cfg);
    } else if pc.PlaceTrade? || pc.PersistFailure? || pc.RecordPlaced? || pc.StartWait? {
      PlaceTimed(w, t, o, clock, cfg);
    } else {
      ResultTimed(w, t, o, clock, cfg);
    }
  }

  lemma SuperviseKeepsTimed(w: World, t: nat, o: Oracle, clock: real, cfg: Config)
    requires Inv(w, cfg) && LedgerInv(w, cfg) && TimedInv(w, clock) && TooLong(cfg)
    requires t in w.tasks && w.tasks[t].Supervisor? && clock <= o.now && Awake(w.tasks[t].signal, w.tasks[t].pc, o.now)
    ensures TimedInv(DoSupervise(w, t, o, cfg), o.now)
  {
    var w' := DoSupervise(w, t, o, cfg);
    assert TaskInv(w, w.tasks[t], cfg) && TaskLedger(w, w.tasks[t], cfg) && TaskTimed(w.tasks[t], clock);
    OwnTimed(w, t, o, clock, cfg);
    SuperviseFrame(w, t, o, cfg);
    forall u | u in w'.tasks && u != t ensures TaskTimed(w'.tasks[u], o.now) {
      assert TaskTimed(w.tasks[u], clock);
    }
  }

  lemma OutsideKeepsTimed(w: World, step: Step, clock: real, later: real, cfg: Config)
    requires TimedInv(w, clock) && clock <= later && Enabled(w, step, cfg) && !step.Supervise?
    ensures TimedInv(Apply(w, step, cfg), later)
  {
    var w' := Apply(w, step, cfg);
    if step.Die? {
      DieStops(w, step.task);
    } else if !step.Crash? {
      OutsideFrame(w, step, cfg);
    }
    forall u | u in w'.tasks ensures TaskTimed(w'.tasks[u], later) {
      assert u in w.tasks ==> TaskTimed(w.tasks[u], clock);
    }
  }

  lemma StepKeepsTimed(w: World, step: Step, clock: real, heard: iset<Signal>, cfg: Config)
    requires Inv(w, cfg) && LedgerInv(w, cfg) && TimedInv(w, clock) && TooLong(cfg)
    requires Enabled(w, step, cfg) && OnTime(w, step, clock, heard)
    ensures TimedInv(Apply(w, step, cfg), After(step, clock))
  {
    if step.Supervise? {
      SuperviseKeepsTimed(w, step.task, step.oracle, clock, cfg);
    } else {
      OutsideKeepsTimed(w, step, clock, After(step, clock), cfg);
    }
  }

  lemma {:induction false} TimedConfined(w: World, steps: seq<Step>, clock: real, heard: iset<Signal>, cfg: Config)
    requires Inv(w, cfg) && LedgerInv(w, cfg) && TimedInv(w, clock) && TooLong(cfg)
    requires Timed(w, steps, clock, heard, cfg)
    ensures Confined(w, steps, cfg, 2)
    decreases |steps|
  {
    forall t | t in w.tasks ensures Fits(w.tasks[t], 2) {
      assert TaskTimed(w.tasks[t], clock);
    }
    if steps != [] && Enabled(w, steps[0], cfg) {
      StepKeepsInv(w, steps[0], cfg);
      StepKeepsLedger(w, steps[0], cfg);
      StepKeepsTimed(w, steps[0], clock, heard, cfg);
      TimedConfined(Apply(w, steps[0], cfg), steps[1..], After(steps[0], clock), heard, cfg);
    }
  }

  lemma StartTimed(cfg: Config)
    ensures Inv(INIT, cfg) && LedgerInv(INIT, cfg)
  {
    assert Run(INIT, [], INIT, cfg);
    ReachableLedger(INIT, cfg);
  }

  lemma TimedReach(steps: seq<Step>, start: real, heard: iset<Signal>, cfg: Config)
    requires Timed(INIT, steps, start, heard, cfg)
    ensures Confined(INIT, steps, cfg, MostTrades(cfg))
  {
    if TooLong(cfg) {
      StartTimed(cfg);
      TimedConfined(INIT, steps, start, heard, cfg);
    } else {
      AlwaysConfined(INIT, steps, cfg);
    }
  }

  /** The overshoot bound for timed runs: three trades and stakes for each supervisor in flight, or
      two when the expiration exceeds ten minutes plus the tolerance. */
  lemma TimedOvershoot(
      steps: seq<Step>, w: World, start: real, heard: iset<Signal>, d: int, n: nat, floor: real, cfg: Config)
    requires RunAtMost(INIT, steps, w, d, n, cfg) && Timed(INIT, steps, start, heard, cfg)
    ensures cfg.dailyTradeLimit > 0 ==> DailyOf(w.tables, d).trades <= cfg.dailyTradeLimit - 1 + MostTrades(cfg) * n
    ensures ActiveFloor(floor, cfg) ==>
              DailyOf(w.tables, d).realizedPnl > -floor - n as real * CascadeStake(cfg, MostTrades(cfg))
  {
    TimedReach(steps, start, heard, cfg);
    ReachOvershoot(steps, w, d, n, floor, cfg);
  }

  lemma ReachOvershoot(steps: seq<Step>, w: World, d: int, n: nat, floor: real, cfg: Config)
    requires RunAtMost(INIT, steps, w, d, n, cfg) && Confined(INIT, steps, cfg, MostTrades(cfg))
    ensures cfg.dailyTradeLimit > 0 ==> DailyOf(w.tables, d).trades <= cfg.dailyTradeLimit - 1 + MostTrades(cfg) * n
    ensures ActiveFloor(floor, cfg) ==>
              DailyOf(w.tables, d).realizedPnl > -floor - n as real * CascadeStake(cfg, MostTrades(cfg))
  {
    ConfinedOvershoot(steps, w, d, n, floor, cfg, MostTrades(cfg));
  }

  // ----- An expiration that is not whole minutes -----

  /** Nothing has ever happened. */
  predicate Silent(w: World) {
    && w.tables == EMPTY && w.log == [] && w.queue == [] && w.tasks == map[]
    && (w.phase.Recovering? ==> w.phase.rest == [] && w.phase.at.NextRow?)
  }

  lemma {:induction false} SilentRun(w: World, steps: seq<Step>, w': World, clock: real, cfg: Config)
    requires Silent(w) && Run(w, steps, w', cfg) && Timed(w, steps, clock, Heard(cfg), cfg)
    requires cfg.expirationSeconds % 60 != 0
    ensures Silent(w')
    decreases |steps|
  {
    if steps != [] {
      if steps[0].Arrive? {
        HeardInMinutes(steps[0].signal, cfg);
      }
      SilentStep(w, steps[0], cfg);
      SilentRun(Apply(w, steps[0], cfg), steps[1..], w', After(steps[0], clock), cfg);
    }
  }

  lemma SilentStep(w: World, step: Step, cfg: Config)
    requires Silent(w) && Enabled(w, step, cfg) && !step.Arrive?
    ensures Silent(Apply(w, step, cfg))
  {
    if step.ReadActive? {
      NoActiveRows(w.tables, step.rows);
    }
  }

  lemma NoActiveRows(t: Tables, rows: seq<SignalRow>)
    requires t.signals == map[] && IsActiveSnapshot(t, rows)
    ensures rows == []
  {
    if rows != [] {
      SomeActiveRow(t, rows);
    }
  }

  lemma SomeActiveRow(t: Tables, rows: seq<SignalRow>)
    requires IsActiveSnapshot(t, rows) && rows != []
    ensures t.signals != map[]
  {
    assert rows[0].signal.id in t.signals;
  }
}
