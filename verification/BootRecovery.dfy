/** Boot-time recovery as it runs beside the supervisors it adopts: what it settles, and that
    running it again changes nothing. */
module BootRecovery {
  import opened Gale
  import opened StateMachine
  import opened Tables
  import opened Protocol
  import opened Safety
  import opened Guarantees
  import opened Timing

  predicate LimitsOff(cfg: Config) {
    cfg.dailyLossLimit == 0.0 && cfg.dailyTradeLimit == 0 && cfg.dailyDrawdownPct == 0
  }

  /** Steps of a boot: recovery, with clock readings not before its own, the supervisors, and the
      message handlers, which are registered before recovery runs. */
  predicate BootStep(step: Step, now: real) {
    || (step.Recover? && step.oracle.now >= now) || step.Supervise? || step.Die?
    || step.Arrive? || step.Upsert? || step.Enqueue?
  }

  predicate BootSteps(steps: seq<Step>, now: real) {
    forall i :: 0 <= i < |steps| ==> BootStep(steps[i], now)
  }

  /** The row is placed and its window is still open at `now`. */
  predicate Settled(row: SignalRow, now: real) {
    IsPlaced(row.status) ==> !PastWindow(row, now)
  }

  predicate AllSettled(w: World, now: real) {
    forall id :: id in w.tables.signals ==> Settled(w.tables.signals[id], now)
  }

  /** Before the gate, in front of a row that is no longer pending. */
  predicate IdleTask(w: World, t: Task) {
    && t.Supervisor? && (t.pc.CheckLimit? || t.pc.CheckGate?)
    && t.signal.id in w.tables.signals && StatusOf(w, t.signal.id) != Pending
  }

  predicate Idle(w: World) {
    forall t :: t in w.tasks && w.tasks[t].Supervisor? ==> IdleTask(w, w.tasks[t])
  }

  /** No ledger written and no broker called. */
  predicate Untouched(a: World, b: World) {
    b.log == a.log && b.tables.stages == a.tables.stages && b.tables.daily == a.tables.daily
  }

  /** Every row stored before is still exactly what it was. */
  predicate RowsKept(a: World, b: World) {
    forall id :: id in a.tables.signals ==> id in b.tables.signals && b.tables.signals[id] == a.tables.signals[id]
  }

  lemma IdleStep(w: World, t: nat, o: Oracle, cfg: Config)
    requires LimitsOff(cfg) && Idle(w) && t in w.tasks && w.tasks[t].Supervisor?
    ensures
      var w' := DoSupervise(w, t, o, cfg);
      Idle(w') && w'.tables == w.tables && w'.log == w.log && w'.phase == w.phase
  {
    assert IdleTask(w, w.tasks[t]);
  }

  lemma IdleDies(w: World, t: nat)
    requires Idle(w) && t in w.tasks
    ensures var w' := DoDie(w, t); Idle(w') && w'.tables == w.tables && w'.log == w.log && w'.phase == w.phase
  {
  }

  // ----- The first recovery settles every row -----

  /** Where recovery stands: every unsettled row is still in its hands. */
  predicate Progress(w: World, now: real) {
    match w.phase
    case Booting => false
    case Running => AllSettled(w, now)
    case Recovering(n, _, at) =>
      && n == now
      && (forall id :: id in w.tables.signals ==> Settled(w.tables.signals[id], now) || HeldByRecovery(w.phase, id))
      && match at
         case NextRow => true
         case ReadTimedOut(id, stage) => id in w.tables.signals && PastWindow(w.tables.signals[id], now)
         case WriteTimedOut(_, state, _) => IsTerminal(state.status)
         case ReadAdvanced(_) => false
  }

  predicate BootInv(w: World, now: real) { Idle(w) && Progress(w, now) }

  /** Nothing is left for recovery to time out. */
  predicate Quiet(w: World, now: real) { AllSettled(w, now) && (w.phase.Recovering? ==> w.phase.at.NextRow?) }

  /** What recovery adds to the tasks is idle. */
  lemma RecoverKeepsIdle(w: World, o: Oracle, cfg: Config)
    requires w.phase.Recovering? && RecoveryInv(w, cfg) && RowsInv(w, cfg) && Idle(w)
    requires RowsForward(w, DoRecover(w, o, cfg))
    ensures Idle(DoRecover(w, o, cfg))
  {
    var w' := DoRecover(w, o, cfg);
    RecoverSpawns(w, o, cfg);
    RecoverAdopts(w, o, cfg);
    forall u | u in w'.tasks && w'.tasks[u].Supervisor? ensures IdleTask(w', w'.tasks[u]) {
      assert u in w.tasks && w'.tasks[u] == w.tasks[u] ==> IdleTask(w, w.tasks[u]);
    }
  }

  lemma RecoverAdopts(w: World, o: Oracle, cfg: Config)
    requires w.phase.Recovering?
    ensures var w' := DoRecover(w, o, cfg);
            && Untouched(w, w')
            && forall t :: t in w'.tasks ==> (t in w.tasks && w'.tasks[t] == w.tasks[t]) || w'.tasks[t].pc == CheckLimit
  {
  }

  lemma NextRowProgress(w: World, now: real, cfg: Config)
    requires Progress(w, now) && RecoveryInv(w, cfg) && w.phase.Recovering? && w.phase.at.NextRow?
    ensures Progress(DoNextRow(w), now) && DoNextRow(w).tables == w.tables
    ensures Quiet(w, now) ==> Quiet(DoNextRow(w), now)
  {
    var w' := DoNextRow(w);
    if w.phase.rest == [] {
      assert AllSettled(w', now);
    } else {
      forall id | id in w.tables.signals && !Settled(w.tables.signals[id], now)
        ensures HeldByRecovery(w'.phase, id) || id == w.phase.rest[0].signal.id
      {
        RestStillHeld(w.phase, w'.phase, id);
      }
    }
  }

  lemma RestStillHeld(p: Phase, q: Phase, id: SignalId)
    requires p.Recovering? && p.at.NextRow? && p.rest != [] && q.Recovering? && q.rest == p.rest[1..]
    requires HeldByRecovery(p, id)
    ensures HeldByRecovery(q, id) || p.rest[0].signal.id == id
  {
  }

  lemma TimedOutProgress(w: World, o: Oracle, now: real, cfg: Config)
    requires Progress(w, now) && w.phase.Recovering? && !w.phase.at.NextRow? && RowsInv(w, cfg)
    requires w.phase.at.ReadTimedOut? ==> StatusOf(w, w.phase.at.id) == PlacedStatus(w.phase.at.stage)
    requires o.now >= now && cfg.skewTolerance <= 30.0
    ensures Progress(DoRecover(w, o, cfg), now)
  {
    var w' := DoRecover(w, o, cfg);
    if w.phase.at.ReadTimedOut? {
      TimedOutRowsFinish(w.tables.signals[w.phase.at.id], now, o.now, cfg);
    }
    forall id | id in w'.tables.signals && !Settled(w'.tables.signals[id], now) ensures HeldByRecovery(w'.phase, id) {
      assert HeldByRecovery(w.phase, id);
    }
  }

  /** Messages handled during the boot only add pending rows. */
  lemma IntakeStep(w: World, step: Step, now: real, cfg: Config)
    requires BootInv(w, now) && Enabled(w, step, cfg) && (step.Arrive? || step.Upsert? || step.Enqueue?)
    requires forall t :: t in w.tasks ==> t < w.nextTask
    ensures var w' := Apply(w, step, cfg);
            BootInv(w', now) && Untouched(w, w') && RowsKept(w, w') && (Quiet(w, now) ==> Quiet(w', now))
  {
    var w' := Apply(w, step, cfg);
    assert w'.phase == w.phase && RowsKept(w, w');
    forall id | id in w'.tables.signals && id !in w.tables.signals ensures Settled(w'.tables.signals[id], now) {
    }
    forall u | u in w'.tasks && w'.tasks[u].Supervisor? ensures IdleTask(w', w'.tasks[u]) {
      assert IdleTask(w, w.tasks[u]);
    }
  }

  lemma RecoverStep(w: World, o: Oracle, now: real, cfg: Config)
    requires cfg.skewTolerance <= 30.0 && o.now >= now
    requires Inv(w, cfg) && BootInv(w, now) && w.phase.Recovering?
    ensures var w' := DoRecover(w, o, cfg);
            BootInv(w', now) && Untouched(w, w') && (Quiet(w, now) ==> Quiet(w', now) && RowsKept(w, w'))
  {
    RecoverKeepsInv(w, o, cfg);
    RecoverKeepsIdle(w, o, cfg);
    RecoverAdopts(w, o, cfg);
    if w.phase.at.NextRow? {
      NextRowProgress(w, now, cfg);
    } else {
      TimedOutProgress(w, o, now, cfg);
    }
  }

  lemma BootStepKeeps(w: World, step: Step, now: real, cfg: Config)
    requires LimitsOff(cfg) && cfg.skewTolerance <= 30.0
    requires Inv(w, cfg) && BootInv(w, now) && Enabled(w, step, cfg) && BootStep(step, now)
    ensures var w' := Apply(w, step, cfg);
            BootInv(w', now) && Untouched(w, w') && (Quiet(w, now) ==> Quiet(w', now) && RowsKept(w, w'))
  {
    match step
    case Supervise(t, o) => IdleStep(w, t, o, cfg);
    case Die(t) => IdleDies(w, t);
    case Recover(o) => RecoverStep(w, o, now, cfg);
    case _ => IntakeStep(w, step, now, cfg);
  }

  lemma {:induction false} BootRun(w: World, steps: seq<Step>, w': World, now: real, cfg: Config)
    requires LimitsOff(cfg) && cfg.skewTolerance <= 30.0
    requires Inv(w, cfg) && BootInv(w, now) && Run(w, steps, w', cfg) && BootSteps(steps, now)
    ensures Inv(w', cfg) && BootInv(w', now) && Untouched(w, w')
    ensures Quiet(w, now) ==> RowsKept(w, w')
    decreases |steps|
  {
    if steps != [] {
      var v := Apply(w, steps[0], cfg);
      assert BootStep(steps[0], now) && BootSteps(steps[1..], now);
      StepKeepsInv(w, steps[0], cfg);
      BootStepKeeps(w, steps[0], now, cfg);
      BootRun(v, steps[1..], w', now, cfg);
    }
  }

  lemma BootBegins(w: World, rows: seq<SignalRow>, now: real, cfg: Config)
    requires Inv(w, cfg) && IsActiveSnapshot(w.tables, rows)
    ensures
      var b := Apply(DoCrash(w), ReadActive(rows, now), cfg);
      Inv(b, cfg) && BootInv(b, now) && b.tables == w.tables && b.log == w.log
  {
    var c := DoCrash(w);
    var b := Apply(c, ReadActive(rows, now), cfg);
    StepKeepsInv(w, Crash, cfg);
    StepKeepsInv(c, ReadActive(rows, now), cfg);
    forall id | id in b.tables.signals && !Settled(b.tables.signals[id], now) ensures HeldByRecovery(b.phase, id) {
      assert IsPlaced(w.tables.signals[id].status);
    }
  }

  /** Recovery is complete and idempotent, with messages arriving all the while. From any crash, a
      boot that has finished leaves every placed row inside its window, having written no ledger
      and called no broker; a second crash and boot at the same reading, whatever its adopted
      supervisors do and wherever it is stopped, leaves every row stored before it as it was. */
  lemma RecoveryIdempotent(
      w: World, rows: seq<SignalRow>, steps: seq<Step>, w1: World,
      rows': seq<SignalRow>, steps': seq<Step>, w2: World, now: real, cfg: Config)
    requires Reachable(w, cfg) && LimitsOff(cfg) && cfg.skewTolerance <= 30.0
    requires IsActiveSnapshot(w.tables, rows)
    requires Run(Apply(DoCrash(w), ReadActive(rows, now), cfg), steps, w1, cfg) && BootSteps(steps, now)
    requires w1.phase.Running?
    requires IsActiveSnapshot(w1.tables, rows')
    requires Run(Apply(DoCrash(w1), ReadActive(rows', now), cfg), steps', w2, cfg) && BootSteps(steps', now)
    ensures Untouched(w, w1) && AllSettled(w1, now)
    ensures Untouched(w1, w2) && RowsKept(w1, w2)
  {
    ReachableInv(w, cfg);
    BootBegins(w, rows, now, cfg);
    BootRun(Apply(DoCrash(w), ReadActive(rows, now), cfg), steps, w1, now, cfg);
    BootBegins(w1, rows', now, cfg);
    BootRun(Apply(DoCrash(w1), ReadActive(rows', now), cfg), steps', w2, now, cfg);
  }
}
