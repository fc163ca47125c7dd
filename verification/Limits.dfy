/** How far a day can overshoot its limits: they are checked once, when a supervisor starts. */
module Limits {
  import opened Gale
  import opened StateMachine
  import opened Tables
  import opened Protocol
  import opened Safety
  import opened Guarantees
  import opened Ledger
  import Clock

  // ----- Sums over tasks -----

  ghost function SumTasks(tasks: map<nat, Task>, n: nat, f: Task -> real): real {
    if n == 0 then 0.0
    else SumTasks(tasks, n - 1, f) + if n - 1 in tasks then f(tasks[n - 1]) else 0.0
  }

  lemma {:induction false} SumTasksSame(a: map<nat, Task>, b: map<nat, Task>, n: nat, f: Task -> real)
    requires forall t :: t < n ==> (if t in a then f(a[t]) else 0.0) == (if t in b then f(b[t]) else 0.0)
    ensures SumTasks(a, n, f) == SumTasks(b, n, f)
  {
    if n > 0 {
      SumTasksSame(a, b, n - 1, f);
    }
  }

  /** Replacing or removing one task moves the sum by that task's difference. */
  lemma {:induction false} SumTasksDiffer(a: map<nat, Task>, b: map<nat, Task>, n: nat, t: nat, f: Task -> real)
    requires t < n && t in a && forall u :: u < n && u != t ==> (u in a <==> u in b) && (u in a ==> b[u] == a[u])
    ensures SumTasks(b, n, f) == SumTasks(a, n, f) - f(a[t]) + if t in b then f(b[t]) else 0.0
  {
    if t == n - 1 {
      SumTasksSame(a, b, n - 1, f);
    } else {
      SumTasksDiffer(a, b, n - 1, t, f);
    }
  }

  lemma {:induction false} SumTasksBound(tasks: map<nat, Task>, n: nat, f: Task -> real, g: Task -> real, k: real)
    requires forall t :: t in tasks ==> 0.0 <= f(tasks[t]) <= k * g(tasks[t])
    ensures 0.0 <= SumTasks(tasks, n, f) <= k * SumTasks(tasks, n, g)
  {
    if n > 0 {
      SumTasksBound(tasks, n - 1, f, g, k);
      var x, y := SumTasks(tasks, n - 1, g), if n - 1 in tasks then g(tasks[n - 1]) else 0.0;
      assert k * (x + y) == k * x + k * y;
    }
  }

  /** Dropping tasks, or adding tasks that weigh nothing, never raises the sum. */
  lemma {:induction false} SumTasksFewer(a: map<nat, Task>, b: map<nat, Task>, n: nat, f: Task -> real)
    requires forall t :: t in b ==> (t in a && b[t] == a[t]) || f(b[t]) == 0.0
    requires forall t :: t in a ==> 0.0 <= f(a[t])
    ensures SumTasks(b, n, f) <= SumTasks(a, n, f)
  {
    if n > 0 {
      SumTasksFewer(a, b, n - 1, f);
    }
  }

  // ----- What a supervisor may still do to its date -----

  predicate OnDay(t: Task, d: int) { t.Supervisor? && t.signal.id.date == d }

  /** How many stages a cascade can reach: three, or two where the clock rules the last one out. */
  type Reach = k: int | 2 <= k <= 3 witness 3

  function StagesLeft(stage: Option<Stage>, top: Reach): int {
    if stage.None? then 0 else top - Index(stage.value)
  }

  /** Trades a supervisor past the limit check can still book. */
  function TradesLeft(pc: Pc, top: Reach): int {
    match pc
    case CheckLimit => 0
    case RejectLimit => 0
    case CheckGate => top
    case AwaitFire(st) => StagesLeft(st.stage, top)
    case PersistFire(fired) => StagesLeft(fired.stage, top)
    case PlaceTrade(st) => StagesLeft(st.stage, top)
    case PersistFailure(_) => 0
    case RecordPlaced(st, _, _) => StagesLeft(st.stage, top)
    case StartWait(st, _, _) => StagesLeft(st.stage, top)
    case AwaitResult(st, _, _) => StagesLeft(st.stage, top)
    case RecordResult(st, _, _, _, _) => StagesLeft(st.stage, top)
    case PersistResult(next, _, _, _, _) => 1 + StagesLeft(next.stage, top)
    case BookDaily(next, _, _, _) => 1 + StagesLeft(next.stage, top)
  }

  /** The stakes of the stages within reach. */
  function CascadeStake(cfg: Config, top: Reach): real {
    cfg.amountInitial + cfg.amountGale1 + LastStake(cfg, top)
  }

  function LastStake(cfg: Config, top: Reach): real { if top == 3 then cfg.amountGale2 else 0.0 }

  function StakesFrom(stage: Option<Stage>, cfg: Config, top: Reach): real {
    match stage
    case None => 0.0
    case Some(Initial) => CascadeStake(cfg, top)
    case Some(Gale1) => cfg.amountGale1 + LastStake(cfg, top)
    case Some(Gale2) => LastStake(cfg, top)
  }

  function LossOf(amount: real, result: StageResult): real {
    if LossLike(result) then amount else 0.0
  }

  /** The most a supervisor past the limit check can still take off the day's profit. */
  function StakesLeft(pc: Pc, cfg: Config, top: Reach): real {
    match pc
    case CheckLimit => 0.0
    case RejectLimit => 0.0
    case CheckGate => CascadeStake(cfg, top)
    case AwaitFire(st) => StakesFrom(st.stage, cfg, top)
    case PersistFire(fired) => StakesFrom(fired.stage, cfg, top)
    case PlaceTrade(st) => StakesFrom(st.stage, cfg, top)
    case PersistFailure(_) => 0.0
    case RecordPlaced(st, _, _) => StakesFrom(st.stage, cfg, top)
    case StartWait(st, _, _) => StakesFrom(st.stage, cfg, top)
    case AwaitResult(st, _, _) => StakesFrom(st.stage, cfg, top)
    case RecordResult(st, _, _, _, _) => StakesFrom(st.stage, cfg, top)
    case PersistResult(next, _, result, amount, _) => LossOf(amount, result) + StakesFrom(next.stage, cfg, top)
    case BookDaily(next, _, result, amount) => LossOf(amount, result) + StakesFrom(next.stage, cfg, top)
  }

  ghost function One(d: int): Task -> real {
    (t: Task) => if OnDay(t, d) then 1.0 else 0.0
  }

  ghost function TradesWeight(d: int, top: Reach): Task -> real {
    (t: Task) => if OnDay(t, d) then TradesLeft(t.pc, top) as real else 0.0
  }

  ghost function StakesWeight(d: int, cfg: Config, top: Reach): Task -> real {
    (t: Task) => if OnDay(t, d) then StakesLeft(t.pc, cfg, top) else 0.0
  }

  /** Supervisors of a date in flight. */
  ghost function InFlight(w: World, d: int): real { SumTasks(w.tasks, w.nextTask, One(d)) }

  ghost function TradesToCome(w: World, d: int, top: Reach): real {
    SumTasks(w.tasks, w.nextTask, TradesWeight(d, top))
  }

  ghost function StakesAtRisk(w: World, d: int, cfg: Config, top: Reach): real {
    SumTasks(w.tasks, w.nextTask, StakesWeight(d, cfg, top))
  }

  function Traded(w: World, d: int): real { DailyOf(w.tables, d).trades as real }

  function Earned(w: World, d: int): real { DailyOf(w.tables, d).realizedPnl }

  /** What the closing of the current stage leaves possible; needed to bound the gap states. */
  predicate GapBound(t: Task, cfg: Config) {
    t.Supervisor? ==>
      match t.pc
      case RecordResult(st, next, _, result, _) =>
        && st.stage.Some? && st.amount == AmountForStage(st.stage.value, cfg)
        && (next.stage.Some? ==> Index(next.stage.value) == Index(st.stage.value) + 1)
      case PersistResult(next, trade, _, amount, _) =>
        amount == AmountForStage(trade.stage, cfg)
            && (next.stage.Some? ==> Index(next.stage.value) == Index(trade.stage) + 1)
      case BookDaily(next, trade, _, amount) =>
        amount == AmountForStage(trade.stage, cfg)
            && (next.stage.Some? ==> Index(next.stage.value) == Index(trade.stage) + 1)
      case _ => true
  }

  predicate GapBounds(w: World, cfg: Config) {
    forall t :: t in w.tasks ==> GapBound(w.tasks[t], cfg)
  }

  predicate StageFits(stage: Option<Stage>, top: Reach) { stage.Some? ==> Index(stage.value) < top }

  /** The supervisor is at a stage within reach, and its next one is too. */
  predicate PcFits(pc: Pc, top: Reach) {
    match pc
    case CheckLimit => true
    case RejectLimit => true
    case CheckGate => true
    case AwaitFire(st) => StageFits(st.stage, top)
    case PersistFire(fired) => StageFits(fired.stage, top)
    case PlaceTrade(st) => StageFits(st.stage, top)
    case PersistFailure(_) => true
    case RecordPlaced(st, _, _) => StageFits(st.stage, top)
    case StartWait(st, _, _) => StageFits(st.stage, top)
    case AwaitResult(st, _, _) => StageFits(st.stage, top)
    case RecordResult(st, next, _, _, _) => StageFits(st.stage, top) && StageFits(next.stage, top)
    case PersistResult(next, trade, _, _, _) => Index(trade.stage) < top && StageFits(next.stage, top)
    case BookDaily(next, trade, _, _) => Index(trade.stage) < top && StageFits(next.stage, top)
  }

  predicate Fits(t: Task, top: Reach) { t.Supervisor? ==> PcFits(t.pc, top) }

  predicate AllFit(w: World, top: Reach) { forall t :: t in w.tasks ==> Fits(w.tasks[t], top) }

  /** No supervisor holds more trades, or more stakes, than there are stages within reach. */
  lemma WeightBounds(t: Task, d: int, cfg: Config, top: Reach)
    requires GapBound(t, cfg) && Fits(t, top)
    ensures 0.0 <= TradesWeight(d, top)(t) <= top as real * One(d)(t)
    ensures 0.0 <= StakesWeight(d, cfg, top)(t) <= CascadeStake(cfg, top) * One(d)(t)
  {
  }

  // ----- One step -----

  /** What a step does to one date: either it is the limit check letting a supervisor through, or
      neither potential grows. */
  ghost predicate StepBound(a: World, b: World, d: int, cfg: Config, top: Reach) {
    || (LimitHit(a.tables, d, cfg).None? && b.tables == a.tables)
    || (&& Traded(b, d) + TradesToCome(b, d, top) <= Traded(a, d) + TradesToCome(a, d, top)
        && Earned(b, d) - StakesAtRisk(b, d, cfg, top) >= Earned(a, d) - StakesAtRisk(a, d, cfg, top))
  }

  /** Trades and stakes a task still holds for its date. */
  function Trades(w: World, t: nat, top: Reach): int {
    if t in w.tasks && w.tasks[t].Supervisor? then TradesLeft(w.tasks[t].pc, top) else 0
  }

  function Stakes(w: World, t: nat, cfg: Config, top: Reach): real {
    if t in w.tasks && w.tasks[t].Supervisor? then StakesLeft(w.tasks[t].pc, cfg, top) else 0.0
  }

  /** The effect of one supervisor step on its own potentials and on its date. */
  predicate OwnBound(w: World, w': World, t: nat, date: int, cfg: Config, top: Reach) {
    && DailyOf(w'.tables, date).trades + Trades(w', t, top) <= DailyOf(w.tables, date).trades + Trades(w, t, top)
    && DailyOf(w'.tables, date).realizedPnl - Stakes(w', t, cfg, top)
       >= DailyOf(w.tables, date).realizedPnl - Stakes(w, t, cfg, top)
  }

  predicate DailyUnchanged(w: World, w': World) { w'.tables.daily == w.tables.daily }

  predicate SamePerson(w: World, w': World, t: nat, cfg: Config)
    requires t in w.tasks && w.tasks[t].Supervisor?
  {
    t in w'.tasks ==> w'.tasks[t].Supervisor? && w'.tasks[t].signal == w.tasks[t].signal && GapBound(w'.tasks[t], cfg)
  }

  lemma GateWeights(w: World, t: nat, o: Oracle, date: int, cfg: Config, top: Reach)
    requires t in w.tasks && w.tasks[t].Supervisor? && AtGate(w.tasks[t])
    requires Clock.SignalDate(w.tasks[t].signal.triggerInitial, cfg.utcOffset) == date
    requires Fits(w.tasks[t], top)
    ensures
      var w' := DoSupervise(w, t, o, cfg);
      && SamePerson(w, w', t, cfg) && DailyUnchanged(w, w')
      && (OwnBound(w, w', t, date, cfg, top) || (w'.tables == w.tables && LimitHit(w.tables, date, cfg).None?))
  {
  }

  lemma FireWeights(w: World, t: nat, o: Oracle, date: int, cfg: Config, top: Reach)
    requires t in w.tasks && w.tasks[t].Supervisor? && TaskInv(w, w.tasks[t], cfg)
    requires var pc := w.tasks[t].pc; pc.AwaitFire? || pc.PersistFire? || pc.PersistFailure?
    requires Fits(w.tasks[t], top)
    ensures
      var w' := DoSupervise(w, t, o, cfg);
      SamePerson(w, w', t, cfg) && DailyUnchanged(w, w') && OwnBound(w, w', t, date, cfg, top)
  {
  }

  lemma PlaceWeights(w: World, t: nat, o: Oracle, date: int, cfg: Config, top: Reach)
    requires t in w.tasks && w.tasks[t].Supervisor? && TaskInv(w, w.tasks[t], cfg)
    requires var pc := w.tasks[t].pc; pc.PlaceTrade? || pc.RecordPlaced? || pc.StartWait?
    requires Fits(w.tasks[t], top)
    ensures
      var w' := DoSupervise(w, t, o, cfg);
      SamePerson(w, w', t, cfg) && DailyUnchanged(w, w') && OwnBound(w, w', t, date, cfg, top)
  {
  }

  lemma ResultWeights(w: World, t: nat, o: Oracle, date: int, cfg: Config, top: Reach)
    requires t in w.tasks && w.tasks[t].Supervisor? && TaskInv(w, w.tasks[t], cfg)
    requires TaskLedger(w, w.tasks[t], cfg) && GapBound(w.tasks[t], cfg)
    requires var pc := w.tasks[t].pc; pc.AwaitResult? || pc.RecordResult? || pc.PersistResult?
    requires Fits(w.tasks[t], top)
    ensures
      var w' := DoSupervise(w, t, o, cfg);
      SamePerson(w, w', t, cfg) && DailyUnchanged(w, w') && OwnBound(w, w', t, date, cfg, top)
  {
    var pc := w.tasks[t].pc;
    if pc.AwaitResult? {
      ResultBooksPnl(pc.state, if pc.known then o.result else Failed, o.now, w.tasks[t].signal, cfg);
    }
  }

  lemma BookWeights(w: World, t: nat, o: Oracle, date: int, cfg: Config, top: Reach)
    requires t in w.tasks && w.tasks[t].Supervisor? && w.tasks[t].pc.BookDaily?
    requires Clock.SignalDate(w.tasks[t].signal.triggerInitial, cfg.utcOffset) == date
    requires GapBound(w.tasks[t], cfg)
    requires Fits(w.tasks[t], top)
    ensures
      var w' := DoSupervise(w, t, o, cfg);
      && SamePerson(w, w', t, cfg) && OwnBound(w, w', t, date, cfg, top)
      && (forall e :: e != date ==> DailyOf(w'.tables, e) == DailyOf(w.tables, e))
  {
  }

  lemma SuperviseWeights(w: World, t: nat, o: Oracle, cfg: Config, top: Reach)
    requires Inv(w, cfg) && AllFit(w, top) && LedgerInv(w, cfg) && GapBounds(w, cfg) && t in w.tasks
    requires w.tasks[t].Supervisor?
    ensures
      var w' := DoSupervise(w, t, o, cfg);
      var date := w.tasks[t].signal.id.date;
      && SamePerson(w, w', t, cfg)
      && (forall e :: e != date ==> DailyOf(w'.tables, e) == DailyOf(w.tables, e))
      && (OwnBound(w, w', t, date, cfg, top)
          || (DailyUnchanged(w, w') && w'.tables == w.tables && LimitHit(w.tables, date, cfg).None?))
  {
    var date := w.tasks[t].signal.id.date;
    SupervisorDate(w, t, cfg);
    assert TaskInv(w, w.tasks[t], cfg) && TaskLedger(w, w.tasks[t], cfg) && GapBound(w.tasks[t], cfg);
    match w.tasks[t].pc
    case CheckLimit => GateWeights(w, t, o, date, cfg, top);
    case CheckGate => GateWeights(w, t, o, date, cfg, top);
    case RejectLimit => GateWeights(w, t, o, date, cfg, top);
    case AwaitFire(_) => FireWeights(w, t, o, date, cfg, top);
    case PersistFire(_) => FireWeights(w, t, o, date, cfg, top);
    case PersistFailure(_) => FireWeights(w, t, o, date, cfg, top);
    case PlaceTrade(_) => PlaceWeights(w, t, o, date, cfg, top);
    case RecordPlaced(_, _, _) => PlaceWeights(w, t, o, date, cfg, top);
    case StartWait(_, _, _) => PlaceWeights(w, t, o, date, cfg, top);
    case AwaitResult(_, _, _) => ResultWeights(w, t, o, date, cfg, top);
    case RecordResult(_, _, _, _, _) => ResultWeights(w, t, o, date, cfg, top);
    case PersistResult(_, _, _, _, _) => ResultWeights(w, t, o, date, cfg, top);
    case BookDaily(_, _, _, _) => BookWeights(w, t, o, date, cfg, top);
  }

  lemma SuperviseBound(w: World, t: nat, o: Oracle, d: int, cfg: Config, top: Reach)
    requires Inv(w, cfg) && AllFit(w, top) && LedgerInv(w, cfg) && GapBounds(w, cfg) && t in w.tasks
    requires w.tasks[t].Supervisor?
    ensures StepBound(w, DoSupervise(w, t, o, cfg), d, cfg, top) && GapBounds(DoSupervise(w, t, o, cfg), cfg)
  {
    var w' := DoSupervise(w, t, o, cfg);
    SuperviseWeights(w, t, o, cfg, top);
    SuperviseFrame(w, t, o, cfg);
    BoundFromWeights(w, w', t, d, cfg, top);
  }

  lemma BoundFromWeights(w: World, w': World, t: nat, d: int, cfg: Config, top: Reach)
    requires t in w.tasks && w.tasks[t].Supervisor? && t < w.nextTask == w'.nextTask && GapBounds(w, cfg)
    requires forall u :: u != t ==> (u in w.tasks <==> u in w'.tasks) && (u in w.tasks ==> w'.tasks[u] == w.tasks[u])
    requires SamePerson(w, w', t, cfg)
    requires var date := w.tasks[t].signal.id.date;
             && (forall e :: e != date ==> DailyOf(w'.tables, e) == DailyOf(w.tables, e))
             && (OwnBound(w, w', t, date, cfg, top)
                 || (DailyUnchanged(w, w') && w'.tables == w.tables && LimitHit(w.tables, date, cfg).None?))
    ensures StepBound(w, w', d, cfg, top) && GapBounds(w', cfg)
  {
    SumTasksDiffer(w.tasks, w'.tasks, w.nextTask, t, TradesWeight(d, top));
    SumTasksDiffer(w.tasks, w'.tasks, w.nextTask, t, StakesWeight(d, cfg, top));
  }

  /** A supervisor that has not yet read the limits. */
  predicate Fresh(t: Task) { t.Supervisor? ==> t.pc.CheckLimit? }

  predicate TasksOnlyFresh(w: World, w': World) {
    && w'.tables.daily == w.tables.daily && w.nextTask <= w'.nextTask <= w.nextTask + 1
    && (forall t :: t in w'.tasks ==> (t in w.tasks && w'.tasks[t] == w.tasks[t]) || Fresh(w'.tasks[t]))
    && (w.nextTask in w'.tasks ==> Fresh(w'.tasks[w.nextTask]))
  }

  lemma RecoverTasks(w: World, o: Oracle, cfg: Config)
    requires OneOwner(w) && w.phase.Recovering?
    ensures TasksOnlyFresh(w, DoRecover(w, o, cfg))
  {
  }

  lemma TasksOutside(w: World, step: Step, cfg: Config)
    requires OneOwner(w) && Enabled(w, step, cfg) && !step.Supervise?
    ensures TasksOnlyFresh(w, Apply(w, step, cfg))
  {
    if step.Recover? {
      RecoverTasks(w, step.oracle, cfg);
    }
  }

  lemma FewerHolders(w: World, w': World, f: Task -> real)
    requires TasksOnlyFresh(w, w')
    requires forall t: Task :: Fresh(t) ==> f(t) == 0.0
    requires forall t :: t in w.tasks ==> 0.0 <= f(w.tasks[t])
    ensures SumTasks(w'.tasks, w'.nextTask, f) <= SumTasks(w.tasks, w.nextTask, f)
  {
    SumTasksFewer(w.tasks, w'.tasks, w.nextTask, f);
  }

  /** No other step raises a potential: it only drops supervisors or starts fresh ones. */
  lemma OutsideBound(w: World, step: Step, d: int, cfg: Config, top: Reach)
    requires OneOwner(w) && AllFit(w, top) && GapBounds(w, cfg) && Enabled(w, step, cfg) && !step.Supervise?
    ensures StepBound(w, Apply(w, step, cfg), d, cfg, top) && GapBounds(Apply(w, step, cfg), cfg)
  {
    var w' := Apply(w, step, cfg);
    TasksOutside(w, step, cfg);
    forall t | t in w.tasks
      ensures 0.0 <= TradesWeight(d, top)(w.tasks[t]) && 0.0 <= StakesWeight(d, cfg, top)(w.tasks[t])
    {
      WeightBounds(w.tasks[t], d, cfg, top);
    }
    FewerHolders(w, w', TradesWeight(d, top));
    FewerHolders(w, w', StakesWeight(d, cfg, top));
    assert DailyOf(w'.tables, d) == DailyOf(w.tables, d);
  }

  // ----- Whole runs -----

  /** A run in which at most n supervisors of date d are ever in flight together. */
  ghost predicate RunAtMost(w: World, steps: seq<Step>, w': World, d: int, n: nat, cfg: Config)
    decreases |steps|
  {
    && InFlight(w, d) <= n as real
    && if steps == [] then w == w'
       else Enabled(w, steps[0], cfg) && RunAtMost(Apply(w, steps[0], cfg), steps[1..], w', d, n, cfg)
  }

  /** The loss the day's limits tolerate, when one of them bounds losses. */
  predicate ActiveFloor(floor: real, cfg: Config) {
    && floor > 0.0
    && ((cfg.dailyLossLimit > 0.0 && floor == cfg.dailyLossLimit)
        || (cfg.dailyDrawdownPct > 0 && floor == DrawdownThreshold(cfg)))
  }

  ghost predicate DayBound(w: World, d: int, n: nat, floor: real, cfg: Config, top: Reach) {
    && (cfg.dailyTradeLimit > 0 ==>
       Traded(w, d) + TradesToCome(w, d, top) <= (cfg.dailyTradeLimit - 1 + top * n) as real)
    && (ActiveFloor(floor, cfg) ==>
       Earned(w, d) - StakesAtRisk(w, d, cfg, top) > -floor - n as real * CascadeStake(cfg, top))
  }

  lemma TradesBound(w: World, d: int, n: nat, cfg: Config, top: Reach)
    requires GapBounds(w, cfg) && AllFit(w, top) && InFlight(w, d) <= n as real
    ensures 0.0 <= TradesToCome(w, d, top) <= top as real * n as real
  {
    forall t | t in w.tasks ensures 0.0 <= TradesWeight(d, top)(w.tasks[t]) <= top as real * One(d)(w.tasks[t]) {
      WeightBounds(w.tasks[t], d, cfg, top);
    }
    SumTasksCap(w.tasks, w.nextTask, TradesWeight(d, top), One(d), top as real, n as real);
  }

  lemma StakesBound(w: World, d: int, n: nat, cfg: Config, top: Reach)
    requires GapBounds(w, cfg) && AllFit(w, top) && InFlight(w, d) <= n as real
    ensures 0.0 <= StakesAtRisk(w, d, cfg, top) <= n as real * CascadeStake(cfg, top)
  {
    forall t | t in w.tasks
      ensures 0.0 <= StakesWeight(d, cfg, top)(w.tasks[t]) <= CascadeStake(cfg, top) * One(d)(w.tasks[t])
    {
      WeightBounds(w.tasks[t], d, cfg, top);
    }
    SumTasksCap(w.tasks, w.nextTask, StakesWeight(d, cfg, top), One(d), CascadeStake(cfg, top), n as real);
  }

  lemma SumTasksCap(tasks: map<nat, Task>, n: nat, f: Task -> real, g: Task -> real, k: real, cap: real)
    requires forall t :: t in tasks ==> 0.0 <= f(tasks[t]) <= k * g(tasks[t])
    requires k >= 0.0 && SumTasks(tasks, n, g) <= cap
    ensures 0.0 <= SumTasks(tasks, n, f) <= cap * k
  {
    SumTasksBound(tasks, n, f, g, k);
    ScaleBound(k, SumTasks(tasks, n, g), cap);
  }

  lemma CheckPassed(t: Tables, d: int, floor: real, cfg: Config)
    requires LimitHit(t, d, cfg).None?
    ensures cfg.dailyTradeLimit > 0 ==> DailyOf(t, d).trades <= cfg.dailyTradeLimit - 1
    ensures ActiveFloor(floor, cfg) ==> DailyOf(t, d).realizedPnl > -floor
  {
  }

  /** Right after any limit check passes, the potentials are bounded by the number in flight. */
  lemma CheckRestoresBound(a: World, b: World, d: int, n: nat, floor: real, cfg: Config, top: Reach)
    requires GapBounds(b, cfg) && AllFit(b, top) && InFlight(b, d) <= n as real
    requires LimitHit(a.tables, d, cfg).None? && b.tables == a.tables
    ensures DayBound(b, d, n, floor, cfg, top)
  {
    TradesBound(b, d, n, cfg, top);
    StakesBound(b, d, n, cfg, top);
    CheckPassed(a.tables, d, floor, cfg);
  }

  lemma ScaleBound(k: real, x: real, y: real)
    requires k >= 0.0 && x <= y
    ensures k * x <= y * k
  {
  }

  /** Every world of the run has its supervisors within reach. */
  ghost predicate Confined(w: World, steps: seq<Step>, cfg: Config, top: Reach)
    decreases |steps|
  {
    AllFit(w, top) && (steps != [] && Enabled(w, steps[0], cfg) ==>
        Confined(Apply(w, steps[0], cfg), steps[1..], cfg, top))
  }

  lemma {:induction false} BoundHolds(
      w: World, steps: seq<Step>, w': World, d: int, n: nat, floor: real, cfg: Config, top: Reach)
    requires Confined(w, steps, cfg, top)
    requires Inv(w, cfg) && LedgerInv(w, cfg) && GapBounds(w, cfg) && DayBound(w, d, n, floor, cfg, top)
    requires RunAtMost(w, steps, w', d, n, cfg)
    ensures GapBounds(w', cfg) && DayBound(w', d, n, floor, cfg, top)
    decreases |steps|
  {
    if steps != [] {
      var v := Apply(w, steps[0], cfg);
      BoundStep(w, steps[0], d, cfg, top);
      if LimitHit(w.tables, d, cfg).None? && v.tables == w.tables {
        CheckRestoresBound(w, v, d, n, floor, cfg, top);
      }
      BoundHolds(v, steps[1..], w', d, n, floor, cfg, top);
    }
  }

  lemma BoundStep(w: World, step: Step, d: int, cfg: Config, top: Reach)
    requires Inv(w, cfg) && AllFit(w, top) && LedgerInv(w, cfg) && GapBounds(w, cfg) && Enabled(w, step, cfg)
    ensures
      var v := Apply(w, step, cfg);
      StepBound(w, v, d, cfg, top) && GapBounds(v, cfg) && Inv(v, cfg) && LedgerInv(v, cfg)
  {
    StepKeepsInv(w, step, cfg);
    StepKeepsLedger(w, step, cfg);
    if step.Supervise? {
      SuperviseBound(w, step.task, step.oracle, d, cfg, top);
    } else {
      OutsideBound(w, step, d, cfg, top);
    }
  }

  lemma StartBound(d: int, n: nat, floor: real, cfg: Config, top: Reach)
    ensures Inv(INIT, cfg) && LedgerInv(INIT, cfg) && GapBounds(INIT, cfg) && DayBound(INIT, d, n, floor, cfg, top)
  {
  }

  lemma {:induction false} LastFits(w: World, steps: seq<Step>, w': World, d: int, n: nat, cfg: Config, top: Reach)
    requires RunAtMost(w, steps, w', d, n, cfg) && Confined(w, steps, cfg, top)
    ensures AllFit(w', top)
    decreases |steps|
  {
    if steps != [] {
      LastFits(Apply(w, steps[0], cfg), steps[1..], w', d, n, cfg, top);
    }
  }

  /** The bound for runs that stay within reach. */
  lemma ConfinedOvershoot(steps: seq<Step>, w: World, d: int, n: nat, floor: real, cfg: Config, top: Reach)
    requires RunAtMost(INIT, steps, w, d, n, cfg) && Confined(INIT, steps, cfg, top)
    ensures cfg.dailyTradeLimit > 0 ==> DailyOf(w.tables, d).trades <= cfg.dailyTradeLimit - 1 + top * n
    ensures ActiveFloor(floor, cfg) ==>
              DailyOf(w.tables, d).realizedPnl > -floor - n as real * CascadeStake(cfg, top)
  {
    StartBound(d, n, floor, cfg, top);
    BoundHolds(INIT, steps, w, d, n, floor, cfg, top);
    LastAtMost(INIT, steps, w, d, n, cfg);
    LastFits(INIT, steps, w, d, n, cfg, top);
    TradesBound(w, d, n, cfg, top);
    StakesBound(w, d, n, cfg, top);
  }

  /** No cascade has a fourth stage. */
  lemma {:induction false} AlwaysConfined(w: World, steps: seq<Step>, cfg: Config)
    ensures Confined(w, steps, cfg, 3)
    decreases |steps|
  {
    if steps != [] && Enabled(w, steps[0], cfg) {
      AlwaysConfined(Apply(w, steps[0], cfg), steps[1..], cfg);
    }
  }

  /** Daily-limit overshoot: with at most n supervisors of a date ever in flight together, its
      trade count stays at most limit - 1 + 3n and its profit stays above the loss floor by no
      less than n full cascades, in every interleaving and across restarts. */
  lemma LimitOvershoot(steps: seq<Step>, w: World, d: int, n: nat, floor: real, cfg: Config)
    requires RunAtMost(INIT, steps, w, d, n, cfg)
    ensures cfg.dailyTradeLimit > 0 ==> DailyOf(w.tables, d).trades <= cfg.dailyTradeLimit - 1 + 3 * n
    ensures ActiveFloor(floor, cfg) ==>
              DailyOf(w.tables, d).realizedPnl > -floor - n as real * TotalStake(cfg)
  {
    AlwaysConfined(INIT, steps, cfg);
    ConfinedOvershoot(steps, w, d, n, floor, cfg, 3);
  }

  lemma {:induction false} LastAtMost(w: World, steps: seq<Step>, w': World, d: int, n: nat, cfg: Config)
    requires RunAtMost(w, steps, w', d, n, cfg)
    ensures InFlight(w', d) <= n as real
    decreases |steps|
  {
    if steps != [] {
      LastAtMost(Apply(w, steps[0], cfg), steps[1..], w', d, n, cfg);
    }
  }
}
