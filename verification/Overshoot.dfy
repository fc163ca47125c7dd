/** The overshoot bound is attained by runs the clock allows: signals announced by messages, readings
    that never run back, no stage fired before its target. */
module Overshoot {
  import opened Gale
  import opened StateMachine
  import opened Tables
  import opened Protocol
  import opened Safety
  import opened Guarantees
  import opened Ledger
  import opened ThreeLedgers
  import opened Limits
  import opened Timing
  import opened Announcements
  import opened TimedRuns

  /** A date, how many supervisors of it may be in flight, what is announced, and a configuration. */
  datatype Scenario = Scenario(date: int, most: nat, heard: iset<Signal>, cfg: Config)

  // ----- Building runs -----

  function ClockAfter(steps: seq<Step>, clock: real): real {
    if steps == [] then clock else ClockAfter(steps[1..], After(steps[0], clock))
  }

  /** A timed run within the scenario leads to this world and this reading. */
  ghost predicate Leads(steps: seq<Step>, start: real, w: World, clock: real, sc: Scenario) {
    && RunAtMost(INIT, steps, w, sc.date, sc.most, sc.cfg) && Timed(INIT, steps, start, sc.heard, sc.cfg)
    && ClockAfter(steps, start) == clock
  }

  ghost predicate Path(w: World, clock: real, sc: Scenario) { exists steps, start :: Leads(steps, start, w, clock, sc) }

  lemma {:induction false} RunThen(w: World, steps: seq<Step>, clock: real, v: World, step: Step, sc: Scenario)
    requires RunAtMost(w, steps, v, sc.date, sc.most, sc.cfg) && Timed(w, steps, clock, sc.heard, sc.cfg)
    requires Enabled(v, step, sc.cfg) && OnTime(v, step, ClockAfter(steps, clock), sc.heard)
    requires InFlight(Apply(v, step, sc.cfg), sc.date) <= sc.most as real
    ensures RunAtMost(w, steps + [step], Apply(v, step, sc.cfg), sc.date, sc.most, sc.cfg)
    ensures Timed(w, steps + [step], clock, sc.heard, sc.cfg)
    ensures ClockAfter(steps + [step], clock) == After(step, ClockAfter(steps, clock))
    decreases |steps|
  {
    var all := steps + [step];
    if steps == [] {
      assert all[1..] == [];
    } else {
      assert all[1..] == steps[1..] + [step];
      RunThen(Apply(w, steps[0], sc.cfg), steps[1..], After(steps[0], clock), v, step, sc);
    }
  }

  lemma {:induction false} RunAtMostRuns(w: World, steps: seq<Step>, v: World, sc: Scenario)
    requires RunAtMost(w, steps, v, sc.date, sc.most, sc.cfg)
    ensures Run(w, steps, v, sc.cfg)
    decreases |steps|
  {
    if steps != [] {
      RunAtMostRuns(Apply(w, steps[0], sc.cfg), steps[1..], v, sc);
    }
  }

  lemma PathReachable(w: World, clock: real, sc: Scenario)
    requires Path(w, clock, sc)
    ensures Reachable(w, sc.cfg)
  {
    var steps, start :| Leads(steps, start, w, clock, sc);
    RunAtMostRuns(INIT, steps, w, sc);
  }

  function TasksBelow(tasks: map<nat, Task>, k: nat): set<nat> { set t | t in tasks && t < k }

  /** No more supervisors than tasks. */
  lemma {:induction false} FewerThanTasks(tasks: map<nat, Task>, k: nat, d: int)
    ensures SumTasks(tasks, k, One(d)) <= |TasksBelow(tasks, k)| as real
  {
    if k > 0 {
      FewerThanTasks(tasks, k - 1, d);
      var below := TasksBelow(tasks, k - 1);
      assert TasksBelow(tasks, k) == if k - 1 in tasks then below + {k - 1} else below;
    }
  }

  lemma Subset<T>(a: set<T>, b: set<T>)
    requires a <= b
    ensures |a| <= |b|
  {
    if a != {} {
      var x :| x in a;
      Subset(a - {x}, b - {x});
    }
  }

  lemma Extend(w: World, clock: real, step: Step, sc: Scenario)
    requires Path(w, clock, sc) && Enabled(w, step, sc.cfg) && OnTime(w, step, clock, sc.heard)
    requires |Apply(w, step, sc.cfg).tasks.Keys| <= sc.most
    ensures Path(Apply(w, step, sc.cfg), After(step, clock), sc)
  {
    var w' := Apply(w, step, sc.cfg);
    var steps, start :| Leads(steps, start, w, clock, sc);
    FewerThanTasks(w'.tasks, w'.nextTask, sc.date);
    Subset(TasksBelow(w'.tasks, w'.nextTask), w'.tasks.Keys);
    RunThen(INIT, steps, start, w, step, sc);
    assert Leads(steps + [step], start, w', After(step, clock), sc);
  }

  // ----- One supervisor moves, the others stand still -----

  /** Only task t and the row of its signal may have changed. */
  predicate Alone(a: World, b: World, t: nat, id: SignalId) {
    && b.queue == a.queue && b.phase == a.phase
    && b.tables.signals.Keys == a.tables.signals.Keys
    && (forall i :: i in a.tables.signals && i != id ==> b.tables.signals[i] == a.tables.signals[i])
    && (forall u :: u in b.tasks ==> u in a.tasks)
    && (forall u :: u in a.tasks && u != t ==> u in b.tasks && b.tasks[u] == a.tasks[u])
  }

  function TradesOn(w: World, d: int): int { DailyOf(w.tables, d).trades }

  predicate At(w: World, t: nat, s: Signal, pc: Pc) { t in w.tasks && w.tasks[t] == Supervisor(s, pc) }

  /** On the way at this reading, with no more tasks around than allowed. */
  ghost predicate OnPath(w: World, clock: real, sc: Scenario) { Path(w, clock, sc) && |w.tasks.Keys| <= sc.most }

  /** A stretch of the path on which only one supervisor moved, booking so many trades. */
  ghost predicate Moved(a: World, b: World, t: nat, s: Signal, trades: int, clock: real, sc: Scenario) {
    OnPath(b, clock, sc) && Alone(a, b, t, s.id) && TradesOn(b, sc.date) == TradesOn(a, sc.date) + trades
  }

  lemma MovedOn(a: World, b: World, c: World, t: nat, s: Signal, i: int, j: int, now: real, clock: real, sc: Scenario)
    requires Moved(a, b, t, s, i, now, sc) && Moved(b, c, t, s, j, clock, sc)
    ensures Moved(a, c, t, s, i + j, clock, sc)
  {
  }

  /** One step of a supervisor extends the path; only booking touches the summary. */
  lemma Move(w: World, clock: real, t: nat, s: Signal, o: Oracle, sc: Scenario) returns (w': World)
    requires OnPath(w, clock, sc) && t in w.tasks && w.tasks[t].Supervisor? && w.tasks[t].signal == s
    requires clock <= o.now && Awake(s, w.tasks[t].pc, o.now)
    ensures w' == DoSupervise(w, t, o, sc.cfg)
    ensures OnPath(w', o.now, sc) && Alone(w, w', t, s.id)
    ensures !w.tasks[t].pc.BookDaily? ==> Moved(w, w', t, s, 0, o.now, sc)
  {
    w' := DoSupervise(w, t, o, sc.cfg);
    StandsAlone(w, clock, t, o, sc);
    Subset(w'.tasks.Keys, w.tasks.Keys);
    Extend(w, clock, Supervise(t, o), sc);
    if !w.tasks[t].pc.BookDaily? {
      SuperviseKeepsDaily(w, t, o, sc.cfg);
    }
  }

  lemma StandsAlone(w: World, clock: real, t: nat, o: Oracle, sc: Scenario)
    requires Path(w, clock, sc) && t in w.tasks && w.tasks[t].Supervisor?
    ensures Alone(w, DoSupervise(w, t, o, sc.cfg), t, w.tasks[t].signal.id)
  {
    PathReachable(w, clock, sc);
    ReachableInv(w, sc.cfg);
    SuperviseKeepsInv(w, t, o, sc.cfg);
  }

  /** The broker accepts, and the trade ends as told, at the same reading. */
  function Reply(now: real, result: StageResult): Oracle { Oracle(now, PlaceOutcome.Placed(0), result) }

  function BrokerId(s: Signal, st: SignalState): BrokerTradeId
    requires st.stage.Some?
  {
    BrokerTradeId(s.id, st.stage.value, 0)
  }

  lemma PlaceMove(w: World, clock: real, t: nat, s: Signal, st: SignalState, o: Oracle, sc: Scenario)
    returns (w': World)
    requires OnPath(w, clock, sc) && clock <= o.now && At(w, t, s, PlaceTrade(st)) && o.reply == PlaceOutcome.Placed(0)
    ensures Moved(w, w', t, s, 0, o.now, sc) && st.stage.Some?
    ensures At(w', t, s, RecordPlaced(st, o.now, BrokerId(s, st))) && BrokerId(s, st) in w'.inflight
  {
    PathReachable(w, clock, sc);
    DefensiveBranchesUnreachable(w, t, o.now, Win, sc.cfg);
    w' := Move(w, clock, t, s, o, sc);
  }

  lemma RecordMove(w: World, t: nat, s: Signal, st: SignalState, o: Oracle, sc: Scenario) returns (w': World)
    requires st.stage.Some? && OnPath(w, o.now, sc)
    requires At(w, t, s, RecordPlaced(st, o.now, BrokerId(s, st))) && BrokerId(s, st) in w.inflight
    ensures Moved(w, w', t, s, 0, o.now, sc) && BrokerId(s, st) in w'.inflight
    ensures At(w', t, s, StartWait(st, TradeId(s.id, st.stage.value, o.now), BrokerId(s, st)))
  {
    PathReachable(w, o.now, sc);
    DefensiveBranchesUnreachable(w, t, o.now, Win, sc.cfg);
    w' := Move(w, o.now, t, s, o, sc);
  }

  lemma WaitMove(w: World, t: nat, s: Signal, st: SignalState, trade: TradeId, o: Oracle, sc: Scenario)
    returns (w': World)
    requires st.stage.Some? && OnPath(w, o.now, sc)
    requires At(w, t, s, StartWait(st, trade, BrokerId(s, st))) && BrokerId(s, st) in w.inflight
    ensures Moved(w, w', t, s, 0, o.now, sc) && At(w', t, s, AwaitResult(st, trade, true))
  {
    w' := Move(w, o.now, t, s, o, sc);
  }

  lemma ResultMove(w: World, t: nat, s: Signal, st: SignalState, trade: TradeId, o: Oracle, sc: Scenario)
    returns (w': World, next: SignalState)
    requires OnPath(w, o.now, sc) && At(w, t, s, AwaitResult(st, trade, true))
    ensures Transition(st, ResultEvent(o.result, o.now), sc.cfg) == Accepted(next)
    ensures Moved(w, w', t, s, 0, o.now, sc) && At(w', t, s, RecordResult(st, next, trade, o.result, o.now))
  {
    PathReachable(w, o.now, sc);
    DefensiveBranchesUnreachable(w, t, o.now, o.result, sc.cfg);
    next := Transition(st, ResultEvent(o.result, o.now), sc.cfg).state;
    w' := Move(w, o.now, t, s, o, sc);
  }

  lemma WriteMoves(w: World, t: nat, s: Signal, pc: Pc, o: Oracle, sc: Scenario) returns (w': World)
    requires pc.RecordResult? && OnPath(w, o.now, sc) && At(w, t, s, pc)
    ensures Moved(w, w', t, s, 0, o.now, sc) && At(w', t, s, BookDaily(pc.next, pc.trade, pc.result, pc.state.amount))
  {
    var a := Move(w, o.now, t, s, o, sc);
    assert At(a, t, s, PersistResult(pc.next, pc.trade, pc.result, pc.state.amount, pc.now));
    w' := Move(a, o.now, t, s, o, sc);
  }

  lemma BookMove(w: World, t: nat, s: Signal, pc: Pc, o: Oracle, sc: Scenario) returns (w': World)
    requires pc.BookDaily? && OnPath(w, o.now, sc) && At(w, t, s, pc) && s.id.date == sc.date
    ensures Moved(w, w', t, s, 1, o.now, sc)
    ensures if pc.next.stage.None? then t !in w'.tasks else At(w', t, s, AwaitFire(pc.next))
  {
    PathReachable(w, o.now, sc);
    ReachableInv(w, sc.cfg);
    SupervisorDate(w, t, sc.cfg);
    w' := Move(w, o.now, t, s, o, sc);
  }

  /** From the call to the wait. */
  lemma PlaceAndWait(w: World, clock: real, t: nat, s: Signal, st: SignalState, o: Oracle, sc: Scenario)
    returns (w': World, trade: TradeId)
    requires OnPath(w, clock, sc) && clock <= o.now && At(w, t, s, PlaceTrade(st)) && o.reply == PlaceOutcome.Placed(0)
    ensures Moved(w, w', t, s, 0, o.now, sc) && At(w', t, s, AwaitResult(st, trade, true))
  {
    var a := PlaceMove(w, clock, t, s, st, o, sc);
    trade := TradeId(s.id, st.stage.value, o.now);
    var b := RecordMove(a, t, s, st, o, sc);
    w' := WaitMove(b, t, s, st, trade, o, sc);
    MovedOn(w, a, b, t, s, 0, 0, o.now, o.now, sc);
    MovedOn(w, b, w', t, s, 0, 0, o.now, o.now, sc);
  }

  /** From the result to the next loop head, one trade booked. */
  lemma CloseAndBook(w: World, t: nat, s: Signal, st: SignalState, trade: TradeId, o: Oracle, sc: Scenario)
    returns (w': World, next: SignalState)
    requires OnPath(w, o.now, sc) && At(w, t, s, AwaitResult(st, trade, true)) && s.id.date == sc.date
    ensures Transition(st, ResultEvent(o.result, o.now), sc.cfg) == Accepted(next)
    ensures Moved(w, w', t, s, 1, o.now, sc)
    ensures if next.stage.None? then t !in w'.tasks else At(w', t, s, AwaitFire(next))
  {
    var a;
    a, next := ResultMove(w, t, s, st, trade, o, sc);
    var b := WriteMoves(a, t, s, RecordResult(st, next, trade, o.result, o.now), o, sc);
    w' := BookMove(b, t, s, BookDaily(next, trade, o.result, st.amount), o, sc);
    MovedOn(w, a, b, t, s, 0, 0, o.now, o.now, sc);
    MovedOn(w, b, w', t, s, 0, 1, o.now, o.now, sc);
  }

  lemma PlayTrade(
      w: World, clock: real, t: nat, s: Signal, st: SignalState, result: StageResult, now: real, sc: Scenario)
    returns (w': World, next: SignalState)
    requires OnPath(w, clock, sc) && clock <= now && At(w, t, s, PlaceTrade(st)) && s.id.date == sc.date
    ensures Transition(st, ResultEvent(result, now), sc.cfg) == Accepted(next)
    ensures Moved(w, w', t, s, 1, now, sc)
    ensures if next.stage.None? then t !in w'.tasks else At(w', t, s, AwaitFire(next))
  {
    var o := Reply(now, result);
    var a, trade := PlaceAndWait(w, clock, t, s, st, o, sc);
    w', next := CloseAndBook(a, t, s, st, trade, o, sc);
    MovedOn(w, a, w', t, s, 0, 1, now, now, sc);
  }

  // ----- Firing -----

  predicate PendingRow(w: World, id: SignalId) { id in w.tables.signals && w.tables.signals[id].status == Pending }

  function Fired(s: Signal, cfg: Config): SignalState {
    FromSignal(s, cfg).(status := PlacedInitial, result := None, errorReason := None)
  }

  /** A pending row at the gate: the supervisor fires at its trigger. */
  lemma Launch(w: World, clock: real, t: nat, s: Signal, sc: Scenario) returns (w': World)
    requires OnPath(w, clock, sc) && clock <= s.triggerInitial && At(w, t, s, CheckGate) && PendingRow(w, s.id)
    ensures Moved(w, w', t, s, 0, s.triggerInitial, sc) && At(w', t, s, PlaceTrade(Fired(s, sc.cfg)))
  {
    var now := s.triggerInitial;
    var o := Reply(now, Win);
    var a := Move(w, clock, t, s, o, sc);
    assert At(a, t, s, AwaitFire(FromSignal(s, sc.cfg)));
    var b := FireMove(a, t, s, o, sc);
    w' := Move(b, now, t, s, o, sc);
    MovedOn(w, a, b, t, s, 0, 0, now, now, sc);
    MovedOn(w, b, w', t, s, 0, 0, now, now, sc);
  }

  lemma FireMove(w: World, t: nat, s: Signal, o: Oracle, sc: Scenario) returns (w': World)
    requires OnPath(w, o.now, sc) && At(w, t, s, AwaitFire(FromSignal(s, sc.cfg))) && o.now == s.triggerInitial
    ensures Moved(w, w', t, s, 0, o.now, sc) && At(w', t, s, PersistFire(Fired(s, sc.cfg)))
  {
    assert Transition(FromSignal(s, sc.cfg), FireEvent(o.now), sc.cfg) == Accepted(Fired(s, sc.cfg));
    w' := Move(w, o.now, t, s, o, sc);
  }

  /** One trade, won. */
  lemma OneWin(w: World, clock: real, t: nat, s: Signal, sc: Scenario) returns (w': World)
    requires OnPath(w, clock, sc) && clock <= s.triggerInitial && At(w, t, s, CheckGate)
    requires s.id.date == sc.date && PendingRow(w, s.id)
    ensures Moved(w, w', t, s, 1, s.triggerInitial, sc) && t !in w'.tasks
  {
    var a := Launch(w, clock, t, s, sc);
    var next;
    w', next := PlayTrade(a, s.triggerInitial, t, s, Fired(s, sc.cfg), Win, s.triggerInitial, sc);
    MovedOn(w, a, w', t, s, 0, 1, s.triggerInitial, s.triggerInitial, sc);
  }

  // ----- Losing stage by stage -----

  /** The k-th stage's target, which is also when its trade is lost. */
  function Moment(s: Signal, k: nat): real { Instant(s.triggerInitial, s.expirationSeconds, k) }

  function Instant(start: real, expiration: int, k: nat): real {
    if k == 0 then start else Instant(start, expiration, k - 1) + expiration as real
  }

  /** The state at the loop head after k losses, each at its own stage's target. */
  function LostState(s: Signal, k: nat, cfg: Config): SignalState
    requires k > 0
  {
    Next(if k == 1 then Fired(s, cfg) else LostState(s, k - 1, cfg), ResultEvent(Loss, Moment(s, k - 1)), cfg)
  }

  function PhasePc(s: Signal, k: nat, cfg: Config): Pc {
    if k == 0 then CheckGate else AwaitFire(LostState(s, k, cfg))
  }

  /** Each loss leads on to the next stage, until the last one within reach. */
  lemma LossesLeadOn(s: Signal, k: nat, cfg: Config)
    requires ProperSignal(s, cfg) && k < MostTrades(cfg)
    ensures k > 0 ==> LostState(s, k, cfg).stage == Some(StageAt(k)) && LostState(s, k, cfg).status != Pending
    ensures k > 0 ==> Moment(s, k) == FireTarget(s, StageAt(k))
    ensures k + 1 == MostTrades(cfg) ==> LostState(s, k + 1, cfg).stage.None?
    ensures k + 1 < MostTrades(cfg) ==> LostState(s, k + 1, cfg).stage.Some?
  {
    var a := LostState(s, 1, cfg);
    assert a.status == PlacedGale1 && a.stage == Some(Gale1) && a.triggerUnix == s.triggerInitial + 300.0;
    var b := LostState(s, 2, cfg);
    assert if TooLong(cfg) then b.stage.None? else b.status == PlacedGale2 && b.stage == Some(Gale2);
  }

  /** One stage of one supervisor, lost at its target. */
  lemma LoseStage(w: World, clock: real, t: nat, s: Signal, k: nat, sc: Scenario) returns (w': World)
    requires OnPath(w, clock, sc) && clock <= Moment(s, k) && k < MostTrades(sc.cfg) && ProperSignal(s, sc.cfg)
    requires At(w, t, s, PhasePc(s, k, sc.cfg)) && s.id.date == sc.date && (k == 0 ==> PendingRow(w, s.id))
    ensures Moved(w, w', t, s, 1, Moment(s, k), sc)
    ensures if k + 1 < MostTrades(sc.cfg) then At(w', t, s, PhasePc(s, k + 1, sc.cfg)) else t !in w'.tasks
  {
    LossesLeadOn(s, k, sc.cfg);
    var a;
    var st := if k == 0 then Fired(s, sc.cfg) else LostState(s, k, sc.cfg);
    if k == 0 {
      a := Launch(w, clock, t, s, sc);
    } else {
      a := Move(w, clock, t, s, Reply(Moment(s, k), Loss), sc);
      assert At(a, t, s, PlaceTrade(st));
    }
    var next;
    w', next := PlayTrade(a, Moment(s, k), t, s, st, Loss, Moment(s, k), sc);
    assert next == LostState(s, k + 1, sc.cfg);
    MovedOn(w, a, w', t, s, 0, 1, Moment(s, k), Moment(s, k), sc);
  }

  /** A supervisor before its k-th loss, or just behind it. */
  predicate Member(w: World, task: Task, waiting: bool, k: nat, sc: Scenario) {
    && task.Supervisor?
    && var s := task.signal;
       && ProperSignal(s, sc.cfg) && s.triggerInitial == Trigger(sc.date, sc.cfg) && s.id.date == sc.date
       && if waiting then task.pc == PhasePc(s, k, sc.cfg) && (k == 0 ==> PendingRow(w, s.id))
          else task.pc == PhasePc(s, k + 1, sc.cfg) && k + 1 < MostTrades(sc.cfg)
  }

  /** Those to do are before their k-th loss, the others just behind it. */
  predicate Crowd(w: World, todo: set<nat>, k: nat, sc: Scenario) {
    todo <= w.tasks.Keys && forall t :: t in w.tasks ==> Member(w, w.tasks[t], t in todo, k, sc)
  }

  function CrowdMoment(k: nat, sc: Scenario): real {
    Instant(Trigger(sc.date, sc.cfg), sc.cfg.expirationSeconds, k)
  }

  /** They lose the stage one after the other, all at the same instant. */
  lemma {:induction false} Sweep(w: World, clock: real, todo: set<nat>, k: nat, sc: Scenario)
    returns (w': World, end: real)
    requires OnPath(w, clock, sc) && clock <= CrowdMoment(k, sc) && k < MostTrades(sc.cfg) && Crowd(w, todo, k, sc)
    ensures OnPath(w', end, sc) && end <= CrowdMoment(k, sc) && Crowd(w', {}, k, sc)
    ensures TradesOn(w', sc.date) == TradesOn(w, sc.date) + |todo|
    ensures |w'.tasks.Keys| == |w.tasks.Keys| - if k + 1 < MostTrades(sc.cfg) then 0 else |todo|
    decreases |todo|
  {
    if todo == {} {
      w', end := w, clock;
    } else {
      var t :| t in todo;
      var s := w.tasks[t].signal;
      var a := LoseStage(w, clock, t, s, k, sc);
      OwnersDiffer(w, clock, t, sc);
      CrowdMovesOn(w, a, t, todo, k, sc);
      w', end := Sweep(a, Moment(s, k), todo - {t}, k, sc);
    }
  }

  lemma OwnersDiffer(w: World, clock: real, t: nat, sc: Scenario)
    requires Path(w, clock, sc) && t in w.tasks && w.tasks[t].Supervisor?
    ensures forall u :: u in w.tasks && u != t && w.tasks[u].Supervisor? ==>
            w.tasks[u].signal.id != w.tasks[t].signal.id
  {
    PathReachable(w, clock, sc);
    ReachableInv(w, sc.cfg);
  }

  lemma CrowdMovesOn(w: World, a: World, t: nat, todo: set<nat>, k: nat, sc: Scenario)
    requires Crowd(w, todo, k, sc) && t in todo && Alone(w, a, t, w.tasks[t].signal.id)
    requires forall u :: u in w.tasks && u != t && w.tasks[u].Supervisor? ==>
            w.tasks[u].signal.id != w.tasks[t].signal.id
    requires var s := w.tasks[t].signal;
             if k + 1 < MostTrades(sc.cfg) then At(a, t, s, PhasePc(s, k + 1, sc.cfg)) else t !in a.tasks
    ensures Crowd(a, todo - {t}, k, sc)
    ensures |a.tasks.Keys| == |w.tasks.Keys| - if k + 1 < MostTrades(sc.cfg) then 0 else 1
  {
    assert a.tasks.Keys == if k + 1 < MostTrades(sc.cfg) then w.tasks.Keys else w.tasks.Keys - {t};
    forall u | u in a.tasks ensures Member(a, a.tasks[u], u in todo - {t}, k, sc) {
      assert Member(w, w.tasks[u], u in todo, k, sc);
      if u == t {
        MemberMovesOn(w, a, t, k, sc);
      } else {
        MemberStays(w, a, t, u, u in todo, k, sc);
      }
    }
  }

  lemma MemberMovesOn(w: World, a: World, t: nat, k: nat, sc: Scenario)
    requires t in w.tasks && Member(w, w.tasks[t], true, k, sc) && k + 1 < MostTrades(sc.cfg)
    requires At(a, t, w.tasks[t].signal, PhasePc(w.tasks[t].signal, k + 1, sc.cfg))
    ensures Member(a, a.tasks[t], false, k, sc)
  {
  }

  lemma MemberStays(w: World, a: World, t: nat, u: nat, waiting: bool, k: nat, sc: Scenario)
    requires t in w.tasks && w.tasks[t].Supervisor? && Alone(w, a, t, w.tasks[t].signal.id)
    requires u in w.tasks && u != t && Member(w, w.tasks[u], waiting, k, sc)
    requires w.tasks[u].signal.id != w.tasks[t].signal.id
    ensures u in a.tasks && Member(a, a.tasks[u], waiting, k, sc)
  {
  }

  /** When all have lost one stage they are all before the next. */
  lemma NextStage(w: World, k: nat, sc: Scenario)
    requires Crowd(w, {}, k, sc)
    ensures Crowd(w, w.tasks.Keys, k + 1, sc)
  {
    forall t | t in w.tasks ensures Member(w, w.tasks[t], true, k + 1, sc) {
      assert Member(w, w.tasks[t], false, k, sc);
    }
  }

  // ----- Arrivals -----

  /** The scheduler is up and idle, and only the first k signals of the date are known. */
  ghost predicate Open(w: World, k: nat, sc: Scenario) {
    && w.phase.Running? && w.queue == []
    && forall i: nat :: k <= i < IDENTITIES ==> Sig(i, sc.date, sc.cfg).id !in w.tables.signals
  }

  function Start(sc: Scenario): real { Trigger(sc.date, sc.cfg) }

  /** A new signal is announced. */
  lemma ArriveMove(w: World, s: Signal, sc: Scenario)
    requires Path(w, s.receivedAt, sc) && |w.tasks.Keys| < sc.most && w.nextTask !in w.tasks
    requires ProperSignal(s, sc.cfg) && s in sc.heard
    ensures Path(Spawn(w, IntakeUpsert(s)), s.receivedAt, sc)
  {
    KeysOne(w.tasks, w.nextTask, IntakeUpsert(s));
    Extend(w, s.receivedAt, Arrive(s), sc);
  }

  lemma NextArrives(w: World, k: nat, sc: Scenario)
    requires Path(w, Start(sc), sc) && |w.tasks.Keys| < sc.most && w.nextTask !in w.tasks
    requires Sig(k, sc.date, sc.cfg) in sc.heard
    ensures Path(Spawn(w, IntakeUpsert(Sig(k, sc.date, sc.cfg))), Start(sc), sc)
  {
    SigIs(k, sc.date, sc.cfg);
    ArriveMove(w, Sig(k, sc.date, sc.cfg), sc);
  }

  /** It is stored. */
  lemma StoreMove(w: World, clock: real, tasks: map<nat, Task>, t: nat, s: Signal, sc: Scenario) returns (w': World)
    requires Path(w, clock, sc) && |tasks.Keys| < sc.most && t !in tasks
    requires w.tasks == tasks[t := IntakeUpsert(s)] && s.id !in w.tables.signals
    ensures Path(w', clock, sc)
    ensures var row := SignalRow(s, Pending, None, s.receivedAt);
            w' == w.(tables := w.tables.(signals := w.tables.signals[s.id := row]),
                     tasks := tasks[t := IntakePut(s)])
  {
    w' := DoUpsert(w, t);
    assert w'.tasks == tasks[t := IntakePut(s)];
    KeysOne(tasks, t, IntakePut(s));
    Extend(w, clock, Upsert(t), sc);
  }

  /** It is queued and dispatched. */
  lemma QueueAndDispatch(w: World, clock: real, tasks: map<nat, Task>, t: nat, s: Signal, sc: Scenario)
    returns (w': World)
    requires Path(w, clock, sc) && |tasks.Keys| < sc.most && w.phase.Running? && w.queue == []
    requires t !in tasks && w.nextTask !in tasks && w.tasks == tasks[t := IntakePut(s)]
    ensures OnPath(w', clock, sc) && w'.phase.Running? && w'.queue == [] && w'.tables == w.tables
    ensures w'.tasks == tasks[w.nextTask := Supervisor(s, CheckLimit)]
  {
    var a := DoEnqueue(w, t);
    assert a.tasks == tasks;
    Extend(w, clock, Enqueue(t), sc);
    w' := DoDispatch(a);
    KeysOne(tasks, w.nextTask, Supervisor(s, CheckLimit));
    Extend(a, clock, Dispatch, sc);
  }

  lemma NextTaskIsFree(w: World, clock: real, sc: Scenario)
    requires Path(w, clock, sc)
    ensures w.nextTask !in w.tasks && w.nextTask + 1 !in w.tasks
  {
    PathReachable(w, clock, sc);
    ReachableInv(w, sc.cfg);
  }

  /** It is dispatched: a supervisor stands at the start. */
  lemma StoreAndDispatch(w: World, clock: real, s: Signal, sc: Scenario) returns (w': World, t: nat)
    requires Path(w, clock, sc) && Path(Spawn(w, IntakeUpsert(s)), clock, sc) && |w.tasks.Keys| < sc.most
    requires w.phase.Running? && w.queue == [] && s.id !in w.tables.signals
    requires w.nextTask !in w.tasks && w.nextTask + 1 !in w.tasks
    ensures OnPath(w', clock, sc) && w'.phase.Running? && w'.queue == []
    ensures t !in w.tasks && w'.tasks == w.tasks[t := Supervisor(s, CheckLimit)]
    ensures w'.tables == w.tables.(signals := w.tables.signals[s.id := SignalRow(s, Pending, None, s.receivedAt)])
  {
    var a := StoreMove(Spawn(w, IntakeUpsert(s)), clock, w.tasks, w.nextTask, s, sc);
    t := w.nextTask + 1;
    w' := QueueAndDispatch(a, clock, w.tasks, w.nextTask, s, sc);
  }

  lemma ArriveAndDispatch(w: World, k: nat, sc: Scenario) returns (w': World, t: nat)
    requires Path(w, Start(sc), sc) && |w.tasks.Keys| < sc.most && Open(w, k, sc)
    requires Sig(k, sc.date, sc.cfg) in sc.heard && k < IDENTITIES
    ensures OnPath(w', Start(sc), sc) && Open(w', k + 1, sc)
    ensures t !in w.tasks && w'.tasks == w.tasks[t := Supervisor(Sig(k, sc.date, sc.cfg), CheckLimit)]
    ensures w'.tables.daily == w.tables.daily && PendingRow(w', Sig(k, sc.date, sc.cfg).id)
    ensures forall id :: PendingRow(w, id) ==> PendingRow(w', id)
  {
    var s := Sig(k, sc.date, sc.cfg);
    NextTaskIsFree(w, Start(sc), sc);
    NextArrives(w, k, sc);
    w', t := StoreAndDispatch(w, Start(sc), s, sc);
    OthersUnknown(w, w', k, sc);
  }

  lemma OthersUnknown(w: World, w': World, k: nat, sc: Scenario)
    requires Open(w, k, sc) && k < IDENTITIES && w'.phase.Running? && w'.queue == []
    requires forall id :: id in w'.tables.signals ==> id in w.tables.signals || id == Sig(k, sc.date, sc.cfg).id
    ensures Open(w', k + 1, sc)
  {
    forall i: nat | k + 1 <= i < IDENTITIES ensures Sig(i, sc.date, sc.cfg).id !in w'.tables.signals {
      if Sig(i, sc.date, sc.cfg).id == Sig(k, sc.date, sc.cfg).id {
        SigsDiffer(i, k, sc.date, sc.cfg);
      }
    }
  }

  lemma KeysOne(tasks: map<nat, Task>, t: nat, task: Task)
    requires t !in tasks
    ensures |tasks[t := task].Keys| == |tasks.Keys| + 1
  {
    assert tasks[t := task].Keys == tasks.Keys + {t};
  }

  /** ... and passes the check, as long as the day is within its limits. */
  lemma Admit(w: World, k: nat, sc: Scenario) returns (w': World, t: nat)
    requires Path(w, Start(sc), sc) && |w.tasks.Keys| < sc.most && Open(w, k, sc)
    requires Sig(k, sc.date, sc.cfg) in sc.heard && k < IDENTITIES && LimitHit(w.tables, sc.date, sc.cfg).None?
    ensures OnPath(w', Start(sc), sc) && Open(w', k + 1, sc)
    ensures t !in w.tasks && w'.tasks == w.tasks[t := Supervisor(Sig(k, sc.date, sc.cfg), CheckGate)]
    ensures PendingRow(w', Sig(k, sc.date, sc.cfg).id) && w'.tables.daily == w.tables.daily
    ensures forall id :: PendingRow(w, id) ==> PendingRow(w', id)
  {
    var a;
    a, t := ArriveAndDispatch(w, k, sc);
    SigIs(k, sc.date, sc.cfg);
    w' := PassCheck(a, t, Sig(k, sc.date, sc.cfg), sc);
    assert w'.tasks == w.tasks[t := Supervisor(Sig(k, sc.date, sc.cfg), CheckGate)];
  }

  lemma PassCheck(w: World, t: nat, s: Signal, sc: Scenario) returns (w': World)
    requires OnPath(w, Start(sc), sc) && At(w, t, s, CheckLimit) && s.id.date == sc.date
    requires LimitHit(w.tables, sc.date, sc.cfg).None?
    ensures OnPath(w', Start(sc), sc) && w' == w.(tasks := w.tasks[t := Supervisor(s, CheckGate)])
  {
    PathReachable(w, Start(sc), sc);
    ReachableInv(w, sc.cfg);
    SupervisorDate(w, t, sc.cfg);
    w' := Move(w, Start(sc), t, s, Reply(Start(sc), Win), sc);
  }

  // ----- The run -----

  predicate OnlyTradeLimit(cfg: Config) {
    cfg.dailyTradeLimit > 0 && cfg.dailyLossLimit == 0.0 && cfg.dailyDrawdownPct == 0
  }

  /** The boot: an empty database, nothing to recover. */
  lemma Boot(sc: Scenario) returns (w: World)
    ensures Path(w, Start(sc), sc) && w.tasks == map[] && Open(w, 0, sc) && w.tables == EMPTY
  {
    assert InFlight(INIT, sc.date) == 0.0;
    assert Leads([], Start(sc), INIT, Start(sc), sc);
    var read := ReadActive([], Start(sc));
    var a := Apply(INIT, read, sc.cfg);
    assert IsActiveSnapshot(INIT.tables, []);
    Extend(INIT, Start(sc), read, sc);
    w := Apply(a, Recover(Reply(Start(sc), Win)), sc.cfg);
    Extend(a, Start(sc), Recover(Reply(Start(sc), Win)), sc);
  }

  /** The scenario the attaining run plays in. */
  ghost predicate Playable(sc: Scenario) {
    && sc.most > 0 && OnlyTradeLimit(sc.cfg) && sc.cfg.dailyTradeLimit - 1 + sc.most <= IDENTITIES
    && forall i: nat :: i < IDENTITIES ==> Sig(i, sc.date, sc.cfg) in sc.heard
  }

  /** k signals, one after the other, each winning its first trade. */
  lemma {:induction false} Winners(k: nat, sc: Scenario) returns (w: World)
    requires Playable(sc) && k < sc.cfg.dailyTradeLimit
    ensures Path(w, Start(sc), sc) && w.tasks == map[] && Open(w, k, sc) && TradesOn(w, sc.date) == k
  {
    if k == 0 {
      w := Boot(sc);
    } else {
      var a := Winners(k - 1, sc);
      w := OneMore(a, k - 1, sc);
    }
  }

  lemma OneMore(a: World, k: nat, sc: Scenario) returns (w: World)
    requires Playable(sc) && k + 1 < sc.cfg.dailyTradeLimit
    requires Path(a, Start(sc), sc) && a.tasks == map[] && Open(a, k, sc) && TradesOn(a, sc.date) == k
    ensures Path(w, Start(sc), sc) && w.tasks == map[] && Open(w, k + 1, sc) && TradesOn(w, sc.date) == k + 1
  {
    var b, t := Admit(a, k, sc);
    var s := Sig(k, sc.date, sc.cfg);
    SigIs(k, sc.date, sc.cfg);
    w := OneWin(b, Start(sc), t, s, sc);
    assert forall u :: u in w.tasks ==> u == t;
    assert w.tables.signals.Keys == b.tables.signals.Keys;
  }

  /** m of them pass the check before anyone trades. */
  lemma {:induction false} Gather(m: nat, sc: Scenario) returns (w: World)
    requires Playable(sc) && m <= sc.most
    ensures OnPath(w, Start(sc), sc) && Crowd(w, w.tasks.Keys, 0, sc) && |w.tasks.Keys| == m
    ensures Open(w, sc.cfg.dailyTradeLimit - 1 + m, sc) && TradesOn(w, sc.date) == sc.cfg.dailyTradeLimit - 1
  {
    if m == 0 {
      w := Winners(sc.cfg.dailyTradeLimit - 1, sc);
    } else {
      var a := Gather(m - 1, sc);
      var k := sc.cfg.dailyTradeLimit - 1 + (m - 1);
      var t;
      w, t := Admit(a, k, sc);
      SigIs(k, sc.date, sc.cfg);
      KeysOne(a.tasks, t, Supervisor(Sig(k, sc.date, sc.cfg), CheckGate));
      forall u | u in w.tasks ensures u != t ==> w.tasks[u] == a.tasks[u] {
      }
    }
  }

  /** The whole crowd loses its k-th stage. */
  lemma LoseTogether(a: World, clock: real, k: nat, sc: Scenario) returns (w: World, end: real)
    requires OnPath(a, clock, sc) && clock <= CrowdMoment(k, sc) && Crowd(a, a.tasks.Keys, k, sc)
    requires k < MostTrades(sc.cfg)
    ensures OnPath(w, end, sc) && TradesOn(w, sc.date) == TradesOn(a, sc.date) + |a.tasks.Keys|
    ensures k + 1 < MostTrades(sc.cfg) ==>
              && end <= CrowdMoment(k + 1, sc) && Crowd(w, w.tasks.Keys, k + 1, sc)
              && |w.tasks.Keys| == |a.tasks.Keys|
  {
    w, end := Sweep(a, clock, a.tasks.Keys, k, sc);
    NextStage(w, k, sc);
  }

  /** The whole crowd loses stage after stage, as far as the clock lets it. */
  lemma LoseFrom(a: World, clock: real, k: nat, sc: Scenario) returns (w: World, end: real)
    requires OnPath(a, clock, sc) && clock <= CrowdMoment(k, sc) && Crowd(a, a.tasks.Keys, k, sc)
    requires k < MostTrades(sc.cfg)
    ensures OnPath(w, end, sc)
    ensures TradesOn(w, sc.date) == TradesOn(a, sc.date) + Times(MostTrades(sc.cfg) - k, |a.tasks.Keys|)
    decreases MostTrades(sc.cfg) - k, 1
  {
    var b, now := LoseTogether(a, clock, k, sc);
    var n := |a.tasks.Keys|;
    assert Times(MostTrades(sc.cfg) - k, n) == n + Times(MostTrades(sc.cfg) - (k + 1), n);
    w, end := LoseRest(b, now, k + 1, n, sc);
  }

  lemma LoseRest(b: World, clock: real, k: nat, n: nat, sc: Scenario) returns (w: World, end: real)
    requires OnPath(b, clock, sc) && k <= MostTrades(sc.cfg)
    requires k < MostTrades(sc.cfg) ==>
               clock <= CrowdMoment(k, sc) && Crowd(b, b.tasks.Keys, k, sc) && |b.tasks.Keys| == n
    ensures OnPath(w, end, sc)
    ensures TradesOn(w, sc.date) == TradesOn(b, sc.date) + Times(MostTrades(sc.cfg) - k, n)
    decreases MostTrades(sc.cfg) - k, 2
  {
    if k == MostTrades(sc.cfg) {
      w, end := b, clock;
    } else {
      w, end := LoseFrom(b, clock, k, sc);
    }
  }

  function Times(m: nat, n: nat): nat { if m == 0 then 0 else n + Times(m - 1, n) }

  lemma {:induction false} TimesIs(m: nat, n: nat)
    ensures Times(m, n) == m * n
  {
    if m > 0 {
      TimesIs(m - 1, n);
    }
  }

  lemma Attain(sc: Scenario) returns (steps: seq<Step>, start: real, w: World)
    requires Playable(sc)
    ensures RunAtMost(INIT, steps, w, sc.date, sc.most, sc.cfg) && Timed(INIT, steps, start, sc.heard, sc.cfg)
    ensures DailyOf(w.tables, sc.date).trades == sc.cfg.dailyTradeLimit - 1 + MostTrades(sc.cfg) * sc.most
  {
    var a := Gather(sc.most, sc);
    var end;
    w, end := LoseFrom(a, Start(sc), 0, sc);
    TimesIs(MostTrades(sc.cfg), sc.most);
    steps, start :| Leads(steps, start, w, end, sc);
  }

  /** Some day reaches this many trades, in a timed run of announced signals with at most n of them
      in flight. */
  ghost predicate DayReaches(trades: int, d: int, n: nat, cfg: Config) {
    exists steps, start, w ::
      && RunAtMost(INIT, steps, w, d, n, cfg) && Timed(INIT, steps, start, Heard(cfg), cfg)
      && DailyOf(w.tables, d).trades == trades
  }

  /** The overshoot bound is attained, for every limit and every n as far as one minute has
      identities, if and only if the expiration is a whole number of minutes; otherwise no message is
      accepted and no timed run trades at all. */
  lemma OvershootAttainedIff(d: int, n: nat, cfg: Config)
    requires n > 0 && OnlyTradeLimit(cfg) && cfg.dailyTradeLimit - 1 + n <= IDENTITIES
    ensures DayReaches(cfg.dailyTradeLimit - 1 + MostTrades(cfg) * n, d, n, cfg) <==> cfg.expirationSeconds % 60 == 0
  {
    if cfg.expirationSeconds % 60 == 0 {
      AllHeard(d, cfg);
      var steps, start, w := Attain(Scenario(d, n, Heard(cfg), cfg));
    } else {
      forall steps, start, w | RunAtMost(INIT, steps, w, d, n, cfg) && Timed(INIT, steps, start, Heard(cfg), cfg)
        ensures DailyOf(w.tables, d).trades == 0
      {
        NoMinutesNoTrades(steps, start, w, d, n, cfg);
      }
    }
  }

  lemma AllHeard(d: int, cfg: Config)
    requires cfg.expirationSeconds % 60 == 0
    ensures forall i: nat :: Sig(i, d, cfg) in Heard(cfg)
  {
    forall i: nat ensures Sig(i, d, cfg) in Heard(cfg) {
      SigAnnounced(i, d, cfg);
    }
  }

  lemma NoMinutesNoTrades(steps: seq<Step>, start: real, w: World, d: int, n: nat, cfg: Config)
    requires RunAtMost(INIT, steps, w, d, n, cfg) && Timed(INIT, steps, start, Heard(cfg), cfg)
    requires cfg.expirationSeconds % 60 != 0
    ensures w.log == [] && w.tables == EMPTY
  {
    RunAtMostRuns(INIT, steps, w, Scenario(d, n, Heard(cfg), cfg));
    SilentRun(INIT, steps, w, start, cfg);
  }

  // ----- A late gale -----

  /** A timed run brings task t to its first gale, where a wake-up an hour past the tolerance is on
      time for the clock and yet goes on to the broker. */
  ghost predicate LateGale(steps: seq<Step>, start: real, w: World, t: nat, o: Oracle, cfg: Config) {
    && Run(INIT, steps, w, cfg) && Timed(INIT, steps, start, Heard(cfg), cfg)
    && t in w.tasks && w.tasks[t].Supervisor? && w.tasks[t].pc.AwaitFire?
    && w.tasks[t].pc.state.stage == Some(Gale1)
    && OnTime(w, Supervise(t, o), ClockAfter(steps, start), Heard(cfg))
    && o.now == FireTarget(w.tasks[t].signal, Gale1) + cfg.skewTolerance + 3600.0
    && !GuardKept(w, t, o, cfg)
  }

  /** The late family is not empty either, for any configuration that can accept a message. */
  lemma LateGaleHappens(d: int, cfg: Config)
    requires cfg.expirationSeconds % 60 == 0
    ensures exists steps, start, w, t, o :: LateGale(steps, start, w, t, o, cfg)
  {
    var sc := Scenario(d, 1, Heard(cfg), cfg);
    AllHeard(d, cfg);
    var w, t, s := FirstGale(sc);
    var o := Reply(FireTarget(s, Gale1) + cfg.skewTolerance + 3600.0, Loss);
    LateGuardBroken(w, t, s, o, sc);
    var steps, start :| Leads(steps, start, w, Moment(s, 0), sc);
    RunAtMostRuns(INIT, steps, w, sc);
    assert LateGale(steps, start, w, t, o, cfg);
  }

  /** A supervisor waiting for its first gale. */
  lemma FirstGale(sc: Scenario) returns (w: World, t: nat, s: Signal)
    requires sc.most > 0 && Sig(0, sc.date, sc.cfg) in sc.heard
    ensures Path(w, Moment(s, 0), sc) && ProperSignal(s, sc.cfg) && At(w, t, s, AwaitFire(LostState(s, 1, sc.cfg)))
  {
    var a := Boot(sc);
    var b;
    b, t := Admit(a, 0, sc);
    s := Sig(0, sc.date, sc.cfg);
    SigIs(0, sc.date, sc.cfg);
    w := LoseStage(b, Start(sc), t, s, 0, sc);
  }

  lemma LateGuardBroken(w: World, t: nat, s: Signal, o: Oracle, sc: Scenario)
    requires Path(w, Moment(s, 0), sc) && ProperSignal(s, sc.cfg) && At(w, t, s, AwaitFire(LostState(s, 1, sc.cfg)))
    requires o.now == FireTarget(s, Gale1) + sc.cfg.skewTolerance + 3600.0
    ensures LostState(s, 1, sc.cfg).stage == Some(Gale1) && !GuardKept(w, t, o, sc.cfg)
    ensures OnTime(w, Supervise(t, o), Moment(s, 0), sc.heard)
  {
    LossesLeadOn(s, 1, sc.cfg);
    PathReachable(w, Moment(s, 0), sc);
    FireGuardIff(w, t, o, sc.cfg);
  }
}
