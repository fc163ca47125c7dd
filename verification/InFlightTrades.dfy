/** The dry-run broker's map of trades placed but not yet awaited, as the supervisors use it. */
module InFlightTrades {
  import opened Gale
  import opened StateMachine
  import opened Tables
  import opened Protocol
  import opened Safety
  import opened Guarantees
  import opened Ledger

  /** Supervisors between placing a trade and asking for its result. */
  predicate Holds(t: Task) { t.Supervisor? && (t.pc.RecordPlaced? || t.pc.StartWait?) }

  function Held(w: World): set<BrokerTradeId> {
    set t | t in w.tasks && Holds(w.tasks[t]) :: w.tasks[t].pc.brokerId
  }

  predicate HolderInv(w: World, t: Task) {
    && (Holds(t) ==> t.pc.brokerId in w.inflight && t.pc.brokerId.signalId == t.signal.id)
    && (t.Supervisor? && t.pc.AwaitResult? ==> t.pc.known)
  }

  predicate MapInv(w: World) {
    && (forall t :: t in w.tasks ==> HolderInv(w, w.tasks[t]))
    && (forall id :: id in w.inflight ==> IsPlacedIn(w.log, id.signalId, id.stage))
  }

  lemma SuperviseKeepsMap(w: World, t: nat, o: Oracle, cfg: Config)
    requires OneOwner(w) && MapInv(w) && t in w.tasks && w.tasks[t].Supervisor?
    ensures MapInv(DoSupervise(w, t, o, cfg))
  {
    var w' := DoSupervise(w, t, o, cfg);
    SuperviseFrame(w, t, o, cfg);
    SuperviseInflight(w, t, o, cfg);
    assert HolderInv(w, w.tasks[t]);
    forall u | u in w'.tasks && u != t ensures HolderInv(w', w'.tasks[u]) {
      assert HolderInv(w, w.tasks[u]);
    }
    PlacedKept(w.log, w'.log);
  }

  /** How one supervisor step changes the map, the log and its own claim. */
  lemma SuperviseInflight(w: World, t: nat, o: Oracle, cfg: Config)
    requires t in w.tasks && w.tasks[t].Supervisor? && HolderInv(w, w.tasks[t])
    ensures
      var w' := DoSupervise(w, t, o, cfg);
      var s, pc := w.tasks[t].signal, w.tasks[t].pc;
      && |w.log| <= |w'.log| && w'.log[..|w.log|] == w.log
      && (t in w'.tasks ==> HolderInv(w', w'.tasks[t]))
      && if pc.PlaceTrade? && pc.state.stage.Some? && o.reply.Placed? then
           var id := BrokerTradeId(s.id, pc.state.stage.value, o.reply.suffix);
           && w'.inflight == w.inflight + {id}
           && IsPlacedIn(w'.log, s.id, pc.state.stage.value)
           && t in w'.tasks && Holds(w'.tasks[t]) && w'.tasks[t].pc.brokerId == id
         else if pc.StartWait? then
           w'.inflight == w.inflight - {pc.brokerId} && pc.brokerId.signalId == s.id && t in w'.tasks
               && !Holds(w'.tasks[t])
         else
           w'.inflight == w.inflight
  {
    var s, pc := w.tasks[t].signal, w.tasks[t].pc;
    if pc.PlaceTrade? && pc.state.stage.Some? {
      var w' := DoPlaceTrade(w, t, s, pc.state, o, cfg);
      assert w'.log[|w.log|] == Placement(s.id, pc.state.stage.value, pc.state.amount);
    }
  }

  lemma OutsideKeepsMap(w: World, step: Step, cfg: Config)
    requires OneOwner(w) && MapInv(w) && Enabled(w, step, cfg) && !step.Supervise?
    ensures MapInv(Apply(w, step, cfg))
  {
    if step.Recover? {
      RecoverKeepsMap(w, step.oracle, cfg);
    }
  }

  lemma RecoverKeepsMap(w: World, o: Oracle, cfg: Config)
    requires OneOwner(w) && MapInv(w) && w.phase.Recovering?
    ensures MapInv(DoRecover(w, o, cfg))
    ensures Held(DoRecover(w, o, cfg)) == Held(w) && DoRecover(w, o, cfg).inflight == w.inflight
  {
    var w' := DoRecover(w, o, cfg);
    RecoverFrame(w, o, cfg);
    RecoverKeepsInflight(w, o, cfg);
    forall t | t in w'.tasks ensures HolderInv(w', w'.tasks[t]) {
      assert t in w.tasks ==> HolderInv(w, w.tasks[t]);
    }
    assert forall t :: t in w.tasks && Holds(w.tasks[t]) ==> t in w'.tasks && w'.tasks[t] == w.tasks[t];
  }

  lemma RecoverKeepsInflight(w: World, o: Oracle, cfg: Config)
    requires w.phase.Recovering?
    ensures DoRecover(w, o, cfg).inflight == w.inflight
  {
  }

  lemma {:induction false} RunKeepsMap(w: World, steps: seq<Step>, w': World, cfg: Config)
    requires Inv(w, cfg) && MapInv(w) && Run(w, steps, w', cfg)
    ensures MapInv(w')
    decreases |steps|
  {
    if steps != [] {
      StepKeepsInv(w, steps[0], cfg);
      StepKeepsMap(w, steps[0], cfg);
      RunKeepsMap(Apply(w, steps[0], cfg), steps[1..], w', cfg);
    }
  }

  lemma StepKeepsMap(w: World, step: Step, cfg: Config)
    requires OneOwner(w) && MapInv(w) && Enabled(w, step, cfg)
    ensures MapInv(Apply(w, step, cfg))
  {
    if step.Supervise? {
      SuperviseKeepsMap(w, step.task, step.oracle, cfg);
    } else {
      OutsideKeepsMap(w, step, cfg);
    }
  }

  /** A supervisor never asks for an unknown trade, and no placement reuses a known id, even if the
      random suffix repeats: signal and stage alone keep the ids apart. */
  lemma UnknownTradeUnreachable(w: World, t: nat, suffix: int, cfg: Config)
    requires Reachable(w, cfg) && t in w.tasks && w.tasks[t].Supervisor?
    ensures w.tasks[t].pc.StartWait? ==> w.tasks[t].pc.brokerId in w.inflight
    ensures w.tasks[t].pc.AwaitResult? ==> w.tasks[t].pc.known
    ensures w.tasks[t].pc.PlaceTrade? ==>
              w.tasks[t].pc.state.stage.Some?
              && BrokerTradeId(w.tasks[t].signal.id, w.tasks[t].pc.state.stage.value, suffix) !in w.inflight
  {
    ReachableMap(w, cfg);
    assert HolderInv(w, w.tasks[t]) && TaskInv(w, w.tasks[t], cfg);
    if w.tasks[t].pc.PlaceTrade? {
      UnplacedIsFree(w, w.tasks[t].signal.id, w.tasks[t].pc.state.stage.value, suffix);
    }
  }

  lemma ReachableMap(w: World, cfg: Config)
    requires Reachable(w, cfg)
    ensures Inv(w, cfg) && MapInv(w)
  {
    var steps :| Run(INIT, steps, w, cfg);
    RunKeepsMap(INIT, steps, w, cfg);
    ReachableInv(w, cfg);
  }

  lemma UnplacedIsFree(w: World, id: SignalId, stage: Stage, suffix: int)
    requires MapInv(w) && PlacedBelow(w, id, Index(stage))
    ensures BrokerTradeId(id, stage, suffix) !in w.inflight
  {
  }

  // ----- Exactness -----

  /** Runs in which no coroutine dies on its own; whole-process crashes are allowed. */
  predicate NoDeaths(steps: seq<Step>) {
    forall i :: 0 <= i < |steps| ==> !steps[i].Die?
  }

  lemma SuperviseKeepsExact(w: World, t: nat, o: Oracle, cfg: Config)
    requires OneOwner(w) && MapInv(w) && w.inflight == Held(w) && t in w.tasks && w.tasks[t].Supervisor?
    requires w.tasks[t].pc.RecordPlaced? ==> t in DoSupervise(w, t, o, cfg).tasks
    ensures DoSupervise(w, t, o, cfg).inflight == Held(DoSupervise(w, t, o, cfg))
  {
    var w' := DoSupervise(w, t, o, cfg);
    SuperviseFrame(w, t, o, cfg);
    assert HolderInv(w, w.tasks[t]);
    SuperviseInflight(w, t, o, cfg);
    SuperviseHolds(w, t, o, cfg);
    forall id | id in w'.inflight ensures id in Held(w') {
      if id in w.inflight {
        var u :| u in w.tasks && Holds(w.tasks[u]) && w.tasks[u].pc.brokerId == id;
        assert u != t ==> u in w'.tasks && w'.tasks[u] == w.tasks[u];
      }
    }
    forall u | u in w'.tasks && Holds(w'.tasks[u]) ensures w'.tasks[u].pc.brokerId in w'.inflight {
      assert u != t ==> HolderInv(w, w.tasks[u]);
    }
  }

  /** A holder that stays a holder keeps its id. */
  lemma SuperviseHolds(w: World, t: nat, o: Oracle, cfg: Config)
    requires t in w.tasks && w.tasks[t].Supervisor?
    ensures
      var w' := DoSupervise(w, t, o, cfg);
      && (w.tasks[t].pc.RecordPlaced? && t in w'.tasks ==>
         Holds(w'.tasks[t]) && w'.tasks[t].pc.brokerId == w.tasks[t].pc.brokerId)
      && (t in w'.tasks && Holds(w'.tasks[t]) ==> w.tasks[t].pc.RecordPlaced? || w.tasks[t].pc.PlaceTrade?)
  {
  }

  /** Steps outside the supervisors leave every holder in place and make no new one. */
  lemma OutsideKeepsHolders(w: World, step: Step, cfg: Config)
    requires OneOwner(w) && Enabled(w, step, cfg)
    requires !step.Supervise? && !step.Die? && !step.Crash? && !step.Recover?
    ensures
      var w' := Apply(w, step, cfg);
      && w'.inflight == w.inflight
      && (forall t :: t in w.tasks && Holds(w.tasks[t]) ==> t in w'.tasks && w'.tasks[t] == w.tasks[t])
      && (forall t :: t in w'.tasks && Holds(w'.tasks[t]) ==> t in w.tasks && w'.tasks[t] == w.tasks[t])
  {
  }

  lemma OutsideKeepsExact(w: World, step: Step, cfg: Config)
    requires OneOwner(w) && MapInv(w) && w.inflight == Held(w)
    requires Enabled(w, step, cfg) && !step.Supervise? && !step.Die?
    ensures Apply(w, step, cfg).inflight == Held(Apply(w, step, cfg))
  {
    if step.Recover? {
      RecoverKeepsMap(w, step.oracle, cfg);
    } else if !step.Crash? {
      OutsideKeepsHolders(w, step, cfg);
    }
  }

  ghost predicate Exact(w: World, cfg: Config) {
    Inv(w, cfg) && LedgerInv(w, cfg) && MapInv(w) && w.inflight == Held(w)
  }

  lemma StepKeepsExact(w: World, step: Step, cfg: Config)
    requires Exact(w, cfg) && Enabled(w, step, cfg) && !step.Die?
    ensures Exact(Apply(w, step, cfg), cfg)
  {
    StepKeepsInv(w, step, cfg);
    StepKeepsLedger(w, step, cfg);
    StepKeepsMap(w, step, cfg);
    if step.Supervise? {
      if w.tasks[step.task].pc.RecordPlaced? {
        assert TaskInv(w, w.tasks[step.task], cfg) && TaskLedger(w, w.tasks[step.task], cfg);
        NoCollision(w, step.task, step.oracle, cfg);
      }
      SuperviseKeepsExact(w, step.task, step.oracle, cfg);
    } else {
      OutsideKeepsExact(w, step, cfg);
    }
  }

  lemma {:induction false} RunKeepsExact(w: World, steps: seq<Step>, w': World, cfg: Config)
    requires Exact(w, cfg) && Run(w, steps, w', cfg) && NoDeaths(steps)
    ensures Exact(w', cfg)
    decreases |steps|
  {
    if steps != [] {
      assert !steps[0].Die? && NoDeaths(steps[1..]);
      StepKeepsExact(w, steps[0], cfg);
      RunKeepsExact(Apply(w, steps[0], cfg), steps[1..], w', cfg);
    }
  }

  lemma NoCollision(w: World, t: nat, o: Oracle, cfg: Config)
    requires t in w.tasks && w.tasks[t].Supervisor? && w.tasks[t].pc.RecordPlaced?
    requires TaskInv(w, w.tasks[t], cfg) && TaskLedger(w, w.tasks[t], cfg)
    ensures t in DoSupervise(w, t, o, cfg).tasks
  {
  }

  /** The map holds exactly the trades placed but not yet awaited, across crashes and restarts, as
      long as no coroutine dies in between. */
  lemma MapIsExact(steps: seq<Step>, w: World, cfg: Config)
    requires Run(INIT, steps, w, cfg) && NoDeaths(steps)
    ensures w.inflight == Held(w)
  {
    assert forall d, c :: Cell(DailyOf(INIT.tables, d), c) == 0.0;
    RunKeepsExact(INIT, steps, w, cfg);
  }
}
