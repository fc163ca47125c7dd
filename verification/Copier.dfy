/** The running process: the objects its coroutines share, and what other coroutines may do to
    them while one is suspended. */
module Copiers {
  import opened Gale
  import opened StateMachine
  import opened Tables
  import opened Protocol
  import opened Safety
  import opened Guarantees
  import opened Ledger
  import opened Outcomes
  import opened Endings
  import opened StateStores
  import opened DryRunBrokers

  /** Whose code is running: a task's, boot-time recovery's, or a message handler's that stores
      nothing. */
  datatype Actor = TaskActor(task: nat) | RecoveryActor | Bystander

  /** Steps taken by anyone else while the actor is suspended; a crash would end the actor too. */
  predicate ByOther(step: Step, me: Actor) {
    && !step.Crash?
    && match me
       case TaskActor(t) =>
         && (step.Supervise? ==> step.task != t) && (step.Die? ==> step.task != t)
         && (step.Upsert? ==> step.task != t) && (step.Enqueue? ==> step.task != t)
       case RecoveryActor => !step.Recover? && !step.ReadActive?
       case Bystander => true
  }

  /** An oracle of which only the clock reading is used. */
  function Clocked(now: real): Oracle { Oracle(now, CallRaised, Win) }

  /** The stage rows of this signal are as they were. */
  ghost predicate SameStages(a: World, b: World, id: SignalId) {
    forall row: StageRow :: row.tradeId.signalId == id ==> (row in a.tables.stages <==> row in b.tables.stages)
  }

  /** What the actor can rely on. A task: its own position and, once it answers for a signal, that
      signal's placements, row and stage rows. Recovery: its position and the rows it holds. */
  ghost predicate Undisturbed(a: World, b: World, me: Actor) {
    match me
    case TaskActor(t) =>
      t in a.tasks ==>
        && t in b.tasks && b.tasks[t] == a.tasks[t]
        && (Owns(a.tasks[t]) ==>
              var id := a.tasks[t].signal.id;
              CallsFor(b.log, id) == CallsFor(a.log, id) && SameRow(a, b, id) && SameStages(a, b, id))
    case RecoveryActor => b.phase == a.phase && forall id :: HeldByRecovery(a.phase, id) ==> SameRow(a, b, id)
    case Bystander => true
  }

  ghost predicate Reaches(a: World, b: World, cfg: Config) {
    exists steps :: Run(a, steps, b, cfg)
  }

  lemma ReachesSelf(a: World, cfg: Config)
    ensures Reaches(a, a, cfg)
  {
    assert Run(a, [], a, cfg);
  }

  lemma {:induction false} RunAppend(a: World, s: seq<Step>, b: World, t: seq<Step>, c: World, cfg: Config)
    requires Run(a, s, b, cfg) && Run(b, t, c, cfg)
    ensures Run(a, s + t, c, cfg)
    decreases |s|
  {
    if s == [] {
      assert s + t == t;
    } else {
      RunAppend(Apply(a, s[0], cfg), s[1..], b, t, c, cfg);
      assert (s + t)[1..] == s[1..] + t;
    }
  }

  lemma ReachesTransitive(a: World, b: World, c: World, cfg: Config)
    requires Reaches(a, b, cfg) && Reaches(b, c, cfg)
    ensures Reaches(a, c, cfg)
  {
    var s :| Run(a, s, b, cfg);
    var t :| Run(b, t, c, cfg);
    RunAppend(a, s, b, t, c, cfg);
  }

  lemma ReachableOnwards(a: World, b: World, cfg: Config)
    requires Reachable(a, cfg) && Reaches(a, b, cfg)
    ensures Reachable(b, cfg)
  {
    var s :| Run(INIT, s, a, cfg);
    var t :| Run(a, t, b, cfg);
    RunAppend(INIT, s, a, t, b, cfg);
  }

  /** One enabled step of anyone. */
  lemma StepReaches(a: World, step: Step, cfg: Config)
    requires Enabled(a, step, cfg)
    ensures Reaches(a, Apply(a, step, cfg), cfg)
  {
    var b := Apply(a, step, cfg);
    assert [step][1..] == [];
    assert Run(b, [], b, cfg);
    assert Run(a, [step], b, cfg);
  }

  /** Rows only move up, whatever happens in between. */
  lemma ReachesMonotone(a: World, b: World, cfg: Config)
    requires Reachable(a, cfg) && Reaches(a, b, cfg)
    ensures RowsMonotone(a, b)
  {
    var steps :| Run(a, steps, b, cfg);
    StatusForwardOnly(a, steps, b, cfg);
  }

  /** Appending a call of one signal leaves every other signal's calls alone. */
  lemma CallsOfOthers(log: seq<Placement>, p: Placement, id: SignalId)
    ensures CallsFor(log + [p], id) == CallsFor(log, id) + if p.signalId == id then [(p.stage, p.amount)] else []
  {
  }

  lemma OtherStepUndisturbs(w: World, step: Step, me: Actor, cfg: Config)
    requires Inv(w, cfg) && LedgerInv(w, cfg) && Enabled(w, step, cfg) && ByOther(step, me)
    ensures Undisturbed(w, Apply(w, step, cfg), me)
  {
    if me.TaskActor? && me.task in w.tasks {
      OtherTasksStay(w, step, me.task, cfg);
      if Owns(w.tasks[me.task]) {
        OwnedStays(w, step, me.task, cfg);
      }
    } else if me.RecoveryActor? {
      PhaseStays(w, step, cfg);
      HeldRowsStay(w, step, cfg);
    }
  }

  /** What others do leaves the calls, the row and the stage rows of an owned signal alone. */
  lemma OwnedStays(w: World, step: Step, t: nat, cfg: Config)
    requires OneOwner(w) && LedgerInv(w, cfg) && Enabled(w, step, cfg) && ByOther(step, TaskActor(t))
    requires t in w.tasks && Owns(w.tasks[t])
    ensures var w', id := Apply(w, step, cfg), w.tasks[t].signal.id;
            CallsFor(w'.log, id) == CallsFor(w.log, id) && SameRow(w, w', id) && SameStages(w, w', id)
  {
    var w', id := Apply(w, step, cfg), w.tasks[t].signal.id;
    BrokerCallers(w, step, cfg);
    if step.Supervise? {
      assert w.tasks[step.task].signal.id != id;
      if w'.log != w.log {
        var st := w.tasks[step.task].pc.state;
        CallsOfOthers(w.log, Placement(w.tasks[step.task].signal.id, st.stage.value, st.amount), id);
      }
      RowsOfOthersStay(w, step.task, step.oracle, id, cfg);
      assert TaskLedger(w, w.tasks[step.task], cfg);
      StagesOfOthersStay(w, step.task, step.oracle, id, cfg);
    } else {
      OwnedRowsStay(w, step, t, cfg);
      if !step.Die? {
        OutsideFrame(w, step, cfg);
      }
    }
  }

  /** A supervisor writes no row but its own. */
  lemma RowsOfOthersStay(w: World, t: nat, o: Oracle, id: SignalId, cfg: Config)
    requires t in w.tasks && w.tasks[t].Supervisor? && w.tasks[t].signal.id != id
    ensures SameRow(w, DoSupervise(w, t, o, cfg), id)
  {
  }

  lemma StagesOfOthersStay(w: World, t: nat, o: Oracle, id: SignalId, cfg: Config)
    requires t in w.tasks && w.tasks[t].Supervisor? && w.tasks[t].signal.id != id && TaskLedger(w, w.tasks[t], cfg)
    ensures SameStages(w, DoSupervise(w, t, o, cfg), id)
  {
    var w', pc := DoSupervise(w, t, o, cfg), w.tasks[t].pc;
    if pc.RecordResult? {
      ClosingKeepsOthers(w, w', pc.trade, SupervisorPnl(pc.result, pc.state.amount), pc.result, pc.now, id);
    } else if !pc.RecordPlaced? {
      assert w'.tables.stages == w.tables.stages;
    }
  }

  lemma ClosingKeepsOthers(
      a: World, b: World, trade: TradeId, pnl: real, result: StageResult, now: real, id: SignalId)
    requires trade.signalId != id && b.tables.stages == RecordStageResult(a.tables, trade, result, pnl, now).stages
    ensures SameStages(a, b, id)
  {
    forall row: StageRow | row.tradeId.signalId == id ensures row in a.tables.stages <==> row in b.tables.stages {
      if row in a.tables.stages {
        var i :| 0 <= i < |a.tables.stages| && a.tables.stages[i] == row;
        assert b.tables.stages[i] == row;
      }
    }
  }

  /** Nobody else writes a row recovery has yet to hand over. */
  lemma HeldRowsStay(w: World, step: Step, cfg: Config)
    requires OneOwner(w) && Enabled(w, step, cfg) && ByOther(step, RecoveryActor)
    ensures forall id :: HeldByRecovery(w.phase, id) ==> SameRow(w, Apply(w, step, cfg), id)
  {
    forall id | HeldByRecovery(w.phase, id) ensures SameRow(w, Apply(w, step, cfg), id) {
      if step.Supervise? {
        RowsOfOthersStay(w, step.task, step.oracle, id, cfg);
      }
    }
  }

  lemma OtherTasksStay(w: World, step: Step, t: nat, cfg: Config)
    requires OneOwner(w) && Enabled(w, step, cfg) && ByOther(step, TaskActor(t)) && t in w.tasks
    ensures t in Apply(w, step, cfg).tasks && Apply(w, step, cfg).tasks[t] == w.tasks[t]
  {
    if step.Supervise? {
      SuperviseFrame(w, step.task, step.oracle, cfg);
    } else if step.Recover? {
      RecoverOthersStay(w, step.oracle, t, cfg);
    }
  }

  lemma RecoverOthersStay(w: World, o: Oracle, t: nat, cfg: Config)
    requires OneOwner(w) && w.phase.Recovering? && t in w.tasks
    ensures t in DoRecover(w, o, cfg).tasks && DoRecover(w, o, cfg).tasks[t] == w.tasks[t]
  {
  }

  lemma PhaseStays(w: World, step: Step, cfg: Config)
    requires Enabled(w, step, cfg) && ByOther(step, RecoveryActor)
    ensures Apply(w, step, cfg).phase == w.phase
  {
  }

  /** The process. `store` survives it; `log`, `enqueued`, `booked` and `torn` are history. */
  class Copier {
    const cfg: Config
    const store: StateStore
    const broker: Broker
    var queue: seq<Signal>
    var tasks: map<nat, Task>
    var nextTask: nat
    var phase: Phase
    var log: seq<Placement>
    var enqueued: seq<SignalId>
    var booked: set<TradeId>
    var torn: set<TradeId>

    function State(): World
      reads this, store, broker
    {
      World(store.Contents(), log, broker.placed.Keys, queue, tasks, nextTask, phase, enqueued, booked, torn)
    }

    /** The shared state is one the protocol can reach. */
    ghost predicate Valid()
      reads this, store, broker
    {
      Reachable(State(), cfg)
    }

    constructor (cfg: Config)
      ensures this.cfg == cfg && State() == INIT && Valid()
      ensures fresh(store) && fresh(broker)
    {
      this.cfg := cfg;
      store := new StateStore();
      broker := new Broker();
      queue, tasks, nextTask, phase := [], map[], 0, Booting;
      log, enqueued, booked, torn := [], [], {}, {};
      new;
      assert Run(INIT, [], INIT, cfg);
    }

    /** Suspension of one actor: everyone else takes any number of steps, in any order. */
    method Await(me: Actor)
      requires Valid()
      modifies this, store, broker
      ensures Valid() && Reaches(old(State()), State(), cfg)
      ensures Undisturbed(old(State()), State(), me)
    {
      ghost var start := State();
      var n: nat := *;
      ReachesSelf(start, cfg);
      while n > 0
        invariant Valid() && Reaches(start, State(), cfg) && Undisturbed(start, State(), me)
      {
        ghost var before := State();
        var step: Step := *;
        OtherStep(step, me);
        ReachesTransitive(start, before, State(), cfg);
        n := n - 1;
      }
    }

    /** One step of someone else, if it is enabled. */
    method OtherStep(step: Step, me: Actor)
      requires Valid()
      modifies this, store, broker
      ensures Valid() && Reaches(old(State()), State(), cfg)
      ensures Undisturbed(old(State()), State(), me)
    {
      var w := State();
      ReachesSelf(w, cfg);
      if Enabled(w, step, cfg) && ByOther(step, me) {
        ReachableLedger(w, cfg);
        OtherStepUndisturbs(w, step, me, cfg);
        StepReaches(w, step, cfg);
        Become(Apply(w, step, cfg));
        ReachableOnwards(w, State(), cfg);
      }
    }

    method Become(w: World)
      modifies this, store, broker
      ensures State() == w
    {
      store.signals, store.stages, store.daily := w.tables.signals, w.tables.stages, w.tables.daily;
      broker.placed := map id | id in w.inflight :: (id.signalId, id.stage);
      queue, tasks, nextTask, phase := w.queue, w.tasks, w.nextTask, w.phase;
      log, enqueued, booked, torn := w.log, w.enqueued, w.booked, w.torn;
    }

    /** The running code has just taken this step of the protocol. */
    lemma Took(before: World, step: Step)
      requires Reachable(before, cfg) && Enabled(before, step, cfg) && State() == Apply(before, step, cfg)
      ensures Valid() && Reaches(before, State(), cfg)
    {
      StepReaches(before, step, cfg);
      ReachableOnwards(before, State(), cfg);
    }
  }
}
