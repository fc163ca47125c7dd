/** The safety theorems over whole runs of the protocol. */
module Guarantees {
  import opened Gale
  import opened StateMachine
  import opened Tables
  import opened Protocol
  import opened Safety
  import Clock

  /** Between two moments of a run: rows never vanish, change only upwards, and a terminal row
      keeps even its reason and timestamp. */
  predicate RowsMonotone(a: World, b: World) {
    forall id :: id in a.tables.signals ==>
      && id in b.tables.signals
      && (b.tables.signals[id] == a.tables.signals[id] || Rank(StatusOf(b, id)) < Rank(StatusOf(a, id)))
      && (IsTerminal(StatusOf(a, id)) ==> b.tables.signals[id] == a.tables.signals[id])
  }

  /** Forward-only status over any run, although every UPDATE is unconditional. */
  lemma {:induction false} StatusForwardOnly(w: World, steps: seq<Step>, w': World, cfg: Config)
    requires Reachable(w, cfg) && Run(w, steps, w', cfg)
    ensures RowsMonotone(w, w')
  {
    ReachableInv(w, cfg);
    ForwardFrom(w, steps, w', cfg);
  }

  lemma {:induction false} ForwardFrom(w: World, steps: seq<Step>, w': World, cfg: Config)
    requires Inv(w, cfg) && Run(w, steps, w', cfg)
    ensures RowsMonotone(w, w')
    decreases |steps|
  {
    if steps != [] {
      var v := Apply(w, steps[0], cfg);
      StepKeepsInv(w, steps[0], cfg);
      ForwardFrom(v, steps[1..], w', cfg);
      MonotoneAfterStep(w, v, w');
    }
  }

  lemma MonotoneAfterStep(a: World, b: World, c: World)
    requires RowsForward(a, b) && RowsMonotone(b, c)
    ensures RowsMonotone(a, c)
  {
  }

  /** No duplicate trade, ever: at most one broker call per signal and stage, whatever the
      redeliveries, interleavings, exceptions, crashes and restarts. */
  lemma NoDuplicateTrade(w: World, cfg: Config)
    requires Reachable(w, cfg)
    ensures forall i, j :: 0 <= i < j < |w.log| && w.log[i].signalId == w.log[j].signalId ==>
              w.log[i].stage != w.log[j].stage
  {
    ReachableInv(w, cfg);
  }

  /** Nothing but task t moved. */
  ghost predicate OthersStand(w: World, w': World, t: nat) {
    && w'.nextTask == w.nextTask && w'.phase == w.phase && w'.queue == w.queue
    && forall u :: u != t ==> (u in w.tasks <==> u in w'.tasks) && (u in w.tasks ==> w'.tasks[u] == w.tasks[u])
  }

  lemma FireFrame(w: World, t: nat, o: Oracle, cfg: Config)
    requires t in w.tasks && w.tasks[t].Supervisor?
    requires AtGate(w.tasks[t]) || w.tasks[t].pc.AwaitFire? || w.tasks[t].pc.PersistFire?
    ensures OthersStand(w, DoSupervise(w, t, o, cfg), t)
  {
  }

  lemma PlaceFrame(w: World, t: nat, o: Oracle, cfg: Config)
    requires t in w.tasks && w.tasks[t].Supervisor?
    requires var pc := w.tasks[t].pc; pc.PlaceTrade? || pc.PersistFailure? || pc.RecordPlaced? || pc.StartWait?
    ensures OthersStand(w, DoSupervise(w, t, o, cfg), t)
  {
  }

  lemma ResultFrame(w: World, t: nat, o: Oracle, cfg: Config)
    requires t in w.tasks && w.tasks[t].Supervisor?
    requires var pc := w.tasks[t].pc; pc.AwaitResult? || pc.RecordResult? || pc.PersistResult? || pc.BookDaily?
    ensures OthersStand(w, DoSupervise(w, t, o, cfg), t)
  {
  }

  /** A supervisor's step moves only itself. */
  lemma SuperviseFrame(w: World, t: nat, o: Oracle, cfg: Config)
    requires t in w.tasks && w.tasks[t].Supervisor?
    ensures OthersStand(w, DoSupervise(w, t, o, cfg), t)
  {
    var pc := w.tasks[t].pc;
    if AtGate(w.tasks[t]) || pc.AwaitFire? || pc.PersistFire? {
      FireFrame(w, t, o, cfg);
    } else if pc.PlaceTrade? || pc.PersistFailure? || pc.RecordPlaced? || pc.StartWait? {
      PlaceFrame(w, t, o, cfg);
    } else {
      ResultFrame(w, t, o, cfg);
    }
  }

  /** Only a supervisor about to place calls the broker. */
  lemma BrokerCallers(w: World, step: Step, cfg: Config)
    requires Enabled(w, step, cfg)
    ensures Apply(w, step, cfg).log == w.log
            || (step.Supervise? && w.tasks[step.task].pc.PlaceTrade? && w.tasks[step.task].pc.state.stage.Some?
                && var st := w.tasks[step.task].pc.state;
                Apply(w, step, cfg).log == w.log + [Placement(w.tasks[step.task].signal.id, st.stage.value, st.amount)])
  {
  }

  lemma OtherStepsKeepLog(w: World, step: Step, cfg: Config)
    requires Enabled(w, step, cfg) && !step.Supervise?
    ensures Apply(w, step, cfg).log == w.log
  {
  }

  /** Write-ahead: a broker call is only ever made for a stored signal whose persisted status is
      already that stage's, for that stage's stake, with only lower stages called before. */
  lemma WriteAhead(w: World, step: Step, cfg: Config)
    requires Reachable(w, cfg) && Enabled(w, step, cfg)
    ensures
      var w' := Apply(w, step, cfg);
      w'.log != w.log ==>
        && |w'.log| == |w.log| + 1 && w'.log[..|w.log|] == w.log
        && var p := w'.log[|w.log|];
        && p.signalId in w.tables.signals
        && StatusOf(w, p.signalId) == PlacedStatus(p.stage)
        && p.amount == AmountForStage(p.stage, cfg)
        && PlacedBelow(w, p.signalId, Index(p.stage))
  {
    ReachableInv(w, cfg);
    BrokerCallers(w, step, cfg);
    if step.Supervise? {
      assert TaskInv(w, w.tasks[step.task], cfg);
    }
  }

  lemma OtherStepsEnqueueNothing(w: World, step: Step, cfg: Config)
    requires Enabled(w, step, cfg) && !step.Enqueue?
    ensures Apply(w, step, cfg).enqueued == w.enqueued
  {
  }

  /** Exactly-once intake: however often and in whatever order a message is delivered, its
      signal reaches the queue at most once, and only with its row already stored. */
  lemma ExactlyOnceIntake(w: World, step: Step, cfg: Config)
    requires Reachable(w, cfg) && Enabled(w, step, cfg)
    ensures forall a, b :: 0 <= a < b < |w.enqueued| ==> w.enqueued[a] != w.enqueued[b]
    ensures forall a :: 0 <= a < |w.queue| ==> w.queue[a].id in w.tables.signals
    ensures
      var w' := Apply(w, step, cfg);
      w'.enqueued != w.enqueued ==>
        && step.Enqueue? && w'.enqueued == w.enqueued + [w.tasks[step.task].signal.id]
        && w.tasks[step.task].signal.id !in w.enqueued
        && w.tasks[step.task].signal.id in w.tables.signals
        && StatusOf(w, w.tasks[step.task].signal.id) == Pending
  {
    ReachableInv(w, cfg);
    if step.Enqueue? {
      assert TaskInv(w, w.tasks[step.task], cfg);
    } else {
      OtherStepsEnqueueNothing(w, step, cfg);
    }
  }

  /** The daily summary a supervisor reads and books is the one of the date in the signal's id. */
  lemma SupervisorDate(w: World, t: nat, cfg: Config)
    requires Inv(w, cfg) && t in w.tasks && w.tasks[t].Supervisor?
    ensures Clock.SignalDate(w.tasks[t].signal.triggerInitial, cfg.utcOffset) == w.tasks[t].signal.id.date
  {
  }

  // ----- Restarts -----

  predicate AtGate(t: Task) { t.Supervisor? && (t.pc.CheckLimit? || t.pc.RejectLimit? || t.pc.CheckGate?) }

  /** A stored signal that nobody will trade any more: not queued, and any supervisor it has is
      still before the gate, in front of a row that is no longer pending. */
  predicate Orphan(w: World, id: SignalId) {
    && id in w.tables.signals
    && (forall a :: 0 <= a < |w.queue| ==> w.queue[a].id != id)
    && (forall t :: t in w.tasks && Owns(w.tasks[t]) && w.tasks[t].signal.id == id ==>
          AtGate(w.tasks[t]) && StatusOf(w, id) != Pending)
  }

  predicate SamePlacements(a: World, b: World, id: SignalId) {
    && |a.log| <= |b.log| && b.log[..|a.log|] == a.log
    && forall k :: |a.log| <= k < |b.log| ==> b.log[k].signalId != id
  }

  /** In front of a row that is no longer pending, the gate lets nobody through. */
  lemma GateHolds(w: World, t: nat, o: Oracle, cfg: Config)
    requires t in w.tasks && AtGate(w.tasks[t])
    requires w.tasks[t].signal.id in w.tables.signals && StatusOf(w, w.tasks[t].signal.id) != Pending
    ensures var w' := DoSupervise(w, t, o, cfg);
            w'.log == w.log && (t in w'.tasks ==> AtGate(w'.tasks[t]))
  {
  }

  lemma SuperviseKeepsOrphan(w: World, t: nat, o: Oracle, id: SignalId, cfg: Config)
    requires Inv(w, cfg) && Orphan(w, id) && t in w.tasks && w.tasks[t].Supervisor?
    ensures Orphan(DoSupervise(w, t, o, cfg), id) && SamePlacements(w, DoSupervise(w, t, o, cfg), id)
  {
    SuperviseKeepsInv(w, t, o, cfg);
    if w.tasks[t].signal.id == id {
      GateHolds(w, t, o, cfg);
    }
    OrphanFrame(w, DoSupervise(w, t, o, cfg), t, id);
  }

  lemma OrphanFrame(w: World, w': World, t: nat, id: SignalId)
    requires Orphan(w, id) && t in w.tasks && w.tasks[t].Supervisor?
    requires OnlyTouches(w, w', t, w.tasks[t].signal.id) && RowsForward(w, w')
    requires w.tasks[t].signal.id == id ==> w'.log == w.log && (t in w'.tasks ==> AtGate(w'.tasks[t]))
    ensures Orphan(w', id) && SamePlacements(w, w', id)
  {
  }

  lemma RecoverKeepsOrphan(w: World, o: Oracle, id: SignalId, cfg: Config)
    requires w.phase.Recovering? && RecoveryInv(w, cfg) && RowsInv(w, cfg) && Orphan(w, id)
    requires RowsForward(w, DoRecover(w, o, cfg))
    ensures Orphan(DoRecover(w, o, cfg), id)
  {
    RecoverSpawns(w, o, cfg);
  }

  /** Recovery leaves the queue and every task alone; a task it adds stands before the gate of a
      placed row. */
  lemma RecoverSpawns(w: World, o: Oracle, cfg: Config)
    requires w.phase.Recovering? && RecoveryInv(w, cfg) && RowsInv(w, cfg)
    ensures
      var w' := DoRecover(w, o, cfg);
      && w'.queue == w.queue
      && forall t :: t in w'.tasks ==>
           || (t in w.tasks && w'.tasks[t] == w.tasks[t])
           || (&& AtGate(w'.tasks[t])
               && var id := w'.tasks[t].signal.id;
                  id in w.tables.signals && IsPlaced(StatusOf(w, id)))
  {
  }

  lemma IntakeKeepsOrphan(w: World, step: Step, id: SignalId, cfg: Config)
    requires Orphan(w, id) && Enabled(w, step, cfg) && !step.Supervise? && !step.Recover?
    ensures Orphan(Apply(w, step, cfg), id)
  {
  }

  lemma StepKeepsOrphan(w: World, step: Step, id: SignalId, cfg: Config)
    requires Inv(w, cfg) && Enabled(w, step, cfg) && Orphan(w, id)
    ensures Orphan(Apply(w, step, cfg), id) && SamePlacements(w, Apply(w, step, cfg), id)
  {
    if step.Supervise? {
      SuperviseKeepsOrphan(w, step.task, step.oracle, id, cfg);
    } else {
      OtherStepsKeepLog(w, step, cfg);
      if step.Recover? {
        RecoverKeepsInv(w, step.oracle, cfg);
        RecoverKeepsOrphan(w, step.oracle, id, cfg);
      } else {
        IntakeKeepsOrphan(w, step, id, cfg);
      }
    }
  }

  lemma SamePlacementsTransitive(a: World, b: World, c: World, id: SignalId)
    requires SamePlacements(a, b, id) && SamePlacements(b, c, id)
    ensures SamePlacements(a, c, id)
  {
  }

  lemma {:induction false} OrphanForever(w: World, steps: seq<Step>, w': World, id: SignalId, cfg: Config)
    requires Inv(w, cfg) && Orphan(w, id) && Run(w, steps, w', cfg)
    ensures SamePlacements(w, w', id) && Orphan(w', id) && Inv(w', cfg)
    decreases |steps|
  {
    if steps != [] {
      var v := Apply(w, steps[0], cfg);
      StepKeepsInv(w, steps[0], cfg);
      StepKeepsOrphan(w, steps[0], id, cfg);
      OrphanForever(v, steps[1..], w', id, cfg);
      SamePlacementsTransitive(w, v, w', id);
    }
  }

  /** A restart never trades an old signal: after a crash, no run whatsoever places another
      trade for a signal stored before it, adopted or not. */
  lemma RestartNeverTrades(w: World, steps: seq<Step>, w': World, id: SignalId, cfg: Config)
    requires Reachable(w, cfg) && id in w.tables.signals
    requires Run(DoCrash(w), steps, w', cfg)
    ensures forall k :: |w.log| <= k < |w'.log| ==> w'.log[k].signalId != id
  {
    ReachableInv(w, cfg);
    StepKeepsInv(w, Crash, cfg);
    OrphanForever(DoCrash(w), steps, w', id, cfg);
  }

  lemma OrphanWrites(w: World, t: nat, o: Oracle, id: SignalId, cfg: Config)
    requires Inv(w, cfg) && Orphan(w, id) && t in w.tasks && w.tasks[t].Supervisor?
    ensures
      var w' := DoSupervise(w, t, o, cfg);
      && id in w'.tables.signals
      && (w'.tables.signals[id] == w.tables.signals[id]
          || (w.tasks[t].pc.RejectLimit?
              && StatusOf(w', id) == Error && w'.tables.signals[id].errorReason == Some(DailyLimitHit)))
  {
    SuperviseKeepsInv(w, t, o, cfg);
    if w.tasks[t].signal.id == id {
      GateWrites(w, t, o, cfg);
    }
  }

  lemma GateWrites(w: World, t: nat, o: Oracle, cfg: Config)
    requires t in w.tasks && AtGate(w.tasks[t]) && w.tasks[t].signal.id in w.tables.signals
    ensures
      var w', id := DoSupervise(w, t, o, cfg), w.tasks[t].signal.id;
      && id in w'.tables.signals
      && if w.tasks[t].pc.RejectLimit?
         then StatusOf(w', id) == Error && w'.tables.signals[id].errorReason == Some(DailyLimitHit)
         else w'.tables == w.tables
  {
  }

  lemma IntakeKeepsRow(w: World, step: Step, id: SignalId, cfg: Config)
    requires Enabled(w, step, cfg) && !step.Supervise? && !step.Recover? && id in w.tables.signals
    ensures id in Apply(w, step, cfg).tables.signals && Apply(w, step, cfg).tables.signals[id] == w.tables.signals[id]
  {
  }

  /** Adoption resumes nothing: in any run after a crash, the row of a signal stored before it is
      changed by recovery itself, or by the daily limit rejecting it, and by nothing else. */
  lemma AdoptionResumesNothing(w: World, steps: seq<Step>, w': World, step: Step, id: SignalId, cfg: Config)
    requires Reachable(w, cfg) && id in w.tables.signals
    requires Run(DoCrash(w), steps, w', cfg) && Enabled(w', step, cfg) && !step.Recover?
    ensures id in w'.tables.signals && id in Apply(w', step, cfg).tables.signals
    ensures var row, row' := w'.tables.signals[id], Apply(w', step, cfg).tables.signals[id];
            row' != row ==>
              && step.Supervise? && w'.tasks[step.task].pc.RejectLimit?
              && row'.status == Error && row'.errorReason == Some(DailyLimitHit)
  {
    ReachableInv(w, cfg);
    StepKeepsInv(w, Crash, cfg);
    OrphanForever(DoCrash(w), steps, w', id, cfg);
    if step.Supervise? {
      OrphanWrites(w', step.task, step.oracle, id, cfg);
    } else {
      IntakeKeepsRow(w', step, id, cfg);
    }
  }
}
