/** What lies behind an error row: the losses and calls of a cascade its supervisor gave up, and the
    signals a daily limit turned away. */
module Endings {
  import opened Gale
  import opened StateMachine
  import opened Tables
  import opened Protocol
  import opened Safety
  import opened Guarantees
  import opened Ledger
  import opened Outcomes

  // ----- Why a supervisor gives up -----

  /** What the machine's reasons mean. */
  predicate Reasons(next: SignalState, result: StageResult) {
    && (next.errorReason == Some(SignalExpired) ==> LossLike(result))
    && (next.errorReason == Some(BrokerUnavailable) ==> result == Failed)
    && next.errorReason != Some(DailyLimitHit) && next.errorReason != Some(Unknown)
  }

  predicate RowAtStage(w: World, id: SignalId, stage: Stage) {
    id in w.tables.signals && StatusOf(w, id) == PlacedStatus(stage)
  }

  /** The stage a refused placement was called for. */
  predicate RefusedAt(w: World, id: SignalId, stage: Stage) {
    RowAtStage(w, id, stage) && LostBelow(w, id, Index(stage)) && IsPlacedIn(w.log, id, stage)
  }

  predicate PcEnding(w: World, s: Signal, pc: Pc) {
    match pc
    case PersistFire(fired) => fired.errorReason in {None, Some(SignalExpired)}
    case PersistFailure(failed) =>
      failed.errorReason == Some(BrokerUnavailable) && exists stage: Stage :: RefusedAt(w, s.id, stage)
    case RecordResult(_, next, trade, result, _) => Reasons(next, result) && RowAtStage(w, s.id, trade.stage)
    case PersistResult(next, trade, result, _, _) => Reasons(next, result) && RowAtStage(w, s.id, trade.stage)
    case _ => true
  }

  predicate TaskEnding(w: World, t: Task) { t.Supervisor? ==> PcEnding(w, t.signal, t.pc) }

  predicate EndingInv(w: World) { forall t :: t in w.tasks ==> TaskEnding(w, w.tasks[t]) }

  /** The signal's row is as it was. */
  predicate SameRow(a: World, b: World, id: SignalId) {
    id in a.tables.signals ==> id in b.tables.signals && b.tables.signals[id] == a.tables.signals[id]
  }

  lemma EndingStays(a: World, b: World, task: Task)
    requires TaskEnding(a, task) && ClosedKept(a, b) && (task.Supervisor? ==> SameRow(a, b, task.signal.id))
    requires |a.log| <= |b.log| && b.log[..|a.log|] == a.log
    ensures TaskEnding(b, task)
  {
    if task.Supervisor? && task.pc.PersistFailure? {
      var stage: Stage :| RefusedAt(a, task.signal.id, stage);
      LostBelowStays(a, b, task.signal.id, Index(stage));
      PlacedKept(a.log, b.log);
      assert RefusedAt(b, task.signal.id, stage);
    }
  }

  // ----- The supervisor's own step -----

  lemma PlaceEnding(w: World, t: nat, o: Oracle, cfg: Config)
    requires t in w.tasks && w.tasks[t].Supervisor? && w.tasks[t].pc.PlaceTrade?
    requires TaskInv(w, w.tasks[t], cfg) && TaskOutcome(w, w.tasks[t])
    ensures var w' := DoSupervise(w, t, o, cfg); t in w'.tasks ==> TaskEnding(w', w'.tasks[t])
  {
    var s, st := w.tasks[t].signal, w.tasks[t].pc.state;
    var w' := DoPlaceTrade(w, t, s, st, o, cfg);
    PlaceTouches(w, t, st, o, cfg);
    assert w'.log[|w.log|] == Placement(s.id, st.stage.value, st.amount);
    LostBelowStays(w, w', s.id, Index(st.stage.value));
    assert RefusedAt(w', s.id, st.stage.value);
  }

  lemma AwaitEnding(w: World, t: nat, o: Oracle, cfg: Config)
    requires t in w.tasks && w.tasks[t].Supervisor? && w.tasks[t].pc.AwaitResult?
    requires TaskInv(w, w.tasks[t], cfg) && TaskLedger(w, w.tasks[t], cfg)
    ensures var w' := DoSupervise(w, t, o, cfg); t in w'.tasks ==> TaskEnding(w', w'.tasks[t])
  {
  }

  lemma OtherEnding(w: World, t: nat, o: Oracle, cfg: Config)
    requires t in w.tasks && w.tasks[t].Supervisor? && TaskInv(w, w.tasks[t], cfg) && TaskEnding(w, w.tasks[t])
    requires !w.tasks[t].pc.PlaceTrade? && !w.tasks[t].pc.AwaitResult?
    ensures var w' := DoSupervise(w, t, o, cfg); t in w'.tasks ==> TaskEnding(w', w'.tasks[t])
  {
  }

  lemma SuperviseKeepsEnding(w: World, t: nat, o: Oracle, cfg: Config)
    requires Inv(w, cfg) && LedgerInv(w, cfg) && OutcomeInv(w) && EndingInv(w) && t in w.tasks && w.tasks[t].Supervisor?
    ensures EndingInv(DoSupervise(w, t, o, cfg))
  {
    var w' := DoSupervise(w, t, o, cfg);
    SuperviseKeepsInv(w, t, o, cfg);
    assert TaskInv(w, w.tasks[t], cfg) && TaskLedger(w, w.tasks[t], cfg) && TaskOutcome(w, w.tasks[t]);
    SuperviseKeepsClosed(w, t, o, cfg);
    if w.tasks[t].pc.PlaceTrade? {
      PlaceEnding(w, t, o, cfg);
    } else if w.tasks[t].pc.AwaitResult? {
      AwaitEnding(w, t, o, cfg);
    } else {
      OtherEnding(w, t, o, cfg);
    }
    forall u | u in w'.tasks && u != t ensures TaskEnding(w', w'.tasks[u]) {
      EndingStays(w, w', w.tasks[u]);
    }
  }

  // ----- Every other step -----

  /** Outside the supervisors nobody writes a row some task answers for. */
  lemma OwnedRowsStay(w: World, step: Step, t: nat, cfg: Config)
    requires OneOwner(w) && Enabled(w, step, cfg) && !step.Supervise? && t in w.tasks && Owns(w.tasks[t])
    ensures SameRow(w, Apply(w, step, cfg), w.tasks[t].signal.id)
  {
    assert !HeldByRecovery(w.phase, w.tasks[t].signal.id);
  }

  lemma OutsideKeepsEnding(w: World, step: Step, cfg: Config)
    requires OneOwner(w) && EndingInv(w) && Enabled(w, step, cfg) && !step.Supervise?
    requires ClosedKept(w, Apply(w, step, cfg))
    ensures EndingInv(Apply(w, step, cfg))
  {
    var w' := Apply(w, step, cfg);
    OtherStepsKeepLog(w, step, cfg);
    if step.Die? {
      DieStops(w, step.task);
    } else if !step.Crash? {
      OutsideFrame(w, step, cfg);
    }
    forall u | u in w'.tasks ensures TaskEnding(w', w'.tasks[u]) {
      if u in w.tasks && w'.tasks[u] == w.tasks[u] && w.tasks[u].Supervisor? {
        OwnedRowsStay(w, step, u, cfg);
        EndingStays(w, w', w.tasks[u]);
      } else if w'.tasks[u].Supervisor? {
        assert !InCascade(w'.tasks[u]);
      }
    }
  }

  lemma {:induction false} RunKeepsEnding(w: World, steps: seq<Step>, w': World, cfg: Config)
    requires Inv(w, cfg) && LedgerInv(w, cfg) && OutcomeInv(w) && EndingInv(w) && Run(w, steps, w', cfg)
    ensures EndingInv(w')
    decreases |steps|
  {
    if steps != [] {
      StepKeepsInv(w, steps[0], cfg);
      StepKeepsLedger(w, steps[0], cfg);
      StepKeepsOutcome(w, steps[0], cfg);
      StepKeepsEnding(w, steps[0], cfg);
      RunKeepsEnding(Apply(w, steps[0], cfg), steps[1..], w', cfg);
    }
  }

  lemma StepKeepsEnding(w: World, step: Step, cfg: Config)
    requires Inv(w, cfg) && LedgerInv(w, cfg) && OutcomeInv(w) && EndingInv(w) && Enabled(w, step, cfg)
    ensures EndingInv(Apply(w, step, cfg))
  {
    if step.Supervise? {
      SuperviseKeepsEnding(w, step.task, step.oracle, cfg);
    } else {
      StepKeepsClosed(w, step, cfg);
      OutsideKeepsEnding(w, step, cfg);
    }
  }

  lemma ReachableEnding(w: World, cfg: Config)
    requires Reachable(w, cfg)
    ensures Inv(w, cfg) && LedgerInv(w, cfg) && OutcomeInv(w) && EndingInv(w)
  {
    ReachableOutcome(w, cfg);
    var steps :| Run(INIT, steps, w, cfg);
    assert Run(INIT, [], INIT, cfg);
    ReachableOutcome(INIT, cfg);
    RunKeepsEnding(INIT, steps, w, cfg);
  }

  // ----- The theorem about error rows -----

  /** The signal's first n stages were called, and no other. */
  predicate CalledExactly(w: World, id: SignalId, n: nat, cfg: Config) {
    n <= 3 && CallsFor(w.log, id) == Plan(cfg)[..n]
  }

  lemma CallsCounted(w: World, id: SignalId, n: nat, cfg: Config)
    requires Inv(w, cfg) && LedgerInv(w, cfg) && n <= 3 && PlacedBelow(w, id, n)
    requires n > 0 ==> IsPlacedIn(w.log, id, StageAt(n - 1))
    ensures CalledExactly(w, id, n, cfg)
  {
    CallsArePrefix(w.log, id, cfg);
    assert n < 3 ==> Index(StageAt(n)) == n && !IsPlacedIn(w.log, id, StageAt(n));
  }

  /** How many losses and calls an error row has behind it, by its reason. */
  predicate ErrorExplained(w: World, id: SignalId, reason: Option<ErrorReason>, cfg: Config) {
    match reason
    case Some(SignalExpired) => exists k: nat :: k <= 2 && LostBelow(w, id, k) && CalledExactly(w, id, k, cfg)
    case Some(BrokerUnavailable) => exists k: nat :: k <= 2 && LostBelow(w, id, k) && CalledExactly(w, id, k + 1, cfg)
    case Some(DailyLimitHit) => true
    case _ => false
  }

  lemma FireGivesUp(w: World, t: nat, o: Oracle, cfg: Config)
    requires Inv(w, cfg) && LedgerInv(w, cfg) && EndingInv(w) && t in w.tasks && w.tasks[t].Supervisor?
    requires w.tasks[t].pc.PersistFire? && w.tasks[t].pc.fired.status == Error
    ensures ErrorExplained(w, w.tasks[t].signal.id, w.tasks[t].pc.fired.errorReason, cfg)
  {
    var id := w.tasks[t].signal.id;
    assert TaskInv(w, w.tasks[t], cfg) && TaskEnding(w, w.tasks[t]);
    assert PlacedBelow(w, id, Allowance(StatusOf(w, id)));
    CallsCounted(w, id, 0, cfg);
    assert LostBelow(w, id, 0);
  }

  lemma FailureGivesUp(w: World, t: nat, cfg: Config)
    requires Inv(w, cfg) && LedgerInv(w, cfg) && EndingInv(w) && t in w.tasks && w.tasks[t].Supervisor?
    requires w.tasks[t].pc.PersistFailure?
    ensures ErrorExplained(w, w.tasks[t].signal.id, w.tasks[t].pc.failed.errorReason, cfg)
  {
    var id := w.tasks[t].signal.id;
    assert TaskEnding(w, w.tasks[t]);
    var stage: Stage :| RefusedAt(w, id, stage);
    StageCalled(w, id, stage, cfg);
  }

  /** A row at a stage already called: exactly the stages up to it were. */
  lemma StageCalled(w: World, id: SignalId, stage: Stage, cfg: Config)
    requires Inv(w, cfg) && LedgerInv(w, cfg) && RowAtStage(w, id, stage) && IsPlacedIn(w.log, id, stage)
    ensures CalledExactly(w, id, Index(stage) + 1, cfg)
  {
    assert PlacedBelow(w, id, Allowance(StatusOf(w, id)));
    assert StageAt(Index(stage)) == stage;
    CallsCounted(w, id, Index(stage) + 1, cfg);
  }

  lemma ResultGivesUp(w: World, t: nat, cfg: Config)
    requires Inv(w, cfg) && LedgerInv(w, cfg) && t in w.tasks && w.tasks[t].Supervisor?
    requires TaskOutcome(w, w.tasks[t]) && TaskEnding(w, w.tasks[t]) && TaskLedger(w, w.tasks[t], cfg)
    requires w.tasks[t].pc.PersistResult? && w.tasks[t].pc.next.status == Error
    requires w.tasks[t].pc.next.errorReason.Some?
    ensures ErrorExplained(w, w.tasks[t].signal.id, w.tasks[t].pc.next.errorReason, cfg)
  {
    var s, pc := w.tasks[t].signal, w.tasks[t].pc;
    ClosedIsPlaced(w, pc.trade, pc.result, cfg);
    StageCalled(w, s.id, pc.trade.stage, cfg);
    ResultExplained(w, s.id, pc.next, pc.trade, pc.result, cfg);
  }

  lemma ResultExplained(
      w: World, id: SignalId, next: SignalState, trade: TradeId, result: StageResult, cfg: Config)
    requires next.status == Error && next.errorReason.Some? && Leads(next, trade.stage, result) && Reasons(next, result)
    requires trade.signalId == id && ClosedWith(w, trade, result) && LostBelow(w, id, Index(trade.stage))
    requires CalledExactly(w, id, Index(trade.stage) + 1, cfg)
    ensures ErrorExplained(w, id, next.errorReason, cfg)
  {
    if next.errorReason == Some(SignalExpired) {
      LossExtends(w, id, trade, result);
      assert Index(trade.stage) + 1 <= 2;
    }
  }

  lemma ClosedIsPlaced(w: World, trade: TradeId, result: StageResult, cfg: Config)
    requires StageRowsInv(w, cfg) && ClosedWith(w, trade, result)
    ensures IsPlacedIn(w.log, trade.signalId, trade.stage)
  {
  }

  /** What a supervisor leaves behind when its write turns a row into an error: an expired signal has
      lost exactly the stages it called; one the broker failed lost all but the last it called; and a
      signal turned away while pending was never called at all. */
  lemma SupervisorErrorsTell(w: World, t: nat, o: Oracle, cfg: Config)
    requires Reachable(w, cfg) && t in w.tasks && w.tasks[t].Supervisor?
    ensures
      var id, w' := w.tasks[t].signal.id, DoSupervise(w, t, o, cfg);
      && id in w.tables.signals && id in w'.tables.signals
      && (StatusOf(w', id) == Error && StatusOf(w, id) != Error ==>
            && ErrorExplained(w, id, w'.tables.signals[id].errorReason, cfg) && w'.log == w.log
            && (w'.tables.signals[id].errorReason == Some(DailyLimitHit) && StatusOf(w, id) == Pending ==>
                  CalledExactly(w, id, 0, cfg)))
  {
    ReachableEnding(w, cfg);
    assert TaskInv(w, w.tasks[t], cfg);
    var pc := w.tasks[t].pc;
    if pc.PersistFire? && pc.fired.status == Error {
      FireGivesUp(w, t, o, cfg);
    } else if pc.PersistFailure? {
      FailureGivesUp(w, t, cfg);
    } else if pc.PersistResult? && pc.next.status == Error {
      assert TaskOutcome(w, w.tasks[t]) && TaskEnding(w, w.tasks[t]) && TaskLedger(w, w.tasks[t], cfg);
      ResultGivesUp(w, t, cfg);
    } else if pc.RejectLimit? {
      TurnedAway(w, w.tasks[t].signal.id, cfg);
    }
    ErrorWrites(w, t, o, cfg);
  }

  lemma TurnedAway(w: World, id: SignalId, cfg: Config)
    requires Inv(w, cfg) && LedgerInv(w, cfg) && id in w.tables.signals
    ensures StatusOf(w, id) == Pending ==> CalledExactly(w, id, 0, cfg)
  {
    if StatusOf(w, id) == Pending {
      assert PlacedBelow(w, id, Allowance(StatusOf(w, id)));
      CallsCounted(w, id, 0, cfg);
    }
  }

  /** Which steps write an error, and with which reason. */
  lemma ErrorWrites(w: World, t: nat, o: Oracle, cfg: Config)
    requires t in w.tasks && w.tasks[t].Supervisor? && w.tasks[t].signal.id in w.tables.signals
    ensures
      var id, w', pc := w.tasks[t].signal.id, DoSupervise(w, t, o, cfg), w.tasks[t].pc;
      && id in w'.tables.signals
      && (StatusOf(w', id) != StatusOf(w, id) ==>
            && w'.log == w.log
            && match pc
               case RejectLimit => w'.tables.signals[id].errorReason == Some(DailyLimitHit)
               case PersistFire(st) => StatusOf(w', id) == st.status
                   && w'.tables.signals[id].errorReason == st.errorReason
               case PersistFailure(st) => w'.tables.signals[id].errorReason == st.errorReason
               case PersistResult(st, _, _, _, _) =>
                 StatusOf(w', id) == st.status && w'.tables.signals[id].errorReason == st.errorReason
               case _ => false)
  {
  }

  // ----- Signals a daily limit turned away -----

  predicate NoCrash(steps: seq<Step>) { forall i :: 0 <= i < |steps| ==> !steps[i].Crash? }

  /** Before the first crash every supervisor at the gate stands before a pending row, the boot finds
      nothing to recover, and what a limit rejected was never called. */
  predicate FirstLife(w: World) {
    && (forall id :: id in w.tables.signals && w.tables.signals[id].errorReason == Some(DailyLimitHit) ==>
          StatusOf(w, id) == Error && PlacedBelow(w, id, 0))
    && (forall t :: t in w.tasks && AtGate(w.tasks[t]) ==>
          w.tasks[t].signal.id in w.tables.signals && StatusOf(w, w.tasks[t].signal.id) == Pending)
    && (!w.phase.Running? ==>
          && (forall id :: id in w.tables.signals ==> StatusOf(w, id) == Pending)
          && (forall t :: t in w.tasks ==> !w.tasks[t].Supervisor?)
          && (w.phase.Recovering? ==> w.phase.rest == [] && w.phase.at.NextRow?))
  }

  lemma OwnFirstLife(w: World, t: nat, o: Oracle, cfg: Config)
    requires LogInv(w, cfg) && FirstLife(w) && t in w.tasks && w.tasks[t].Supervisor? && TaskInv(w, w.tasks[t], cfg)
    ensures
      var id, w' := w.tasks[t].signal.id, DoSupervise(w, t, o, cfg);
      && id in w'.tables.signals
      && (w'.tables.signals[id].errorReason == Some(DailyLimitHit) ==>
         StatusOf(w', id) == Error && PlacedBelow(w', id, 0))
      && (t in w'.tasks && AtGate(w'.tasks[t]) ==> StatusOf(w', id) == Pending)
  {
    var id, pc := w.tasks[t].signal.id, w.tasks[t].pc;
    assert StatusOf(w, id) == Pending ==> PlacedBelow(w, id, 0);
    if AtGate(w.tasks[t]) {
      GateFirstLife(w, t, o, cfg);
    } else {
      assert w.tables.signals[id].errorReason == Some(DailyLimitHit) ==> IsTerminal(StatusOf(w, id));
      CascadeFirstLife(w, t, o, cfg);
    }
  }

  lemma GateFirstLife(w: World, t: nat, o: Oracle, cfg: Config)
    requires t in w.tasks && AtGate(w.tasks[t]) && w.tasks[t].signal.id in w.tables.signals
    requires StatusOf(w, w.tasks[t].signal.id) == Pending && PlacedBelow(w, w.tasks[t].signal.id, 0)
    ensures
      var id, w' := w.tasks[t].signal.id, DoSupervise(w, t, o, cfg);
      && id in w'.tables.signals && w'.log == w.log
      && (w'.tables.signals[id] == w.tables.signals[id] || (StatusOf(w', id) == Error && t !in w'.tasks))
  {
  }

  /** In a cascade, rows get no such reason, and a call finds a row that is placed. */
  predicate CascadeStep(w: World, w': World, t: nat)
    requires t in w.tasks && w.tasks[t].Supervisor? && w.tasks[t].signal.id in w.tables.signals
  {
    var id := w.tasks[t].signal.id;
    && id in w'.tables.signals
    && (t in w'.tasks ==> !AtGate(w'.tasks[t]))
    && (w'.tables.signals[id].errorReason == Some(DailyLimitHit) ==>
          w'.tables.signals[id] == w.tables.signals[id] && (w'.log == w.log || IsPlaced(StatusOf(w, id))))
  }

  predicate Writes(pc: Pc) { pc.PersistFire? || pc.PersistFailure? || pc.PersistResult? }

  lemma WritingStep(w: World, t: nat, o: Oracle, cfg: Config)
    requires t in w.tasks && w.tasks[t].Supervisor? && Writes(w.tasks[t].pc) && TaskInv(w, w.tasks[t], cfg)
    ensures CascadeStep(w, DoSupervise(w, t, o, cfg), t)
  {
  }

  lemma PlacingStep(w: World, t: nat, o: Oracle, cfg: Config)
    requires t in w.tasks && w.tasks[t].Supervisor? && w.tasks[t].pc.PlaceTrade? && TaskInv(w, w.tasks[t], cfg)
    ensures CascadeStep(w, DoSupervise(w, t, o, cfg), t)
  {
  }

  lemma QuietCascadeStep(w: World, t: nat, o: Oracle, cfg: Config)
    requires t in w.tasks && InCascade(w.tasks[t]) && w.tasks[t].signal.id in w.tables.signals
    requires !Writes(w.tasks[t].pc) && !w.tasks[t].pc.PlaceTrade?
    ensures CascadeStep(w, DoSupervise(w, t, o, cfg), t)
  {
  }

  lemma CascadeFirstLife(w: World, t: nat, o: Oracle, cfg: Config)
    requires t in w.tasks && InCascade(w.tasks[t]) && TaskInv(w, w.tasks[t], cfg)
    ensures CascadeStep(w, DoSupervise(w, t, o, cfg), t)
  {
    if Writes(w.tasks[t].pc) {
      WritingStep(w, t, o, cfg);
    } else if w.tasks[t].pc.PlaceTrade? {
      PlacingStep(w, t, o, cfg);
    } else {
      QuietCascadeStep(w, t, o, cfg);
    }
  }

  lemma SuperviseKeepsFirstLife(w: World, t: nat, o: Oracle, cfg: Config)
    requires Inv(w, cfg) && FirstLife(w) && t in w.tasks && w.tasks[t].Supervisor?
    ensures FirstLife(DoSupervise(w, t, o, cfg))
  {
    var w' := DoSupervise(w, t, o, cfg);
    assert TaskInv(w, w.tasks[t], cfg);
    SuperviseKeepsInv(w, t, o, cfg);
    OwnFirstLife(w, t, o, cfg);
    OthersFirstLife(w, w', t, cfg);
  }

  lemma OthersFirstLife(w: World, w': World, t: nat, cfg: Config)
    requires OneOwner(w) && FirstLife(w) && t in w.tasks && w.tasks[t].Supervisor?
    requires OnlyTouches(w, w', t, w.tasks[t].signal.id)
    requires var id := w.tasks[t].signal.id;
             && id in w'.tables.signals
             && (w'.tables.signals[id].errorReason == Some(DailyLimitHit) ==>
                StatusOf(w', id) == Error && PlacedBelow(w', id, 0))
             && (t in w'.tasks && AtGate(w'.tasks[t]) ==> StatusOf(w', id) == Pending)
    ensures FirstLife(w')
  {
  }

  lemma IntakeKeepsFirstLife(w: World, step: Step, cfg: Config)
    requires FirstLife(w) && Enabled(w, step, cfg) && (step.Arrive? || step.Upsert? || step.Enqueue? || step.Die?)
    ensures FirstLife(Apply(w, step, cfg))
  {
    OtherStepsKeepLog(w, step, cfg);
  }

  lemma DispatchKeepsFirstLife(w: World, cfg: Config)
    requires IntakeInv(w) && FirstLife(w) && w.phase.Running? && w.queue != []
    ensures FirstLife(DoDispatch(w))
  {
    assert Stored(w, w.queue[0]) && StatusOf(w, w.queue[0].id) == Pending;
  }

  lemma BootKeepsFirstLife(w: World, step: Step, cfg: Config)
    requires FirstLife(w) && Enabled(w, step, cfg) && (step.ReadActive? || step.Recover?)
    ensures FirstLife(Apply(w, step, cfg))
  {
    if step.ReadActive? {
      NothingActive(w.tables, step.rows);
    }
  }

  lemma OutsideKeepsFirstLife(w: World, step: Step, cfg: Config)
    requires IntakeInv(w) && FirstLife(w) && Enabled(w, step, cfg) && !step.Supervise? && !step.Crash?
    ensures FirstLife(Apply(w, step, cfg))
  {
    match step
    case Dispatch => DispatchKeepsFirstLife(w, cfg);
    case ReadActive(_, _) => BootKeepsFirstLife(w, step, cfg);
    case Recover(_) => BootKeepsFirstLife(w, step, cfg);
    case _ => IntakeKeepsFirstLife(w, step, cfg);
  }

  lemma NothingActive(t: Tables, rows: seq<SignalRow>)
    requires IsActiveSnapshot(t, rows) && forall id :: id in t.signals ==> t.signals[id].status == Pending
    ensures rows == []
  {
    if rows != [] {
      SomePlaced(t, rows);
    }
  }

  lemma SomePlaced(t: Tables, rows: seq<SignalRow>)
    requires IsActiveSnapshot(t, rows) && rows != []
    ensures exists id :: id in t.signals && IsPlaced(t.signals[id].status)
  {
    assert rows[0].signal.id in t.signals;
  }

  lemma {:induction false} RunKeepsFirstLife(w: World, steps: seq<Step>, w': World, cfg: Config)
    requires Inv(w, cfg) && FirstLife(w) && Run(w, steps, w', cfg) && NoCrash(steps)
    ensures FirstLife(w')
    decreases |steps|
  {
    if steps != [] {
      assert !steps[0].Crash? && NoCrash(steps[1..]);
      StepKeepsInv(w, steps[0], cfg);
      if steps[0].Supervise? {
        SuperviseKeepsFirstLife(w, steps[0].task, steps[0].oracle, cfg);
      } else {
        OutsideKeepsFirstLife(w, steps[0], cfg);
      }
      RunKeepsFirstLife(Apply(w, steps[0], cfg), steps[1..], w', cfg);
    }
  }

  /** Until the process has crashed once, a signal that a daily limit rejected was never called. */
  lemma LimitRejectsUntraded(steps: seq<Step>, w: World, id: SignalId, cfg: Config)
    requires Run(INIT, steps, w, cfg) && NoCrash(steps)
    requires id in w.tables.signals && w.tables.signals[id].errorReason == Some(DailyLimitHit)
    ensures StatusOf(w, id) == Error && forall i :: 0 <= i < |w.log| ==> w.log[i].signalId != id
  {
    assert Run(INIT, [], INIT, cfg);
    ReachableInv(INIT, cfg);
    RunKeepsFirstLife(INIT, steps, w, cfg);
  }
}
