/** What a signal's rows say about each other: gales follow losses, endings match the stage rows. */
module Outcomes {
  import opened Gale
  import opened StateMachine
  import opened Tables
  import opened Protocol
  import opened Safety
  import opened Guarantees
  import opened Ledger

  predicate RowAt(w: World, i: int, id: SignalId, stage: Stage) {
    0 <= i < |w.tables.stages| && w.tables.stages[i].tradeId.signalId == id && w.tables.stages[i].tradeId.stage == stage
  }

  /** The signal's trade of this stage is closed, and counts as a loss. */
  predicate LostRow(w: World, id: SignalId, stage: Stage) {
    exists i :: 0 <= i < |w.tables.stages| && RowAt(w, i, id, stage)
                && w.tables.stages[i].result.Some? && LossLike(w.tables.stages[i].result.value)
  }

  predicate WonRow(w: World, id: SignalId, stage: Stage) {
    exists i :: 0 <= i < |w.tables.stages| && RowAt(w, i, id, stage) && w.tables.stages[i].result == Some(Win)
  }

  /** Every stage below the k-th is lost. */
  predicate LostBelow(w: World, id: SignalId, k: nat) {
    forall stage: Stage :: Index(stage) < k ==> LostRow(w, id, stage)
  }

  predicate LostBelowStage(w: World, id: SignalId, stage: Option<Stage>) {
    stage.Some? ==> LostBelow(w, id, Index(stage.value))
  }

  /** Some trade of the signal's stage reached the daily summary. */
  predicate BookedStage(w: World, id: SignalId, stage: Stage) {
    exists trade :: trade in w.booked && trade.signalId == id && trade.stage == stage
  }

  // ----- The invariant -----

  /** What the machine makes of a result at a stage. */
  predicate Leads(next: SignalState, stage: Stage, result: StageResult) {
    && (next.status == DoneWin <==> result == Win)
    && (next.status == DoneLoss <==> LossLike(result) && stage == Gale2)
    && (next.stage.Some? ==> LossLike(result) && Index(next.stage.value) == Index(stage) + 1)
  }

  predicate PcOutcome(w: World, s: Signal, pc: Pc) {
    match pc
    case CheckLimit => true
    case RejectLimit => true
    case CheckGate => true
    case PersistFailure(_) => true
    case AwaitFire(st) => LostBelowStage(w, s.id, st.stage)
    case PersistFire(fired) => LostBelowStage(w, s.id, fired.stage)
    case PlaceTrade(st) => LostBelowStage(w, s.id, st.stage)
    case RecordPlaced(st, _, _) => LostBelowStage(w, s.id, st.stage)
    case StartWait(st, _, _) => LostBelowStage(w, s.id, st.stage)
    case AwaitResult(st, _, _) => LostBelowStage(w, s.id, st.stage)
    case RecordResult(_, next, trade, result, _) =>
      LostBelow(w, s.id, Index(trade.stage)) && Leads(next, trade.stage, result)
    case PersistResult(next, trade, result, _, _) =>
      LostBelow(w, s.id, Index(trade.stage)) && Leads(next, trade.stage, result)
    case BookDaily(next, trade, result, _) =>
      LostBelow(w, s.id, Index(trade.stage)) && Leads(next, trade.stage, result)
  }

  predicate TaskOutcome(w: World, t: Task) { t.Supervisor? ==> PcOutcome(w, t.signal, t.pc) }

  /** A stored win rests on a won row above lost ones; a stored loss on three lost rows, unless the
      last trade never reached the daily summary. */
  predicate RowOutcome(w: World, id: SignalId)
    requires id in w.tables.signals
  {
    && (StatusOf(w, id) == DoneWin ==> exists stage: Stage :: WonRow(w, id, stage) && LostBelow(w, id, Index(stage)))
    && (StatusOf(w, id) == DoneLoss ==> LostBelow(w, id, 3) || !BookedStage(w, id, Gale2))
  }

  /** A booked stage is behind its signal's status. */
  predicate BookedBehind(w: World) {
    forall trade :: trade in w.booked ==>
      trade.signalId in w.tables.signals && Rank(StatusOf(w, trade.signalId)) + Index(trade.stage) <= 2
  }

  predicate RecoveryOutcome(w: World) {
    w.phase.Recovering? && w.phase.at.WriteTimedOut? ==>
      && w.phase.at.state.status != DoneWin
      && (w.phase.at.state.status == DoneLoss ==>
            w.phase.at.id in w.tables.signals && StatusOf(w, w.phase.at.id) == PlacedGale2)
  }

  predicate LogOutcome(w: World) {
    forall i :: 0 <= i < |w.log| ==> LostBelow(w, w.log[i].signalId, Index(w.log[i].stage))
  }

  predicate OutcomeInv(w: World) {
    && (forall t :: t in w.tasks ==> TaskOutcome(w, w.tasks[t]))
    && (forall id :: id in w.tables.signals ==> RowOutcome(w, id))
    && BookedBehind(w) && RecoveryOutcome(w) && LogOutcome(w)
  }

  // ----- Closed rows stay closed -----

  predicate ClosedKept(a: World, b: World) {
    forall i :: 0 <= i < |a.tables.stages| && a.tables.stages[i].result.Some? ==>
      i < |b.tables.stages| && b.tables.stages[i] == a.tables.stages[i]
  }

  lemma LostStays(a: World, b: World, id: SignalId, stage: Stage)
    requires ClosedKept(a, b)
    ensures LostRow(a, id, stage) ==> LostRow(b, id, stage)
    ensures WonRow(a, id, stage) ==> WonRow(b, id, stage)
  {
    if LostRow(a, id, stage) {
      var i :| 0 <= i < |a.tables.stages| && RowAt(a, i, id, stage)
               && a.tables.stages[i].result.Some? && LossLike(a.tables.stages[i].result.value);
      assert RowAt(b, i, id, stage);
    }
    if WonRow(a, id, stage) {
      var i :| 0 <= i < |a.tables.stages| && RowAt(a, i, id, stage) && a.tables.stages[i].result == Some(Win);
      assert RowAt(b, i, id, stage);
    }
  }

  lemma LostBelowStays(a: World, b: World, id: SignalId, k: nat)
    requires ClosedKept(a, b) && LostBelow(a, id, k)
    ensures LostBelow(b, id, k)
  {
    forall stage: Stage | Index(stage) < k ensures LostRow(b, id, stage) {
      LostStays(a, b, id, stage);
    }
  }

  lemma TaskOutcomeStays(a: World, b: World, task: Task)
    requires ClosedKept(a, b) && TaskOutcome(a, task)
    ensures TaskOutcome(b, task)
  {
    if task.Supervisor? {
      forall k: nat | LostBelow(a, task.signal.id, k) ensures LostBelow(b, task.signal.id, k) {
        LostBelowStays(a, b, task.signal.id, k);
      }
    }
  }

  lemma SuperviseKeepsClosed(w: World, t: nat, o: Oracle, cfg: Config)
    requires LedgerInv(w, cfg) && t in w.tasks && w.tasks[t].Supervisor? && TaskInv(w, w.tasks[t], cfg)
    ensures ClosedKept(w, DoSupervise(w, t, o, cfg))
  {
    assert TaskLedger(w, w.tasks[t], cfg);
    match w.tasks[t].pc
    case PlaceTrade(_) =>
      var w', st := PlaceOwn(w, t, o, cfg);
    case RecordPlaced(_, _, _) =>
      var w', r := RecordPlacedStep(w, t, cfg);
    case RecordResult(_, _, _, _, _) =>
      var w', k, r := RecordResultStep(w, t, cfg);
    case BookDaily(_, _, _, _) =>
    case _ => NeutralFrame(w, t, o, cfg);
  }

  lemma StepKeepsClosed(w: World, step: Step, cfg: Config)
    requires Inv(w, cfg) && LedgerInv(w, cfg) && Enabled(w, step, cfg)
    ensures ClosedKept(w, Apply(w, step, cfg))
  {
    if step.Supervise? {
      assert TaskInv(w, w.tasks[step.task], cfg);
      SuperviseKeepsClosed(w, step.task, step.oracle, cfg);
    } else if step.Die? {
      DieStops(w, step.task);
    } else if step.Crash? {
      CrashStops(w);
    } else {
      OutsideFrame(w, step, cfg);
    }
  }

  // ----- The supervisor's own position -----

  lemma AdvanceLeads(st: SignalState, result: StageResult, now: real, s: Signal, cfg: Config)
    requires StateInv(st, s, cfg) && IsPlaced(st.status)
    ensures Transition(st, ResultEvent(result, now), cfg).Accepted?
    ensures Leads(Transition(st, ResultEvent(result, now), cfg).state, st.stage.value, result)
  {
  }

  /** After a loss at its stage, the stage above is within reach. */
  lemma LossExtends(w: World, id: SignalId, trade: TradeId, result: StageResult)
    requires LostBelow(w, id, Index(trade.stage)) && trade.signalId == id && ClosedWith(w, trade, result)
    requires LossLike(result)
    ensures LostBelow(w, id, Index(trade.stage) + 1)
  {
    var i :| 0 <= i < |w.tables.stages| && w.tables.stages[i].tradeId == trade
        && w.tables.stages[i].result == Some(result);
    assert RowAt(w, i, id, trade.stage);
    forall stage: Stage | Index(stage) < Index(trade.stage) + 1 ensures LostRow(w, id, stage) {
      assert Index(stage) == Index(trade.stage) ==> stage == trade.stage;
    }
  }

  lemma FireOutcome(w: World, t: nat, o: Oracle, cfg: Config)
    requires t in w.tasks && w.tasks[t].Supervisor? && TaskInv(w, w.tasks[t], cfg) && TaskOutcome(w, w.tasks[t])
    requires AtGate(w.tasks[t]) || w.tasks[t].pc.AwaitFire? || w.tasks[t].pc.PersistFire?
    ensures var w' := DoSupervise(w, t, o, cfg); t in w'.tasks ==> TaskOutcome(w, w'.tasks[t])
  {
    if w.tasks[t].pc.AwaitFire? {
      FireKeepsStage(w.tasks[t].pc.state, o.now, w.tasks[t].signal, cfg);
    }
  }

  lemma PlaceOutcomeKept(w: World, t: nat, o: Oracle, cfg: Config)
    requires t in w.tasks && w.tasks[t].Supervisor? && TaskOutcome(w, w.tasks[t])
    requires var pc := w.tasks[t].pc; pc.PlaceTrade? || pc.PersistFailure? || pc.RecordPlaced? || pc.StartWait?
    ensures var w' := DoSupervise(w, t, o, cfg); t in w'.tasks ==> TaskOutcome(w, w'.tasks[t])
  {
  }

  lemma ResultOutcomeKept(w: World, t: nat, o: Oracle, cfg: Config)
    requires t in w.tasks && w.tasks[t].Supervisor?
    requires TaskInv(w, w.tasks[t], cfg) && TaskLedger(w, w.tasks[t], cfg) && TaskOutcome(w, w.tasks[t])
    requires var pc := w.tasks[t].pc; pc.AwaitResult? || pc.RecordResult? || pc.PersistResult? || pc.BookDaily?
    ensures var w' := DoSupervise(w, t, o, cfg); t in w'.tasks ==> TaskOutcome(w, w'.tasks[t])
  {
    var s, pc := w.tasks[t].signal, w.tasks[t].pc;
    if pc.AwaitResult? {
      AdvanceLeads(pc.state, if pc.known then o.result else Failed, o.now, s, cfg);
    } else if pc.BookDaily? && pc.next.stage.Some? {
      LossExtends(w, s.id, pc.trade, pc.result);
    }
  }

  lemma OwnOutcome(w: World, t: nat, o: Oracle, cfg: Config)
    requires t in w.tasks && w.tasks[t].Supervisor?
    requires TaskInv(w, w.tasks[t], cfg) && TaskLedger(w, w.tasks[t], cfg) && TaskOutcome(w, w.tasks[t])
    ensures var w' := DoSupervise(w, t, o, cfg); t in w'.tasks ==> TaskOutcome(w, w'.tasks[t])
  {
    var pc := w.tasks[t].pc;
    if AtGate(w.tasks[t]) || pc.AwaitFire? || pc.PersistFire? {
      FireOutcome(w, t, o, cfg);
    } else if pc.PlaceTrade? || pc.PersistFailure? || pc.RecordPlaced? || pc.StartWait? {
      PlaceOutcomeKept(w, t, o, cfg);
    } else {
      ResultOutcomeKept(w, t, o, cfg);
    }
  }

  lemma FireKeepsStage(st: SignalState, now: real, s: Signal, cfg: Config)
    requires StateInv(st, s, cfg)
    ensures var r := Transition(st, FireEvent(now), cfg);
            r.Accepted? && r.state.stage.Some? ==> r.state.stage == st.stage
  {
  }

  // ----- Rows -----

  /** A row that did not change keeps its outcome, unless its last trade was just booked. */
  lemma RowOutcomeStays(a: World, b: World, id: SignalId)
    requires ClosedKept(a, b) && id in a.tables.signals && id in b.tables.signals && RowOutcome(a, id)
    requires StatusOf(b, id) == StatusOf(a, id)
    requires BookedStage(b, id, Gale2) ==> BookedStage(a, id, Gale2)
    ensures RowOutcome(b, id)
  {
    if StatusOf(a, id) == DoneWin {
      var stage: Stage :| WonRow(a, id, stage) && LostBelow(a, id, Index(stage));
      LostStays(a, b, id, stage);
      LostBelowStays(a, b, id, Index(stage));
    }
    if StatusOf(a, id) == DoneLoss && LostBelow(a, id, 3) {
      LostBelowStays(a, b, id, 3);
    }
  }

  /** Away from the two ledger writes a supervisor books nothing, and its row becomes neither won
      nor lost. */
  lemma OwnRow(w: World, t: nat, o: Oracle, cfg: Config)
    requires t in w.tasks && w.tasks[t].Supervisor? && TaskInv(w, w.tasks[t], cfg)
    requires !w.tasks[t].pc.PersistResult? && !w.tasks[t].pc.BookDaily?
    ensures var w', id := DoSupervise(w, t, o, cfg), w.tasks[t].signal.id;
            && w'.booked == w.booked && id in w'.tables.signals
            && (StatusOf(w', id) == StatusOf(w, id) || (StatusOf(w', id) != DoneWin && StatusOf(w', id) != DoneLoss))
  {
  }

  /** Whatever the result, the row written next has the outcome its stage rows show. */
  lemma ResultOutcome(w: World, s: Signal, next: SignalState, trade: TradeId, result: StageResult)
    requires LostBelow(w, s.id, Index(trade.stage)) && Leads(next, trade.stage, result)
    requires trade.signalId == s.id && ClosedWith(w, trade, result)
    ensures next.status == DoneWin ==> exists stage: Stage :: WonRow(w, s.id, stage) && LostBelow(w, s.id, Index(stage))
    ensures next.status == DoneLoss ==> LostBelow(w, s.id, 3)
  {
    var i :| 0 <= i < |w.tables.stages| && w.tables.stages[i].tradeId == trade
        && w.tables.stages[i].result == Some(result);
    assert RowAt(w, i, s.id, trade.stage);
    if result == Win {
      assert WonRow(w, s.id, trade.stage);
    } else if LossLike(result) {
      LossExtends(w, s.id, trade, result);
    }
  }

  lemma OwnRowOutcome(w: World, w': World, t: nat, o: Oracle, cfg: Config)
    requires t in w.tasks && w.tasks[t].Supervisor? && TaskInv(w, w.tasks[t], cfg) && w' == DoSupervise(w, t, o, cfg)
    requires TaskLedger(w, w.tasks[t], cfg) && TaskOutcome(w, w.tasks[t]) && RowOutcome(w, w.tasks[t].signal.id)
    requires ClosedKept(w, w') && w.tasks[t].signal.id in w'.tables.signals
    ensures RowOutcome(w', w.tasks[t].signal.id)
  {
    var s, pc := w.tasks[t].signal, w.tasks[t].pc;
    if pc.PersistResult? || pc.BookDaily? {
      ResultOutcome(w, s, pc.next, pc.trade, pc.result);
      EndingStays(w, w', s.id, pc.next.status);
    } else {
      OwnRow(w, t, o, cfg);
      if StatusOf(w', s.id) == StatusOf(w, s.id) {
        RowOutcomeStays(w, w', s.id);
      }
    }
  }

  lemma EndingStays(a: World, b: World, id: SignalId, ending: Status)
    requires ClosedKept(a, b) && id in b.tables.signals && StatusOf(b, id) == ending
    requires ending == DoneWin ==> exists stage: Stage :: WonRow(a, id, stage) && LostBelow(a, id, Index(stage))
    requires ending == DoneLoss ==> LostBelow(a, id, 3)
    ensures RowOutcome(b, id)
  {
    if ending == DoneWin {
      var stage: Stage :| WonRow(a, id, stage) && LostBelow(a, id, Index(stage));
      LostStays(a, b, id, stage);
      LostBelowStays(a, b, id, Index(stage));
    } else if ending == DoneLoss {
      LostBelowStays(a, b, id, 3);
    }
  }

  /** Only the booking step of a signal's own supervisor books one of its trades. */
  lemma BookedByOwner(w: World, t: nat, o: Oracle, cfg: Config)
    requires t in w.tasks && w.tasks[t].Supervisor?
    ensures var w', pc := DoSupervise(w, t, o, cfg), w.tasks[t].pc;
            w'.booked == if pc.BookDaily? then w.booked + {pc.trade} else w.booked
  {
  }

  lemma SuperviseKeepsRows(w: World, t: nat, o: Oracle, cfg: Config)
    requires Inv(w, cfg) && t in w.tasks && w.tasks[t].Supervisor? && TaskLedger(w, w.tasks[t], cfg)
    requires TaskOutcome(w, w.tasks[t]) && forall id :: id in w.tables.signals ==> RowOutcome(w, id)
    requires ClosedKept(w, DoSupervise(w, t, o, cfg))
    ensures var w' := DoSupervise(w, t, o, cfg); forall id :: id in w'.tables.signals ==> RowOutcome(w', id)
  {
    var w' := DoSupervise(w, t, o, cfg);
    SuperviseKeepsInv(w, t, o, cfg);
    BookedByOwner(w, t, o, cfg);
    assert TaskInv(w, w.tasks[t], cfg);
    forall id | id in w'.tables.signals ensures RowOutcome(w', id) {
      assert id in w.tables.signals && RowOutcome(w, id);
      if id == w.tasks[t].signal.id {
        OwnRowOutcome(w, w', t, o, cfg);
      } else {
        RowOutcomeStays(w, w', id);
      }
    }
  }

  /** Outside the supervisors a row is new, or stays, or is ended by recovery's timeout. */
  predicate OutsideRow(w: World, w': World, id: SignalId)
    requires id in w'.tables.signals
  {
    || (id !in w.tables.signals && StatusOf(w', id) == Pending)
    || (id in w.tables.signals && StatusOf(w', id) == StatusOf(w, id))
    || (id in w.tables.signals && StatusOf(w', id) != DoneWin
        && (StatusOf(w', id) == DoneLoss ==> StatusOf(w, id) == PlacedGale2))
  }

  lemma OutsideRows(w: World, step: Step, cfg: Config)
    requires Enabled(w, step, cfg) && !step.Supervise? && RecoveryOutcome(w)
    ensures var w' := Apply(w, step, cfg);
            w'.booked == w.booked && forall id :: id in w'.tables.signals ==> OutsideRow(w, w', id)
  {
    if step.Recover? {
      RecoverRows(w, step.oracle, cfg);
    }
  }

  lemma RecoverRows(w: World, o: Oracle, cfg: Config)
    requires w.phase.Recovering? && RecoveryOutcome(w)
    ensures var w' := DoRecover(w, o, cfg);
            w'.booked == w.booked && forall id :: id in w'.tables.signals ==> OutsideRow(w, w', id)
  {
  }

  lemma OutsideKeepsRows(w: World, step: Step, cfg: Config)
    requires Enabled(w, step, cfg) && !step.Supervise? && RecoveryOutcome(w) && BookedBehind(w)
    requires ClosedKept(w, Apply(w, step, cfg))
    requires forall id :: id in w.tables.signals ==> RowOutcome(w, id)
    ensures var w' := Apply(w, step, cfg); forall id :: id in w'.tables.signals ==> RowOutcome(w', id)
  {
    var w' := Apply(w, step, cfg);
    OutsideRows(w, step, cfg);
    forall id | id in w'.tables.signals ensures RowOutcome(w', id) {
      assert OutsideRow(w, w', id);
      if id in w.tables.signals && StatusOf(w', id) == StatusOf(w, id) {
        assert RowOutcome(w, id);
        RowOutcomeStays(w, w', id);
      }
    }
  }

  // ----- Booked stages, recovery and the log -----

  lemma SuperviseKeepsBehind(w: World, t: nat, o: Oracle, cfg: Config)
    requires t in w.tasks && w.tasks[t].Supervisor? && BookedBehind(w)
    requires TaskInv(w, w.tasks[t], cfg) && TaskLedger(w, w.tasks[t], cfg) && TaskOutcome(w, w.tasks[t])
    requires RowsForward(w, DoSupervise(w, t, o, cfg))
    ensures BookedBehind(DoSupervise(w, t, o, cfg))
  {
    BookedByOwner(w, t, o, cfg);
    if w.tasks[t].pc.BookDaily? {
      NewlyBookedBehind(w, t, cfg);
    }
    BehindStays(w, DoSupervise(w, t, o, cfg));
  }

  lemma StepKeepsBehind(w: World, step: Step, cfg: Config)
    requires Inv(w, cfg) && LedgerInv(w, cfg) && Enabled(w, step, cfg) && BookedBehind(w)
    requires forall t :: t in w.tasks ==> TaskOutcome(w, w.tasks[t])
    ensures BookedBehind(Apply(w, step, cfg))
  {
    StepKeepsInv(w, step, cfg);
    if step.Supervise? {
      assert TaskInv(w, w.tasks[step.task], cfg) && TaskLedger(w, w.tasks[step.task], cfg);
      SuperviseKeepsBehind(w, step.task, step.oracle, cfg);
    } else {
      OutsideBooked(w, step, cfg);
      BehindStays(w, Apply(w, step, cfg));
    }
  }

  lemma OutsideBooked(w: World, step: Step, cfg: Config)
    requires Enabled(w, step, cfg) && !step.Supervise?
    ensures Apply(w, step, cfg).booked == w.booked
  {
    if step.Die? {
      DieStops(w, step.task);
    } else if step.Crash? {
      CrashStops(w);
    } else {
      OutsideFrame(w, step, cfg);
    }
  }

  lemma NewlyBookedBehind(w: World, t: nat, cfg: Config)
    requires t in w.tasks && w.tasks[t].Supervisor? && w.tasks[t].pc.BookDaily?
    requires TaskInv(w, w.tasks[t], cfg) && TaskLedger(w, w.tasks[t], cfg) && TaskOutcome(w, w.tasks[t])
    ensures var trade := w.tasks[t].pc.trade;
            trade.signalId in w.tables.signals && Rank(StatusOf(w, trade.signalId)) + Index(trade.stage) <= 2
  {
  }

  lemma BehindStays(a: World, b: World)
    requires RowsForward(a, b)
    requires forall trade :: trade in b.booked ==>
      trade.signalId in a.tables.signals && Rank(StatusOf(a, trade.signalId)) + Index(trade.stage) <= 2
    ensures BookedBehind(b)
  {
  }

  lemma RecoverKeepsOutcome(w: World, o: Oracle, cfg: Config)
    requires w.phase.Recovering? && RecoveryInv(w, cfg)
    ensures RecoveryOutcome(DoRecover(w, o, cfg))
  {
  }

  /** Meanwhile nobody else moves the row recovery is about to write. */
  lemma RecoveryOutcomeStays(a: World, b: World, cfg: Config)
    requires RecoveryOutcome(a) && RowsForward(a, b) && RecoveryInv(b, cfg) && b.phase == a.phase
    ensures RecoveryOutcome(b)
  {
  }

  lemma StepKeepsRecoveryOutcome(w: World, step: Step, cfg: Config)
    requires Inv(w, cfg) && Enabled(w, step, cfg) && RecoveryOutcome(w)
    ensures RecoveryOutcome(Apply(w, step, cfg))
  {
    StepKeepsInv(w, step, cfg);
    if step.Recover? {
      RecoverKeepsOutcome(w, step.oracle, cfg);
    } else if !step.Crash? && !step.ReadActive? {
      if step.Supervise? {
        SuperviseKeepsInv(w, step.task, step.oracle, cfg);
      }
      RecoveryOutcomeStays(w, Apply(w, step, cfg), cfg);
    }
  }

  /** A call is only made with every lower stage lost. */
  lemma StepKeepsLogOutcome(w: World, step: Step, cfg: Config)
    requires Enabled(w, step, cfg) && LogOutcome(w) && ClosedKept(w, Apply(w, step, cfg))
    requires forall t :: t in w.tasks ==> TaskOutcome(w, w.tasks[t])
    ensures LogOutcome(Apply(w, step, cfg))
  {
    var w' := Apply(w, step, cfg);
    BrokerCallers(w, step, cfg);
    forall i | 0 <= i < |w'.log| ensures LostBelow(w', w'.log[i].signalId, Index(w'.log[i].stage)) {
      if i < |w.log| {
        assert w'.log[i] == w.log[i];
      } else {
        assert TaskOutcome(w, w.tasks[step.task]);
      }
      LostBelowStays(w, w', w'.log[i].signalId, Index(w'.log[i].stage));
    }
  }

  // ----- Every step, every run -----

  lemma SuperviseKeepsTasks(w: World, t: nat, o: Oracle, cfg: Config)
    requires Inv(w, cfg) && t in w.tasks && w.tasks[t].Supervisor? && TaskLedger(w, w.tasks[t], cfg)
    requires forall u :: u in w.tasks ==> TaskOutcome(w, w.tasks[u])
    requires ClosedKept(w, DoSupervise(w, t, o, cfg))
    ensures var w' := DoSupervise(w, t, o, cfg); forall u :: u in w'.tasks ==> TaskOutcome(w', w'.tasks[u])
  {
    var w' := DoSupervise(w, t, o, cfg);
    SuperviseKeepsInv(w, t, o, cfg);
    assert TaskInv(w, w.tasks[t], cfg);
    OwnOutcome(w, t, o, cfg);
    forall u | u in w'.tasks ensures TaskOutcome(w', w'.tasks[u]) {
      assert u != t ==> w'.tasks[u] == w.tasks[u];
      TaskOutcomeStays(w, w', w'.tasks[u]);
    }
  }

  lemma OutsideKeepsTasks(w: World, step: Step, cfg: Config)
    requires Enabled(w, step, cfg) && !step.Supervise? && ClosedKept(w, Apply(w, step, cfg))
    requires forall u :: u in w.tasks ==> TaskOutcome(w, w.tasks[u])
    ensures var w' := Apply(w, step, cfg); forall u :: u in w'.tasks ==> TaskOutcome(w', w'.tasks[u])
  {
    var w' := Apply(w, step, cfg);
    if step.Die? {
      DieStops(w, step.task);
    } else if !step.Crash? {
      OutsideFrame(w, step, cfg);
    }
    forall u | u in w'.tasks ensures TaskOutcome(w', w'.tasks[u]) {
      assert TaskOutcome(w, w'.tasks[u]) by {
        assert u in w.tasks ==> TaskOutcome(w, w.tasks[u]);
      }
      TaskOutcomeStays(w, w', w'.tasks[u]);
    }
  }

  lemma StepKeepsOutcome(w: World, step: Step, cfg: Config)
    requires Inv(w, cfg) && LedgerInv(w, cfg) && OutcomeInv(w) && Enabled(w, step, cfg)
    ensures OutcomeInv(Apply(w, step, cfg))
  {
    StepKeepsClosed(w, step, cfg);
    StepKeepsBehind(w, step, cfg);
    StepKeepsRecoveryOutcome(w, step, cfg);
    StepKeepsLogOutcome(w, step, cfg);
    if step.Supervise? {
      assert TaskLedger(w, w.tasks[step.task], cfg);
      SuperviseKeepsTasks(w, step.task, step.oracle, cfg);
      SuperviseKeepsRows(w, step.task, step.oracle, cfg);
    } else {
      OutsideKeepsTasks(w, step, cfg);
      OutsideKeepsRows(w, step, cfg);
    }
  }

  lemma {:induction false} RunKeepsOutcome(w: World, steps: seq<Step>, w': World, cfg: Config)
    requires Inv(w, cfg) && LedgerInv(w, cfg) && OutcomeInv(w) && Run(w, steps, w', cfg)
    ensures OutcomeInv(w')
    decreases |steps|
  {
    if steps != [] {
      StepKeepsInv(w, steps[0], cfg);
      StepKeepsLedger(w, steps[0], cfg);
      StepKeepsOutcome(w, steps[0], cfg);
      RunKeepsOutcome(Apply(w, steps[0], cfg), steps[1..], w', cfg);
    }
  }

  lemma ReachableOutcome(w: World, cfg: Config)
    requires Reachable(w, cfg)
    ensures Inv(w, cfg) && LedgerInv(w, cfg) && OutcomeInv(w)
  {
    ReachableLedger(w, cfg);
    var steps :| Run(INIT, steps, w, cfg);
    assert Run(INIT, [], INIT, cfg);
    ReachableLedger(INIT, cfg);
    RunKeepsOutcome(INIT, steps, w, cfg);
  }

  // ----- The theorems -----

  /** Martingale discipline: whenever the broker is called for a stage, every lower stage of that
      signal already has a closed row that counts as a loss. So no trade ever follows a win. */
  lemma GaleOnlyAfterLosses(w: World, step: Step, cfg: Config)
    requires Reachable(w, cfg) && Enabled(w, step, cfg)
    ensures
      var w' := Apply(w, step, cfg);
      w'.log != w.log ==> LostBelow(w, w'.log[|w'.log| - 1].signalId, Index(w'.log[|w'.log| - 1].stage))
    ensures forall i, stage: Stage :: 0 <= i < |w.log| && WonRow(w, w.log[i].signalId, stage) ==>
              Index(w.log[i].stage) <= Index(stage)
  {
    ReachableOutcome(w, cfg);
    BrokerCallers(w, step, cfg);
    if Apply(w, step, cfg).log != w.log {
      assert TaskOutcome(w, w.tasks[step.task]);
    }
    forall i, stage: Stage | 0 <= i < |w.log| && WonRow(w, w.log[i].signalId, stage)
      ensures Index(w.log[i].stage) <= Index(stage)
    {
      WonIsNotLost(w, w.log[i].signalId, stage, cfg);
    }
  }

  lemma WonIsNotLost(w: World, id: SignalId, stage: Stage, cfg: Config)
    requires StageRowsInv(w, cfg) && WonRow(w, id, stage)
    ensures !LostRow(w, id, stage)
  {
  }

  /** What a terminal row says about its signal's stage rows. A win: exactly one stage won, all lower
      ones lost, and the broker was never called above it. A loss: all three stages lost, or the
      last trade never reached the daily summary, which is how `record_timeout` leaves it. */
  lemma TerminalRowsTell(w: World, id: SignalId, cfg: Config)
    requires Reachable(w, cfg) && id in w.tables.signals
    ensures StatusOf(w, id) == DoneWin ==>
              exists stage: Stage ::
                WonRow(w, id, stage) && LostBelow(w, id, Index(stage)) && PlacedBelow(w, id, Index(stage) + 1)
    ensures StatusOf(w, id) == DoneLoss ==> LostBelow(w, id, 3) || !BookedStage(w, id, Gale2)
  {
    ReachableOutcome(w, cfg);
    assert RowOutcome(w, id);
    if StatusOf(w, id) == DoneWin {
      var stage: Stage :| WonRow(w, id, stage) && LostBelow(w, id, Index(stage));
      WonIsNotLost(w, id, stage, cfg);
      assert PlacedBelow(w, id, Index(stage) + 1);
    }
  }

  // ----- Cascades ended by recovery -----

  lemma StepKeepsUnbooked(w: World, step: Step, id: SignalId, cfg: Config)
    requires LedgerInv(w, cfg) && Orphan(w, id) && Enabled(w, step, cfg)
    ensures forall stage :: BookedStage(Apply(w, step, cfg), id, stage) ==> BookedStage(w, id, stage)
  {
    if step.Supervise? {
      BookedByOwner(w, step.task, step.oracle, cfg);
      assert TaskLedger(w, w.tasks[step.task], cfg);
    } else {
      OutsideBooked(w, step, cfg);
    }
  }

  lemma {:induction false} OrphanNeverBooks(w: World, steps: seq<Step>, w': World, id: SignalId, cfg: Config)
    requires Inv(w, cfg) && LedgerInv(w, cfg) && Orphan(w, id) && Run(w, steps, w', cfg)
    ensures forall stage :: BookedStage(w', id, stage) ==> BookedStage(w, id, stage)
    decreases |steps|
  {
    if steps != [] {
      StepKeepsInv(w, steps[0], cfg);
      StepKeepsLedger(w, steps[0], cfg);
      StepKeepsOrphan(w, steps[0], id, cfg);
      StepKeepsUnbooked(w, steps[0], id, cfg);
      OrphanNeverBooks(Apply(w, steps[0], cfg), steps[1..], w', id, cfg);
    }
  }

  /** What recovery holds has no other owner. */
  lemma HeldIsOrphan(w: World, id: SignalId)
    requires OneOwner(w) && HeldByRecovery(w.phase, id) && id in w.tables.signals
    ensures Orphan(w, id)
  {
  }

  lemma RecoveredIsUnbooked(w: World, o: Oracle, id: SignalId, stage: Stage, cfg: Config)
    requires OneOwner(w) && BookedBehind(w)
    requires w.phase.Recovering? && id in w.tables.signals && StatusOf(w, id) == PlacedStatus(stage)
    requires id in DoRecover(w, o, cfg).tables.signals && StatusOf(DoRecover(w, o, cfg), id) != StatusOf(w, id)
    ensures Orphan(w, id) && !BookedStage(w, id, stage)
  {
    HeldIsOrphan(w, id);
  }

  /** A row ended by recovery stays behind in the other two ledgers for good: the trade it was
      waiting on is not booked then or in any later world, so a row it has is open or torn. */
  lemma EndedByRecovery(w: World, o: Oracle, id: SignalId, stage: Stage, steps: seq<Step>, w': World, cfg: Config)
    requires Reachable(w, cfg) && w.phase.Recovering? && id in w.tables.signals
    requires StatusOf(w, id) == PlacedStatus(stage)
    requires id in DoRecover(w, o, cfg).tables.signals && StatusOf(DoRecover(w, o, cfg), id) != StatusOf(w, id)
    requires Run(DoRecover(w, o, cfg), steps, w', cfg)
    ensures !BookedStage(w', id, stage)
    ensures forall i :: 0 <= i < |w'.tables.stages| && RowAt(w', i, id, stage) ==>
              w'.tables.stages[i].result.None? || w'.tables.stages[i].tradeId in w'.torn
  {
    ReachableOutcome(w, cfg);
    RecoveredIsUnbooked(w, o, id, stage, cfg);
    var all := [Recover(o)] + steps;
    assert all[1..] == steps;
    assert Run(w, all, w', cfg);
    OrphanNeverBooks(w, all, w', id, cfg);
    OrphanForever(w, all, w', id, cfg);
    RunKeepsLedger(w, all, w', cfg);
    UnbookedRows(w', id, stage, cfg);
  }

  lemma UnbookedRows(w: World, id: SignalId, stage: Stage, cfg: Config)
    requires BooksInv(w) && Orphan(w, id) && !BookedStage(w, id, stage)
    requires forall t :: t in w.tasks ==> TaskLedger(w, w.tasks[t], cfg)
    ensures forall i :: 0 <= i < |w.tables.stages| && RowAt(w, i, id, stage) ==>
              w.tables.stages[i].result.None? || w.tables.stages[i].tradeId in w.torn
  {
    forall t | t in w.tasks && InGap(w.tasks[t]) ensures w.tasks[t].pc.trade.signalId != id {
      assert TaskLedger(w, w.tasks[t], cfg);
    }
  }
}
