/** The running total of a supervisor against the rows it closed and the daily deltas it booked. */
module ThreeLedgers {
  import opened Gale
  import opened StateMachine
  import opened Tables
  import opened Protocol
  import opened Safety
  import opened Guarantees
  import opened Ledger

  // ----- Torn trades belong to abandoned signals -----

  predicate TornInv(w: World) { forall id :: id in w.torn ==> Orphan(w, id.signalId) }

  lemma SuperviseTorn(w: World, t: nat, o: Oracle, cfg: Config)
    requires t in w.tasks && w.tasks[t].Supervisor?
    ensures DoSupervise(w, t, o, cfg).torn == w.torn
  {
  }

  /** A supervisor stopped in the gap leaves nobody behind who could go on with its signal. */
  lemma StoppedIsOrphan(w: World, w': World, t: nat, cfg: Config)
    requires Inv(w, cfg) && LedgerInv(w, cfg) && Stopped(w, w') && (w'.queue == w.queue || w'.queue == [])
    requires t in w.tasks && t !in w'.tasks && InGap(w.tasks[t])
    ensures Orphan(w', w.tasks[t].pc.trade.signalId)
  {
    assert TaskInv(w, w.tasks[t], cfg) && TaskLedger(w, w.tasks[t], cfg);
  }

  lemma StopKeepsTorn(w: World, w': World, cfg: Config)
    requires Inv(w, cfg) && LedgerInv(w, cfg) && Stopped(w, w') && (w'.queue == w.queue || w'.queue == [])
    requires TornInv(w)
    ensures TornInv(w')
  {
    forall id | id in w'.torn ensures Orphan(w', id.signalId) {
      if id in w.torn {
        assert Orphan(w, id.signalId);
      } else {
        var t :| t in w.tasks && t !in w'.tasks && InGap(w.tasks[t]) && w.tasks[t].pc.trade == id;
        StoppedIsOrphan(w, w', t, cfg);
      }
    }
  }

  lemma StepKeepsTorn(w: World, step: Step, cfg: Config)
    requires Inv(w, cfg) && LedgerInv(w, cfg) && TornInv(w) && Enabled(w, step, cfg)
    ensures TornInv(Apply(w, step, cfg))
  {
    var w' := Apply(w, step, cfg);
    if step.Die? {
      DieStops(w, step.task);
      StopKeepsTorn(w, w', cfg);
    } else if step.Crash? {
      CrashStops(w);
      StopKeepsTorn(w, w', cfg);
    } else {
      if step.Supervise? {
        SuperviseTorn(w, step.task, step.oracle, cfg);
      } else {
        OutsideFrame(w, step, cfg);
      }
      forall id | id in w'.torn ensures Orphan(w', id.signalId) {
        StepKeepsOrphan(w, step, id.signalId, cfg);
      }
    }
  }

  lemma {:induction false} RunKeepsTorn(w: World, steps: seq<Step>, w': World, cfg: Config)
    requires Inv(w, cfg) && LedgerInv(w, cfg) && TornInv(w) && Run(w, steps, w', cfg)
    ensures TornInv(w')
    decreases |steps|
  {
    if steps != [] {
      StepKeepsInv(w, steps[0], cfg);
      StepKeepsLedger(w, steps[0], cfg);
      StepKeepsTorn(w, steps[0], cfg);
      RunKeepsTorn(Apply(w, steps[0], cfg), steps[1..], w', cfg);
    }
  }

  lemma ReachableTorn(w: World, cfg: Config)
    requires Reachable(w, cfg)
    ensures Inv(w, cfg) && LedgerInv(w, cfg) && TornInv(w)
  {
    ReachableLedger(w, cfg);
    var steps :| Run(INIT, steps, w, cfg);
    assert Run(INIT, [], INIT, cfg);
    ReachableLedger(INIT, cfg);
    RunKeepsTorn(INIT, steps, w, cfg);
  }

  // ----- The three ledgers -----

  /** The total a supervisor carries once it is past the gate. */
  function RunningTotal(pc: Pc): Option<real> {
    match pc
    case CheckLimit => None
    case RejectLimit => None
    case CheckGate => None
    case AwaitFire(st) => Some(st.cumulativePnl)
    case PersistFire(fired) => Some(fired.cumulativePnl)
    case PlaceTrade(st) => Some(st.cumulativePnl)
    case PersistFailure(failed) => Some(failed.cumulativePnl)
    case RecordPlaced(st, _, _) => Some(st.cumulativePnl)
    case StartWait(st, _, _) => Some(st.cumulativePnl)
    case AwaitResult(st, _, _) => Some(st.cumulativePnl)
    case RecordResult(st, _, _, _, _) => Some(st.cumulativePnl)
    case PersistResult(next, _, _, _, _) => Some(next.cumulativePnl)
    case BookDaily(next, _, _, _) => Some(next.cumulativePnl)
  }

  /** What it has closed but not booked yet: the one trade it holds in the gap. */
  function ToBook(pc: Pc): real {
    if pc.PersistResult? || pc.BookDaily? then SupervisorPnl(pc.result, pc.amount) else 0.0
  }

  /** The rows of a signal that reached the daily summary. */
  ghost function BookedOf(booked: set<TradeId>, id: SignalId): StageRow -> real {
    (r: StageRow) => if r.tradeId.signalId == id && r.tradeId in booked then PnlOf(r) else 0.0
  }

  /** A signal with a live cascade has no torn trade. */
  lemma LiveIsNotTorn(w: World, t: nat, id: TradeId)
    requires TornInv(w) && t in w.tasks && InCascade(w.tasks[t]) && id.signalId == w.tasks[t].signal.id
    ensures id !in w.torn
  {
    assert id in w.torn ==> Orphan(w, id.signalId);
  }

  /** The gap of a trade is that of its own signal's supervisor. */
  lemma GapIsOwn(w: World, t: nat, id: TradeId, cfg: Config)
    requires OneOwner(w) && t in w.tasks && w.tasks[t].Supervisor? && id.signalId == w.tasks[t].signal.id
    requires forall u :: u in w.tasks ==> TaskLedger(w, w.tasks[u], cfg)
    ensures LiveGap(w, id) ==> InGap(w.tasks[t]) && w.tasks[t].pc.trade == id
  {
    if LiveGap(w, id) {
      var u :| u in w.tasks && InGap(w.tasks[u]) && w.tasks[u].pc.trade == id;
      assert TaskLedger(w, w.tasks[u], cfg);
    }
  }

  /** A live cascade has booked every trade it closed, except the one it holds in the gap. */
  lemma LiveCascadeBooks(w: World, t: nat, i: nat, cfg: Config)
    requires OneOwner(w) && BooksInv(w) && TornInv(w) && t in w.tasks && InCascade(w.tasks[t])
    requires forall u :: u in w.tasks ==> TaskLedger(w, w.tasks[u], cfg)
    requires i < |w.tables.stages| && w.tables.stages[i].tradeId.signalId == w.tasks[t].signal.id
    requires w.tables.stages[i].result.Some?
    ensures var id := w.tables.stages[i].tradeId;
            id in w.booked <==> !(InGap(w.tasks[t]) && w.tasks[t].pc.trade == id)
  {
    LiveIsNotTorn(w, t, w.tables.stages[i].tradeId);
    GapIsOwn(w, t, w.tables.stages[i].tradeId, cfg);
  }

  /** The three ledgers agree. At every await of a cascade, in every interleaving, the supervisor's
      total is the sum of the profits of its signal's stage rows, and also the sum of its own daily
      deltas plus the one it is about to book; at the loop head nothing is pending. */
  lemma RunningTotalIsRowSum(w: World, t: nat, cfg: Config)
    requires Reachable(w, cfg) && t in w.tasks && w.tasks[t].Supervisor? && RunningTotal(w.tasks[t].pc).Some?
    ensures
      var total, id := RunningTotal(w.tasks[t].pc).value, w.tasks[t].signal.id;
      && total == Sum(w.tables.stages, OfSignal(id))
      && total == Sum(w.tables.stages, BookedOf(w.booked, id)) + ToBook(w.tasks[t].pc)
    ensures w.tasks[t].pc.AwaitFire? ==> ToBook(w.tasks[t].pc) == 0.0
  {
    ReachableTorn(w, cfg);
    assert TaskLedger(w, w.tasks[t], cfg);
    BookedSum(w, t, cfg);
  }

  lemma BookedSum(w: World, t: nat, cfg: Config)
    requires Inv(w, cfg) && LedgerInv(w, cfg) && TornInv(w) && t in w.tasks && InCascade(w.tasks[t])
    ensures
      var id := w.tasks[t].signal.id;
      Sum(w.tables.stages, OfSignal(id)) == Sum(w.tables.stages, BookedOf(w.booked, id)) + ToBook(w.tasks[t].pc)
  {
    var rows, id, pc := w.tables.stages, w.tasks[t].signal.id, w.tasks[t].pc;
    forall i | 0 <= i < |rows| && !(InGap(w.tasks[t]) && rows[i].tradeId == pc.trade)
      ensures OfSignal(id)(rows[i]) == BookedOf(w.booked, id)(rows[i])
    {
      if rows[i].tradeId.signalId == id && rows[i].result.Some? {
        LiveCascadeBooks(w, t, i, cfg);
      }
    }
    if InGap(w.tasks[t]) {
      var k := GapRow(w, t, cfg);
      LiveCascadeBooks(w, t, k, cfg);
      SumDiffer(rows, rows, BookedOf(w.booked, id), OfSignal(id), k);
    } else {
      SumSame(rows, rows, OfSignal(id), BookedOf(w.booked, id));
    }
  }

  /** The row of the trade held in the gap: closed, with the profit about to be booked. */
  lemma GapRow(w: World, t: nat, cfg: Config) returns (k: nat)
    requires LedgerInv(w, cfg) && t in w.tasks && InGap(w.tasks[t])
    ensures
      var rows, pc := w.tables.stages, w.tasks[t].pc;
      && k < |rows| && rows[k].tradeId == pc.trade && pc.trade.signalId == w.tasks[t].signal.id
      && rows[k].result == Some(pc.result) && PnlOf(rows[k]) == SupervisorPnl(pc.result, pc.amount)
      && forall i :: 0 <= i < |rows| && i != k ==> rows[i].tradeId != pc.trade
  {
    var pc := w.tasks[t].pc;
    assert TaskLedger(w, w.tasks[t], cfg);
    k :| 0 <= k < |w.tables.stages| && w.tables.stages[k].tradeId == pc.trade
        && w.tables.stages[k].result == Some(pc.result);
    PnlFormulasAgree(pc.result, pc.amount);
  }

  // ----- What counts as booked is what was added to the summary -----

  /** Rows already booked are neither rewritten nor joined by new ones. */
  predicate BookedRowsKept(w: World, w': World) {
    && w'.booked == w.booked && |w.tables.stages| <= |w'.tables.stages| <= |w.tables.stages| + 1
    && (forall i :: 0 <= i < |w.tables.stages| ==>
          w'.tables.stages[i] == w.tables.stages[i]
          || (w'.tables.stages[i].tradeId == w.tables.stages[i].tradeId && w.tables.stages[i].tradeId !in w.booked))
    && (forall i :: |w.tables.stages| <= i < |w'.tables.stages| ==> w'.tables.stages[i].tradeId !in w.booked)
  }

  lemma BookedSumKept(w: World, w': World, id: SignalId)
    requires BookedRowsKept(w, w')
    ensures Sum(w'.tables.stages, BookedOf(w'.booked, id)) == Sum(w.tables.stages, BookedOf(w.booked, id))
  {
    var rows, rows', f := w.tables.stages, w'.tables.stages, BookedOf(w.booked, id);
    if |rows'| == |rows| {
      SumSame(rows, rows', f, f);
    } else {
      SumSame(rows, rows'[..|rows|], f, f);
    }
  }

  lemma OtherStepsKeepBooked(w: World, step: Step, cfg: Config)
    requires Inv(w, cfg) && LedgerInv(w, cfg) && Enabled(w, step, cfg)
    requires !(step.Supervise? && w.tasks[step.task].pc.BookDaily?)
    ensures BookedRowsKept(w, Apply(w, step, cfg))
  {
    if step.Supervise? {
      SuperviseKeepsBooked(w, step.task, step.oracle, cfg);
    } else if step.Die? {
      DieStops(w, step.task);
    } else if step.Crash? {
      CrashStops(w);
    } else {
      OutsideFrame(w, step, cfg);
    }
  }

  lemma SuperviseKeepsBooked(w: World, t: nat, o: Oracle, cfg: Config)
    requires Inv(w, cfg) && LedgerInv(w, cfg) && t in w.tasks && w.tasks[t].Supervisor? && !w.tasks[t].pc.BookDaily?
    ensures BookedRowsKept(w, DoSupervise(w, t, o, cfg))
  {
    assert TaskInv(w, w.tasks[t], cfg) && TaskLedger(w, w.tasks[t], cfg);
    match w.tasks[t].pc
    case PlaceTrade(_) =>
      var w', st := PlaceOwn(w, t, o, cfg);
    case RecordPlaced(_, _, _) => RecordedIsNew(w, t, o, cfg);
    case RecordResult(_, _, _, _, _) => ClosedIsNew(w, t, o, cfg);
    case _ => NeutralFrame(w, t, o, cfg);
  }

  lemma RecordedIsNew(w: World, t: nat, o: Oracle, cfg: Config)
    requires BooksInv(w) && t in w.tasks && w.tasks[t].Supervisor? && w.tasks[t].pc.RecordPlaced?
    requires TaskInv(w, w.tasks[t], cfg) && TaskLedger(w, w.tasks[t], cfg)
    ensures BookedRowsKept(w, DoSupervise(w, t, o, cfg))
  {
    var w', r := RecordPlacedStep(w, t, cfg);
    assert r.tradeId in w.booked ==> ClosedRow(w, r.tradeId);
  }

  lemma ClosedIsNew(w: World, t: nat, o: Oracle, cfg: Config)
    requires StageRowsInv(w, cfg) && BooksInv(w) && t in w.tasks && w.tasks[t].Supervisor?
    requires w.tasks[t].pc.RecordResult?
    requires TaskInv(w, w.tasks[t], cfg) && TaskLedger(w, w.tasks[t], cfg)
    ensures BookedRowsKept(w, DoSupervise(w, t, o, cfg))
  {
    var w', k, r := RecordResultStep(w, t, cfg);
    OpenIsUnbooked(w, k, cfg);
  }

  /** A signal's booked sum is the sum of its daily deltas: any step changes it by exactly what that
      step adds, on the signal's behalf, to the realized profit of the signal's date. */
  lemma BookedSumIsDailyDeltas(w: World, step: Step, id: SignalId, cfg: Config)
    requires Reachable(w, cfg) && Enabled(w, step, cfg)
    ensures
      var w' := Apply(w, step, cfg);
      var own := step.Supervise? && w.tasks[step.task].pc.BookDaily? && w.tasks[step.task].signal.id == id;
      && Sum(w'.tables.stages, BookedOf(w'.booked, id)) - Sum(w.tables.stages, BookedOf(w.booked, id))
         == (if own then DailyOf(w'.tables, id.date).realizedPnl - DailyOf(w.tables, id.date).realizedPnl else 0.0)
      && (!(step.Supervise? && w.tasks[step.task].pc.BookDaily?) ==> w'.tables.daily == w.tables.daily)
  {
    ReachableTorn(w, cfg);
    if step.Supervise? && w.tasks[step.task].pc.BookDaily? {
      BookMovesSum(w, step.task, step.oracle, id, cfg);
    } else {
      OtherStepsKeepBooked(w, step, cfg);
      BookedSumKept(w, Apply(w, step, cfg), id);
      OtherStepsKeepDaily(w, step, cfg);
    }
  }

  lemma OtherStepsKeepDaily(w: World, step: Step, cfg: Config)
    requires Enabled(w, step, cfg) && !(step.Supervise? && w.tasks[step.task].pc.BookDaily?)
    ensures Apply(w, step, cfg).tables.daily == w.tables.daily
  {
    if step.Supervise? {
      SuperviseKeepsDaily(w, step.task, step.oracle, cfg);
    } else if step.Recover? {
      RecoverFrame(w, step.oracle, cfg);
    }
  }

  lemma SuperviseKeepsDaily(w: World, t: nat, o: Oracle, cfg: Config)
    requires t in w.tasks && w.tasks[t].Supervisor? && !w.tasks[t].pc.BookDaily?
    ensures DoSupervise(w, t, o, cfg).tables.daily == w.tables.daily
  {
  }

  lemma BookMovesSum(w: World, t: nat, o: Oracle, id: SignalId, cfg: Config)
    requires Inv(w, cfg) && LedgerInv(w, cfg)
    requires t in w.tasks && w.tasks[t].Supervisor? && w.tasks[t].pc.BookDaily?
    ensures
      var w' := DoSupervise(w, t, o, cfg);
      Sum(w'.tables.stages, BookedOf(w'.booked, id)) - Sum(w.tables.stages, BookedOf(w.booked, id))
      == if w.tasks[t].signal.id == id
         then DailyOf(w'.tables, id.date).realizedPnl - DailyOf(w.tables, id.date).realizedPnl else 0.0
  {
    SupervisorDate(w, t, cfg);
    assert InGap(w.tasks[t]) && TaskLedger(w, w.tasks[t], cfg);
    var k := GapRow(w, t, cfg);
    var w' := BookDailyStep(w, t, cfg);
    PnlFormulasAgree(w.tasks[t].pc.result, w.tasks[t].pc.amount);
    BookedSumMoves(w.tables.stages, k, w.booked, id);
    assert w'.tables.stages == w.tables.stages;
  }

  lemma BookedSumMoves(rows: seq<StageRow>, k: nat, booked: set<TradeId>, id: SignalId)
    requires k < |rows| && rows[k].tradeId !in booked
    requires forall i :: 0 <= i < |rows| && i != k ==> rows[i].tradeId != rows[k].tradeId
    ensures Sum(rows, BookedOf(booked + {rows[k].tradeId}, id))
            == Sum(rows, BookedOf(booked, id)) + if rows[k].tradeId.signalId == id then PnlOf(rows[k]) else 0.0
  {
    SumDiffer(rows, rows, BookedOf(booked, id), BookedOf(booked + {rows[k].tradeId}, id), k);
  }
}
