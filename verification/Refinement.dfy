/** The driver refines the machine: every state a supervisor holds is the run of the results its own
    stage rows record. */
module Refinement {
  import opened Gale
  import opened StateMachine
  import opened Tables
  import opened Protocol
  import opened Safety
  import opened Guarantees
  import opened Ledger

  // ----- Results, in the rows and in the events -----

  /** What the closed rows of a signal record, in order of placement. */
  function ClosedResults(rows: seq<StageRow>, id: SignalId): seq<StageResult> {
    if rows == [] then []
    else
      var last := rows[|rows| - 1];
      ClosedResults(rows[..|rows| - 1], id)
      + if last.tradeId.signalId == id && last.result.Some? then [last.result.value] else []
  }

  /** What an event list reports. */
  function ReportedResults(events: seq<Event>): seq<StageResult> {
    if events == [] then []
    else
      ReportedResults(events[..|events| - 1])
      + if events[|events| - 1].ResultEvent? then [events[|events| - 1].result] else []
  }

  /** Some events with these results lead the signal to this state. */
  ghost predicate OwnRun(st: SignalState, s: Signal, results: seq<StageResult>, cfg: Config) {
    exists events: seq<Event> :: Fold(FromSignal(s, cfg), events, cfg) == st && ReportedResults(events) == results
  }

  lemma StartRuns(s: Signal, cfg: Config)
    ensures OwnRun(FromSignal(s, cfg), s, [], cfg)
  {
    assert Fold(FromSignal(s, cfg), [], cfg) == FromSignal(s, cfg);
  }

  lemma NextRuns(st: SignalState, e: Event, s: Signal, results: seq<StageResult>, cfg: Config)
    requires OwnRun(st, s, results, cfg)
    ensures OwnRun(Next(st, e, cfg), s, results + if e.ResultEvent? then [e.result] else [], cfg)
  {
    var events: seq<Event> :| Fold(FromSignal(s, cfg), events, cfg) == st && ReportedResults(events) == results;
    var more := events + [e];
    FoldAppend(FromSignal(s, cfg), events, [e], cfg);
    assert [e][1..] == [];
    assert Fold(st, [e], cfg) == Next(st, e, cfg);
    assert more[..|more| - 1] == events;
    assert Fold(FromSignal(s, cfg), more, cfg) == Next(st, e, cfg);
  }

  // ----- How rows change -----

  lemma OpenRowSilent(rows: seq<StageRow>, r: StageRow, id: SignalId)
    requires r.result.None?
    ensures ClosedResults(rows + [r], id) == ClosedResults(rows, id)
  {
    assert (rows + [r])[..|rows|] == rows;
  }

  /** Closing the signal's last row adds its result at the end. */
  lemma {:induction false} CloseLast(rows: seq<StageRow>, k: nat, r: StageRow, id: SignalId)
    requires k < |rows| && rows[k].result.None? && rows[k].tradeId.signalId == id
    requires r.tradeId == rows[k].tradeId && r.result.Some?
    requires forall i :: k < i < |rows| ==> rows[i].tradeId.signalId != id
    ensures ClosedResults(rows[k := r], id) == ClosedResults(rows, id) + [r.result.value]
    decreases |rows|
  {
    var n := |rows| - 1;
    if k == n {
      assert rows[k := r][..n] == rows[..n];
    } else {
      assert rows[k := r][..n] == rows[..n][k := r];
      CloseLast(rows[..n], k, r, id);
    }
  }

  /** Rows of other signals do not matter. */
  lemma {:induction false} OthersSilent(a: seq<StageRow>, b: seq<StageRow>, id: SignalId, other: SignalId)
    requires RowsTouchOnly(a, b, id) && other != id
    ensures ClosedResults(b, other) == ClosedResults(a, other)
    decreases |b|
  {
    if b != [] {
      var n := |b| - 1;
      if |a| == |b| {
        OthersSilent(a[..n], b[..n], id, other);
      } else {
        OthersSilent(a, b[..n], id, other);
      }
    }
  }

  lemma {:induction false} NoRowsNoResults(rows: seq<StageRow>, id: SignalId)
    requires forall i :: 0 <= i < |rows| ==> rows[i].tradeId.signalId != id
    ensures ClosedResults(rows, id) == []
  {
    if rows != [] {
      NoRowsNoResults(rows[..|rows| - 1], id);
    }
  }

  /** The trade's row is the signal's last one. */
  predicate IsLastRow(rows: seq<StageRow>, trade: TradeId, k: int) {
    && 0 <= k < |rows| && rows[k].tradeId == trade
    && forall i :: k < i < |rows| ==> rows[i].tradeId.signalId != trade.signalId
  }

  predicate LastRow(rows: seq<StageRow>, trade: TradeId) { exists k :: 0 <= k < |rows| && IsLastRow(rows, trade, k) }

  lemma LastRowStays(a: seq<StageRow>, b: seq<StageRow>, id: SignalId, trade: TradeId)
    requires RowsTouchOnly(a, b, id) && trade.signalId != id && LastRow(a, trade)
    ensures LastRow(b, trade)
  {
    var k :| 0 <= k < |a| && IsLastRow(a, trade, k);
    assert b[k] == a[k];
    assert IsLastRow(b, trade, k);
  }

  // ----- The invariant -----

  ghost predicate PcRuns(w: World, s: Signal, pc: Pc, cfg: Config) {
    var results := ClosedResults(w.tables.stages, s.id);
    match pc
    case CheckLimit => true
    case RejectLimit => true
    case CheckGate => true
    case AwaitFire(st) => OwnRun(st, s, results, cfg)
    case PersistFire(fired) => OwnRun(fired, s, results, cfg)
    case PlaceTrade(st) => OwnRun(st, s, results, cfg)
    case PersistFailure(failed) => OwnRun(failed, s, results + [Failed], cfg)
    case RecordPlaced(st, _, _) => OwnRun(st, s, results, cfg)
    case StartWait(st, trade, _) => OwnRun(st, s, results, cfg) && LastRow(w.tables.stages, trade)
    case AwaitResult(st, trade, _) => OwnRun(st, s, results, cfg) && LastRow(w.tables.stages, trade)
    case RecordResult(st, next, trade, result, _) =>
      && OwnRun(st, s, results, cfg) && OwnRun(next, s, results + [result], cfg)
      && LastRow(w.tables.stages, trade)
    case PersistResult(next, _, _, _, _) => OwnRun(next, s, results, cfg)
    case BookDaily(next, _, _, _) => OwnRun(next, s, results, cfg)
  }

  ghost predicate TaskRuns(w: World, t: Task, cfg: Config) { t.Supervisor? ==> PcRuns(w, t.signal, t.pc, cfg) }

  lemma TaskRunsDepends(a: World, b: World, task: Task, cfg: Config)
    requires TaskRuns(a, task, cfg) && b.tables.stages == a.tables.stages
    ensures TaskRuns(b, task, cfg)
  {
  }

  lemma OtherRunsKept(a: World, b: World, id: SignalId, task: Task, cfg: Config)
    requires TaskRuns(a, task, cfg) && TaskLedger(a, task, cfg) && (task.Supervisor? ==> task.signal.id != id)
    requires RowsTouchOnly(a.tables.stages, b.tables.stages, id)
    ensures TaskRuns(b, task, cfg)
  {
    if task.Supervisor? {
      OthersSilent(a.tables.stages, b.tables.stages, id, task.signal.id);
      if task.pc.StartWait? || task.pc.AwaitResult? || task.pc.RecordResult? {
        LastRowStays(a.tables.stages, b.tables.stages, id, task.pc.trade);
      }
    }
  }

  // ----- Supervisor steps -----

  lemma PendingHasNoResults(w: World, id: SignalId, cfg: Config)
    requires LogInv(w, cfg) && StageRowsInv(w, cfg) && id in w.tables.signals && StatusOf(w, id) == Pending
    ensures ClosedResults(w.tables.stages, id) == []
  {
    assert PlacedBelow(w, id, Allowance(StatusOf(w, id)));
    forall i | 0 <= i < |w.tables.stages| ensures w.tables.stages[i].tradeId.signalId != id {
      var r := w.tables.stages[i];
      assert IsPlacedIn(w.log, r.tradeId.signalId, r.tradeId.stage);
    }
    NoRowsNoResults(w.tables.stages, id);
  }

  lemma FireRuns(w: World, t: nat, o: Oracle, cfg: Config)
    requires t in w.tasks && w.tasks[t].Supervisor? && TaskRuns(w, w.tasks[t], cfg) && TaskInv(w, w.tasks[t], cfg)
    requires AtGate(w.tasks[t]) || w.tasks[t].pc.AwaitFire? || w.tasks[t].pc.PersistFire?
    requires StatusOf(w, w.tasks[t].signal.id) == Pending ==> ClosedResults(w.tables.stages, w.tasks[t].signal.id) == []
    ensures var w' := DoSupervise(w, t, o, cfg); t in w'.tasks ==> TaskRuns(w', w'.tasks[t], cfg)
  {
    var s, pc := w.tasks[t].signal, w.tasks[t].pc;
    StartRuns(s, cfg);
    if pc.AwaitFire? {
      NextRuns(pc.state, FireEvent(o.now), s, ClosedResults(w.tables.stages, s.id), cfg);
    }
  }

  lemma PlaceRuns(w: World, t: nat, o: Oracle, cfg: Config)
    requires t in w.tasks && w.tasks[t].Supervisor? && TaskRuns(w, w.tasks[t], cfg)
    requires w.tasks[t].pc.PlaceTrade? || w.tasks[t].pc.PersistFailure? || w.tasks[t].pc.StartWait?
    ensures var w' := DoSupervise(w, t, o, cfg);
            w'.tables.stages == w.tables.stages && (t in w'.tasks ==> TaskRuns(w', w'.tasks[t], cfg))
  {
    var s, pc := w.tasks[t].signal, w.tasks[t].pc;
    if pc.PlaceTrade? {
      NextRuns(pc.state, ResultEvent(Failed, o.now), s, ClosedResults(w.tables.stages, s.id), cfg);
    }
  }

  lemma AwaitRuns(w: World, t: nat, o: Oracle, cfg: Config)
    requires t in w.tasks && w.tasks[t].Supervisor? && TaskRuns(w, w.tasks[t], cfg) && w.tasks[t].pc.AwaitResult?
    ensures var w' := DoSupervise(w, t, o, cfg);
            w'.tables.stages == w.tables.stages && (t in w'.tasks ==> TaskRuns(w', w'.tasks[t], cfg))
  {
    var s, pc := w.tasks[t].signal, w.tasks[t].pc;
    var result := if pc.known then o.result else Failed;
    NextRuns(pc.state, ResultEvent(result, o.now), s, ClosedResults(w.tables.stages, s.id), cfg);
  }

  lemma WriteRuns(w: World, t: nat, o: Oracle, cfg: Config)
    requires t in w.tasks && w.tasks[t].Supervisor? && TaskRuns(w, w.tasks[t], cfg)
    requires w.tasks[t].pc.PersistResult? || w.tasks[t].pc.BookDaily?
    ensures var w' := DoSupervise(w, t, o, cfg);
            w'.tables.stages == w.tables.stages && (t in w'.tasks ==> TaskRuns(w', w'.tasks[t], cfg))
  {
  }

  lemma RecordRuns(w: World, t: nat, o: Oracle, cfg: Config)
    requires t in w.tasks && w.tasks[t].Supervisor? && TaskRuns(w, w.tasks[t], cfg) && w.tasks[t].pc.RecordPlaced?
    requires TaskInv(w, w.tasks[t], cfg) && TaskLedger(w, w.tasks[t], cfg)
    ensures var w' := DoSupervise(w, t, o, cfg);
            && RowsTouchOnly(w.tables.stages, w'.tables.stages, w.tasks[t].signal.id)
            && (t in w'.tasks ==> TaskRuns(w', w'.tasks[t], cfg))
  {
    var w', r := RecordPlacedStep(w, t, cfg);
    OpenRowSilent(w.tables.stages, r, w.tasks[t].signal.id);
    assert IsLastRow(w'.tables.stages, r.tradeId, |w.tables.stages|);
  }

  lemma CloseRuns(w: World, t: nat, o: Oracle, cfg: Config)
    requires t in w.tasks && w.tasks[t].Supervisor? && TaskRuns(w, w.tasks[t], cfg) && w.tasks[t].pc.RecordResult?
    requires StageRowsInv(w, cfg) && TaskInv(w, w.tasks[t], cfg) && TaskLedger(w, w.tasks[t], cfg)
    ensures var w' := DoSupervise(w, t, o, cfg);
            && RowsTouchOnly(w.tables.stages, w'.tables.stages, w.tasks[t].signal.id)
            && (t in w'.tasks ==> TaskRuns(w', w'.tasks[t], cfg))
  {
    var w', k, r := RecordResultStep(w, t, cfg);
    OnlyLast(w, w.tasks[t].pc.trade, k, cfg);
    CloseLast(w.tables.stages, k, r, w.tasks[t].signal.id);
  }

  /** A trade has one row, so its row is the last one wherever it was found. */
  lemma OnlyLast(w: World, trade: TradeId, k: nat, cfg: Config)
    requires StageRowsInv(w, cfg) && LastRow(w.tables.stages, trade)
    requires k < |w.tables.stages| && w.tables.stages[k].tradeId == trade
    ensures IsLastRow(w.tables.stages, trade, k)
  {
    var last :| 0 <= last < |w.tables.stages| && IsLastRow(w.tables.stages, trade, last);
    assert last == k;
  }

  lemma OwnRuns(w: World, t: nat, o: Oracle, cfg: Config)
    requires LogInv(w, cfg) && StageRowsInv(w, cfg) && t in w.tasks && w.tasks[t].Supervisor?
    requires TaskInv(w, w.tasks[t], cfg) && TaskLedger(w, w.tasks[t], cfg) && TaskRuns(w, w.tasks[t], cfg)
    ensures var w' := DoSupervise(w, t, o, cfg);
            && RowsTouchOnly(w.tables.stages, w'.tables.stages, w.tasks[t].signal.id)
            && (t in w'.tasks ==> TaskRuns(w', w'.tasks[t], cfg))
  {
    var id := w.tasks[t].signal.id;
    match w.tasks[t].pc
    case RecordPlaced(_, _, _) => RecordRuns(w, t, o, cfg);
    case RecordResult(_, _, _, _, _) => CloseRuns(w, t, o, cfg);
    case AwaitResult(_, _, _) => AwaitRuns(w, t, o, cfg);
    case PersistResult(_, _, _, _, _) => WriteRuns(w, t, o, cfg);
    case BookDaily(_, _, _, _) => WriteRuns(w, t, o, cfg);
    case PlaceTrade(_) => PlaceRuns(w, t, o, cfg);
    case PersistFailure(_) => PlaceRuns(w, t, o, cfg);
    case StartWait(_, _, _) => PlaceRuns(w, t, o, cfg);
    case _ =>
      if StatusOf(w, id) == Pending {
        PendingHasNoResults(w, id, cfg);
      }
      FireRuns(w, t, o, cfg);
      NeutralFrame(w, t, o, cfg);
  }

  // ----- Every step, every run -----

  ghost predicate RunsInv(w: World, cfg: Config) { forall t :: t in w.tasks ==> TaskRuns(w, w.tasks[t], cfg) }

  lemma SuperviseKeepsRuns(w: World, t: nat, o: Oracle, cfg: Config)
    requires Inv(w, cfg) && LedgerInv(w, cfg) && RunsInv(w, cfg) && t in w.tasks && w.tasks[t].Supervisor?
    ensures RunsInv(DoSupervise(w, t, o, cfg), cfg)
  {
    var w' := DoSupervise(w, t, o, cfg);
    assert TaskInv(w, w.tasks[t], cfg) && TaskLedger(w, w.tasks[t], cfg) && TaskRuns(w, w.tasks[t], cfg);
    OwnRuns(w, t, o, cfg);
    SuperviseFrame(w, t, o, cfg);
    forall u | u in w'.tasks && u != t ensures TaskRuns(w', w'.tasks[u], cfg) {
      assert TaskRuns(w, w.tasks[u], cfg) && TaskLedger(w, w.tasks[u], cfg);
      OtherRunsKept(w, w', w.tasks[t].signal.id, w.tasks[u], cfg);
    }
  }

  lemma OutsideKeepsRuns(w: World, step: Step, cfg: Config)
    requires RunsInv(w, cfg) && Enabled(w, step, cfg) && !step.Supervise?
    ensures RunsInv(Apply(w, step, cfg), cfg)
  {
    var w' := Apply(w, step, cfg);
    if step.Die? {
      DieStops(w, step.task);
    } else if !step.Crash? {
      OutsideFrame(w, step, cfg);
    }
    forall u | u in w'.tasks ensures TaskRuns(w', w'.tasks[u], cfg) {
      if u in w.tasks && w'.tasks[u] == w.tasks[u] {
        TaskRunsDepends(w, w', w.tasks[u], cfg);
      } else {
        assert !InCascade(w'.tasks[u]);
      }
    }
  }

  lemma StepKeepsRuns(w: World, step: Step, cfg: Config)
    requires Inv(w, cfg) && LedgerInv(w, cfg) && RunsInv(w, cfg) && Enabled(w, step, cfg)
    ensures RunsInv(Apply(w, step, cfg), cfg)
  {
    if step.Supervise? {
      SuperviseKeepsRuns(w, step.task, step.oracle, cfg);
    } else {
      OutsideKeepsRuns(w, step, cfg);
    }
  }

  lemma {:induction false} RunKeepsRuns(w: World, steps: seq<Step>, w': World, cfg: Config)
    requires Inv(w, cfg) && LedgerInv(w, cfg) && RunsInv(w, cfg) && Run(w, steps, w', cfg)
    ensures RunsInv(w', cfg)
    decreases |steps|
  {
    if steps != [] {
      StepKeepsInv(w, steps[0], cfg);
      StepKeepsLedger(w, steps[0], cfg);
      StepKeepsRuns(w, steps[0], cfg);
      RunKeepsRuns(Apply(w, steps[0], cfg), steps[1..], w', cfg);
    }
  }

  lemma ReachableRuns(w: World, cfg: Config)
    requires Reachable(w, cfg)
    ensures RunsInv(w, cfg)
  {
    var steps :| Run(INIT, steps, w, cfg);
    assert Run(INIT, [], INIT, cfg);
    ReachableLedger(INIT, cfg);
    RunKeepsRuns(INIT, steps, w, cfg);
  }

  // ----- The theorem -----

  /** The machine state a supervisor goes on with, once past the gate. */
  function CurrentState(pc: Pc): Option<SignalState> {
    match pc
    case CheckLimit => None
    case RejectLimit => None
    case CheckGate => None
    case AwaitFire(st) => Some(st)
    case PersistFire(fired) => Some(fired)
    case PlaceTrade(st) => Some(st)
    case PersistFailure(failed) => Some(failed)
    case RecordPlaced(st, _, _) => Some(st)
    case StartWait(st, _, _) => Some(st)
    case AwaitResult(st, _, _) => Some(st)
    case RecordResult(_, next, _, _, _) => Some(next)
    case PersistResult(next, _, _, _, _) => Some(next)
    case BookDaily(next, _, _, _) => Some(next)
  }

  /** A result the supervisor has taken but no row records: the one about to be written, or a
      refused placement, which never gets a row. */
  function InHand(pc: Pc): seq<StageResult> {
    if pc.RecordResult? then [pc.result] else if pc.PersistFailure? then [Failed] else []
  }

  /** In every reachable world, a supervisor's state is what the machine makes of the results its
      signal's stage rows record, in order, plus the one in hand; and it shows exactly the verdict
      those events deserve. */
  lemma DriverRefinesMachine(w: World, t: nat, cfg: Config)
    requires Reachable(w, cfg) && t in w.tasks && w.tasks[t].Supervisor? && CurrentState(w.tasks[t].pc).Some?
    ensures
      var s, pc := w.tasks[t].signal, w.tasks[t].pc;
      var st := CurrentState(pc).value;
      exists events: seq<Event>, v ::
        && Fold(FromSignal(s, cfg), events, cfg) == st
        && ReportedResults(events) == ClosedResults(w.tables.stages, s.id) + InHand(pc)
        && Describes(v, events, s.triggerInitial, cfg) && Shows(st, v, cfg)
  {
    var s, pc := w.tasks[t].signal, w.tasks[t].pc;
    var st, results := CurrentState(pc).value, ClosedResults(w.tables.stages, s.id) + InHand(pc);
    ReachableRuns(w, cfg);
    assert TaskRuns(w, w.tasks[t], cfg);
    assert results == ClosedResults(w.tables.stages, s.id) || InHand(pc) != [];
    assert OwnRun(st, s, results, cfg);
    var events: seq<Event> :| Fold(FromSignal(s, cfg), events, cfg) == st && ReportedResults(events) == results;
    var v := VerdictExists(s, events, cfg);
  }
}
