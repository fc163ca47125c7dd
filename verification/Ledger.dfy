/** Three ledgers: a supervisor's running total, the `stages` rows, and the daily summary. */
module Ledger {
  import opened Gale
  import opened StateMachine
  import opened Tables
  import opened Protocol
  import opened Safety
  import opened Guarantees
  import Clock

  // ----- Sums over the stages table -----

  ghost function Sum(rows: seq<StageRow>, f: StageRow -> real): real {
    if rows == [] then 0.0 else Sum(rows[..|rows| - 1], f) + f(rows[|rows| - 1])
  }

  lemma SumAppend(rows: seq<StageRow>, r: StageRow, f: StageRow -> real)
    ensures Sum(rows + [r], f) == Sum(rows, f) + f(r)
  {
  }

  lemma {:induction false} SumSame(a: seq<StageRow>, b: seq<StageRow>, f: StageRow -> real, g: StageRow -> real)
    requires |a| == |b| && forall i :: 0 <= i < |a| ==> f(a[i]) == g(b[i])
    ensures Sum(a, f) == Sum(b, g)
  {
    if a != [] {
      SumSame(a[..|a| - 1], b[..|b| - 1], f, g);
    }
  }

  /** Changing one row, or the weight of one row, moves the sum by that row's difference. */
  lemma {:induction false} SumDiffer(
      a: seq<StageRow>, b: seq<StageRow>, f: StageRow -> real, g: StageRow -> real, k: nat)
    requires |a| == |b| && k < |a| && forall i :: 0 <= i < |a| && i != k ==> f(a[i]) == g(b[i])
    ensures Sum(b, g) == Sum(a, f) - f(a[k]) + g(b[k])
  {
    if k == |a| - 1 {
      SumSame(a[..|a| - 1], b[..|b| - 1], f, g);
    } else {
      SumDiffer(a[..|a| - 1], b[..|b| - 1], f, g, k);
    }
  }

  lemma {:induction false} SumSplit(rows: seq<StageRow>, f: StageRow -> real, g: StageRow -> real, h: StageRow -> real)
    requires forall i :: 0 <= i < |rows| ==> f(rows[i]) == g(rows[i]) + h(rows[i])
    ensures Sum(rows, f) == Sum(rows, g) + Sum(rows, h)
  {
    if rows != [] {
      SumSplit(rows[..|rows| - 1], f, g, h);
    }
  }

  function PnlOf(r: StageRow): real { if r.pnl.Some? then r.pnl.value else 0.0 }

  function Unit(b: bool): real { if b then 1.0 else 0.0 }

  /** The four additive columns of the daily summary. */
  datatype Column = Trades | Wins | Losses | RealizedPnl

  /** What a closed row adds to a column. */
  function Contribution(r: StageRow, c: Column): real {
    if r.result.None? then 0.0
    else match c
      case Trades => 1.0
      case Wins => Unit(r.result.value == Win)
      case Losses => Unit(LossLike(r.result.value))
      case RealizedPnl => PnlOf(r)
  }

  ghost function OfSignal(id: SignalId): StageRow -> real {
    (r: StageRow) => if r.tradeId.signalId == id then PnlOf(r) else 0.0
  }

  /** Closed rows of a date; all of them, those booked, those not booked. */
  ghost function OnDate(d: int, c: Column): StageRow -> real {
    (r: StageRow) => if r.tradeId.signalId.date == d then Contribution(r, c) else 0.0
  }

  ghost function BookedOn(booked: set<TradeId>, d: int, c: Column): StageRow -> real {
    (r: StageRow) => if r.tradeId.signalId.date == d && r.tradeId in booked then Contribution(r, c) else 0.0
  }

  ghost function UnbookedOn(booked: set<TradeId>, d: int, c: Column): StageRow -> real {
    (r: StageRow) => if r.tradeId.signalId.date == d && r.tradeId !in booked then Contribution(r, c) else 0.0
  }

  function Cell(d: DailyRow, c: Column): real {
    match c
    case Trades => d.trades as real
    case Wins => d.wins as real
    case Losses => d.losses as real
    case RealizedPnl => d.realizedPnl
  }

  // ----- The ledger invariant -----

  predicate IsPlacedIn(log: seq<Placement>, id: SignalId, stage: Stage) {
    exists i :: 0 <= i < |log| && log[i].signalId == id && log[i].stage == stage
  }

  predicate OpenRow(w: World, trade: TradeId) {
    exists i :: 0 <= i < |w.tables.stages| && w.tables.stages[i].tradeId == trade && w.tables.stages[i].result.None?
  }

  predicate ClosedRow(w: World, trade: TradeId) {
    exists i :: 0 <= i < |w.tables.stages| && w.tables.stages[i].tradeId == trade && w.tables.stages[i].result.Some?
  }

  predicate ClosedWith(w: World, trade: TradeId, result: StageResult) {
    exists i :: 0 <= i < |w.tables.stages| && w.tables.stages[i].tradeId == trade
        && w.tables.stages[i].result == Some(result)
  }

  predicate HasStageRow(w: World, id: SignalId, stage: Stage) {
    exists i :: 0 <= i < |w.tables.stages|
                && w.tables.stages[i].tradeId.signalId == id && w.tables.stages[i].tradeId.stage == stage
  }

  /** Rows exist only for placed trades, one per signal and stage, with the stage's stake and the
      profit its result earns. */
  predicate StageRowsInv(w: World, cfg: Config) {
    && (forall i, j :: 0 <= i < j < |w.tables.stages| ==>
          || w.tables.stages[i].tradeId.signalId != w.tables.stages[j].tradeId.signalId
          || w.tables.stages[i].tradeId.stage != w.tables.stages[j].tradeId.stage)
    && (forall i :: 0 <= i < |w.tables.stages| ==>
          var r := w.tables.stages[i];
          && IsPlacedIn(w.log, r.tradeId.signalId, r.tradeId.stage)
          && r.amount == AmountForStage(r.tradeId.stage, cfg)
          && r.pnl == (if r.result.None? then None else Some(StagePnl(r.amount, r.result.value))))
  }

  /** Calls for a signal come in stage order without gaps. */
  predicate Consecutive(log: seq<Placement>) {
    forall i :: 0 <= i < |log| && Index(log[i].stage) > 0 ==>
      exists j :: 0 <= j < i && log[j].signalId == log[i].signalId && Index(log[j].stage) == Index(log[i].stage) - 1
  }

  /** The stage below this one has been placed. */
  predicate Preceded(w: World, id: SignalId, stage: Option<Stage>) {
    stage.Some? && Index(stage.value) > 0 ==> IsPlacedIn(w.log, id, StageAt(Index(stage.value) - 1))
  }

  ghost predicate TotalIs(w: World, id: SignalId, total: real) {
    Sum(w.tables.stages, OfSignal(id)) == total
  }

  predicate TradeOf(trade: TradeId, s: Signal, st: SignalState) {
    trade.signalId == s.id && st.stage == Some(trade.stage)
  }

  /** A supervisor's running total is the sum over the rows it closed, at every await. */
  ghost predicate PcLedger(w: World, s: Signal, pc: Pc, cfg: Config) {
    match pc
    case CheckLimit => true
    case RejectLimit => true
    case CheckGate => true
    case AwaitFire(st) => TotalIs(w, s.id, st.cumulativePnl) && Preceded(w, s.id, st.stage)
    case PersistFire(fired) => TotalIs(w, s.id, fired.cumulativePnl) && Preceded(w, s.id, fired.stage)
    case PlaceTrade(st) => TotalIs(w, s.id, st.cumulativePnl) && Preceded(w, s.id, st.stage)
    case PersistFailure(failed) => TotalIs(w, s.id, failed.cumulativePnl)
    case RecordPlaced(st, _, brokerId) =>
      && st.stage.Some? && TotalIs(w, s.id, st.cumulativePnl)
      && IsPlacedIn(w.log, s.id, st.stage.value) && !HasStageRow(w, s.id, st.stage.value)
    case StartWait(st, trade, _) =>
      TotalIs(w, s.id, st.cumulativePnl) && TradeOf(trade, s, st) && OpenRow(w, trade)
          && IsPlacedIn(w.log, s.id, trade.stage)
    case AwaitResult(st, trade, _) =>
      TotalIs(w, s.id, st.cumulativePnl) && TradeOf(trade, s, st) && OpenRow(w, trade)
          && IsPlacedIn(w.log, s.id, trade.stage)
    case RecordResult(st, next, trade, result, _) =>
      && TotalIs(w, s.id, st.cumulativePnl) && TradeOf(trade, s, st) && OpenRow(w, trade)
      && next.cumulativePnl == st.cumulativePnl + StagePnl(st.amount, result) && Preceded(w, s.id, next.stage)
    case PersistResult(next, trade, result, amount, _) =>
      && TotalIs(w, s.id, next.cumulativePnl) && trade.signalId == s.id && amount == AmountForStage(trade.stage, cfg)
      && ClosedWith(w, trade, result) && Preceded(w, s.id, next.stage)
    case BookDaily(next, trade, result, amount) =>
      && TotalIs(w, s.id, next.cumulativePnl) && trade.signalId == s.id && amount == AmountForStage(trade.stage, cfg)
      && ClosedWith(w, trade, result) && Preceded(w, s.id, next.stage)
  }

  ghost predicate TaskLedger(w: World, t: Task, cfg: Config) {
    t.Supervisor? ==> PcLedger(w, t.signal, t.pc, cfg)
  }

  /** Some supervisor is between closing this trade's row and booking it. */
  predicate LiveGap(w: World, trade: TradeId) {
    exists t :: t in w.tasks && InGap(w.tasks[t]) && w.tasks[t].pc.trade == trade
  }

  /** Every closed trade is booked, or about to be, or was torn off by a crash or an exception;
      and never two of these. */
  predicate BooksInv(w: World) {
    && (forall i :: 0 <= i < |w.tables.stages| && w.tables.stages[i].result.Some? ==>
          var id := w.tables.stages[i].tradeId;
          id in w.booked || id in w.torn || LiveGap(w, id))
    && (forall id :: id in w.booked ==> ClosedRow(w, id) && id !in w.torn)
    && (forall id :: id in w.torn ==> ClosedRow(w, id))
    && (forall t :: t in w.tasks && InGap(w.tasks[t]) ==>
          w.tasks[t].pc.trade !in w.booked && w.tasks[t].pc.trade !in w.torn)
  }

  ghost predicate DailyInv(w: World) {
    forall d, c :: Cell(DailyOf(w.tables, d), c) == Sum(w.tables.stages, BookedOn(w.booked, d, c))
  }

  ghost predicate LedgerInv(w: World, cfg: Config) {
    && StageRowsInv(w, cfg)
    && Consecutive(w.log)
    && BooksInv(w)
    && DailyInv(w)
    && (forall t :: t in w.tasks ==> TaskLedger(w, w.tasks[t], cfg))
  }

  // ----- Frame rules -----

  /** The same supervisors are in the gap, for the same trades. */
  predicate SameGaps(a: World, b: World) {
    && (forall t :: t in a.tasks && InGap(a.tasks[t]) ==>
          t in b.tasks && InGap(b.tasks[t]) && b.tasks[t].pc.trade == a.tasks[t].pc.trade)
    && (forall t :: t in b.tasks && InGap(b.tasks[t]) ==>
          t in a.tasks && InGap(a.tasks[t]) && b.tasks[t].pc.trade == a.tasks[t].pc.trade)
  }

  lemma TaskLedgerDepends(a: World, b: World, task: Task, cfg: Config)
    requires b.tables.stages == a.tables.stages && b.log == a.log
    ensures TaskLedger(a, task, cfg) <==> TaskLedger(b, task, cfg)
  {
  }

  predicate SameBooks(a: World, b: World) {
    && b.tables.stages == a.tables.stages && b.tables.daily == a.tables.daily
    && b.booked == a.booked && b.torn == a.torn
  }

  /** Steps that write no ledger. */
  lemma NeutralStep(a: World, b: World, cfg: Config)
    requires LedgerInv(a, cfg) && SameBooks(a, b) && b.log == a.log && SameGaps(a, b)
    requires forall t :: t in b.tasks ==> TaskLedger(a, b.tasks[t], cfg)
    ensures LedgerInv(b, cfg)
  {
    forall t | t in b.tasks ensures TaskLedger(b, b.tasks[t], cfg) {
      TaskLedgerDepends(a, b, b.tasks[t], cfg);
    }
    BooksDepend(a, b);
    assert forall d :: DailyOf(b.tables, d) == DailyOf(a.tables, d);
  }

  lemma BooksDepend(a: World, b: World)
    requires BooksInv(a) && SameBooks(a, b) && SameGaps(a, b)
    ensures BooksInv(b)
  {
  }

  /** Only rows of one signal were appended or rewritten. */
  predicate RowsTouchOnly(a: seq<StageRow>, b: seq<StageRow>, id: SignalId) {
    && |a| <= |b|
    && (forall i :: 0 <= i < |a| ==>
          b[i] == a[i] || (a[i].tradeId.signalId == id && b[i].tradeId == a[i].tradeId))
    && (forall i :: |a| <= i < |b| ==> b[i].tradeId.signalId == id)
  }

  lemma {:induction false} OtherTotalKept(a: seq<StageRow>, b: seq<StageRow>, id: SignalId, other: SignalId)
    requires RowsTouchOnly(a, b, id) && other != id
    ensures Sum(b, OfSignal(other)) == Sum(a, OfSignal(other))
    decreases |b|
  {
    if |b| == |a| {
      SumSame(a, b, OfSignal(other), OfSignal(other));
    } else {
      OtherTotalKept(a, b[..|b| - 1], id, other);
    }
  }

  lemma RowExistsKept(a: World, b: World, id: SignalId, trade: TradeId)
    requires RowsTouchOnly(a.tables.stages, b.tables.stages, id) && trade.signalId != id
    ensures OpenRow(a, trade) ==> OpenRow(b, trade)
    ensures forall r :: ClosedWith(a, trade, r) ==> ClosedWith(b, trade, r)
  {
  }

  lemma PlacedKept(a: seq<Placement>, b: seq<Placement>)
    requires |a| <= |b| && b[..|a|] == a
    ensures forall id, stage :: IsPlacedIn(a, id, stage) ==> IsPlacedIn(b, id, stage)
  {
  }

  /** Supervisors of other signals keep their books. */
  lemma OtherLedgerKept(a: World, b: World, id: SignalId, task: Task, cfg: Config)
    requires TaskLedger(a, task, cfg) && (task.Supervisor? ==> task.signal.id != id)
    requires RowsTouchOnly(a.tables.stages, b.tables.stages, id)
    requires |a.log| <= |b.log| && b.log[..|a.log|] == a.log
    ensures TaskLedger(b, task, cfg)
  {
    if task.Supervisor? {
      var s, pc := task.signal, task.pc;
      OtherTotalKept(a.tables.stages, b.tables.stages, id, s.id);
      PlacedKept(a.log, b.log);
      if pc.StartWait? || pc.AwaitResult? || pc.RecordResult? || pc.PersistResult? || pc.BookDaily? {
        RowExistsKept(a, b, id, pc.trade);
      }
    }
  }

  /** Applies the previous lemma to everyone but the supervisor that moved. */
  lemma OthersLedgerKept(a: World, b: World, t: nat, cfg: Config)
    requires OneOwner(a) && t in a.tasks && a.tasks[t].Supervisor?
    requires forall u :: u in a.tasks ==> TaskLedger(a, a.tasks[u], cfg)
    requires forall u :: u in b.tasks && u != t ==> u in a.tasks && b.tasks[u] == a.tasks[u]
    requires RowsTouchOnly(a.tables.stages, b.tables.stages, a.tasks[t].signal.id)
    requires |a.log| <= |b.log| && b.log[..|a.log|] == a.log
    ensures forall u :: u in b.tasks && u != t ==> TaskLedger(b, b.tasks[u], cfg)
  {
    forall u | u in b.tasks && u != t ensures TaskLedger(b, b.tasks[u], cfg) {
      OtherLedgerKept(a, b, a.tasks[t].signal.id, a.tasks[u], cfg);
    }
  }

  // ----- Supervisor steps -----

  lemma NothingPlacedNothingOwed(w: World, id: SignalId, cfg: Config)
    requires StageRowsInv(w, cfg) && PlacedBelow(w, id, 0)
    ensures TotalIs(w, id, 0.0)
  {
    forall i | 0 <= i < |w.tables.stages| ensures w.tables.stages[i].tradeId.signalId != id {
      var r := w.tables.stages[i];
      assert IsPlacedIn(w.log, r.tradeId.signalId, r.tradeId.stage);
    }
    ZeroSum(w.tables.stages, id);
  }

  lemma {:induction false} ZeroSum(rows: seq<StageRow>, id: SignalId)
    requires forall i :: 0 <= i < |rows| ==> rows[i].tradeId.signalId != id
    ensures Sum(rows, OfSignal(id)) == 0.0
  {
    if rows != [] {
      ZeroSum(rows[..|rows| - 1], id);
    }
  }

  /** Supervisor steps that write no ledger and do not call the broker. */
  predicate Neutral(pc: Pc) {
    || pc.CheckLimit? || pc.RejectLimit? || pc.CheckGate? || pc.AwaitFire? || pc.PersistFire? || pc.PersistFailure?
    || pc.StartWait? || pc.AwaitResult? || pc.PersistResult?
  }

  lemma NeutralFrame(w: World, t: nat, o: Oracle, cfg: Config)
    requires t in w.tasks && w.tasks[t].Supervisor? && Neutral(w.tasks[t].pc)
    ensures
      var w' := DoSupervise(w, t, o, cfg);
      && SameBooks(w, w') && w'.log == w.log && SameGaps(w, w')
      && (forall u :: u in w'.tasks && u != t ==> u in w.tasks && w'.tasks[u] == w.tasks[u])
  {
    var pc := w.tasks[t].pc;
    if pc.PersistResult? {
      assert InGap(w.tasks[t]);
    } else {
      assert !InGap(w.tasks[t]);
      NeutralLeavesGap(w, t, o, cfg);
    }
  }

  lemma NeutralLeavesGap(w: World, t: nat, o: Oracle, cfg: Config)
    requires t in w.tasks && w.tasks[t].Supervisor? && Neutral(w.tasks[t].pc) && !w.tasks[t].pc.PersistResult?
    ensures var w' := DoSupervise(w, t, o, cfg); t in w'.tasks ==> !InGap(w'.tasks[t])
  {
  }

  /** The two payout formulas are the same function, though neither module uses the other's: 92
      hundredths of the stake for a win, minus the stake for a loss, a tie or a timeout. */
  lemma PnlFormulasAgree(result: StageResult, amount: real)
    ensures SupervisorPnl(result, amount) == StagePnl(amount, result)
    ensures SupervisorPnl(result, amount)
            == match result
               case Win => amount * 0.92
               case Failed => 0.0
               case _ => -amount
  {
  }

  /** What the supervisor books for a result is what the machine adds to its total. */
  lemma ResultBooksPnl(st: SignalState, result: StageResult, now: real, s: Signal, cfg: Config)
    requires StateInv(st, s, cfg) && IsPlaced(st.status)
    ensures
      var r := Transition(st, ResultEvent(result, now), cfg);
      && r.Accepted? && r.state.cumulativePnl == st.cumulativePnl + SupervisorPnl(result, st.amount)
      && (r.state.stage.Some? ==> Index(r.state.stage.value) == Index(st.stage.value) + 1)
  {
  }

  /** The supervisor's own books stay right over its neutral steps. */
  lemma NeutralOwn(w: World, t: nat, o: Oracle, cfg: Config)
    requires t in w.tasks && w.tasks[t].Supervisor? && Neutral(w.tasks[t].pc)
    requires TaskInv(w, w.tasks[t], cfg) && TaskLedger(w, w.tasks[t], cfg)
    requires StatusOf(w, w.tasks[t].signal.id) == Pending ==> TotalIs(w, w.tasks[t].signal.id, 0.0)
    ensures var w' := DoSupervise(w, t, o, cfg); t in w'.tasks ==> TaskLedger(w, w'.tasks[t], cfg)
  {
    var s, pc := w.tasks[t].signal, w.tasks[t].pc;
    if pc.AwaitResult? {
      ResultBooksPnl(pc.state, if pc.known then o.result else Failed, o.now, s, cfg);
    }
  }

  lemma PendingOwesNothing(w: World, id: SignalId, cfg: Config)
    requires LogInv(w, cfg) && StageRowsInv(w, cfg) && id in w.tables.signals && StatusOf(w, id) == Pending
    ensures TotalIs(w, id, 0.0)
  {
    assert PlacedBelow(w, id, Allowance(StatusOf(w, id)));
    NothingPlacedNothingOwed(w, id, cfg);
  }

  lemma NeutralLedger(w: World, t: nat, o: Oracle, cfg: Config)
    requires LogInv(w, cfg) && LedgerInv(w, cfg) && t in w.tasks && w.tasks[t].Supervisor? && Neutral(w.tasks[t].pc)
    requires TaskInv(w, w.tasks[t], cfg)
    ensures LedgerInv(DoSupervise(w, t, o, cfg), cfg)
  {
    var w' := DoSupervise(w, t, o, cfg);
    NeutralFrame(w, t, o, cfg);
    var id := w.tasks[t].signal.id;
    if StatusOf(w, id) == Pending {
      PendingOwesNothing(w, id, cfg);
    }
    NeutralOwn(w, t, o, cfg);
    NeutralStep(w, w', cfg);
  }

  lemma PlacedOwn(w: World, t: nat, st: SignalState, o: Oracle, cfg: Config)
    requires t in w.tasks && w.tasks[t].Supervisor? && w.tasks[t].pc == PlaceTrade(st)
    requires TaskInv(w, w.tasks[t], cfg) && TaskLedger(w, w.tasks[t], cfg)
    requires !HasStageRow(w, w.tasks[t].signal.id, st.stage.value)
    ensures
      var w' := DoPlaceTrade(w, t, w.tasks[t].signal, st, o, cfg);
      t in w'.tasks ==> TaskLedger(w', w'.tasks[t], cfg)
  {
    var s := w.tasks[t].signal;
    var w' := DoPlaceTrade(w, t, s, st, o, cfg);
    ResultBooksPnl(st, Failed, o.now, s, cfg);
    assert w'.log[|w.log|] == Placement(s.id, st.stage.value, st.amount);
  }

  lemma PlaceOwn(w: World, t: nat, o: Oracle, cfg: Config) returns (w': World, st: SignalState)
    requires StageRowsInv(w, cfg) && t in w.tasks && w.tasks[t].Supervisor? && w.tasks[t].pc.PlaceTrade?
    requires TaskInv(w, w.tasks[t], cfg) && TaskLedger(w, w.tasks[t], cfg)
    ensures st == w.tasks[t].pc.state && w' == DoPlaceTrade(w, t, w.tasks[t].signal, st, o, cfg) && st.stage.Some?
    ensures w'.tables == w.tables && w'.booked == w.booked && w'.torn == w.torn
    ensures w'.log == w.log + [Placement(w.tasks[t].signal.id, st.stage.value, st.amount)]
    ensures Preceded(w, w.tasks[t].signal.id, st.stage)
    ensures t in w'.tasks ==> !InGap(w'.tasks[t]) && TaskLedger(w', w'.tasks[t], cfg)
    ensures forall u :: u != t ==> (u in w.tasks <==> u in w'.tasks) && (u in w.tasks ==> w'.tasks[u] == w.tasks[u])
  {
    st := w.tasks[t].pc.state;
    w' := DoPlaceTrade(w, t, w.tasks[t].signal, st, o, cfg);
    PlaceTouches(w, t, st, o, cfg);
    PlaceFindsNoRow(w, w.tasks[t].signal.id, st.stage.value, cfg);
    PlacedOwn(w, t, st, o, cfg);
  }

  lemma PlaceLedger(w: World, t: nat, o: Oracle, cfg: Config)
    requires OneOwner(w) && LedgerInv(w, cfg) && t in w.tasks && w.tasks[t].Supervisor? && w.tasks[t].pc.PlaceTrade?
    requires TaskInv(w, w.tasks[t], cfg)
    ensures LedgerInv(DoSupervise(w, t, o, cfg), cfg)
  {
    assert TaskLedger(w, w.tasks[t], cfg);
    var w', st := PlaceOwn(w, t, o, cfg);
    OthersLedgerKept(w, w', t, cfg);
    PlaceKeepsLedger(w, w', t, w.tasks[t].signal.id, st.stage.value, st.amount, cfg);
  }

  lemma PlaceKeepsLedger(w: World, w': World, t: nat, id: SignalId, stage: Stage, amount: real, cfg: Config)
    requires StageRowsInv(w, cfg) && Consecutive(w.log) && BooksInv(w) && DailyInv(w)
    requires w'.tables == w.tables && w'.booked == w.booked && w'.torn == w.torn
    requires w'.log == w.log + [Placement(id, stage, amount)] && Preceded(w, id, Some(stage))
    requires t in w.tasks && !InGap(w.tasks[t]) && (t in w'.tasks ==> !InGap(w'.tasks[t]))
    requires forall u :: u != t ==> (u in w.tasks <==> u in w'.tasks) && (u in w.tasks ==> w'.tasks[u] == w.tasks[u])
    ensures StageRowsInv(w', cfg) && Consecutive(w'.log) && BooksInv(w') && DailyInv(w')
  {
    PlacedKept(w.log, w'.log);
    PlaceKeepsConsecutive(w, w', id, stage, amount);
    assert SameGaps(w, w');
    BooksDepend(w, w');
    assert forall d :: DailyOf(w'.tables, d) == DailyOf(w.tables, d);
  }

  lemma PlaceKeepsConsecutive(w: World, w': World, id: SignalId, stage: Stage, amount: real)
    requires Consecutive(w.log) && w'.log == w.log + [Placement(id, stage, amount)]
    requires Preceded(w, id, Some(stage))
    ensures Consecutive(w'.log)
  {
    forall i | 0 <= i < |w'.log| && Index(w'.log[i].stage) > 0
      ensures exists j ::
                0 <= j < i && w'.log[j].signalId == w'.log[i].signalId
                && Index(w'.log[j].stage) == Index(w'.log[i].stage) - 1
    {
      if i < |w.log| {
        assert w'.log[i] == w.log[i];
        var j :| 0 <= j < i && w.log[j].signalId == w.log[i].signalId
            && Index(w.log[j].stage) == Index(w.log[i].stage) - 1;
        assert w'.log[j] == w.log[j];
      } else {
        var j :| 0 <= j < |w.log| && w.log[j].signalId == id && w.log[j].stage == StageAt(Index(stage) - 1);
        assert w'.log[j] == w.log[j];
      }
    }
  }

  /** A stage about to be placed has no row yet, so `StageAlreadyExistsError` cannot be raised. */
  lemma PlaceFindsNoRow(w: World, id: SignalId, stage: Stage, cfg: Config)
    requires StageRowsInv(w, cfg) && PlacedBelow(w, id, Index(stage))
    ensures !HasStageRow(w, id, stage)
  {
  }

  lemma AppendKeepsRows(a: World, b: World, r: StageRow, cfg: Config)
    requires StageRowsInv(a, cfg) && b.log == a.log && b.tables.stages == a.tables.stages + [r]
    requires !HasStageRow(a, r.tradeId.signalId, r.tradeId.stage)
    requires IsPlacedIn(a.log, r.tradeId.signalId, r.tradeId.stage)
    requires r.amount == AmountForStage(r.tradeId.stage, cfg) && r.result.None? && r.pnl.None?
    ensures StageRowsInv(b, cfg)
  {
  }

  lemma AppendKeepsBooks(a: World, b: World, r: StageRow)
    requires BooksInv(a) && DailyInv(a) && SameGaps(a, b) && b.booked == a.booked && b.torn == a.torn
    requires b.tables.stages == a.tables.stages + [r] && b.tables.daily == a.tables.daily
    requires r.result.None? && r.pnl.None?
    ensures BooksInv(b) && DailyInv(b)
  {
  }

  lemma RecordPlacedStep(w: World, t: nat, cfg: Config)
    returns (w': World, r: StageRow)
    requires t in w.tasks && w.tasks[t].Supervisor? && w.tasks[t].pc.RecordPlaced?
    requires TaskInv(w, w.tasks[t], cfg) && TaskLedger(w, w.tasks[t], cfg)
    ensures
      var s, pc := w.tasks[t].signal, w.tasks[t].pc;
      && w' == DoRecordPlaced(w, t, s, pc.state, pc.placedAt, pc.brokerId)
      && pc.state.stage.Some?
      && r == StageRow(TradeId(s.id, pc.state.stage.value, pc.placedAt), pc.state.amount, pc.state.expiresAt,
         pc.brokerId, None, None, None)
      && w' == w.(tables := w.tables.(stages := w.tables.stages + [r]),
                  tasks := w.tasks[t := Supervisor(s, StartWait(pc.state, r.tradeId, pc.brokerId))])
      && r.amount == AmountForStage(r.tradeId.stage, cfg)
      && TaskLedger(w', w'.tasks[t], cfg)
  {
    var s, pc := w.tasks[t].signal, w.tasks[t].pc;
    var trade := TradeId(s.id, pc.state.stage.value, pc.placedAt);
    assert !HasTrade(w.tables.stages, trade);
    r := StageRow(trade, pc.state.amount, pc.state.expiresAt, pc.brokerId, None, None, None);
    w' := DoRecordPlaced(w, t, s, pc.state, pc.placedAt, pc.brokerId);
    SumAppend(w.tables.stages, r, OfSignal(s.id));
    assert w'.tables.stages[|w.tables.stages|] == r;
  }

  lemma RecordPlacedLedger(w: World, t: nat, o: Oracle, cfg: Config)
    requires OneOwner(w) && LedgerInv(w, cfg) && t in w.tasks && w.tasks[t].Supervisor? && w.tasks[t].pc.RecordPlaced?
    requires TaskInv(w, w.tasks[t], cfg)
    ensures LedgerInv(DoSupervise(w, t, o, cfg), cfg)
  {
    assert TaskLedger(w, w.tasks[t], cfg);
    var w', r := RecordPlacedStep(w, t, cfg);
    assert DoSupervise(w, t, o, cfg) == w';
    RecordPlacedBooks(w, w', t, r, cfg);
    OthersLedgerKept(w, w', t, cfg);
  }

  lemma RecordPlacedBooks(w: World, w': World, t: nat, r: StageRow, cfg: Config)
    requires StageRowsInv(w, cfg) && BooksInv(w) && DailyInv(w)
    requires t in w.tasks && !InGap(w.tasks[t]) && t in w'.tasks && !InGap(w'.tasks[t])
    requires w' == w.(tables := w.tables.(stages := w.tables.stages + [r]), tasks := w.tasks[t := w'.tasks[t]])
    requires !HasStageRow(w, r.tradeId.signalId, r.tradeId.stage)
    requires IsPlacedIn(w.log, r.tradeId.signalId, r.tradeId.stage)
    requires r.amount == AmountForStage(r.tradeId.stage, cfg) && r.result.None? && r.pnl.None?
    ensures StageRowsInv(w', cfg) && BooksInv(w') && DailyInv(w')
  {
    AppendKeepsRows(w, w', r, cfg);
    AppendKeepsBooks(w, w', r);
  }

  /** The row a supervisor is waiting on is the only one with its key. */
  lemma CloseIsUpdateAt(w: World, trade: TradeId, k: nat, result: StageResult, pnl: real, now: real, cfg: Config)
    requires StageRowsInv(w, cfg) && k < |w.tables.stages| && w.tables.stages[k].tradeId == trade
    ensures
      RecordStageResult(w.tables, trade, result, pnl, now).stages
      == w.tables.stages[k := w.tables.stages[k].(result := Some(result), pnl := Some(pnl), closedAt := Some(now))]
  {
  }

  lemma CloseKeepsRows(a: World, b: World, k: nat, r: StageRow, cfg: Config)
    requires StageRowsInv(a, cfg) && b.log == a.log && k < |a.tables.stages|
    requires b.tables.stages == a.tables.stages[k := r]
    requires r.tradeId == a.tables.stages[k].tradeId && r.amount == a.tables.stages[k].amount
    requires r.result.Some? && r.pnl == Some(StagePnl(r.amount, r.result.value))
    ensures StageRowsInv(b, cfg)
  {
  }

  /** An open row is in neither set of closed trades. */
  lemma OpenIsUnbooked(w: World, k: nat, cfg: Config)
    requires StageRowsInv(w, cfg) && BooksInv(w) && k < |w.tables.stages| && w.tables.stages[k].result.None?
    ensures w.tables.stages[k].tradeId !in w.booked && w.tables.stages[k].tradeId !in w.torn
  {
  }

  lemma CloseKeepsBooks(a: World, b: World, t: nat, k: nat, r: StageRow, cfg: Config)
    requires StageRowsInv(a, cfg) && BooksInv(a) && DailyInv(a)
    requires k < |a.tables.stages| && a.tables.stages[k].result.None? && b.tables.stages == a.tables.stages[k := r]
    requires r.tradeId == a.tables.stages[k].tradeId && b.tables.daily == a.tables.daily
    requires b.booked == a.booked && b.torn == a.torn
    requires t in b.tasks && InGap(b.tasks[t]) && b.tasks[t].pc.trade == r.tradeId
    requires t in a.tasks && !InGap(a.tasks[t])
    requires forall u :: u != t ==> (u in a.tasks <==> u in b.tasks) && (u in a.tasks ==> b.tasks[u] == a.tasks[u])
    ensures BooksInv(b) && DailyInv(b)
  {
    OpenIsUnbooked(a, k, cfg);
    forall i | 0 <= i < |b.tables.stages| && b.tables.stages[i].result.Some?
      ensures var id := b.tables.stages[i].tradeId; id in b.booked || id in b.torn || LiveGap(b, id)
    {
      if i != k {
        var id := a.tables.stages[i].tradeId;
        if LiveGap(a, id) {
          var u :| u in a.tasks && InGap(a.tasks[u]) && a.tasks[u].pc.trade == id;
          assert b.tasks[u] == a.tasks[u];
        }
      }
    }
    forall id | ClosedRow(a, id) ensures ClosedRow(b, id) {
      var i :| 0 <= i < |a.tables.stages| && a.tables.stages[i].tradeId == id && a.tables.stages[i].result.Some?;
      assert b.tables.stages[i] == a.tables.stages[i];
    }
    forall d, c ensures Cell(DailyOf(b.tables, d), c) == Sum(b.tables.stages, BookedOn(b.booked, d, c)) {
      SumDiffer(a.tables.stages, b.tables.stages, BookedOn(a.booked, d, c), BookedOn(b.booked, d, c), k);
      assert DailyOf(b.tables, d) == DailyOf(a.tables, d);
    }
  }

  lemma RecordResultStep(w: World, t: nat, cfg: Config)
    returns (w': World, k: nat, r: StageRow)
    requires StageRowsInv(w, cfg) && t in w.tasks && w.tasks[t].Supervisor? && w.tasks[t].pc.RecordResult?
    requires TaskInv(w, w.tasks[t], cfg) && TaskLedger(w, w.tasks[t], cfg)
    ensures
      var s, pc := w.tasks[t].signal, w.tasks[t].pc;
      && w' == DoRecordResult(w, t, pc)
      && k < |w.tables.stages| && w.tables.stages[k].tradeId == pc.trade && w.tables.stages[k].result.None?
      && r.tradeId == pc.trade && r.amount == w.tables.stages[k].amount && r.result == Some(pc.result)
      && r.pnl == Some(StagePnl(r.amount, pc.result))
      && w' == w.(tables := w.tables.(stages := w.tables.stages[k := r]),
                  tasks := w.tasks[t := Supervisor(s,
                      PersistResult(pc.next, pc.trade, pc.result, pc.state.amount, pc.now))])
      && pc.trade.signalId == s.id
      && TaskLedger(w', w'.tasks[t], cfg)
  {
    var s, pc := w.tasks[t].signal, w.tasks[t].pc;
    var pnl := SupervisorPnl(pc.result, pc.state.amount);
    PnlFormulasAgree(pc.result, pc.state.amount);
    assert OpenRow(w, pc.trade) && TradeOf(pc.trade, s, pc.state);
    k :| 0 <= k < |w.tables.stages| && w.tables.stages[k].tradeId == pc.trade && w.tables.stages[k].result.None?;
    r := w.tables.stages[k].(result := Some(pc.result), pnl := Some(pnl), closedAt := Some(pc.now));
    CloseIsUpdateAt(w, pc.trade, k, pc.result, pnl, pc.now, cfg);
    w' := DoRecordResult(w, t, pc);
    SumDiffer(w.tables.stages, w'.tables.stages, OfSignal(s.id), OfSignal(s.id), k);
    assert w'.tables.stages[k] == r;
  }

  lemma RecordResultLedger(w: World, t: nat, o: Oracle, cfg: Config)
    requires OneOwner(w) && LedgerInv(w, cfg) && t in w.tasks && w.tasks[t].Supervisor? && w.tasks[t].pc.RecordResult?
    requires TaskInv(w, w.tasks[t], cfg)
    ensures LedgerInv(DoSupervise(w, t, o, cfg), cfg)
  {
    assert TaskLedger(w, w.tasks[t], cfg);
    var w', k, r := RecordResultStep(w, t, cfg);
    CloseKeepsRows(w, w', k, r, cfg);
    CloseKeepsBooks(w, w', t, k, r, cfg);
    OthersLedgerKept(w, w', t, cfg);
  }

  /** Booking a closed row moves each column of its own date by what the row adds to it. */
  lemma BookMovesCell(t: Tables, r: StageRow, d: int, c: Column)
    requires r.result.Some? && r.pnl.Some?
    ensures
      var date := r.tradeId.signalId.date;
      Cell(DailyOf(BookTrade(t, date, r.result.value, r.pnl.value), d), c)
      == Cell(DailyOf(t, d), c) + if d == date then Contribution(r, c) else 0.0
  {
  }

  lemma BookedOneMore(rows: seq<StageRow>, k: nat, booked: set<TradeId>, d: int, c: Column)
    requires k < |rows| && rows[k].tradeId !in booked
    requires forall i :: 0 <= i < |rows| && i != k ==> rows[i].tradeId != rows[k].tradeId
    ensures Sum(rows, BookedOn(booked + {rows[k].tradeId}, d, c))
            == Sum(rows, BookedOn(booked, d, c)) + if d == rows[k].tradeId.signalId.date
                then Contribution(rows[k], c) else 0.0
  {
    SumDiffer(rows, rows, BookedOn(booked, d, c), BookedOn(booked + {rows[k].tradeId}, d, c), k);
  }

  lemma BookKeepsDaily(a: World, b: World, trade: TradeId, result: StageResult, amount: real, cfg: Config)
    requires StageRowsInv(a, cfg) && DailyInv(a) && trade !in a.booked
    requires ClosedWith(a, trade, result) && amount == AmountForStage(trade.stage, cfg)
    requires b.tables == BookTrade(a.tables, trade.signalId.date, result, StagePnl(amount, result))
    requires b.booked == a.booked + {trade}
    ensures DailyInv(b)
  {
    var k :| 0 <= k < |a.tables.stages| && a.tables.stages[k].tradeId == trade
        && a.tables.stages[k].result == Some(result);
    forall d, c ensures Cell(DailyOf(b.tables, d), c) == Sum(b.tables.stages, BookedOn(b.booked, d, c)) {
      BookMovesCell(a.tables, a.tables.stages[k], d, c);
      BookedOneMore(a.tables.stages, k, a.booked, d, c);
    }
  }

  lemma BookKeepsBooks(a: World, b: World, t: nat, trade: TradeId, result: StageResult)
    requires BooksInv(a) && b.tables.stages == a.tables.stages && b.torn == a.torn && b.booked == a.booked + {trade}
    requires t in a.tasks && InGap(a.tasks[t]) && a.tasks[t].pc.trade == trade && ClosedWith(a, trade, result)
    requires t in b.tasks ==> !InGap(b.tasks[t])
    requires forall u :: u != t ==> (u in a.tasks <==> u in b.tasks) && (u in a.tasks ==> b.tasks[u] == a.tasks[u])
    requires forall u :: u in a.tasks && u != t && InGap(a.tasks[u]) ==> a.tasks[u].pc.trade != trade
    ensures BooksInv(b)
  {
  }

  /** Supervisors in the gap hold closed, distinct trades. */
  predicate GapsProper(w: World) {
    && (forall t :: t in w.tasks && InGap(w.tasks[t]) ==> ClosedRow(w, w.tasks[t].pc.trade))
    && (forall t, u :: t in w.tasks && u in w.tasks && t != u && InGap(w.tasks[t]) && InGap(w.tasks[u]) ==>
          w.tasks[t].pc.trade != w.tasks[u].pc.trade)
  }

  lemma GapsAreProper(w: World, cfg: Config)
    requires OneOwner(w) && forall t :: t in w.tasks ==> TaskLedger(w, w.tasks[t], cfg)
    ensures GapsProper(w)
  {
    forall t | t in w.tasks && InGap(w.tasks[t])
      ensures ClosedRow(w, w.tasks[t].pc.trade) && w.tasks[t].pc.trade.signalId == w.tasks[t].signal.id
    {
      assert TaskLedger(w, w.tasks[t], cfg);
    }
  }

  lemma BookDailyStep(w: World, t: nat, cfg: Config) returns (w': World)
    requires t in w.tasks && w.tasks[t].Supervisor? && w.tasks[t].pc.BookDaily?
    requires TaskLedger(w, w.tasks[t], cfg)
    requires Clock.SignalDate(w.tasks[t].signal.triggerInitial, cfg.utcOffset) == w.tasks[t].signal.id.date
    ensures
      var s, pc := w.tasks[t].signal, w.tasks[t].pc;
      && w' == DoBookDaily(w, t, s, pc, cfg)
      && w'.tables == BookTrade(w.tables, pc.trade.signalId.date, pc.result, StagePnl(pc.amount, pc.result))
      && w'.booked == w.booked + {pc.trade} && w'.torn == w.torn && w'.log == w.log
      && (t in w'.tasks ==> !InGap(w'.tasks[t]) && TaskLedger(w', w'.tasks[t], cfg))
      && (forall u :: u != t ==> (u in w.tasks <==> u in w'.tasks) && (u in w.tasks ==> w'.tasks[u] == w.tasks[u]))
  {
    PnlFormulasAgree(w.tasks[t].pc.result, w.tasks[t].pc.amount);
    w' := DoBookDaily(w, t, w.tasks[t].signal, w.tasks[t].pc, cfg);
  }

  lemma BookDailyLedger(w: World, t: nat, o: Oracle, cfg: Config)
    requires OneOwner(w) && LedgerInv(w, cfg) && t in w.tasks && w.tasks[t].Supervisor? && w.tasks[t].pc.BookDaily?
    requires Clock.SignalDate(w.tasks[t].signal.triggerInitial, cfg.utcOffset) == w.tasks[t].signal.id.date
    ensures LedgerInv(DoSupervise(w, t, o, cfg), cfg)
  {
    var pc := w.tasks[t].pc;
    assert TaskLedger(w, w.tasks[t], cfg);
    GapsAreProper(w, cfg);
    var w' := BookDailyStep(w, t, cfg);
    BookKeepsDaily(w, w', pc.trade, pc.result, pc.amount, cfg);
    BookKeepsBooks(w, w', t, pc.trade, pc.result);
    OthersLedgerKept(w, w', t, cfg);
  }

  lemma SuperviseKeepsLedger(w: World, t: nat, o: Oracle, cfg: Config)
    requires Inv(w, cfg) && LedgerInv(w, cfg) && t in w.tasks && w.tasks[t].Supervisor?
    ensures LedgerInv(DoSupervise(w, t, o, cfg), cfg)
  {
    assert TaskInv(w, w.tasks[t], cfg);
    match w.tasks[t].pc
    case PlaceTrade(_) => PlaceLedger(w, t, o, cfg);
    case RecordPlaced(_, _, _) => RecordPlacedLedger(w, t, o, cfg);
    case RecordResult(_, _, _, _, _) => RecordResultLedger(w, t, o, cfg);
    case BookDaily(_, _, _, _) =>
      SupervisorDate(w, t, cfg);
      BookDailyLedger(w, t, o, cfg);
    case _ => NeutralLedger(w, t, o, cfg);
  }

  // ----- Every other step -----

  /** Steps outside the supervisors write no ledger; a new supervisor owes nothing yet. */
  lemma OutsideFrame(w: World, step: Step, cfg: Config)
    requires Enabled(w, step, cfg) && !step.Supervise? && !step.Die? && !step.Crash?
    ensures
      var w' := Apply(w, step, cfg);
      && SameBooks(w, w') && w'.log == w.log
      && (forall t :: t in w'.tasks ==> (t in w.tasks && w'.tasks[t] == w.tasks[t]) || !InCascade(w'.tasks[t]))
      && (forall t :: t in w.tasks && w.tasks[t].Supervisor? && t < w.nextTask ==>
         t in w'.tasks && w'.tasks[t] == w.tasks[t])
  {
    if step.Recover? {
      RecoverFrame(w, step.oracle, cfg);
    }
  }

  lemma RecoverFrame(w: World, o: Oracle, cfg: Config)
    requires w.phase.Recovering?
    ensures
      var w' := DoRecover(w, o, cfg);
      && SameBooks(w, w') && w'.log == w.log
      && (forall t :: t in w'.tasks ==> (t in w.tasks && w'.tasks[t] == w.tasks[t]) || !InCascade(w'.tasks[t]))
      && (forall t :: t in w.tasks && w.tasks[t].Supervisor? && t < w.nextTask ==>
         t in w'.tasks && w'.tasks[t] == w.tasks[t])
  {
  }

  predicate InCascade(t: Task) { t.Supervisor? && !AtGate(t) }

  lemma OutsideKeepsLedger(w: World, step: Step, cfg: Config)
    requires OneOwner(w) && LedgerInv(w, cfg) && Enabled(w, step, cfg) && !step.Supervise? && !step.Die? && !step.Crash?
    ensures LedgerInv(Apply(w, step, cfg), cfg)
  {
    var w' := Apply(w, step, cfg);
    OutsideFrame(w, step, cfg);
    forall t | t in w'.tasks ensures TaskLedger(w, w'.tasks[t], cfg) {
      assert t in w.tasks ==> TaskLedger(w, w.tasks[t], cfg);
    }
    NeutralStep(w, w', cfg);
  }

  /** Some tasks stop; the trades of those in the gap become torn. */
  predicate Stopped(w: World, w': World) {
    && w'.tables == w.tables && w'.log == w.log && w'.booked == w.booked
    && (forall t :: t in w'.tasks ==> t in w.tasks && w'.tasks[t] == w.tasks[t])
    && w'.torn == w.torn + set t | t in w.tasks && t !in w'.tasks && InGap(w.tasks[t]) :: w.tasks[t].pc.trade
  }

  lemma StopKeepsBooks(w: World, w': World)
    requires BooksInv(w) && GapsProper(w) && Stopped(w, w')
    ensures BooksInv(w')
  {
  }

  /** A supervisor stopped in the gap leaves its trade torn: closed, never booked. */
  lemma StopKeepsLedger(w: World, w': World, cfg: Config)
    requires OneOwner(w) && LedgerInv(w, cfg) && Stopped(w, w')
    ensures LedgerInv(w', cfg)
  {
    forall t | t in w'.tasks ensures TaskLedger(w', w'.tasks[t], cfg) {
      TaskLedgerDepends(w, w', w.tasks[t], cfg);
    }
    GapsAreProper(w, cfg);
    StopKeepsBooks(w, w');
    assert forall d :: DailyOf(w'.tables, d) == DailyOf(w.tables, d);
  }

  lemma DieStops(w: World, t: nat)
    requires t in w.tasks
    ensures Stopped(w, DoDie(w, t))
  {
  }

  lemma CrashStops(w: World)
    ensures Stopped(w, DoCrash(w))
  {
  }

  lemma DieKeepsLedger(w: World, t: nat, cfg: Config)
    requires OneOwner(w) && LedgerInv(w, cfg) && t in w.tasks
    ensures LedgerInv(DoDie(w, t), cfg)
  {
    DieStops(w, t);
    StopKeepsLedger(w, DoDie(w, t), cfg);
  }

  lemma CrashKeepsLedger(w: World, cfg: Config)
    requires OneOwner(w) && LedgerInv(w, cfg)
    ensures LedgerInv(DoCrash(w), cfg)
  {
    CrashStops(w);
    StopKeepsLedger(w, DoCrash(w), cfg);
  }

  lemma StepKeepsLedger(w: World, step: Step, cfg: Config)
    requires Inv(w, cfg) && LedgerInv(w, cfg) && Enabled(w, step, cfg)
    ensures LedgerInv(Apply(w, step, cfg), cfg)
  {
    match step
    case Supervise(t, o) => SuperviseKeepsLedger(w, t, o, cfg);
    case Die(t) => DieKeepsLedger(w, t, cfg);
    case Crash => CrashKeepsLedger(w, cfg);
    case _ => OutsideKeepsLedger(w, step, cfg);
  }

  lemma {:induction false} RunKeepsLedger(w: World, steps: seq<Step>, w': World, cfg: Config)
    requires Inv(w, cfg) && LedgerInv(w, cfg) && Run(w, steps, w', cfg)
    ensures LedgerInv(w', cfg)
    decreases |steps|
  {
    if steps != [] {
      StepKeepsInv(w, steps[0], cfg);
      StepKeepsLedger(w, steps[0], cfg);
      RunKeepsLedger(Apply(w, steps[0], cfg), steps[1..], w', cfg);
    }
  }

  lemma ReachableLedger(w: World, cfg: Config)
    requires Reachable(w, cfg)
    ensures Inv(w, cfg) && LedgerInv(w, cfg)
  {
    var steps :| Run(INIT, steps, w, cfg);
    assert forall d, c :: Cell(DailyOf(INIT.tables, d), c) == 0.0;
    RunKeepsLedger(INIT, steps, w, cfg);
    RunKeepsInv(INIT, steps, w, cfg);
  }

  // ----- The ledger theorems -----

  /** For every date and column: the closed stage rows add up to the daily summary plus the rows
      not booked, and those are exactly the rows a supervisor is about to book or was stopped
      before booking. With no such row on that date, the two ledgers are equal. */
  lemma DailySummaryIsRowSum(w: World, d: int, c: Column, cfg: Config)
    requires Reachable(w, cfg)
    ensures Sum(w.tables.stages, OnDate(d, c))
            == Cell(DailyOf(w.tables, d), c) + Sum(w.tables.stages, UnbookedOn(w.booked, d, c))
    ensures forall i :: 0 <= i < |w.tables.stages| && w.tables.stages[i].result.Some? ==>
              var id := w.tables.stages[i].tradeId;
              (id !in w.booked <==> id in w.torn || LiveGap(w, id)) && !(id in w.torn && LiveGap(w, id))
    ensures (forall id :: id in w.torn || LiveGap(w, id) ==> id.signalId.date != d) ==>
              Sum(w.tables.stages, OnDate(d, c)) == Cell(DailyOf(w.tables, d), c)
  {
    ReachableLedger(w, cfg);
    SumSplit(w.tables.stages, OnDate(d, c), BookedOn(w.booked, d, c), UnbookedOn(w.booked, d, c));
    if forall id :: id in w.torn || LiveGap(w, id) ==> id.signalId.date != d {
      SumSame(w.tables.stages, w.tables.stages, OnDate(d, c), BookedOn(w.booked, d, c));
    }
  }

  /** The broker calls made for one signal, in order. */
  function CallsFor(log: seq<Placement>, id: SignalId): seq<(Stage, real)> {
    if log == [] then []
    else
      var p := log[|log| - 1];
      CallsFor(log[..|log| - 1], id) + if p.signalId == id then [(p.stage, p.amount)] else []
  }

  function Plan(cfg: Config): seq<(Stage, real)> {
    [(Initial, cfg.amountInitial), (Gale1, cfg.amountGale1), (Gale2, cfg.amountGale2)]
  }

  lemma {:induction false} CallsArePrefix(log: seq<Placement>, id: SignalId, cfg: Config)
    requires NoDuplicate(log) && Consecutive(log)
    requires forall i :: 0 <= i < |log| ==> log[i].amount == AmountForStage(log[i].stage, cfg)
    ensures CallsFor(log, id) <= Plan(cfg)
    ensures forall k: nat :: k < 3 ==> (k < |CallsFor(log, id)| <==> IsPlacedIn(log, id, StageAt(k)))
  {
    if log != [] {
      var rest := log[..|log| - 1];
      var p := log[|log| - 1];
      ConsecutivePrefix(log);
      CallsArePrefix(rest, id, cfg);
      LastCall(log, id, cfg);
      if p.signalId == id {
        NextCallFits(rest, p, id, cfg);
      }
    }
  }

  lemma NextCallFits(rest: seq<Placement>, p: Placement, id: SignalId, cfg: Config)
    requires CallsFor(rest, id) <= Plan(cfg) && p.amount == AmountForStage(p.stage, cfg)
    requires forall k: nat :: k < 3 ==> (k < |CallsFor(rest, id)| <==> IsPlacedIn(rest, id, StageAt(k)))
    requires !IsPlacedIn(rest, id, p.stage)
    requires Index(p.stage) > 0 ==> IsPlacedIn(rest, id, StageAt(Index(p.stage) - 1))
    ensures |CallsFor(rest, id)| == Index(p.stage) && CallsFor(rest, id) + [(p.stage, p.amount)] <= Plan(cfg)
  {
    assert StageAt(Index(p.stage)) == p.stage;
    assert Plan(cfg)[Index(p.stage)] == (p.stage, p.amount);
  }

  lemma ConsecutivePrefix(log: seq<Placement>)
    requires log != [] && Consecutive(log)
    ensures Consecutive(log[..|log| - 1])
  {
  }

  lemma LastPlaced(log: seq<Placement>, id: SignalId, stage: Stage)
    requires log != []
    ensures
      var rest, p := log[..|log| - 1], log[|log| - 1];
      IsPlacedIn(log, id, stage) <==> IsPlacedIn(rest, id, stage) || (p.signalId == id && p.stage == stage)
  {
    var rest := log[..|log| - 1];
    if IsPlacedIn(rest, id, stage) {
      var i :| 0 <= i < |rest| && rest[i].signalId == id && rest[i].stage == stage;
      assert log[i] == rest[i];
    }
    if IsPlacedIn(log, id, stage) {
      var i :| 0 <= i < |log| && log[i].signalId == id && log[i].stage == stage;
      assert i < |rest| ==> rest[i] == log[i];
    }
  }

  lemma LastIsFirst(log: seq<Placement>)
    requires log != [] && NoDuplicate(log)
    ensures !IsPlacedIn(log[..|log| - 1], log[|log| - 1].signalId, log[|log| - 1].stage)
  {
  }

  lemma LastIsPreceded(log: seq<Placement>)
    requires log != [] && Consecutive(log) && Index(log[|log| - 1].stage) > 0
    ensures var p := log[|log| - 1];
            IsPlacedIn(log[..|log| - 1], p.signalId, StageAt(Index(p.stage) - 1))
  {
    var rest, p := log[..|log| - 1], log[|log| - 1];
    var j :| 0 <= j < |log| - 1 && log[j].signalId == p.signalId && Index(log[j].stage) == Index(p.stage) - 1;
    assert rest[j] == log[j] && rest[j].stage == StageAt(Index(p.stage) - 1);
  }

  lemma LastCall(log: seq<Placement>, id: SignalId, cfg: Config)
    requires log != [] && NoDuplicate(log) && Consecutive(log)
    ensures
      var rest, p := log[..|log| - 1], log[|log| - 1];
      && (forall stage :: IsPlacedIn(log, id, stage) <==>
         IsPlacedIn(rest, id, stage) || (p.signalId == id && p.stage == stage))
      && (p.signalId == id ==> !IsPlacedIn(rest, id, p.stage))
      && (p.signalId == id && Index(p.stage) > 0 ==> IsPlacedIn(rest, id, StageAt(Index(p.stage) - 1)))
  {
    LastPlaced(log, id, Initial);
    LastPlaced(log, id, Gale1);
    LastPlaced(log, id, Gale2);
    LastIsFirst(log);
    if Index(log[|log| - 1].stage) > 0 {
      LastIsPreceded(log);
    }
  }

  /** For every signal, in every reachable state, the calls made to the broker are a prefix of
      (initial, a0), (gale1, a1), (gale2, a2): in order, no gap, no repeat, right stakes. */
  lemma CallsFollowPlan(w: World, id: SignalId, cfg: Config)
    requires Reachable(w, cfg)
    ensures CallsFor(w.log, id) <= Plan(cfg)
  {
    ReachableLedger(w, cfg);
    CallsArePrefix(w.log, id, cfg);
  }

  /** The defensive branches of the driver are dead: every transition it asks for is accepted, and
      no stage row ever collides, so `StageAlreadyExistsError` is never raised. */
  lemma DefensiveBranchesUnreachable(w: World, t: nat, now: real, result: StageResult, cfg: Config)
    requires Reachable(w, cfg) && t in w.tasks && w.tasks[t].Supervisor?
    ensures
      var s := w.tasks[t].signal;
      match w.tasks[t].pc
      case AwaitFire(st) => st.status == Pending ==> Transition(st, FireEvent(now), cfg).Accepted?
      case PlaceTrade(st) => st.stage.Some? && Transition(st, ResultEvent(Failed, now), cfg).Accepted?
      case RecordPlaced(st, placedAt, brokerId) =>
        st.stage.Some?
        && RecordStagePlaced(w.tables, TradeId(s.id, st.stage.value, placedAt), st.amount, st.expiresAt, brokerId).Some?
      case AwaitResult(st, _, _) => Transition(st, ResultEvent(result, now), cfg).Accepted?
      case _ => true
  {
    ReachableLedger(w, cfg);
    assert TaskInv(w, w.tasks[t], cfg) && TaskLedger(w, w.tasks[t], cfg);
    var s := w.tasks[t].signal;
    match w.tasks[t].pc
    case AwaitFire(st) => TransitionKeepsInv(st, FireEvent(now), s, cfg);
    case PlaceTrade(st) => TransitionKeepsInv(st, ResultEvent(Failed, now), s, cfg);
    case AwaitResult(st, _, _) => TransitionKeepsInv(st, ResultEvent(result, now), s, cfg);
    case RecordPlaced(st, placedAt, _) =>
      assert !HasTrade(w.tables.stages, TradeId(s.id, st.stage.value, placedAt));
    case _ =>
  }
}
