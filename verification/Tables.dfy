/** The three persisted tables of `infra/state_store.py` and the meaning of each SQL statement. */
module Tables {
  import opened Gale
  import opened StateMachine

  datatype SignalRow = SignalRow(signal: Signal, status: Status, errorReason: Option<ErrorReason>, updatedAt: real)

  /** The hash of (signal, stage, placement time) that keys the `stages` table. */
  datatype TradeId = TradeId(signalId: SignalId, stage: Stage, placedAt: real)

  /** The id a dry-run broker hands out: prefix, signal, stage and a random suffix. */
  datatype BrokerTradeId = BrokerTradeId(signalId: SignalId, stage: Stage, suffix: int)

  datatype StageRow = StageRow(
    tradeId: TradeId,
    amount: real,
    expiresAt: real,
    brokerTradeId: BrokerTradeId,
    result: Option<StageResult>,  // None is the column value 'open'
    pnl: Option<real>,
    closedAt: Option<real>
  )

  datatype DailyRow = DailyRow(trades: int, wins: int, losses: int, realizedPnl: real)

  /** `stages` keeps its rows in insertion order; the other two are keyed by primary key. */
  datatype Tables = Tables(
    signals: map<SignalId, SignalRow>,
    stages: seq<StageRow>,
    daily: map<int, DailyRow>
  )

  const EMPTY: Tables := Tables(map[], [], map[])

  /** INSERT ... ON CONFLICT DO NOTHING; the flag says whether a row was inserted. */
  function UpsertSignal(t: Tables, signal: Signal): (Tables, bool) {
    if signal.id in t.signals then (t, false)
    else (t.(signals := t.signals[signal.id := SignalRow(signal, Pending, None, signal.receivedAt)]), true)
  }

  /** Unconditional UPDATE; a missing row is a no-op. */
  function UpdateSignalState(t: Tables, id: SignalId, status: Status, reason: Option<ErrorReason>, now: real): Tables {
    if id !in t.signals then t
    else t.(signals := t.signals[id := t.signals[id].(status := status, errorReason := reason, updatedAt := now)])
  }

  predicate HasTrade(rows: seq<StageRow>, id: TradeId) {
    exists i :: 0 <= i < |rows| && rows[i].tradeId == id
  }

  /** INSERT of an open row; None is the `StageAlreadyExistsError` raised on a key conflict. */
  function RecordStagePlaced(
      t: Tables, id: TradeId, amount: real, expiresAt: real, brokerId: BrokerTradeId): Option<Tables> {
    if HasTrade(t.stages, id) then None
    else Some(t.(stages := t.stages + [StageRow(id, amount, expiresAt, brokerId, None, None, None)]))
  }

  /** UPDATE ... WHERE trade_id. */
  function RecordStageResult(t: Tables, id: TradeId, result: StageResult, pnl: real, now: real): Tables {
    t.(stages := seq(|t.stages|, (i: nat) requires i < |t.stages| =>
                       if t.stages[i].tradeId == id
                       then t.stages[i].(result := Some(result), pnl := Some(pnl), closedAt := Some(now))
                       else t.stages[i]))
  }

  function DailyOf(t: Tables, date: int): DailyRow {
    if date in t.daily then t.daily[date] else DailyRow(0, 0, 0, 0.0)
  }

  /** UPSERT with additive deltas, for one closed trade. */
  function BookTrade(t: Tables, date: int, result: StageResult, pnl: real): Tables {
    var d := DailyOf(t, date);
    t.(daily := t.daily[date := DailyRow(
                          d.trades + 1,
                          d.wins + (if result == Win then 1 else 0),
                          d.losses + (if LossLike(result) then 1 else 0),
                          d.realizedPnl + pnl)])
  }

  /** What the recovery query returns: every placed row once, ordered by trigger. */
  predicate IsActiveSnapshot(t: Tables, rows: seq<SignalRow>) {
    && (forall i :: 0 <= i < |rows| ==>
          rows[i].signal.id in t.signals && rows[i] == t.signals[rows[i].signal.id] && IsPlaced(rows[i].status))
    && (forall i, j :: 0 <= i < j < |rows| ==>
          rows[i].signal.id != rows[j].signal.id && rows[i].signal.triggerInitial <= rows[j].signal.triggerInitial)
    && (forall id :: id in t.signals && IsPlaced(t.signals[id].status) ==>
       exists i :: 0 <= i < |rows| && rows[i].signal.id == id)
  }

  datatype LimitType = LossLimit | CountLimit | DrawdownLimit

  /** `_check_daily_limit`: a day without a row, and a limit of zero, never reject. */
  function LimitHit(t: Tables, date: int, cfg: Config): Option<LimitType> {
    if date !in t.daily then None
    else
      var d := t.daily[date];
      if cfg.dailyLossLimit > 0.0 && d.realizedPnl <= -cfg.dailyLossLimit then Some(LossLimit)
      else if cfg.dailyTradeLimit > 0 && d.trades >= cfg.dailyTradeLimit then Some(CountLimit)
      else if cfg.dailyDrawdownPct > 0 && d.realizedPnl <= -DrawdownThreshold(cfg) then Some(DrawdownLimit)
      else None
  }

  /** A percentage of the opening balance, or plain currency units when there is no balance. */
  function DrawdownThreshold(cfg: Config): real {
    match cfg.startOfDayBalance
    case Some(b) => b * cfg.dailyDrawdownPct as real / 100.0
    case None => cfg.dailyDrawdownPct as real
  }
}
