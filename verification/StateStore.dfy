/** `infra/state_store.py` as an object: each method is one SQL statement, and may raise instead. */
module StateStores {
  import opened Gale
  import opened StateMachine
  import opened Tables
  import Sql = Tables

  /** What an awaited call comes back with: normally, or by an exception. */
  datatype Outcome = Ok | Raised {
    predicate IsFailure() { Raised? }
    function PropagateFailure(): Outcome
      requires Raised?
    {
      Raised
    }
  }

  /** Position of a row in a list ordered by trigger. */
  function InsertByTrigger(rows: seq<SignalRow>, row: SignalRow): seq<SignalRow> {
    if rows == [] || row.signal.triggerInitial <= rows[0].signal.triggerInitial then [row] + rows
    else [rows[0]] + InsertByTrigger(rows[1..], row)
  }

  /** Ordered by trigger, each signal once. */
  predicate Listed(rows: seq<SignalRow>) {
    forall i, j :: 0 <= i < j < |rows| ==>
      rows[i].signal.triggerInitial <= rows[j].signal.triggerInitial && rows[i].signal.id != rows[j].signal.id
  }

  lemma {:induction false} InsertHolds(rows: seq<SignalRow>, row: SignalRow)
    ensures forall r :: r in InsertByTrigger(rows, row) <==> r in rows || r == row
  {
    if !(rows == [] || row.signal.triggerInitial <= rows[0].signal.triggerInitial) {
      InsertHolds(rows[1..], row);
      assert rows == [rows[0]] + rows[1..];
    }
  }

  lemma {:induction false} InsertKeepsListed(rows: seq<SignalRow>, row: SignalRow)
    requires Listed(rows) && forall r :: r in rows ==> r.signal.id != row.signal.id
    ensures Listed(InsertByTrigger(rows, row))
  {
    if !(rows == [] || row.signal.triggerInitial <= rows[0].signal.triggerInitial) {
      InsertKeepsListed(rows[1..], row);
      InsertHolds(rows[1..], row);
      var tail := InsertByTrigger(rows[1..], row);
      forall j | 0 <= j < |tail|
        ensures rows[0].signal.triggerInitial <= tail[j].signal.triggerInitial && rows[0].signal.id != tail[j].signal.id
      {
        assert tail[j] in tail;
      }
    }
  }

  /** The summary after one more closed trade, column by column. */
  lemma BookingSpelled(t: Tables, date: int, result: StageResult, pnl: real)
    ensures var was := if date in t.daily then t.daily[date] else DailyRow(0, 0, 0, 0.0);
            Sql.BookTrade(t, date, result, pnl)
            == t.(daily := t.daily[date := DailyRow(
                                     was.trades + 1,
                                     was.wins + (if result == Win then 1 else 0),
                                     was.losses + (if result == Win || result == Failed then 0 else 1),
                                     was.realizedPnl + pnl)])
  {
    assert LossLike(result) <==> !(result == Win || result == Failed);
  }

  class StateStore {
    var signals: map<SignalId, SignalRow>
    var stages: seq<StageRow>
    var daily: map<int, DailyRow>

    function Contents(): Tables
      reads this
    {
      Tables(signals, stages, daily)
    }

    constructor ()
      ensures Contents() == EMPTY
    {
      signals, stages, daily := map[], [], map[];
    }

    method UpsertSignal(signal: Signal) returns (r: Outcome, inserted: bool)
      modifies this
      ensures r.Ok? ==> (Contents(), inserted) == Sql.UpsertSignal(old(Contents()), signal)
      ensures r.Raised? ==> Contents() == old(Contents())
      ensures r.Ok? ==> (inserted <==> signal.id !in old(signals))
      ensures r.Ok? && inserted ==>
                signals == old(signals)[signal.id := SignalRow(signal, Pending, None, signal.receivedAt)]
      ensures !(r.Ok? && inserted) ==> signals == old(signals)
      ensures stages == old(stages) && daily == old(daily)
    {
      if * {
        return Raised, false;
      }
      inserted := signal.id !in signals;
      if inserted {
        signals := signals[signal.id := SignalRow(signal, Pending, None, signal.receivedAt)];
      }
      r := Ok;
    }

    method UpdateSignalState(id: SignalId, status: Status, reason: Option<ErrorReason>, now: real) returns (r: Outcome)
      modifies this`signals
      ensures Contents() == if r.Ok? then Sql.UpdateSignalState(old(Contents()), id, status, reason, now)
                            else old(Contents())
      ensures signals.Keys == old(signals).Keys && forall i :: i in signals && i != id ==> signals[i] == old(signals)[i]
      ensures r.Ok? && id in signals ==> signals[id] == SignalRow(old(signals)[id].signal, status, reason, now)
    {
      if * {
        return Raised;
      }
      if id in signals {
        signals := signals[id := signals[id].(status := status, errorReason := reason, updatedAt := now)];
      }
      r := Ok;
    }

    /** Raises on a key conflict too. */
    method RecordStagePlaced(id: TradeId, amount: real, expiresAt: real, brokerId: BrokerTradeId) returns (r: Outcome)
      modifies this`stages
      ensures var t := Sql.RecordStagePlaced(old(Contents()), id, amount, expiresAt, brokerId);
              if r.Ok? then t == Some(Contents()) else Contents() == old(Contents())
      ensures r.Ok? ==> stages == old(stages) + [StageRow(id, amount, expiresAt, brokerId, None, None, None)]
      ensures r.Ok? ==> forall k :: 0 <= k < |old(stages)| ==> old(stages)[k].tradeId != id
    {
      if * {
        return Raised;
      }
      if HasTrade(stages, id) {
        return Raised;
      }
      stages := stages + [StageRow(id, amount, expiresAt, brokerId, None, None, None)];
      r := Ok;
    }

    method RecordStageResult(id: TradeId, result: StageResult, pnl: real, now: real) returns (r: Outcome)
      modifies this`stages
      ensures Contents() == if r.Ok? then Sql.RecordStageResult(old(Contents()), id, result, pnl, now)
                            else old(Contents())
      ensures |stages| == |old(stages)| && forall i :: 0 <= i < |stages| ==>
                var was := old(stages)[i];
                stages[i] == if r.Ok? && was.tradeId == id
                             then StageRow(id, was.amount, was.expiresAt, was.brokerTradeId,
                                           Some(result), Some(pnl), Some(now))
                             else was
    {
      if * {
        return Raised;
      }
      var was := stages;
      stages := seq(|was|, (i: nat) requires i < |was| =>
                      if was[i].tradeId == id
                      then was[i].(result := Some(result), pnl := Some(pnl), closedAt := Some(now)) else was[i]);
      r := Ok;
    }

    method BookTrade(date: int, result: StageResult, pnl: real) returns (r: Outcome)
      modifies this`daily
      ensures Contents() == if r.Ok? then Sql.BookTrade(old(Contents()), date, result, pnl) else old(Contents())
      ensures forall d :: d != date ==> DailyOf(Contents(), d) == DailyOf(old(Contents()), d)
    {
      if * {
        return Raised;
      }
      var d := if date in daily then daily[date] else DailyRow(0, 0, 0, 0.0);
      var wins := if result == Win then 1 else 0;
      var losses := if LossLike(result) then 1 else 0;
      daily := daily[date := DailyRow(d.trades + 1, d.wins + wins, d.losses + losses, d.realizedPnl + pnl)];
      r := Ok;
    }

    /** Every placed row, once, ordered by trigger. */
    method GetActiveSignals() returns (r: Outcome, rows: seq<SignalRow>)
      requires forall id :: id in signals ==> signals[id].signal.id == id
      ensures r.Ok? ==> IsActiveSnapshot(Contents(), rows)
      ensures r.Ok? ==> forall id :: id in signals ==>
                (signals[id] in rows <==> signals[id].status in {PlacedInitial, PlacedGale1, PlacedGale2})
    {
      rows := [];
      if * {
        return Raised, rows;
      }
      var todo := set id | id in signals && IsPlaced(signals[id].status);
      while todo != {}
        invariant todo <= signals.Keys && forall id :: id in todo ==> IsPlaced(signals[id].status)
        invariant Listed(rows)
        invariant forall row :: row in rows ==>
                    var id := row.signal.id;
                    id in signals && id !in todo && row == signals[id] && IsPlaced(row.status)
        invariant forall id :: id in signals && IsPlaced(signals[id].status) ==> id in todo || signals[id] in rows
      {
        var id :| id in todo;
        InsertHolds(rows, signals[id]);
        InsertKeepsListed(rows, signals[id]);
        rows := InsertByTrigger(rows, signals[id]);
        todo := todo - {id};
      }
      assert forall i :: 0 <= i < |rows| ==> rows[i] in rows;
      r := Ok;
    }
  }
}
