/** The per-signal coroutine of `scheduler/trigger.py`, statement by statement: between two awaits
    it does exactly one step of the protocol, whatever the other coroutines did meanwhile. It gives
    up (`Raised`) only when the last thing it heard is an exception. */
module Supervisors {
  import opened Gale
  import opened StateMachine
  import opened Tables
  import opened Protocol
  import opened Safety
  import opened Guarantees
  import opened Ledger
  import opened Timing
  import opened StateStores
  import opened DryRunBrokers
  import opened Endings
  import opened Copiers
  import opened Diaries
  import Clock

  /** What the daily limits say of a day's summary: no answer means every limit that is on is
      respected; an answer is the first, in order, that is not. */
  predicate LimitAnswer(day: Option<DailyRow>, hit: Option<LimitType>, cfg: Config) {
    match day
    case None => hit == None
    case Some(d) =>
      var loss := cfg.dailyLossLimit > 0.0 && d.realizedPnl <= -cfg.dailyLossLimit;
      var count := cfg.dailyTradeLimit > 0 && d.trades >= cfg.dailyTradeLimit;
      var drawdown := cfg.dailyDrawdownPct > 0
                      && match cfg.startOfDayBalance
                         case Some(balance) => d.realizedPnl <= -(balance * cfg.dailyDrawdownPct as real / 100.0)
                         case None => d.realizedPnl <= -(cfg.dailyDrawdownPct as real);
      match hit
      case None => !loss && !count && !drawdown
      case Some(LossLimit) => loss
      case Some(CountLimit) => count && !loss
      case Some(DrawdownLimit) => drawdown && !loss && !count
  }

  /** A stored row with another status, reason and time. */
  function Rewritten(
      row: Option<SignalRow>, status: Status, reason: Option<ErrorReason>, now: real): Option<SignalRow>
  {
    match row
    case None => None
    case Some(r) => Some(SignalRow(r.signal, status, reason, now))
  }

  /** How a trade was waited for: since when, what ended the wait, the result, and when it was applied. */
  datatype Wait = Wait(from: real, answer: Happening, result: StageResult, now: real)

  /** The result is what the broker answered, or a timeout rung by a timer set 30 s past the trade's
      expiry, and never for less than 0.1 s. */
  predicate Faithful(wait: Wait, expiresAt: real) {
    match wait.answer
    case Answered(result) => wait.result == result
    case Rang(timer) =>
      && wait.result == Timeout && timer.start == wait.from
      && timer.timeout == if expiresAt - wait.from + 30.0 < 0.1 then 0.1 else expiresAt - wait.from + 30.0
    case _ => false
  }

  /** One stage as its coroutine lives it: traded, or refused for its pair. */
  datatype Tale =
    | Traded(placedAt: real, id: BrokerTradeId, wait: Wait)
    | Unsupported(placedAt: real, now: real)
  {
    function Event(): Event {
      if Traded? then ResultEvent(wait.result, wait.now) else ResultEvent(Failed, now)
    }

    /** What has been heard once it is over. */
    function HeardAfter(heard: seq<Happening>, stage: Stage, amount: real): seq<Happening> {
      match this
      case Traded(_, id, wait) =>
        heard + [Slept] + [Read(placedAt)] + [Called(stage, amount, Filled(id))]
        + [Slept] + [Slept] + [Read(wait.from)] + [Slept] + [wait.answer]
        + [Read(wait.now)] + [Slept] + [Slept] + [Slept]
      case Unsupported(_, _) =>
        heard + [Slept] + [Read(placedAt)] + [Called(stage, amount, PairUnavailable)] + [Slept] + [Read(now)] + [Slept]
    }
  }

  /** A stage tells the machine of its result and of nothing else. */
  lemma TaleTold(tale: Tale, heard: seq<Happening>, stage: Stage, amount: real, expiresAt: real)
    requires Expects(heard) == Nothing && (tale.Traded? ==> Faithful(tale.wait, expiresAt))
    ensures var all := tale.HeardAfter(heard, stage, amount);
            Told(all) == Told(heard) + [tale.Event()] && Expects(all) == Nothing
  {
    if tale.Traded? {
      var placed := PlacingTold(heard, tale.placedAt, stage, amount, Filled(tale.id));
      WaitTold(placed, tale.wait, expiresAt);
    } else {
      var refused := PlacingTold(heard, tale.placedAt, stage, amount, PairUnavailable);
      RefusalTold(refused, tale.now);
    }
  }

  lemma WaitTold(heard: seq<Happening>, wait: Wait, expiresAt: real)
    requires Expects(heard) == Nothing && Faithful(wait, expiresAt)
    ensures var all := heard + [Slept] + [Slept] + [Read(wait.from)] + [Slept] + [wait.answer]
                       + [Read(wait.now)] + [Slept] + [Slept] + [Slept];
            Told(all) == Told(heard) + [ResultEvent(wait.result, wait.now)] && Expects(all) == Nothing
  {
    var h := SilentTold(heard, Slept);
    h := SilentTold(h, Slept);
    h := SilentTold(h, Read(wait.from));
    h := SilentTold(h, Slept);
    h := ResultTold(h, wait.answer, wait.now);
    h := SilentTold(h, Slept);
    h := SilentTold(h, Slept);
    h := SilentTold(h, Slept);
  }

  lemma RefusalTold(heard: seq<Happening>, now: real)
    requires Expects(heard) == AResult(Failed)
    ensures var all := heard + [Slept] + [Read(now)] + [Slept];
            Told(all) == Told(heard) + [ResultEvent(Failed, now)] && Expects(all) == Nothing
  {
    OneMore(heard, Slept);
    OneMore(heard + [Slept], Read(now));
    var h := SilentTold(heard + [Slept] + [Read(now)], Slept);
  }

  /** Nothing was expected, and this says nothing. */
  lemma SilentTold(heard: seq<Happening>, a: Happening) returns (all: seq<Happening>)
    requires Expects(heard) == Nothing && (a.Slept? || a.SleptUntil? || a.Read?)
    ensures all == heard + [a] && Told(all) == Told(heard) && Expects(all) == Nothing
  {
    all := heard + [a];
    OneMore(heard, a);
  }

  lemma PlacingTold(heard: seq<Happening>, placedAt: real, stage: Stage, amount: real, reply: PlaceReply)
    returns (all: seq<Happening>)
    requires Expects(heard) == Nothing
    ensures all == heard + [Slept] + [Read(placedAt)] + [Called(stage, amount, reply)]
    ensures Told(all) == Told(heard) && Expects(all) == if reply.PairUnavailable? then AResult(Failed) else Nothing
  {
    all := SilentTold(heard, Slept);
    all := SilentTold(all, Read(placedAt));
    OneMore(all, Called(stage, amount, reply));
    all := all + [Called(stage, amount, reply)];
  }

  lemma ResultTold(heard: seq<Happening>, answer: Happening, now: real) returns (all: seq<Happening>)
    requires Expects(heard) == Nothing && (answer.Answered? || answer.Rang?)
    ensures all == heard + [answer] + [Read(now)] && Expects(all) == Nothing
    ensures Told(all) == Told(heard) + [ResultEvent(if answer.Answered? then answer.result else Timeout, now)]
  {
    OneMore(heard, answer);
    OneMore(heard + [answer], Read(now));
    all := heard + [answer] + [Read(now)];
  }

  /** The fire's reading, and not the stamp of its write, is what the machine is told. */
  lemma FireTold(heard: seq<Happening>, target: real, reading: real, stamp: real)
    requires Expects(heard) == TheFire
    ensures var all := heard + [SleptUntil(target)] + [Read(reading)] + [Read(stamp)] + [Slept];
            Told(all) == Told(heard) + [FireEvent(reading)] && Expects(all) == Nothing
  {
    OneMore(heard, SleptUntil(target));
    OneMore(heard + [SleptUntil(target)], Read(reading));
    var h := SilentTold(heard + [SleptUntil(target)] + [Read(reading)], Read(stamp));
    h := SilentTold(h, Slept);
  }

  /** The state is the machine's, run from its start over everything heard so far. While pending it
      still expects the fire; afterwards it was told of the fire and of one result for each call. */
  ghost predicate Follows(state: SignalState, calls: nat, signal: Signal, heard: seq<Happening>, cfg: Config) {
    && state == Fold(FromSignal(signal, cfg), Told(heard), cfg)
    && if state.status == Pending then Expects(heard) == TheFire && |Told(heard)| == calls == 0
       else Expects(heard) == Nothing && |Told(heard)| == 1 + calls
  }

  lemma FoldOneMore(s: SignalState, events: seq<Event>, e: Event, cfg: Config)
    ensures Fold(s, events + [e], cfg) == Next(Fold(s, events, cfg), e, cfg)
  {
    FoldAppend(s, events, [e], cfg);
    assert [e][1..] == [];
  }

  /** Two awaits say nothing to the machine. */
  lemma NothingHeard(signal: Signal, heard: seq<Happening>, cfg: Config)
    requires heard == [Slept, Slept]
    ensures Follows(FromSignal(signal, cfg), 0, signal, heard, cfg)
  {
    OneMore([], Slept);
    OneMore([Slept], Slept);
    assert [] + [Slept] == [Slept] && [Slept] + [Slept] == [Slept, Slept];
  }

  lemma FireFollows(
      state: SignalState, fired: SignalState, calls: nat, signal: Signal, heard: seq<Happening>,
      target: real, reading: real, stamp: real, cfg: Config)
    requires Follows(state, calls, signal, heard, cfg) && fired.status != Pending
    requires fired == if state.status == Pending then Next(state, FireEvent(reading), cfg) else state
    ensures var all := if state.status == Pending
                       then heard + [SleptUntil(target)] + [Read(reading)] + [Read(stamp)] + [Slept]
                       else heard + [SleptUntil(target)];
            Follows(fired, calls, signal, all, cfg)
  {
    if state.status == Pending {
      FireTold(heard, target, reading, stamp);
      FoldOneMore(FromSignal(signal, cfg), Told(heard), FireEvent(reading), cfg);
    } else {
      var all := SilentTold(heard, SleptUntil(target));
    }
  }

  lemma StageFollows(
      state: SignalState, next: SignalState, calls: nat, signal: Signal, heard: seq<Happening>, tale: Tale, cfg: Config)
    requires Follows(state, calls, signal, heard, cfg) && state.status != Pending && next.status != Pending
    requires state.stage.Some? && (tale.Traded? ==> Faithful(tale.wait, state.expiresAt))
    requires next == Next(state, tale.Event(), cfg)
    ensures var all := tale.HeardAfter(heard, state.stage.value, state.amount);
            Follows(next, calls + 1, signal, all, cfg)
  {
    TaleTold(tale, heard, state.stage.value, state.amount, state.expiresAt);
    FoldOneMore(FromSignal(signal, cfg), Told(heard), tale.Event(), cfg);
  }

  function DayOf(t: Tables, date: int): Option<DailyRow> {
    if date in t.daily then Some(t.daily[date]) else None
  }

  /** A day's summary with one more closed trade: 92 hundredths of the stake won, or all of it lost, or
      nothing when the broker failed. */
  predicate OneTradeMore(before: Option<DailyRow>, after: Option<DailyRow>, result: StageResult, amount: real) {
    var was := if before.Some? then before.value else DailyRow(0, 0, 0, 0.0);
    && after.Some? && after.value.trades == was.trades + 1
    && match result
       case Win =>
         && after.value.wins == was.wins + 1 && after.value.losses == was.losses
         && after.value.realizedPnl == was.realizedPnl + amount * 0.92
       case Failed =>
         after.value.wins == was.wins && after.value.losses == was.losses && after.value.realizedPnl == was.realizedPnl
       case _ =>
         && after.value.wins == was.wins && after.value.losses == was.losses + 1
         && after.value.realizedPnl == was.realizedPnl - amount
  }

  lemma BookingAdds(t: Tables, date: int, result: StageResult, amount: real)
    ensures OneTradeMore(DayOf(t, date), DayOf(BookTrade(t, date, result, SupervisorPnl(result, amount)), date),
                         result, amount)
  {
  }

  /** Closing by key closes this row. */
  lemma RowClosed(t: Tables, row: StageRow, result: StageResult, pnl: real, now: real)
    requires row in t.stages
    ensures StageRow(row.tradeId, row.amount, row.expiresAt, row.brokerTradeId, Some(result), Some(pnl), Some(now))
            in RecordStageResult(t, row.tradeId, result, pnl, now).stages
  {
    var k :| 0 <= k < |t.stages| && t.stages[k] == row;
    assert RecordStageResult(t, row.tradeId, result, pnl, now).stages[k].result == Some(result);
  }

  /** What becomes of a supervisor that meets no exception. */
  datatype Fate = TurnedAway(limit: LimitType, stamp: real) | TakenBefore | Driven(calls: seq<(Stage, real)>)

  class SignalSupervisor {
    const copier: Copier
    const signal: Signal
    const me: nat
    const diary: Diary

    constructor (copier: Copier, signal: Signal, me: nat)
      ensures this.copier == copier && this.signal == signal && this.me == me
      ensures fresh(diary) && diary.heard == []
    {
      this.copier, this.signal, this.me := copier, signal, me;
      diary := new Diary();
    }

    /** Suspended at pc, in a reachable world. */
    ghost predicate At(pc: Pc)
      reads copier, copier.store, copier.broker
    {
      copier.Valid() && me in copier.tasks && copier.tasks[me] == Supervisor(signal, pc)
    }

    /** Broker calls made so far for this signal. */
    ghost function Calls(): seq<(Stage, real)>
      reads copier
    {
      CallsFor(copier.log, signal.id)
    }

    /** The stored row of this signal. */
    ghost function Row(): Option<SignalRow>
      reads copier.store
    {
      if signal.id in copier.store.signals then Some(copier.store.signals[signal.id]) else None
    }

    /** The stored row of this signal has a terminal status. */
    ghost predicate Finished()
      reads copier.store
    {
      Row().Some? && IsTerminal(Row().value.status)
    }

    /** The stored row shows the machine's state. */
    ghost predicate Shown(state: SignalState)
      reads copier.store
    {
      Row().Some? && Row().value.status == state.status && Row().value.errorReason == state.errorReason
    }

    /** The summary of the signal's date. */
    ghost function Day(w: World): Option<DailyRow> {
      DayOf(w.tables, Clock.SignalDate(signal.triggerInitial, copier.cfg.utcOffset))
    }

    /** A supervisor's signal is stored. */
    lemma OwnRowStored()
      requires copier.Valid() && me in copier.tasks && copier.tasks[me].Supervisor? && copier.tasks[me].signal == signal
      ensures Row().Some? && Row().value.signal == signal
    {
      var w := copier.State();
      ReachableInv(w, copier.cfg);
      assert TaskInv(w, w.tasks[me], copier.cfg);
    }

    method Goto(pc: Pc)
      requires me in copier.tasks && copier.tasks[me].Supervisor? && copier.tasks[me].signal == signal
      modifies copier`tasks
      ensures copier.tasks == old(copier.tasks)[me := Supervisor(signal, pc)]
    {
      copier.tasks := copier.tasks[me := Supervisor(signal, pc)];
    }

    method Exit()
      modifies copier`tasks
      ensures copier.tasks == old(copier.tasks) - {me}
    {
      copier.tasks := copier.tasks - {me};
    }

    method Await()
      requires copier.Valid() && me in copier.tasks && copier.tasks[me].Supervisor? && copier.tasks[me].signal == signal
      modifies copier, copier.store, copier.broker, diary
      ensures copier.Valid() && Reaches(old(copier.State()), copier.State(), copier.cfg)
      ensures me in copier.tasks && copier.tasks[me] == old(copier.tasks[me]) && Calls() == old(Calls())
      ensures Row() == old(Row()) && Row().Some? && SameStages(old(copier.State()), copier.State(), signal.id)
      ensures diary.heard == old(diary.heard) + [Slept]
    {
      OwnRowStored();
      copier.Await(TaskActor(me));
      diary.Sleep();
    }

    /** The loop's timer for a wall-clock instant; others run meanwhile. */
    method AwaitUntil(target: real)
      requires copier.Valid() && me in copier.tasks && copier.tasks[me].Supervisor? && copier.tasks[me].signal == signal
      modifies copier, copier.store, copier.broker, diary
      ensures copier.Valid() && Reaches(old(copier.State()), copier.State(), copier.cfg)
      ensures me in copier.tasks && copier.tasks[me] == old(copier.tasks[me]) && Calls() == old(Calls())
      ensures Row() == old(Row()) && Row().Some? && SameStages(old(copier.State()), copier.State(), signal.id)
      ensures diary.heard == old(diary.heard) + [SleptUntil(target)]
    {
      OwnRowStored();
      copier.Await(TaskActor(me));
      diary.SleepUntil(target);
    }

    /** Gone, or still listed for the exception handler to remove. */
    ghost predicate Stopped()
      reads copier
    {
      me in copier.tasks ==> copier.tasks[me].Supervisor? && copier.tasks[me].signal == signal
    }

    /** Never raises: an exception ends the coroutine where it stands. */
    method Run()
      requires At(CheckLimit) && diary.heard == []
      modifies copier, copier.store, copier.broker, diary
      ensures copier.Valid() && Reaches(old(copier.State()), copier.State(), copier.cfg)
      ensures me !in copier.tasks && Calls() <= Plan(copier.cfg)
    {
      ghost var start := copier.State();
      var r;
      ghost var fate, checked;
      r, fate, checked := RunInner();
      ghost var w := copier.State();
      if r.Raised? && me in copier.tasks {
        if InGap(copier.tasks[me]) {
          copier.torn := copier.torn + {copier.tasks[me].pc.trade};
        }
        Exit();
        copier.Took(w, Die(me));
        ReachesTransitive(start, w, copier.State(), copier.cfg);
      }
      CallsFollowPlan(copier.State(), signal.id, copier.cfg);
    }

    /** Every limit that is switched on is respected by the day's summary, or the answer names the
        first that is not. */
    method CheckDailyLimit() returns (hit: Option<LimitType>)
      ensures hit == LimitHit(copier.store.Contents(), Clock.SignalDate(signal.triggerInitial, copier.cfg.utcOffset),
              copier.cfg)
      ensures LimitAnswer(Day(copier.State()), hit, copier.cfg)
    {
      var cfg := copier.cfg;
      var date := Clock.SignalDate(signal.triggerInitial, cfg.utcOffset);
      if date !in copier.store.daily {
        return None;
      }
      var summary := copier.store.daily[date];
      if cfg.dailyLossLimit > 0.0 && summary.realizedPnl <= -cfg.dailyLossLimit {
        return Some(LossLimit);
      }
      if cfg.dailyTradeLimit > 0 && summary.trades >= cfg.dailyTradeLimit {
        return Some(CountLimit);
      }
      if cfg.dailyDrawdownPct > 0 {
        var threshold := if cfg.startOfDayBalance.Some?
                         then cfg.startOfDayBalance.value * cfg.dailyDrawdownPct as real / 100.0
                         else cfg.dailyDrawdownPct as real;
        if summary.realizedPnl <= -threshold {
          return Some(DrawdownLimit);
        }
      }
      hit := None;
    }

    /** Limit check, then the status gate, then the cascade. Without an exception the supervisor is
        gone, and its row was turned away by the limit that the day had reached when it looked, or
        had been taken before and is untouched, or ends as the machine says of what was heard. */
    method RunInner() returns (r: Outcome, ghost fate: Fate, ghost checked: World)
      requires At(CheckLimit) && diary.heard == []
      modifies copier, copier.store, copier.broker, diary
      ensures copier.Valid() && Reaches(old(copier.State()), copier.State(), copier.cfg)
      ensures Stopped() && (r.Ok? ==> me !in copier.tasks && Taken())
      ensures r.Raised? ==> diary.Broken()
      ensures r.Ok? ==> Reaches(old(copier.State()), checked, copier.cfg)
                        && Reaches(checked, copier.State(), copier.cfg)
      ensures r.Ok? ==> LimitAnswer(Day(checked), if fate.TurnedAway? then Some(fate.limit) else None, copier.cfg)
      ensures r.Ok? ==> old(Row()).Some?
                        && match fate
                           case TurnedAway(_, stamp) =>
                             && Row() == Rewritten(old(Row()), Error, Some(DailyLimitHit), stamp)
                             && Calls() == old(Calls()) && diary.heard == [Slept, Read(stamp), Slept]
                           case TakenBefore =>
                             && old(Row()).value.status != Pending && Row() == old(Row())
                             && Calls() == old(Calls()) && diary.heard == [Slept, Slept]
                           case Driven(calls) =>
                             && old(Row()).value.status == Pending && Calls() == old(Calls()) + calls
                             && Completed(calls)
    {
      ghost var start := copier.State();
      OwnRowStored();
      fate := TakenBefore;
      var hit;
      r, hit := PassLimit();
      checked := copier.State();
      if r.Raised? {
        return;
      }
      if hit.Some? {
        ghost var stamp;
        r, stamp := HandleLimitRejection();
        fate := TurnedAway(hit.value, stamp);
      } else {
        r, fate := Proceed();
      }
      ReachesTransitive(start, checked, copier.State(), copier.cfg);
    }

    /** Within the limits: the status gate, then the cascade. */
    method Proceed() returns (r: Outcome, ghost fate: Fate)
      requires At(CheckGate) && diary.heard == [Slept]
      modifies copier, copier.store, copier.broker, diary
      ensures copier.Valid() && Reaches(old(copier.State()), copier.State(), copier.cfg)
      ensures Stopped() && (r.Ok? ==> me !in copier.tasks && Taken() && old(Row()).Some?)
      ensures r.Raised? ==> diary.Broken()
      ensures r.Ok? ==> if old(Row()).value.status == Pending
                        then fate.Driven? && Calls() == old(Calls()) + fate.calls && Completed(fate.calls)
                        else fate.TakenBefore? && Row() == old(Row()) && Calls() == old(Calls())
                             && diary.heard == [Slept, Slept]
    {
      ghost var start := copier.State();
      fate := TakenBefore;
      var open;
      r, open := PassGate();
      if r.Ok? && open {
        ghost var w := copier.State();
        NothingHeard(signal, diary.heard, copier.cfg);
        var calls;
        r, calls := DriveCascade(FromSignal(signal, copier.cfg));
        fate := Driven(calls);
        ReachesTransitive(start, w, copier.State(), copier.cfg);
      }
    }

    /** The cascade went to its end: the row shows what the machine makes of everything heard, and
        after the fire there was one event for each broker call. */
    ghost predicate Completed(calls: seq<(Stage, real)>)
      reads copier.store, diary
    {
      var end := Fold(FromSignal(signal, copier.cfg), Told(diary.heard), copier.cfg);
      Shown(end) && end.stage.None? && |Told(diary.heard)| == 1 + |calls|
    }

    /** The stored row of this signal is no longer pending. */
    ghost predicate Taken()
      reads copier.store
    {
      Row().Some? && Row().value.status != Pending
    }

    method PassLimit() returns (r: Outcome, hit: Option<LimitType>)
      requires At(CheckLimit)
      modifies copier, copier.store, copier.broker, diary
      ensures copier.Valid() && Reaches(old(copier.State()), copier.State(), copier.cfg)
      ensures Stopped() && Calls() == old(Calls())
      ensures r.Raised? ==> diary.Broken()
      ensures r.Ok? ==> At(if hit.Some? then RejectLimit else CheckGate)
      ensures r.Ok? ==> LimitAnswer(Day(copier.State()), hit, copier.cfg)
      ensures r.Ok? ==> Row() == old(Row()) && diary.heard == old(diary.heard) + [Slept]
    {
      ghost var start := copier.State();
      hit := None;
      Await();
      var threw := diary.Throws();
      if threw {
        return Raised, hit;
      }
      ghost var w := copier.State();
      hit := CheckDailyLimit();
      Goto(if hit.Some? then RejectLimit else CheckGate);
      copier.Took(w, Supervise(me, Clocked(0.0)));
      ReachesTransitive(start, w, copier.State(), copier.cfg);
      r := Ok;
    }

    /** Ends the supervisor unless the row is still pending (or missing). */
    method PassGate() returns (r: Outcome, open: bool)
      requires At(CheckGate)
      modifies copier, copier.store, copier.broker, diary
      ensures copier.Valid() && Reaches(old(copier.State()), copier.State(), copier.cfg)
      ensures Stopped() && Calls() == old(Calls())
      ensures r.Raised? ==> diary.Broken()
      ensures r.Ok? ==> if open then At(AwaitFire(FromSignal(signal, copier.cfg))) else me !in copier.tasks && Taken()
      ensures r.Ok? ==> Row() == old(Row()) && diary.heard == old(diary.heard) + [Slept]
      ensures r.Ok? ==> Row().Some? && (open <==> Row().value.status == Pending)
    {
      ghost var start := copier.State();
      open := false;
      Await();
      var threw := diary.Throws();
      if threw {
        return Raised, open;
      }
      ghost var w := copier.State();
      open := !(signal.id in copier.store.signals && copier.store.signals[signal.id].status != Pending);
      if open {
        Goto(AwaitFire(FromSignal(signal, copier.cfg)));
      } else {
        Exit();
      }
      copier.Took(w, Supervise(me, Clocked(0.0)));
      ReachesTransitive(start, w, copier.State(), copier.cfg);
      r := Ok;
    }

    /** The row ends in an error for the daily limit, stamped before the write. */
    method HandleLimitRejection() returns (r: Outcome, stamp: real)
      requires At(RejectLimit)
      modifies copier, copier.store, copier.broker, diary
      ensures copier.Valid() && Reaches(old(copier.State()), copier.State(), copier.cfg)
      ensures Stopped() && Calls() == old(Calls()) && (r.Ok? ==> me !in copier.tasks && Finished())
      ensures r.Raised? ==> diary.Broken()
      ensures r.Ok? ==> diary.heard == old(diary.heard) + [Read(stamp)] + [Slept]
      ensures r.Ok? ==> Row() == Rewritten(old(Row()), Error, Some(DailyLimitHit), stamp)
    {
      ghost var start := copier.State();
      stamp := diary.Now();
      Await();
      ghost var w := copier.State();
      r := copier.store.UpdateSignalState(signal.id, Error, Some(DailyLimitHit), stamp);
      diary.Note(r);
      if r.Raised? {
        return;
      }
      Exit();
      copier.Took(w, Supervise(me, Clocked(stamp)));
      ReachesTransitive(start, w, copier.State(), copier.cfg);
    }

    /** The cascade loop. Its broker calls are a prefix of the plan, it ends with the row as the machine
        leaves it after everything that was heard, and the stage index bounds its iterations. */
    method DriveCascade(initial: SignalState) returns (r: Outcome, calls: seq<(Stage, real)>)
      requires At(AwaitFire(initial)) && initial.stage.Some? && Follows(initial, 0, signal, diary.heard, copier.cfg)
      modifies copier, copier.store, copier.broker, diary
      ensures copier.Valid() && Reaches(old(copier.State()), copier.State(), copier.cfg)
      ensures Stopped() && (r.Ok? ==> me !in copier.tasks && Finished())
      ensures r.Raised? ==> diary.Broken()
      ensures Calls() == old(Calls()) + calls && Calls() <= Plan(copier.cfg)
      ensures r.Ok? ==> Completed(calls)
    {
      ghost var start := copier.State();
      var state := initial;
      calls := [];
      ReachesSelf(start, copier.cfg);
      while state.stage.Some?
        invariant copier.Valid() && Reaches(start, copier.State(), copier.cfg)
        invariant if state.stage.Some? then At(AwaitFire(state)) else me !in copier.tasks && Finished()
        invariant Calls() == old(Calls()) + calls
        invariant Follows(state, |calls|, signal, diary.heard, copier.cfg) && (state.stage.None? ==> Shown(state))
        decreases if state.stage.Some? then 3 - Index(state.stage.value) else 0
      {
        ghost var w := copier.State();
        var called;
        r, state, called := RunStage(state, |calls|);
        Regroup(old(Calls()), calls, called);
        calls := calls + called;
        ReachesTransitive(start, w, copier.State(), copier.cfg);
        if r.Raised? {
          OnPlan();
          return;
        }
      }
      OnPlan();
      r := Ok;
    }

    lemma OnPlan()
      requires copier.Valid()
      ensures Calls() <= Plan(copier.cfg)
    {
      CallsFollowPlan(copier.State(), signal.id, copier.cfg);
    }

    lemma Regroup(a: seq<(Stage, real)>, b: seq<(Stage, real)>, c: seq<(Stage, real)>)
      ensures (a + b) + c == a + (b + c)
    {
    }

    /** One turn of the loop: to the next stage, or to the end. */
    method RunStage(state: SignalState, ghost before: nat)
      returns (r: Outcome, next: SignalState, calls: seq<(Stage, real)>)
      requires At(AwaitFire(state)) && state.stage.Some?
      requires Follows(state, before, signal, diary.heard, copier.cfg)
      modifies copier, copier.store, copier.broker, diary
      ensures copier.Valid() && Reaches(old(copier.State()), copier.State(), copier.cfg)
      ensures Stopped() && Calls() == old(Calls()) + calls
      ensures r.Raised? ==> diary.Broken()
      ensures r.Ok? ==> if next.stage.Some?
                        then At(AwaitFire(next)) && Index(next.stage.value) == Index(state.stage.value) + 1
                        else me !in copier.tasks && Finished() && Shown(next)
      ensures r.Ok? ==> Follows(next, before + |calls|, signal, diary.heard, copier.cfg)
    {
      ghost var start := copier.State();
      ghost var heard := diary.heard;
      calls := [];
      var reading, stamp;
      r, next, reading, stamp := Fire(state);
      if r.Ok? {
        FireFollows(state, next, before, signal, heard, Alarm(state), reading, stamp, copier.cfg);
        if next.stage.Some? {
          ghost var w := copier.State();
          calls := [(next.stage.value, next.amount)];
          r, next := Trade(next, before);
          ReachesTransitive(start, w, copier.State(), copier.cfg);
        }
      }
    }

    /** The rest of a turn, from the placement on. */
    method Trade(state: SignalState, ghost before: nat) returns (r: Outcome, next: SignalState)
      requires At(PlaceTrade(state)) && state.stage.Some? && state.status != Pending
      requires Follows(state, before, signal, diary.heard, copier.cfg)
      modifies copier, copier.store, copier.broker, diary
      ensures copier.Valid() && Reaches(old(copier.State()), copier.State(), copier.cfg)
      ensures Stopped() && Calls() == old(Calls()) + [(state.stage.value, state.amount)]
      ensures r.Raised? ==> diary.Broken()
      ensures r.Ok? ==> if next.stage.Some?
                        then At(AwaitFire(next)) && Index(next.stage.value) == Index(state.stage.value) + 1
                        else me !in copier.tasks && Finished() && Shown(next)
      ensures r.Ok? ==> next.status != Pending && Follows(next, before + 1, signal, diary.heard, copier.cfg)
    {
      ghost var heard := diary.heard;
      ghost var tale;
      r, next, tale := PlaceAndSettle(state);
      if r.Ok? {
        StageFollows(state, next, before, signal, heard, tale, copier.cfg);
      }
    }

    /** Waits for the stage's own trigger. A pending state is then fired at a reading taken after the
        wait: past the tolerance the row ends as expired, otherwise it is placed. A gale goes on
        whatever the time. */
    method Fire(state: SignalState) returns (r: Outcome, fired: SignalState, reading: real, stamp: real)
      requires At(AwaitFire(state)) && state.stage.Some?
      modifies copier, copier.store, copier.broker, diary
      ensures copier.Valid() && Reaches(old(copier.State()), copier.State(), copier.cfg)
      ensures Stopped() && Calls() == old(Calls())
      ensures r.Raised? ==> diary.Broken()
      ensures r.Ok? ==> if fired.stage.Some? then At(PlaceTrade(fired)) && fired.stage == state.stage
                        else me !in copier.tasks && Finished()
      ensures r.Ok? ==>
                diary.heard == if state.status == Pending
                               then old(diary.heard) + [SleptUntil(Alarm(state))] + [Read(reading)]
                                    + [Read(stamp)] + [Slept]
                               else old(diary.heard) + [SleptUntil(Alarm(state))]
      ensures r.Ok? && state.status != Pending ==> fired == state && Row() == old(Row())
      ensures r.Ok? && state.status == Pending ==>
                && (fired.stage.None? <==> reading > state.triggerUnix + copier.cfg.skewTolerance)
                && Row() == (if reading > state.triggerUnix + copier.cfg.skewTolerance
                             then Rewritten(old(Row()), Error, Some(SignalExpired), stamp)
                             else Rewritten(old(Row()), PlacedInitial, None, stamp))
                && AfterFire(state, reading, fired, copier.cfg)
                && fired == Next(state, FireEvent(reading), copier.cfg) && Shown(fired)
    {
      ghost var start := copier.State();
      fired, reading, stamp := state, 0.0, 0.0;
      AwaitUntil(FireTarget(signal, state.stage.value));
      ghost var w := copier.State();
      if state.status == Pending {
        reading := diary.Now();
        AcceptsFire(state, reading);
        fired := Transition(state, FireEvent(reading), copier.cfg).state;
      }
      Goto(if state.status == Pending then PersistFire(fired) else PlaceTrade(state));
      copier.Took(w, Supervise(me, Clocked(reading)));
      ReachesTransitive(start, w, copier.State(), copier.cfg);
      if state.status == Pending {
        w := copier.State();
        r, stamp := PersistFired(fired);
        ReachesTransitive(start, w, copier.State(), copier.cfg);
      } else {
        r := Ok;
      }
    }

    /** The trigger of the state's stage. */
    ghost function Alarm(state: SignalState): real
      requires state.stage.Some?
    {
      match state.stage.value
      case Initial => signal.triggerInitial
      case Gale1 => signal.triggerGale1
      case Gale2 => signal.triggerGale2
    }

    /** At the loop head a pending state accepts the fire, at its own stage. */
    lemma AcceptsFire(state: SignalState, now: real)
      requires At(AwaitFire(state)) && state.status == Pending
      ensures var r := Transition(state, FireEvent(now), copier.cfg);
              r.Accepted? && (r.state.stage.Some? ==> r.state.stage == state.stage)
              && AfterFire(state, now, r.state, copier.cfg)
    {
      var w := copier.State();
      ReachableInv(w, copier.cfg);
      assert TaskInv(w, w.tasks[me], copier.cfg);
      TransitionKeepsInv(state, FireEvent(now), signal, copier.cfg);
      TransitionTable(state, FireEvent(now), copier.cfg);
    }

    method PersistFired(fired: SignalState) returns (r: Outcome, stamp: real)
      requires At(PersistFire(fired))
      modifies copier, copier.store, copier.broker, diary
      ensures copier.Valid() && Reaches(old(copier.State()), copier.State(), copier.cfg)
      ensures Stopped() && Calls() == old(Calls())
      ensures r.Raised? ==> diary.Broken()
      ensures r.Ok? ==> if fired.stage.Some? then At(PlaceTrade(fired)) else me !in copier.tasks && Finished()
      ensures r.Ok? ==> diary.heard == old(diary.heard) + [Read(stamp)] + [Slept]
      ensures r.Ok? ==> Row().Some? && Row() == Rewritten(old(Row()), fired.status, fired.errorReason, stamp)
    {
      ghost var start := copier.State();
      stamp := diary.Now();
      Await();
      ghost var w := copier.State();
      FiredEndsOrPlaces(fired);
      r := copier.store.UpdateSignalState(signal.id, fired.status, fired.errorReason, stamp);
      diary.Note(r);
      if r.Raised? {
        return;
      }
      if fired.status == Error {
        Exit();
      } else {
        Goto(PlaceTrade(fired));
      }
      copier.Took(w, Supervise(me, Clocked(stamp)));
      ReachesTransitive(start, w, copier.State(), copier.cfg);
    }

    /** One stage: place, record, wait, apply. The broker is called exactly once. The next state, the
        row and the closed stage row are those of the result that was heard, stamped when it was. */
    method PlaceAndSettle(state: SignalState) returns (r: Outcome, next: SignalState, ghost tale: Tale)
      requires At(PlaceTrade(state)) && state.stage.Some?
      modifies copier, copier.store, copier.broker, diary
      ensures copier.Valid() && Reaches(old(copier.State()), copier.State(), copier.cfg)
      ensures Stopped() && Calls() == old(Calls()) + [(state.stage.value, state.amount)]
      ensures r.Raised? ==> diary.Broken()
      ensures r.Ok? ==> if next.stage.Some?
                        then At(AwaitFire(next)) && Index(next.stage.value) == Index(state.stage.value) + 1
                        else me !in copier.tasks && Finished()
      ensures r.Ok? ==> diary.heard == tale.HeardAfter(old(diary.heard), state.stage.value, state.amount)
      ensures r.Ok? ==> next == Next(state, tale.Event(), copier.cfg)
      ensures r.Ok? ==> AfterResult(state, tale.Event().result, tale.Event().now, next, copier.cfg)
      ensures r.Ok? ==> Row().Some? && Row() == Rewritten(old(Row()), next.status, next.errorReason, tale.Event().now)
      ensures r.Ok? && tale.Traded? ==>
                var trade := TradeId(signal.id, state.stage.value, tale.placedAt);
                && Faithful(tale.wait, state.expiresAt) && trade in copier.booked
                && StageRow(trade, state.amount, state.expiresAt, tale.id, Some(tale.wait.result),
                            Some(next.cumulativePnl - state.cumulativePnl), Some(tale.wait.now)) in copier.store.stages
      ensures r.Ok? && tale.Unsupported? ==> SameStages(old(copier.State()), copier.State(), signal.id)
    {
      ghost var start := copier.State();
      next, tale := state, Unsupported(0.0, 0.0);
      var placedAt, reply, failed := Place(state);
      ghost var w := copier.State();
      match reply {
        case Filled(id) =>
          ghost var wait;
          r, next, wait := Settle(state, placedAt, id);
          tale := Traded(placedAt, id, wait);
        case PairUnavailable =>
          next := failed;
          ghost var now;
          r, now := ApplyErrorTransition(failed);
          tale := Unsupported(placedAt, now);
        case Refused =>
          ReachesSelf(w, copier.cfg);
          r := Raised;
      }
      ReachesTransitive(start, w, copier.State(), copier.cfg);
    }

    /** The broker call, the stake captured and the clock read before it. */
    method Place(state: SignalState) returns (placedAt: real, reply: PlaceReply, failed: SignalState)
      requires At(PlaceTrade(state)) && state.stage.Some?
      modifies copier, copier.store, copier.broker, diary
      ensures copier.Valid() && Reaches(old(copier.State()), copier.State(), copier.cfg)
      ensures Calls() == old(Calls()) + [(state.stage.value, state.amount)]
      ensures match reply
              case Filled(id) => At(RecordPlaced(state, placedAt, id))
              case PairUnavailable =>
                && At(PersistFailure(failed)) && AfterResult(state, Failed, placedAt, failed, copier.cfg)
                && forall now :: failed == Next(state, ResultEvent(Failed, now), copier.cfg)
              case Refused => me !in copier.tasks
      ensures diary.heard
              == old(diary.heard) + [Slept] + [Read(placedAt)] + [Called(state.stage.value, state.amount, reply)]
      ensures Row() == old(Row()) && SameStages(old(copier.State()), copier.State(), signal.id)
    {
      ghost var start := copier.State();
      Await();
      ghost var w := copier.State();
      AcceptsResult(state);
      placedAt := diary.Now();
      failed := Transition(state, ResultEvent(Failed, placedAt), copier.cfg).state;
      ghost var answer;
      reply, answer := CallBroker(state, placedAt, failed);
      copier.Took(w, Supervise(me, Oracle(placedAt, answer, Win)));
      ReachesTransitive(start, w, copier.State(), copier.cfg);
    }

    /** About to place, the state accepts any result. */
    lemma AcceptsResult(state: SignalState)
      requires At(PlaceTrade(state))
      ensures forall r, now :: Transition(state, ResultEvent(r, now), copier.cfg).Accepted?
      ensures forall now :: Transition(state, ResultEvent(Failed, now), copier.cfg)
                            == Accepted(Next(state, ResultEvent(Failed, 0.0), copier.cfg))
      ensures forall now ::
              AfterResult(state, Failed, now, Next(state, ResultEvent(Failed, 0.0), copier.cfg), copier.cfg)
    {
      var w := copier.State();
      ReachableInv(w, copier.cfg);
      assert TaskInv(w, w.tasks[me], copier.cfg);
      ResultTable(state, Failed, 0.0, copier.cfg);
    }

    method CallBroker(state: SignalState, placedAt: real, failed: SignalState)
      returns (reply: PlaceReply, ghost answer: PlaceOutcome)
      requires me in copier.tasks && copier.tasks[me] == Supervisor(signal, PlaceTrade(state)) && state.stage.Some?
      requires Transition(state, ResultEvent(Failed, placedAt), copier.cfg) == Accepted(failed)
      modifies copier`tasks, copier`log, copier.broker, diary
      ensures copier.State()
              == DoPlaceTrade(old(copier.State()), me, signal, state, Oracle(placedAt, answer, Win), copier.cfg)
      ensures Calls() == old(Calls()) + [(state.stage.value, state.amount)]
      ensures match reply
              case Filled(id) =>
                copier.tasks == old(copier.tasks)[me := Supervisor(signal, RecordPlaced(state, placedAt, id))]
              case PairUnavailable =>
                copier.tasks == old(copier.tasks)[me := Supervisor(signal, PersistFailure(failed))]
              case Refused => copier.tasks == old(copier.tasks) - {me}
      ensures diary.heard == old(diary.heard) + [Called(state.stage.value, state.amount, reply)]
    {
      CallsOfOthers(copier.log, Placement(signal.id, state.stage.value, state.amount), signal.id);
      copier.log := copier.log + [Placement(signal.id, state.stage.value, state.amount)];
      answer := CallRaised;
      reply := diary.Place(copier.broker, signal.id, state.stage.value, state.amount);
      match reply {
        case Filled(id) =>
          Goto(RecordPlaced(state, placedAt, id));
          answer := Placed(id.suffix);
        case PairUnavailable =>
          Goto(PersistFailure(failed));
          answer := UnsupportedPair;
        case Refused =>
          Exit();
      }
    }

    /** The notice of an unsupported pair, which is not shielded. */
    method NotifyUnavailable(failed: SignalState) returns (r: Outcome)
      requires At(PersistFailure(failed))
      modifies copier, copier.store, copier.broker, diary
      ensures copier.Valid() && Reaches(old(copier.State()), copier.State(), copier.cfg)
      ensures At(PersistFailure(failed)) && Calls() == old(Calls()) && Row() == old(Row())
      ensures SameStages(old(copier.State()), copier.State(), signal.id)
      ensures r.Raised? ==> diary.Broken()
      ensures r.Ok? ==> diary.heard == old(diary.heard) + [Slept]
    {
      Await();
      var threw := diary.Throws();
      r := if threw then Raised else Ok;
    }

    /** The unsupported-pair branch, ending the row for want of a broker; its notifier call may raise,
        which leaves the row placed. */
    method ApplyErrorTransition(failed: SignalState) returns (r: Outcome, now: real)
      requires At(PersistFailure(failed))
      modifies copier, copier.store, copier.broker, diary
      ensures copier.Valid() && Reaches(old(copier.State()), copier.State(), copier.cfg)
      ensures Stopped() && Calls() == old(Calls()) && failed.stage.None?
      ensures r.Raised? ==> diary.Broken()
      ensures r.Ok? ==> me !in copier.tasks && Finished()
      ensures r.Ok? ==> diary.heard == old(diary.heard) + [Slept] + [Read(now)] + [Slept]
      ensures r.Ok? ==> Row().Some? && Row() == Rewritten(old(Row()), failed.status, failed.errorReason, now)
                        && SameStages(old(copier.State()), copier.State(), signal.id)
      ensures failed.status == Error && failed.errorReason == Some(BrokerUnavailable)
    {
      ghost var start := copier.State();
      now := 0.0;
      FailureEnds(failed);
      r := NotifyUnavailable(failed);
      if r.Ok? {
        ghost var w := copier.State();
        r, now := PersistFailed(failed);
        ReachesTransitive(start, w, copier.State(), copier.cfg);
      }
    }

    method PersistFailed(failed: SignalState) returns (r: Outcome, now: real)
      requires At(PersistFailure(failed))
      modifies copier, copier.store, copier.broker, diary
      ensures copier.Valid() && Reaches(old(copier.State()), copier.State(), copier.cfg)
      ensures Stopped() && Calls() == old(Calls())
      ensures r.Raised? ==> diary.Broken()
      ensures r.Ok? ==> me !in copier.tasks && diary.heard == old(diary.heard) + [Read(now)] + [Slept]
      ensures r.Ok? ==> Row().Some? && Row() == Rewritten(old(Row()), failed.status, failed.errorReason, now)
                        && SameStages(old(copier.State()), copier.State(), signal.id)
    {
      ghost var start := copier.State();
      now := diary.Now();
      Await();
      ghost var w := copier.State();
      r := copier.store.UpdateSignalState(signal.id, failed.status, failed.errorReason, now);
      diary.Note(r);
      if r.Raised? {
        return;
      }
      Exit();
      copier.Took(w, Supervise(me, Clocked(now)));
      ReachesTransitive(start, w, copier.State(), copier.cfg);
    }

    /** From an accepted placement to the next loop head: the stage row is opened, and closed with the
        result that was heard. */
    method Settle(state: SignalState, placedAt: real, id: BrokerTradeId)
      returns (r: Outcome, next: SignalState, ghost wait: Wait)
      requires At(RecordPlaced(state, placedAt, id)) && state.stage.Some?
      modifies copier, copier.store, copier.broker, diary
      ensures copier.Valid() && Reaches(old(copier.State()), copier.State(), copier.cfg)
      ensures Stopped() && Calls() == old(Calls())
      ensures r.Raised? ==> diary.Broken()
      ensures r.Ok? ==> if next.stage.Some?
                        then At(AwaitFire(next)) && Index(next.stage.value) == Index(state.stage.value) + 1
                        else me !in copier.tasks && Finished()
      ensures r.Ok? ==> Applied(state, wait, next) && Faithful(wait, state.expiresAt)
      ensures r.Ok? ==>
                diary.heard == old(diary.heard) + [Slept] + [Slept] + [Read(wait.from)] + [Slept] + [wait.answer]
                               + [Read(wait.now)] + [Slept] + [Slept] + [Slept]
      ensures r.Ok? ==> Row().Some? && Row() == Rewritten(old(Row()), next.status, next.errorReason, wait.now)
      ensures r.Ok? ==>
                var trade := TradeId(signal.id, state.stage.value, placedAt);
                && trade in copier.booked
                && StageRow(trade, state.amount, state.expiresAt, id, Some(wait.result),
                            Some(next.cumulativePnl - state.cumulativePnl), Some(wait.now)) in copier.store.stages
    {
      ghost var start := copier.State();
      next, wait := state, Wait(0.0, Slept, Failed, 0.0);
      var row;
      r, row := OpenRow(state, placedAt, id);
      if r.Raised? {
        return;
      }
      ghost var w := copier.State();
      r, next, wait := WaitAndApply(state, row.tradeId, id, row);
      ReachesTransitive(start, w, copier.State(), copier.cfg);
    }

    method OpenRow(state: SignalState, placedAt: real, id: BrokerTradeId) returns (r: Outcome, row: StageRow)
      requires At(RecordPlaced(state, placedAt, id)) && state.stage.Some?
      modifies copier, copier.store, copier.broker, diary
      ensures copier.Valid() && Reaches(old(copier.State()), copier.State(), copier.cfg)
      ensures Stopped() && Calls() == old(Calls())
      ensures r.Raised? ==> diary.Broken()
      ensures r.Ok? ==> diary.heard == old(diary.heard) + [Slept]
      ensures row == StageRow(TradeId(signal.id, state.stage.value, placedAt), state.amount, state.expiresAt, id,
                              None, None, None)
      ensures r.Ok? ==> At(StartWait(state, row.tradeId, id)) && Row() == old(Row()) && row in copier.store.stages
    {
      ghost var start := copier.State();
      var trade := TradeId(signal.id, state.stage.value, placedAt);
      row := StageRow(trade, state.amount, state.expiresAt, id, None, None, None);
      Await();
      ghost var w := copier.State();
      r := copier.store.RecordStagePlaced(trade, state.amount, state.expiresAt, id);
      diary.Note(r);
      if r.Raised? {
        return;
      }
      assert copier.store.stages[|copier.store.stages| - 1] == row;
      Goto(StartWait(state, trade, id));
      copier.Took(w, Supervise(me, Clocked(placedAt)));
      ReachesTransitive(start, w, copier.State(), copier.cfg);
    }

    /** The next state is what the result makes of this one. */
    ghost predicate Applied(state: SignalState, wait: Wait, next: SignalState)
      requires state.stage.Some?
    {
      && next == Next(state, ResultEvent(wait.result, wait.now), copier.cfg)
      && AfterResult(state, wait.result, wait.now, next, copier.cfg)
    }

    /** Waits for the trade's result and applies it; `row` is the trade's open stage row. */
    method WaitAndApply(state: SignalState, trade: TradeId, id: BrokerTradeId, ghost row: StageRow)
      returns (r: Outcome, next: SignalState, ghost wait: Wait)
      requires At(StartWait(state, trade, id)) && state.stage.Some?
      requires trade.signalId == signal.id && row.tradeId == trade && row in copier.store.stages
      modifies copier, copier.store, copier.broker, diary
      ensures copier.Valid() && Reaches(old(copier.State()), copier.State(), copier.cfg)
      ensures Stopped() && Calls() == old(Calls())
      ensures r.Raised? ==> diary.Broken()
      ensures r.Ok? ==> if next.stage.Some?
                        then At(AwaitFire(next)) && Index(next.stage.value) == Index(state.stage.value) + 1
                        else me !in copier.tasks && Finished()
      ensures r.Ok? ==> Applied(state, wait, next) && Faithful(wait, state.expiresAt)
      ensures r.Ok? ==>
                diary.heard == old(diary.heard) + [Slept] + [Read(wait.from)] + [Slept] + [wait.answer]
                               + [Read(wait.now)] + [Slept] + [Slept] + [Slept]
      ensures r.Ok? ==> Row().Some? && Row() == Rewritten(old(Row()), next.status, next.errorReason, wait.now)
      ensures r.Ok? ==> trade in copier.booked && Closed(row, state, wait.result, next, wait.now)
    {
      ghost var start := copier.State();
      var known, result, timer;
      ghost var popped, from, answer;
      known, result, timer, popped, from, answer := WaitForStageResult(state, trade, id);
      ghost var w := copier.State();
      var now;
      r, next, now := ApplyResultAndFinalize(state, trade, known, result, timer, row);
      wait := Wait(from, answer, result, now);
      ReachesTransitive(start, popped, w, copier.cfg);
      ReachesTransitive(start, w, copier.State(), copier.cfg);
    }

    /** Pops the trade, then waits. Any result may come back; an unknown trade is an error result.
        When it is the wait timer that went off, it ran from the reading taken before the wait to
        30 s past the trade's expiry, or for 0.1 s. */
    method WaitForStageResult(state: SignalState, trade: TradeId, id: BrokerTradeId)
      returns (known: bool, result: StageResult, timer: Option<Timer>, ghost popped: World,
          ghost from: real, ghost answer: Happening)
      requires At(StartWait(state, trade, id))
      modifies copier, copier.store, copier.broker, diary
      ensures Reaches(old(copier.State()), popped, copier.cfg) && Reaches(popped, copier.State(), copier.cfg)
      ensures id !in popped.inflight && me in popped.tasks
      ensures popped.tasks[me] == Supervisor(signal, AwaitResult(state, trade, known))
      ensures At(AwaitResult(state, trade, known)) && Calls() == old(Calls())
      ensures Row() == old(Row()) && SameStages(old(copier.State()), copier.State(), signal.id)
      ensures !known ==> result == Failed && timer.None?
      ensures timer.Some? ==>
                && result == Timeout && timer.value.start == from
                && timer.value.timeout
                   == (if state.expiresAt - from + 30.0 < 0.1 then 0.1 else state.expiresAt - from + 30.0)
      ensures answer == if timer.Some? then Rang(timer.value) else Answered(result)
      ensures diary.heard == old(diary.heard) + [Slept] + [Read(from)] + [Slept] + [answer]
    {
      ghost var start := copier.State();
      Await();
      ghost var w := copier.State();
      var reading := diary.Now();
      var timeout := state.expiresAt - reading + RESULT_GRACE;
      if timeout < MIN_TIMEOUT {
        timeout := MIN_TIMEOUT;
      }
      var placedFor, placedAs;
      known, placedFor, placedAs := copier.broker.WaitResult(id);
      Goto(AwaitResult(state, trade, known));
      copier.Took(w, Supervise(me, Clocked(0.0)));
      ReachesTransitive(start, w, copier.State(), copier.cfg);
      popped := copier.State();
      Await();
      var rang;
      result, rang := diary.Result(known, Timer(reading, timeout));
      timer := if rang then Some(Timer(reading, timeout)) else None;
      from, answer := reading, if rang then Rang(timer.value) else Answered(result);
    }

    /** The wait timer expired and the clock shows it, within the usual configuration. */
    predicate RealTimeout(state: SignalState, timer: Option<Timer>, now: real) {
      && timer.Some? && timer.value.timeout == WaitTimeout(state.expiresAt, timer.value.start)
      && now >= timer.value.start + timer.value.timeout
      && copier.cfg.skewTolerance < 30.0 && copier.cfg.expirationSeconds >= 300
    }

    /** The stage row is closed with this result, what it earned, and the time it was applied. */
    ghost predicate Closed(row: StageRow, state: SignalState, result: StageResult, next: SignalState, now: real)
      reads copier.store
    {
      StageRow(row.tradeId, row.amount, row.expiresAt, row.brokerTradeId, Some(result),
               Some(next.cumulativePnl - state.cumulativePnl), Some(now)) in copier.store.stages
    }

    /** Applies the result that came back and writes the ledgers: a win ends the row won, a loss, tie
        or timeout opens the next stage, expires, or ends the row lost after the last, and a failure
        ends it for want of a broker. The trade's stage row is closed with this very result. A real
        timeout never leads to another stage. */
    method ApplyResultAndFinalize(
        state: SignalState, trade: TradeId, known: bool, result: StageResult, timer: Option<Timer>, ghost row: StageRow)
      returns (r: Outcome, next: SignalState, now: real)
      requires At(AwaitResult(state, trade, known)) && state.stage.Some?
      requires (!known ==> result == Failed) && (timer.Some? ==> result == Timeout)
      requires trade.signalId == signal.id && row.tradeId == trade && row in copier.store.stages
      modifies copier, copier.store, copier.broker, diary
      ensures copier.Valid() && Reaches(old(copier.State()), copier.State(), copier.cfg)
      ensures Stopped() && Calls() == old(Calls())
      ensures r.Raised? ==> diary.Broken()
      ensures r.Ok? ==> if next.stage.Some?
                        then At(AwaitFire(next)) && Index(next.stage.value) == Index(state.stage.value) + 1
                        else me !in copier.tasks && Finished()
      ensures RealTimeout(state, timer, now) ==> next.stage.None?
      ensures AfterResult(state, result, now, next, copier.cfg)
      ensures next == Next(state, ResultEvent(result, now), copier.cfg)
      ensures result == Win <==> next.status == DoneWin
      ensures result == Failed <==> next.errorReason == Some(BrokerUnavailable)
      ensures next.status == DoneLoss <==> state.stage == Some(Gale2) && result != Win && result != Failed
      ensures r.Ok? ==> diary.heard == old(diary.heard) + [Read(now)] + [Slept] + [Slept] + [Slept]
      ensures r.Ok? ==> Row().Some? && Row() == Rewritten(old(Row()), next.status, next.errorReason, now)
      ensures r.Ok? ==> trade in copier.booked && Closed(row, state, result, next, now)
    {
      ghost var start := copier.State();
      now := diary.Now();
      ResultAccepted(state, trade, known, result, timer, now);
      next := Transition(state, ResultEvent(result, now), copier.cfg).state;
      Goto(RecordResult(state, next, trade, result, now));
      copier.Took(start, Supervise(me, Oracle(now, CallRaised, result)));
      ghost var w := copier.State();
      r := WriteLedgers(state, next, trade, result, now, row);
      ReachesTransitive(start, w, copier.State(), copier.cfg);
    }

    /** The machine accepts the result; the next stage, if any, is the one after this. */
    lemma ResultAccepted(
        state: SignalState, trade: TradeId, known: bool, result: StageResult, timer: Option<Timer>, now: real)
      requires At(AwaitResult(state, trade, known)) && state.stage.Some? && (timer.Some? ==> result == Timeout)
      ensures Transition(state, ResultEvent(result, now), copier.cfg).Accepted?
      ensures var next := Transition(state, ResultEvent(result, now), copier.cfg).state;
              && (next.stage.Some? ==> Index(next.stage.value) == Index(state.stage.value) + 1)
              && (RealTimeout(state, timer, now) ==> next.stage.None?)
              && AfterResult(state, result, now, next, copier.cfg)
              && next.cumulativePnl - state.cumulativePnl == SupervisorPnl(result, state.amount)
    {
      var w := copier.State();
      ReachableInv(w, copier.cfg);
      assert TaskInv(w, w.tasks[me], copier.cfg);
      ResultBooksPnl(state, result, now, signal, copier.cfg);
      ResultTable(state, result, now, copier.cfg);
      if RealTimeout(state, timer, now) {
        RealTimeoutsNeverGale(state, timer.value.start, now, signal, copier.cfg);
      }
    }

    /** The three writes, an await before each. */
    method WriteLedgers(
        state: SignalState, next: SignalState, trade: TradeId, result: StageResult, now: real, ghost row: StageRow)
      returns (r: Outcome)
      requires At(RecordResult(state, next, trade, result, now))
      requires trade.signalId == signal.id && row.tradeId == trade && row in copier.store.stages
      requires next.cumulativePnl - state.cumulativePnl == SupervisorPnl(result, state.amount)
      modifies copier, copier.store, copier.broker, diary
      ensures copier.Valid() && Reaches(old(copier.State()), copier.State(), copier.cfg)
      ensures Stopped() && Calls() == old(Calls())
      ensures r.Raised? ==> diary.Broken()
      ensures r.Ok? ==> if next.stage.Some? then At(AwaitFire(next)) else me !in copier.tasks && Finished()
      ensures r.Ok? ==> diary.heard == old(diary.heard) + [Slept] + [Slept] + [Slept]
      ensures r.Ok? ==> Row().Some? && Row() == Rewritten(old(Row()), next.status, next.errorReason, now)
      ensures r.Ok? ==> trade in copier.booked && Closed(row, state, result, next, now)
    {
      ghost var start := copier.State();
      r := CloseRow(state, next, trade, result, now, row);
      if r.Raised? {
        return;
      }
      ghost var w := copier.State();
      r := PersistStatus(next, trade, result, state.amount, now);
      ReachesTransitive(start, w, copier.State(), copier.cfg);
      if r.Raised? {
        return;
      }
      w := copier.State();
      ghost var before;
      r, before := BookAndLoop(next, trade, result, state.amount);
      ReachesTransitive(start, w, copier.State(), copier.cfg);
    }

    method CloseRow(
        state: SignalState, next: SignalState, trade: TradeId, result: StageResult, now: real, ghost row: StageRow)
      returns (r: Outcome)
      requires At(RecordResult(state, next, trade, result, now))
      requires trade.signalId == signal.id && row.tradeId == trade && row in copier.store.stages
      requires next.cumulativePnl - state.cumulativePnl == SupervisorPnl(result, state.amount)
      modifies copier, copier.store, copier.broker, diary
      ensures copier.Valid() && Reaches(old(copier.State()), copier.State(), copier.cfg)
      ensures Stopped() && Calls() == old(Calls())
      ensures r.Raised? ==> diary.Broken()
      ensures r.Ok? ==> diary.heard == old(diary.heard) + [Slept]
      ensures r.Ok? ==> At(PersistResult(next, trade, result, state.amount, now))
      ensures r.Ok? ==> Row() == old(Row()) && Closed(row, state, result, next, now)
    {
      ghost var start := copier.State();
      Await();
      ghost var w := copier.State();
      var pnl := SupervisorPnl(result, state.amount);
      RowClosed(w.tables, row, result, pnl, now);
      r := copier.store.RecordStageResult(trade, result, pnl, now);
      diary.Note(r);
      if r.Raised? {
        return;
      }
      Goto(PersistResult(next, trade, result, state.amount, now));
      copier.Took(w, Supervise(me, Clocked(now)));
      ReachesTransitive(start, w, copier.State(), copier.cfg);
    }

    method PersistStatus(next: SignalState, trade: TradeId, result: StageResult, amount: real, now: real)
      returns (r: Outcome)
      requires At(PersistResult(next, trade, result, amount, now))
      modifies copier, copier.store, copier.broker, diary
      ensures copier.Valid() && Reaches(old(copier.State()), copier.State(), copier.cfg)
      ensures Stopped() && Calls() == old(Calls())
      ensures r.Raised? ==> diary.Broken()
      ensures r.Ok? ==> diary.heard == old(diary.heard) + [Slept]
      ensures r.Ok? ==> At(BookDaily(next, trade, result, amount))
      ensures r.Ok? ==> Row().Some? && Row() == Rewritten(old(Row()), next.status, next.errorReason, now)
      ensures r.Ok? ==> SameStages(old(copier.State()), copier.State(), signal.id)
    {
      ghost var start := copier.State();
      Await();
      ghost var w := copier.State();
      r := copier.store.UpdateSignalState(signal.id, next.status, next.errorReason, now);
      diary.Note(r);
      if r.Raised? {
        return;
      }
      Goto(BookDaily(next, trade, result, amount));
      copier.Took(w, Supervise(me, Clocked(now)));
      ReachesTransitive(start, w, copier.State(), copier.cfg);
    }

    /** Books the closed trade on the signal's date: one trade more than `before`, a win or a loss, and
        what it earned. */
    method BookAndLoop(next: SignalState, trade: TradeId, result: StageResult, amount: real)
      returns (r: Outcome, ghost before: World)
      requires At(BookDaily(next, trade, result, amount))
      modifies copier, copier.store, copier.broker, diary
      ensures copier.Valid() && Reaches(old(copier.State()), copier.State(), copier.cfg)
      ensures Stopped() && Calls() == old(Calls())
      ensures r.Raised? ==> diary.Broken()
      ensures r.Ok? ==> diary.heard == old(diary.heard) + [Slept]
      ensures r.Ok? ==> if next.stage.Some? then At(AwaitFire(next)) else me !in copier.tasks && Finished()
      ensures r.Ok? ==> Row() == old(Row()) && SameStages(old(copier.State()), copier.State(), signal.id)
      ensures r.Ok? ==> trade in copier.booked && Reaches(old(copier.State()), before, copier.cfg)
      ensures r.Ok? ==> OneTradeMore(Day(before), Day(copier.State()), result, amount)
    {
      ghost var start := copier.State();
      Await();
      ghost var w := copier.State();
      before := w;
      RowFollows(next, trade, result, amount);
      var date := Clock.SignalDate(signal.triggerInitial, copier.cfg.utcOffset);
      r := copier.store.BookTrade(date, result, SupervisorPnl(result, amount));
      diary.Note(r);
      if r.Raised? {
        return;
      }
      copier.booked := copier.booked + {trade};
      if next.stage.None? {
        Exit();
      } else {
        Goto(AwaitFire(next));
      }
      copier.Took(w, Supervise(me, Clocked(0.0)));
      ReachesTransitive(start, w, copier.State(), copier.cfg);
      DayBooked(w, copier.State(), result, amount);
    }

    lemma DayBooked(w: World, w': World, result: StageResult, amount: real)
      requires w'.tables == BookTrade(w.tables, Clock.SignalDate(signal.triggerInitial, copier.cfg.utcOffset),
                                      result, SupervisorPnl(result, amount))
      ensures OneTradeMore(Day(w), Day(w'), result, amount)
    {
      BookingAdds(w.tables, Clock.SignalDate(signal.triggerInitial, copier.cfg.utcOffset), result, amount);
    }

    /** Just before booking, the stored status is the next state's. */
    lemma RowFollows(next: SignalState, trade: TradeId, result: StageResult, amount: real)
      requires At(BookDaily(next, trade, result, amount))
      ensures signal.id in copier.store.signals && copier.store.signals[signal.id].status == next.status
      ensures next.stage.None? <==> IsTerminal(next.status)
    {
      var w := copier.State();
      ReachableInv(w, copier.cfg);
      assert TaskInv(w, w.tasks[me], copier.cfg);
    }

    lemma FiredEndsOrPlaces(fired: SignalState)
      requires At(PersistFire(fired))
      ensures signal.id in copier.store.signals && (fired.stage.None? <==> fired.status == Error)
    {
      var w := copier.State();
      ReachableInv(w, copier.cfg);
      assert TaskInv(w, w.tasks[me], copier.cfg);
    }

    lemma FailureEnds(failed: SignalState)
      requires At(PersistFailure(failed))
      ensures failed.stage.None? && failed.status == Error && failed.errorReason == Some(BrokerUnavailable)
    {
      var w := copier.State();
      ReachableEnding(w, copier.cfg);
      assert TaskInv(w, w.tasks[me], copier.cfg) && TaskEnding(w, w.tasks[me]);
    }
  }
}
