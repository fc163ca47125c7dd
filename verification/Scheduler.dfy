/** `Scheduler` of `scheduler/trigger.py` and the boot-time loop of `recovery.py`. */
module Schedulers {
  import opened Gale
  import opened StateMachine
  import opened Tables
  import opened Protocol
  import opened Safety
  import opened Guarantees
  import opened Timing
  import opened StateStores
  import opened Endings
  import opened Copiers
  import opened Diaries

  datatype RecoveryReport = RecoveryReport(rehydrated: int, timedOut: int, abandoned: int)

  /** What recovery does with a row. */
  datatype Handler = Abandoned | TimedOut | Rehydrated

  function HandlerOf(row: SignalRow, now: real): Handler {
    if IsTerminal(row.status) then Abandoned else if PastWindow(row, now) then TimedOut else Rehydrated
  }

  /** Recovery's choice in plain numbers: 330 s past the instant of the stage the row waits on. */
  lemma HandlerTable(row: SignalRow, now: real)
    ensures var t, e := row.signal.triggerInitial, row.signal.expirationSeconds as real;
            HandlerOf(row, now)
            == match row.status
               case Pending => Rehydrated
               case PlacedInitial => if now > t + 330.0 then TimedOut else Rehydrated
               case PlacedGale1 => if now > t + e + 330.0 then TimedOut else Rehydrated
               case PlacedGale2 => if now > t + e + e + 330.0 then TimedOut else Rehydrated
               case _ => Abandoned
  {
  }

  function Counted(r: RecoveryReport, h: Handler): RecoveryReport {
    match h
    case Abandoned => r.(abandoned := r.abandoned + 1)
    case TimedOut => r.(timedOut := r.timedOut + 1)
    case Rehydrated => r.(rehydrated := r.rehydrated + 1)
  }

  /** What recovery reports for the first n rows. */
  function Tally(rows: seq<SignalRow>, n: nat, now: real): RecoveryReport
    requires n <= |rows|
  {
    if n == 0 then RecoveryReport(0, 0, 0) else Counted(Tally(rows, n - 1, now), HandlerOf(rows[n - 1], now))
  }

  /** The first n rows that recovery treats like this. */
  function Treated(rows: seq<SignalRow>, n: nat, now: real, h: Handler): set<nat>
    requires n <= |rows|
  {
    set k: nat | k < n && HandlerOf(rows[k], now) == h
  }

  /** The counters count: the rows timed out and the rows adopted. The rows the query returns are never
      abandoned, so the other two counts add up to all of them. */
  lemma {:induction false} TallyPartitions(rows: seq<SignalRow>, n: nat, now: real)
    requires n <= |rows| && forall k :: 0 <= k < |rows| ==> IsPlaced(rows[k].status)
    ensures var t := Tally(rows, n, now);
            && t.abandoned == 0 && t.rehydrated + t.timedOut == n
            && t.timedOut == |Treated(rows, n, now, TimedOut)| && t.rehydrated == |Treated(rows, n, now, Rehydrated)|
  {
    if n > 0 {
      TallyPartitions(rows, n - 1, now);
      TreatedGrows(rows, n - 1, now, TimedOut);
      TreatedGrows(rows, n - 1, now, Rehydrated);
    }
  }

  lemma TreatedGrows(rows: seq<SignalRow>, n: nat, now: real, h: Handler)
    requires n < |rows|
    ensures |Treated(rows, n + 1, now, h)|
            == |Treated(rows, n, now, h)| + if HandlerOf(rows[n], now) == h then 1 else 0
  {
    if HandlerOf(rows[n], now) == h {
      assert Treated(rows, n + 1, now, h) == Treated(rows, n, now, h) + {n};
    } else {
      assert Treated(rows, n + 1, now, h) == Treated(rows, n, now, h);
    }
  }

  /** One row's turn: an adopted row gets one new supervisor, of its own signal, and nothing else
      happens; an abandoned one gets nothing; a timed-out one is rewritten by a timeout. */
  ghost predicate Turn(a: World, b: World, row: SignalRow, now: real, cfg: Config) {
    && Reaches(a, b, cfg)
    && match HandlerOf(row, now)
       case Abandoned => b.tasks == a.tasks && b.tables == a.tables
       case TimedOut =>
         row.signal.id in b.tables.signals
         && exists reading: real :: TimedOutAs(row, b.tables.signals[row.signal.id], reading, cfg)
       case Rehydrated =>
         && a.nextTask !in a.tasks && b.tasks == a.tasks[a.nextTask := Supervisor(row.signal, CheckLimit)]
         && b.tables == a.tables && b.log == a.log && b.queue == a.queue
  }

  /** The turns of the first n rows, one after the other. */
  ghost predicate Turns(worlds: seq<World>, rows: seq<SignalRow>, n: nat, now: real, cfg: Config)
    requires n <= |rows|
  {
    |worlds| == n + 1 && forall k :: 0 <= k < n ==> Turn(worlds[k], worlds[k + 1], rows[k], now, cfg)
  }

  lemma TurnsGrow(worlds: seq<World>, next: World, rows: seq<SignalRow>, n: nat, now: real, cfg: Config)
    requires n < |rows| && Turns(worlds, rows, n, now, cfg) && Turn(worlds[n], next, rows[n], now, cfg)
    ensures Turns(worlds + [next], rows, n + 1, now, cfg)
  {
    var all := worlds + [next];
    assert forall k :: 0 <= k <= n ==> all[k] == worlds[k];
  }

  class Scheduler {
    const copier: Copier
    const diary: Diary

    constructor (copier: Copier)
      ensures this.copier == copier && fresh(diary) && diary.heard == []
    {
      this.copier := copier;
      diary := new Diary();
    }

    /** Recovery is suspended: others act, but leave its position and the rows it holds alone. */
    method Await()
      requires copier.Valid()
      modifies copier, copier.store, copier.broker, diary
      ensures copier.Valid() && Reaches(old(copier.State()), copier.State(), copier.cfg)
      ensures Undisturbed(old(copier.State()), copier.State(), RecoveryActor)
      ensures diary.heard == old(diary.heard) + [Slept]
    {
      copier.Await(RecoveryActor);
      diary.Sleep();
    }

    /** One turn of the dispatch loop: a queued signal gets a supervisor of its own. */
    method DispatchOne() returns (t: nat, signal: Signal)
      requires copier.Valid() && copier.phase.Running? && copier.queue != []
      modifies copier
      ensures copier.Valid() && Reaches(old(copier.State()), copier.State(), copier.cfg)
      ensures [signal] + copier.queue == old(copier.queue)
      ensures t !in old(copier.tasks) && copier.tasks == old(copier.tasks)[t := Supervisor(signal, CheckLimit)]
    {
      ghost var w := copier.State();
      ReachableInv(w, copier.cfg);
      signal := copier.queue[0];
      copier.queue := copier.queue[1..];
      t := copier.nextTask;
      copier.tasks, copier.nextTask := copier.tasks[t := Supervisor(signal, CheckLimit)], t + 1;
      copier.Took(w, Dispatch);
    }

    /** A fresh supervisor for a stored row, from the beginning of its coroutine; nothing for a
        terminal row. */
    method Adopt(row: SignalRow)
      modifies copier`tasks, copier`nextTask
      ensures copier.State() == Protocol.Adopt(old(copier.State()), row)
      ensures IsTerminal(row.status) ==> copier.tasks == old(copier.tasks)
      ensures !IsTerminal(row.status) ==>
                var t, e := row.signal.triggerInitial, row.signal.expirationSeconds as real;
                copier.tasks == old(copier.tasks)[
                  old(copier.nextTask) :=
                  Supervisor(row.signal.(triggerGale1 := t + e, triggerGale2 := t + e + e), CheckLimit)]
    {
      if IsTerminal(row.status) {
        return;
      }
      var s := row.signal;
      var e := s.expirationSeconds;
      var signal := Signal(s.id, e, s.receivedAt, s.sourceMessageId, s.triggerInitial,
                           s.triggerInitial + e as real, s.triggerInitial + (2 * e) as real);
      copier.tasks := copier.tasks[copier.nextTask := Supervisor(signal, CheckLimit)];
      copier.nextTask := copier.nextTask + 1;
    }

    method Move(rest: seq<SignalRow>, at: RecoveryPc)
      requires copier.phase.Recovering?
      modifies copier`phase
      ensures copier.phase == Recovering(old(copier.phase.now), rest, at)
    {
      copier.phase := Recovering(copier.phase.now, rest, at);
    }

    /** The stored row of this signal. */
    ghost function Row(id: SignalId): Option<SignalRow>
      reads copier.store
    {
      if id in copier.store.signals then Some(copier.store.signals[id]) else None
    }

    /** Works on the row of a signal whose window closed while the process was down: the row is
        rewritten by a timeout at a reading taken after the row was read. */
    method RecordTimeout(id: SignalId, stage: Stage) returns (r: Outcome, reading: real)
      requires copier.Valid() && copier.phase.Recovering? && copier.phase.at == ReadTimedOut(id, stage)
      modifies copier, copier.store, copier.broker, diary
      ensures copier.Valid() && Reaches(old(copier.State()), copier.State(), copier.cfg)
      ensures r.Raised? ==> diary.Broken()
      ensures r.Ok? ==> copier.phase == Recovering(old(copier.phase.now), old(copier.phase.rest), NextRow)
      ensures old(diary.heard) <= diary.heard
      ensures r.Ok? ==> old(diary.heard) + [Slept] + [Read(reading)] <= diary.heard
      ensures r.Ok? ==> old(Row(id)).Some? && old(Row(id)).value.status == PlacedStatus(stage)
      ensures r.Ok? ==> Row(id).Some? && TimedOutAs(old(Row(id)).value, Row(id).value, reading, copier.cfg)
    {
      ghost var start := copier.State();
      var result;
      r, reading, result := ApplyTimeout(id, stage);
      ghost var w := copier.State();
      if r.Ok? && result.Accepted? {
        r := WriteTimeout(id, result.state, reading);
        ReachesTransitive(start, w, copier.State(), copier.cfg);
      }
    }

    /** Reads the row and applies the timeout to it. A missing or terminal row would be left alone, but
        recovery holds a placed one. */
    method ApplyTimeout(id: SignalId, stage: Stage) returns (r: Outcome, reading: real, result: TransitionResult)
      requires copier.Valid() && copier.phase.Recovering? && copier.phase.at == ReadTimedOut(id, stage)
      modifies copier, copier.store, copier.broker, diary
      ensures copier.Valid() && Reaches(old(copier.State()), copier.State(), copier.cfg)
      ensures r.Raised? ==> diary.Broken()
      ensures old(diary.heard) <= diary.heard
      ensures r.Ok? ==> diary.heard == old(diary.heard) + [Slept] + [Read(reading)]
      ensures r.Ok? ==> old(Row(id)).Some? && Row(id) == old(Row(id)) && Row(id).value.status == PlacedStatus(stage)
      ensures r.Ok? ==> result.Accepted? && copier.phase == Recovering(
                                              old(copier.phase.now), old(copier.phase.rest),
                                              WriteTimedOut(id, result.state, reading))
      ensures r.Ok? ==> TimedOutAs(Row(id).value, Written(Row(id).value, result.state, reading), reading, copier.cfg)
    {
      ghost var start := copier.State();
      reading, result := 0.0, Rejected(StateIsTerminal);
      HeldRowIsPlaced(start, id, stage);
      Await();
      ghost var w := copier.State();
      var threw := diary.Throws();
      if threw {
        return Raised, reading, result;
      }
      reading := diary.Now();
      if id in copier.store.signals {
        TimeoutTable(copier.store.signals[id], stage, reading, copier.cfg);
        result := Timeouts(copier.store.signals[id], stage, reading);
      }
      Move(copier.phase.rest, if result.Accepted? then WriteTimedOut(id, result.state, reading) else NextRow);
      ReadStep(w, id, stage, reading, result, copier.State());
      copier.Took(w, Recover(Clocked(reading)));
      ReachesTransitive(start, w, copier.State(), copier.cfg);
      r := Ok;
    }

    function Written(row: SignalRow, next: SignalState, reading: real): SignalRow {
      SignalRow(row.signal, next.status, next.errorReason, reading)
    }

    lemma HeldRowIsPlaced(w: World, id: SignalId, stage: Stage)
      requires Reachable(w, copier.cfg) && w.phase.Recovering? && w.phase.at == ReadTimedOut(id, stage)
      ensures HeldByRecovery(w.phase, id)
      ensures id in w.tables.signals && w.tables.signals[id].status == PlacedStatus(stage)
    {
      ReachableInv(w, copier.cfg);
    }

    /** The timeout applied to a state rebuilt from the row: no result and no profit so far. */
    function Timeouts(row: SignalRow, stage: Stage, now: real): TransitionResult {
      Transition(TimedOutState(row, stage, copier.cfg), ResultEvent(Timeout, now), copier.cfg)
    }

    /** The row as it is read decides the result. */
    predicate ReadAs(w: World, id: SignalId, stage: Stage, reading: real, result: TransitionResult) {
      if id in w.tables.signals then result == Timeouts(w.tables.signals[id], stage, reading)
      else result == Rejected(StateIsTerminal)
    }

    lemma ReadStep(w: World, id: SignalId, stage: Stage, reading: real, result: TransitionResult, w': World)
      requires w.phase.Recovering? && w.phase.at == ReadTimedOut(id, stage) && ReadAs(w, id, stage, reading, result)
      requires w' == w.(phase := Recovering(
                          w.phase.now, w.phase.rest,
                          if result.Accepted? then WriteTimedOut(id, result.state, reading) else NextRow))
      ensures w' == Apply(w, Recover(Clocked(reading)), copier.cfg)
    {
    }

    /** Writes the state, and adopts the row again if it is still placed. */
    method WriteTimeout(id: SignalId, next: SignalState, reading: real) returns (r: Outcome)
      requires copier.Valid() && copier.phase.Recovering? && copier.phase.at == WriteTimedOut(id, next, reading)
      modifies copier, copier.store, copier.broker, diary
      ensures copier.Valid() && Reaches(old(copier.State()), copier.State(), copier.cfg)
      ensures r.Raised? ==> diary.Broken()
      ensures r.Ok? ==> copier.phase == Recovering(old(copier.phase.now), old(copier.phase.rest), NextRow)
      ensures r.Ok? ==> old(Row(id)).Some? && Row(id) == Some(Written(old(Row(id)).value, next, reading))
      ensures old(diary.heard) <= diary.heard
    {
      ghost var start := copier.State();
      r := WriteRow(id, next, reading);
      if r.Ok? && IsPlaced(next.status) {
        ghost var w := copier.State();
        r := AdoptAdvanced(id);
        ReachesTransitive(start, w, copier.State(), copier.cfg);
      }
    }

    method WriteRow(id: SignalId, next: SignalState, reading: real) returns (r: Outcome)
      requires copier.Valid() && copier.phase.Recovering? && copier.phase.at == WriteTimedOut(id, next, reading)
      modifies copier, copier.store, copier.broker, diary
      ensures copier.Valid() && Reaches(old(copier.State()), copier.State(), copier.cfg)
      ensures r.Raised? ==> diary.Broken()
      ensures r.Ok? ==> copier.phase == Recovering(old(copier.phase.now), old(copier.phase.rest),
                                                   if IsPlaced(next.status) then ReadAdvanced(id) else NextRow)
      ensures r.Ok? ==> old(Row(id)).Some? && Row(id) == Some(Written(old(Row(id)).value, next, reading))
      ensures old(diary.heard) <= diary.heard && (r.Ok? ==> diary.heard == old(diary.heard) + [Slept])
    {
      ghost var start := copier.State();
      HeldRowExists(start, id);
      Await();
      ghost var w := copier.State();
      r := copier.store.UpdateSignalState(id, next.status, next.errorReason, reading);
      diary.Note(r);
      if r.Raised? {
        return;
      }
      Move(copier.phase.rest, if IsPlaced(next.status) then ReadAdvanced(id) else NextRow);
      copier.Took(w, Recover(Clocked(reading)));
      ReachesTransitive(start, w, copier.State(), copier.cfg);
    }

    lemma HeldRowExists(w: World, id: SignalId)
      requires Reachable(w, copier.cfg) && w.phase.Recovering? && PendingRecovery(w.phase.at) == Some(id)
      ensures HeldByRecovery(w.phase, id) && id in w.tables.signals
    {
      ReachableInv(w, copier.cfg);
    }

    method AdoptAdvanced(id: SignalId) returns (r: Outcome)
      requires copier.Valid() && copier.phase.Recovering? && copier.phase.at == ReadAdvanced(id)
      modifies copier, copier.store, copier.broker, diary
      ensures copier.Valid() && Reaches(old(copier.State()), copier.State(), copier.cfg)
      ensures r.Raised? ==> diary.Broken()
      ensures r.Ok? ==> copier.phase == Recovering(old(copier.phase.now), old(copier.phase.rest), NextRow)
      ensures Row(id) == old(Row(id)) && old(diary.heard) <= diary.heard
    {
      ghost var start := copier.State();
      HeldRowExists(start, id);
      Await();
      ghost var w := copier.State();
      var threw := diary.Throws();
      if threw {
        return Raised;
      }
      Move(copier.phase.rest, NextRow);
      if id in copier.store.signals {
        Adopt(copier.store.signals[id]);
      }
      copier.Took(w, Recover(Clocked(0.0)));
      ReachesTransitive(start, w, copier.State(), copier.cfg);
      r := Ok;
    }

    /** Every processed row that was past its window has ended: lost or expired by its stage. */
    predicate Ended(w: World, rows: seq<SignalRow>, n: nat, now: real)
      requires n <= |rows|
    {
      forall k :: 0 <= k < n && PastWindow(rows[k], now) ==>
        rows[k].signal.id in w.tables.signals && TimedOutEnding(rows[k], w.tables.signals[rows[k].signal.id])
    }

    /** Boot-time recovery. Every row active when the table was read gets exactly one handler, in
        turn, chosen by its window alone; an adopted one gets exactly one supervisor; none is
        abandoned; and, if no clock reading ran behind the first and the tolerance is at most 30 s,
        every timed-out row has ended, lost or expired by its stage. The clock is read after the table,
        and only if there is a row to handle. `worlds` are the worlds between the turns. */
    method RecoverActiveSignals()
      returns (r: Outcome, report: RecoveryReport, rows: seq<SignalRow>, now: real, steady: bool,
          ghost worlds: seq<World>)
      requires copier.Valid() && copier.phase.Booting?
      modifies copier, copier.store, copier.broker, diary
      ensures copier.Valid() && Reaches(old(copier.State()), copier.State(), copier.cfg)
      ensures r.Raised? ==> diary.Broken()
      ensures r.Ok? ==> copier.phase.Running? && Turns(worlds, rows, |rows|, now, copier.cfg)
      ensures r.Ok? ==> Reaches(old(copier.State()), worlds[0], copier.cfg)
      ensures r.Ok? ==> worlds[0].phase == Recovering(now, rows, NextRow) && IsActiveSnapshot(worlds[0].tables, rows)
      ensures r.Ok? ==> copier.State() == worlds[|rows|].(phase := Running)
      ensures r.Ok? && rows != [] ==> old(diary.heard) + [Slept] + [Read(now)] <= diary.heard
      ensures r.Ok? ==> report == Tally(rows, |rows|, now)
      ensures r.Ok? ==> report.abandoned == 0 && report.rehydrated + report.timedOut == |rows|
      ensures r.Ok? && steady && copier.cfg.skewTolerance <= 30.0 ==> Ended(copier.State(), rows, |rows|, now)
    {
      ghost var start := copier.State();
      report, steady, worlds := RecoveryReport(0, 0, 0), true, [];
      r, rows, now := ReadActiveRows();
      ghost var seen := copier.State();
      if r.Ok? {
        r, report, steady, worlds := HandleRows(rows, now);
        ReachesTransitive(start, seen, copier.State(), copier.cfg);
        TallyPartitions(rows, |rows|, now);
      }
      if r.Ok? {
        ghost var w := copier.State();
        FinishBoot();
        ReachesTransitive(start, w, copier.State(), copier.cfg);
      }
    }

    lemma HeardOn(a: seq<Happening>, b: seq<Happening>, c: seq<Happening>)
      requires a <= b && b <= c
      ensures a <= c
    {
    }

    method HandleRows(rows: seq<SignalRow>, now: real)
      returns (r: Outcome, report: RecoveryReport, steady: bool, ghost worlds: seq<World>)
      requires copier.Valid() && copier.phase == Recovering(now, rows, NextRow)
      modifies copier, copier.store, copier.broker, diary
      ensures copier.Valid() && Reaches(old(copier.State()), copier.State(), copier.cfg)
      ensures r.Raised? ==> diary.Broken()
      ensures r.Ok? ==> report == Tally(rows, |rows|, now)
      ensures r.Ok? ==> Turns(worlds, rows, |rows|, now, copier.cfg) && worlds[0] == old(copier.State())
      ensures r.Ok? ==> copier.State() == worlds[|rows|] && copier.phase == Recovering(now, [], NextRow)
      ensures old(diary.heard) <= diary.heard
      ensures r.Ok? && steady && copier.cfg.skewTolerance <= 30.0 ==> Ended(copier.State(), rows, |rows|, now)
    {
      ghost var start := copier.State();
      ReachesSelf(start, copier.cfg);
      report, steady, worlds := RecoveryReport(0, 0, 0), true, [start];
      ProgressStarts(start, rows, now);
      var i := 0;
      while i < |rows|
        invariant 0 <= i <= |rows|
        invariant copier.Valid() && Reaches(start, copier.State(), copier.cfg)
        invariant copier.phase == Recovering(now, rows[i..], NextRow) && old(diary.heard) <= diary.heard
        invariant Progress(copier.State(), worlds, report, steady, rows, i, now) && worlds[0] == start
      {
        ghost var w, before := copier.State(), diary.heard;
        r, report, steady, worlds := NextTurn(rows, i, now, report, steady, worlds);
        ReachesTransitive(start, w, copier.State(), copier.cfg);
        HeardOn(old(diary.heard), before, diary.heard);
        if r.Raised? {
          return;
        }
        i := i + 1;
      }
      r := Ok;
    }

    /** The loop's body. */
    method NextTurn(
        rows: seq<SignalRow>, i: nat, now: real, sofar: RecoveryReport, calm: bool, ghost before: seq<World>)
      returns (r: Outcome, report: RecoveryReport, steady: bool, ghost worlds: seq<World>)
      requires i < |rows| && copier.Valid() && copier.phase == Recovering(now, rows[i..], NextRow)
      requires Progress(copier.State(), before, sofar, calm, rows, i, now)
      modifies copier, copier.store, copier.broker, diary
      ensures copier.Valid() && Reaches(old(copier.State()), copier.State(), copier.cfg)
      ensures r.Raised? ==> diary.Broken()
      ensures r.Ok? ==> copier.phase == Recovering(now, rows[i + 1..], NextRow)
      ensures old(diary.heard) <= diary.heard
      ensures r.Ok? ==> Progress(copier.State(), worlds, report, steady, rows, i + 1, now) && worlds[0] == before[0]
    {
      ghost var w := copier.State();
      report, steady, worlds := sofar, calm, before;
      var handler, reading;
      r, handler, reading := HandleRow(rows[i]);
      if r.Ok? {
        ProgressGrows(w, copier.State(), before, sofar, calm, rows, i, now, reading);
        worlds := before + [copier.State()];
        report := Counted(sofar, handler);
        steady := calm && (handler.TimedOut? ==> reading >= now);
      }
    }

    /** What the loop has achieved after n rows. */
    ghost predicate Progress(
        w: World, worlds: seq<World>, report: RecoveryReport, steady: bool, rows: seq<SignalRow>, n: nat, now: real)
      requires n <= |rows|
    {
      && Turns(worlds, rows, n, now, copier.cfg) && worlds[n] == w && report == Tally(rows, n, now)
      && (steady && copier.cfg.skewTolerance <= 30.0 ==> Ended(w, rows, n, now))
    }

    lemma ProgressStarts(w: World, rows: seq<SignalRow>, now: real)
      ensures Progress(w, [w], RecoveryReport(0, 0, 0), true, rows, 0, now)
    {
    }

    lemma ProgressGrows(
        w: World, w': World, worlds: seq<World>, report: RecoveryReport, steady: bool,
        rows: seq<SignalRow>, n: nat, now: real, reading: real)
      requires n < |rows| && Progress(w, worlds, report, steady, rows, n, now) && Reachable(w, copier.cfg)
      requires Turn(w, w', rows[n], now, copier.cfg)
      requires HandlerOf(rows[n], now).TimedOut? && reading >= now && copier.cfg.skewTolerance <= 30.0 ==>
                 var id := rows[n].signal.id;
                 id in w'.tables.signals && TimedOutEnding(rows[n], w'.tables.signals[id])
      ensures var h := HandlerOf(rows[n], now);
              var still := steady && (h.TimedOut? ==> reading >= now);
              Progress(w', worlds + [w'], Counted(report, h), still, rows, n + 1, now)
    {
      EndedStays(w, w', rows, n, now);
      TurnsGrow(worlds, w', rows, n, now, copier.cfg);
      if steady && copier.cfg.skewTolerance <= 30.0 && (HandlerOf(rows[n], now).TimedOut? ==> reading >= now) {
        EndedGrows(w', rows, n, now);
      }
    }

    lemma EndedGrows(w: World, rows: seq<SignalRow>, n: nat, now: real)
      requires n < |rows| && Ended(w, rows, n, now)
      requires HandlerOf(rows[n], now).TimedOut? ==>
                 var id := rows[n].signal.id;
                 id in w.tables.signals && TimedOutEnding(rows[n], w.tables.signals[id])
      ensures Ended(w, rows, n + 1, now)
    {
    }

    lemma EndedStays(w: World, w': World, rows: seq<SignalRow>, n: nat, now: real)
      requires Reachable(w, copier.cfg) && Reaches(w, w', copier.cfg) && n <= |rows|
      ensures Ended(w, rows, n, now) ==> Ended(w', rows, n, now)
    {
      ReachesMonotone(w, w', copier.cfg);
    }

    method FinishBoot()
      requires copier.Valid() && copier.phase.Recovering? && copier.phase.rest == [] && copier.phase.at.NextRow?
      modifies copier`phase
      ensures copier.Valid() && Reaches(old(copier.State()), copier.State(), copier.cfg)
      ensures copier.State() == old(copier.State()).(phase := Running)
    {
      ghost var w := copier.State();
      copier.phase := Running;
      copier.Took(w, Recover(Clocked(0.0)));
    }

    method ReadActiveRows() returns (r: Outcome, rows: seq<SignalRow>, now: real)
      requires copier.Valid() && copier.phase.Booting?
      modifies copier, copier.store, copier.broker, diary
      ensures copier.Valid() && Reaches(old(copier.State()), copier.State(), copier.cfg)
      ensures r.Raised? ==> diary.Broken()
      ensures r.Ok? ==> copier.phase == Recovering(now, rows, NextRow)
      ensures r.Ok? ==> IsActiveSnapshot(copier.store.Contents(), rows)
      ensures r.Ok? ==> diary.heard == if rows == [] then old(diary.heard) + [Slept]
                                       else old(diary.heard) + [Slept] + [Read(now)]
    {
      ghost var start := copier.State();
      now := 0.0;
      Await();
      ghost var w := copier.State();
      ReachableInv(w, copier.cfg);
      r, rows := copier.store.GetActiveSignals();
      diary.Note(r);
      if r.Raised? {
        return;
      }
      if rows != [] {
        now := diary.Now();
      }
      copier.phase := Recovering(now, rows, NextRow);
      copier.Took(w, ReadActive(rows, now));
      ReachesTransitive(start, w, copier.State(), copier.cfg);
    }

    /** One row of the loop: exactly one handler. */
    method HandleRow(row: SignalRow) returns (r: Outcome, handler: Handler, reading: real)
      requires copier.Valid() && copier.phase.Recovering? && copier.phase.at.NextRow?
      requires copier.phase.rest != [] && row == copier.phase.rest[0]
      modifies copier, copier.store, copier.broker, diary
      ensures copier.Valid() && handler == HandlerOf(row, old(copier.phase.now))
      ensures Reaches(old(copier.State()), copier.State(), copier.cfg) && (r.Raised? ==> diary.Broken())
      ensures r.Ok? ==> Turn(old(copier.State()), copier.State(), row, old(copier.phase.now), copier.cfg)
      ensures r.Ok? ==> copier.phase == Recovering(old(copier.phase.now), old(copier.phase.rest[1..]), NextRow)
      ensures old(diary.heard) <= diary.heard
      ensures r.Ok? && handler.TimedOut? ==> old(diary.heard) + [Slept] + [Read(reading)] <= diary.heard
      ensures r.Ok? && handler.TimedOut? ==>
                Row(row.signal.id).Some? && TimedOutAs(row, Row(row.signal.id).value, reading, copier.cfg)
      ensures r.Ok? && handler.TimedOut? && reading >= old(copier.phase.now) && copier.cfg.skewTolerance <= 30.0
              ==> TimedOutEnding(row, Row(row.signal.id).value)
    {
      ghost var w := copier.State();
      reading := 0.0;
      if IsTerminal(row.status) {
        Move(copier.phase.rest[1..], NextRow);
        copier.Took(w, Recover(Clocked(0.0)));
        return Ok, Abandoned, reading;
      }
      RowIsPlaced(w, row);
      var stage := StageOf(row.status).value;
      var windowEnd := StageFireTime(row.signal, stage) + STAGE_WINDOW;
      if copier.phase.now > windowEnd {
        handler := TimedOut;
        r, reading := TimeOut(row, stage);
        if r.Ok? && reading >= w.phase.now && copier.cfg.skewTolerance <= 30.0 {
          PastWindowEnds(row, copier.store.signals[row.signal.id], w.phase.now, reading, copier.cfg);
        }
      } else {
        handler := Rehydrated;
        Move(copier.phase.rest[1..], NextRow);
        Adopt(row);
        copier.Took(w, Recover(Clocked(0.0)));
        r := Ok;
      }
    }

    lemma RowIsPlaced(w: World, row: SignalRow)
      requires Reachable(w, copier.cfg) && w.phase.Recovering? && w.phase.rest != [] && row == w.phase.rest[0]
      ensures IsPlaced(row.status) && RebuildSignal(row) == row.signal && w.nextTask !in w.tasks
      ensures row.signal.id in w.tables.signals && w.tables.signals[row.signal.id] == row
    {
      ReachableInv(w, copier.cfg);
      AdoptedSignal(row, copier.cfg);
    }

    method TimeOut(row: SignalRow, stage: Stage) returns (r: Outcome, reading: real)
      requires copier.Valid() && copier.phase.Recovering? && copier.phase.at.NextRow?
      requires copier.phase.rest != [] && row == copier.phase.rest[0]
      requires StageOf(row.status) == Some(stage) && PastWindow(row, copier.phase.now)
      modifies copier, copier.store, copier.broker, diary
      ensures copier.Valid() && Reaches(old(copier.State()), copier.State(), copier.cfg)
      ensures r.Raised? ==> diary.Broken()
      ensures r.Ok? ==> copier.phase == Recovering(old(copier.phase.now), old(copier.phase.rest[1..]), NextRow)
      ensures old(diary.heard) <= diary.heard
      ensures r.Ok? ==> old(diary.heard) + [Slept] + [Read(reading)] <= diary.heard
      ensures r.Ok? ==> Row(row.signal.id).Some? && TimedOutAs(row, Row(row.signal.id).value, reading, copier.cfg)
    {
      ghost var w := copier.State();
      RowIsPlaced(w, row);
      Move(copier.phase.rest[1..], ReadTimedOut(row.signal.id, stage));
      copier.Took(w, Recover(Clocked(0.0)));
      ghost var v := copier.State();
      r, reading := RecordTimeout(row.signal.id, stage);
      ReachesTransitive(w, v, copier.State(), copier.cfg);
    }
  }
}
