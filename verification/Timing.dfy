/** Where the four modules' time arithmetic agrees, and where it does not. */
module Timing {
  import opened Gale
  import opened StateMachine
  import opened Tables
  import opened Protocol
  import opened Safety

  const RESULT_GRACE: real := 30.0
  const MIN_TIMEOUT: real := 0.1

  // ----- Schedule coherence -----

  /** When the supervisor fires a stage. */
  function FireTarget(s: Signal, stage: Stage): real {
    match stage
    case Initial => s.triggerInitial
    case Gale1 => s.triggerGale1
    case Gale2 => s.triggerGale2
  }

  /** In any state of any run: the supervisor's target, the trigger recovery rebuilds and the gale
      table coincide, and they are ahead of the machine's own trigger by exactly
      k * (expiration - 300) seconds at stage k. */
  lemma ScheduleDrift(s: Signal, events: seq<Event>, cfg: Config)
    requires ProperSignal(s, cfg)
    ensures
      var st := Fold(FromSignal(s, cfg), events, cfg);
      st.stage.Some? ==>
        var k := Index(st.stage.value) as real;
        && FireTarget(s, st.stage.value) == StageFireTime(s, st.stage.value)
        && FireTarget(s, st.stage.value) - st.triggerUnix == k * (cfg.expirationSeconds as real - 300.0)
    ensures (FireTarget(s, Gale1), FireTarget(s, Gale2)) == ComputeGaleTriggers(s.triggerInitial, cfg.expirationSeconds)
  {
    ReachableStates(s, events, [], cfg);
  }

  /** The machine and the schedule agree in every state of every run exactly when the configured
      expiration is the five minutes the machine hardcodes. */
  lemma SchedulesAgreeIff(s: Signal, cfg: Config)
    requires ProperSignal(s, cfg)
    ensures cfg.expirationSeconds == 300 <==>
              forall events: seq<Event> ::
                var st := Fold(FromSignal(s, cfg), events, cfg);
                st.stage.Some? ==> FireTarget(s, st.stage.value) == st.triggerUnix
  {
    if cfg.expirationSeconds == 300 {
      forall events: seq<Event>
        ensures var st := Fold(FromSignal(s, cfg), events, cfg);
                st.stage.Some? ==> FireTarget(s, st.stage.value) == st.triggerUnix
      {
        ScheduleDrift(s, events, cfg);
      }
    } else {
      var events := [FireEvent(s.triggerInitial), ResultEvent(Loss, s.triggerInitial)];
      var fired := Next(FromSignal(s, cfg), events[0], cfg);
      var lost := Next(fired, events[1], cfg);
      assert events[1..] == [events[1]];
      assert Fold(fired, [events[1]], cfg) == Fold(lost, [events[1]][1..], cfg) == lost;
      assert Fold(FromSignal(s, cfg), events, cfg) == lost;
      assert lost.stage == Some(Gale1) && lost.triggerUnix == s.triggerInitial + 300.0;
    }
  }

  // ----- The guard at fire time -----

  function Abs(x: real): real { if x < 0.0 then -x else x }

  /** The requirement asks, at every stage, that a fire more than the tolerance away from its
      target, on either side, be refused. At the initial stage the machine does so exactly when the
      fire is not early. */
  lemma TwoSidedGuardIff(s: Signal, now: real, cfg: Config)
    ensures
      var st := Next(FromSignal(s, cfg), FireEvent(now), cfg);
      (Abs(now - s.triggerInitial) > cfg.skewTolerance ==> st.status == Error) <==>
          now >= s.triggerInitial - cfg.skewTolerance
  {
  }

  /** The failing family is not empty: for every signal, a second too early still places. */
  lemma EarlyFirePlaces(s: Signal, cfg: Config)
    ensures
      var now := s.triggerInitial - cfg.skewTolerance - 1.0;
      Abs(now - s.triggerInitial) > cfg.skewTolerance
      && Next(FromSignal(s, cfg), FireEvent(now), cfg).status == PlacedInitial
  {
  }

  /** The supervisor's wake-up leads on to a placement. */
  predicate GoesOn(w: World, t: nat) {
    && t in w.tasks && w.tasks[t].Supervisor?
    && match w.tasks[t].pc
       case PlaceTrade(st) => IsPlaced(st.status)
       case PersistFire(fired) => fired.status == PlacedInitial
       case _ => false
  }

  /** The requirement at one wake-up: outside the tolerance nothing is placed. */
  predicate GuardKept(w: World, t: nat, o: Oracle, cfg: Config)
    requires t in w.tasks && w.tasks[t].Supervisor? && w.tasks[t].pc.AwaitFire? && w.tasks[t].pc.state.stage.Some?
  {
    Abs(o.now - FireTarget(w.tasks[t].signal, w.tasks[t].pc.state.stage.value)) > cfg.skewTolerance ==>
      !GoesOn(DoSupervise(w, t, o, cfg), t)
  }

  /** Whole cascade: a pending signal's wake-up meets the requirement exactly when it is not early;
      a gale's has no guard of its own and meets it exactly when the clock happens to be right. */
  lemma FireGuardIff(w: World, t: nat, o: Oracle, cfg: Config)
    requires Reachable(w, cfg) && t in w.tasks && w.tasks[t].Supervisor? && w.tasks[t].pc.AwaitFire?
    ensures w.tasks[t].pc.state.stage.Some?
    ensures
      var st := w.tasks[t].pc.state;
      var target := FireTarget(w.tasks[t].signal, st.stage.value);
      GuardKept(w, t, o, cfg) <==>
        if st.status == Pending then o.now >= target - cfg.skewTolerance
        else Abs(o.now - target) <= cfg.skewTolerance
  {
    ReachableInv(w, cfg);
    assert TaskInv(w, w.tasks[t], cfg);
  }

  /** A gale that wakes up is placed, whatever the clock says then and at the call. */
  lemma GalePlacedAnyTime(w: World, t: nat, o: Oracle, o': Oracle, cfg: Config)
    requires Reachable(w, cfg) && t in w.tasks && w.tasks[t].Supervisor? && w.tasks[t].pc.AwaitFire?
    requires w.tasks[t].pc.state.status != Pending
    ensures
      var s, st := w.tasks[t].signal, w.tasks[t].pc.state;
      var w' := DoSupervise(w, t, o, cfg);
      && st.stage.Some? && t in w'.tasks && w'.tasks[t] == Supervisor(s, PlaceTrade(st))
      && DoSupervise(w', t, o', cfg).log == w.log + [Placement(s.id, st.stage.value, st.amount)]
  {
    ReachableInv(w, cfg);
    assert TaskInv(w, w.tasks[t], cfg);
    assert DoSupervise(w, t, o, cfg) == SetPc(w, t, PlaceTrade(w.tasks[t].pc.state));
  }

  // ----- Result timeouts -----

  /** `_wait_for_stage_result`: how long a supervisor waits from the reading `start`. */
  function WaitTimeout(expiresAt: real, start: real): real {
    var t := expiresAt - start + RESULT_GRACE;
    if t < MIN_TIMEOUT then MIN_TIMEOUT else t
  }

  /** A wait timer: the reading it was set at, and how long it runs. */
  datatype Timer = Timer(start: real, timeout: real)

  /** The wait timer went off: the clock advanced by at least the timeout. */
  predicate TimerExpired(expiresAt: real, start: real, now: real) {
    now >= start + WaitTimeout(expiresAt, start)
  }

  /** Clipped or not, a timer expiry is seen at least the grace period after the trade expired. */
  lemma TimerIsLate(expiresAt: real, start: real, now: real)
    requires TimerExpired(expiresAt, start, now)
    ensures now >= expiresAt + 30.0
  {
  }

  /** What a timeout leads to when it really is the timer that expired. */
  function AfterTimeout(st: SignalState, now: real, cfg: Config): SignalState {
    AdvanceAfterResult(st, Timeout, now, cfg)
  }

  /** Whether some real timeout at this stage can still open the next gale. A wait starts after its
      own trade was fired. */
  ghost predicate TimeoutCanGale(st: SignalState, s: Signal, cfg: Config)
    requires st.stage.Some?
  {
    exists start: real, now: real ::
      && start >= FireTarget(s, st.stage.value) && TimerExpired(st.expiresAt, start, now)
      && IsPlaced(AfterTimeout(st, now, cfg).status)
  }

  /** A real timeout can open the next gale under exactly these configurations. The earliest one is
      30 s after the machine's expiry of the trade, or 0.1 s after the wait began. */
  lemma TimeoutGaleIff(st: SignalState, s: Signal, cfg: Config)
    requires StateInv(st, s, cfg) && IsPlaced(st.status) && ProperSignal(s, cfg)
    ensures TimeoutCanGale(st, s, cfg) <==>
              match st.status
              case PlacedInitial => cfg.expirationSeconds as real + 30.0 <= 300.0 + cfg.skewTolerance
              case PlacedGale1 =>
                && 30.0 <= cfg.skewTolerance
                && cfg.expirationSeconds as real + 0.1 <= 600.0 + cfg.skewTolerance
              case _ => false
  {
    var start := FireTarget(s, st.stage.value);
    var now := start + WaitTimeout(st.expiresAt, start);
    assert TimerExpired(st.expiresAt, start, now);
    assert IsPlaced(AfterTimeout(st, now, cfg).status) ==> TimeoutCanGale(st, s, cfg);
  }

  /** With a tolerance under 30 s and an expiration of at least five minutes, a real timeout ends
      the cascade: expired before the last stage, a plain loss at the last. */
  lemma RealTimeoutsNeverGale(st: SignalState, start: real, now: real, s: Signal, cfg: Config)
    requires StateInv(st, s, cfg) && IsPlaced(st.status) && s.expirationSeconds == cfg.expirationSeconds
    requires TimerExpired(st.expiresAt, start, now)
    requires cfg.skewTolerance < 30.0 && cfg.expirationSeconds >= 300
    ensures
      var next := AfterTimeout(st, now, cfg);
      if st.status == PlacedGale2 then next.status == DoneLoss
      else next.status == Error && next.errorReason == Some(SignalExpired)
  {
  }

  /** A loss reported no earlier than the initial trade's expiry can open the first gale exactly
      when the expiration fits the machine's five minutes plus the tolerance. */
  lemma LossAtExpiryGalesIff(st: SignalState, s: Signal, cfg: Config)
    requires StateInv(st, s, cfg) && st.status == PlacedInitial
    ensures (exists now: real :: now >= st.expiresAt && IsPlaced(AdvanceAfterResult(st, Loss, now, cfg).status))
            <==> s.expirationSeconds as real <= 300.0 + cfg.skewTolerance
  {
    if s.expirationSeconds as real <= 300.0 + cfg.skewTolerance {
      assert IsPlaced(AdvanceAfterResult(st, Loss, st.expiresAt, cfg).status);
    }
  }

  // ----- Recovery's timed-out branch -----

  predicate PastWindow(row: SignalRow, now: real) {
    StageOf(row.status).Some? && now > StageFireTime(row.signal, StageOf(row.status).value) + STAGE_WINDOW
  }

  /** What `record_timeout` writes for a row, at its own clock reading. */
  function TimedOutNext(row: SignalRow, now: real, cfg: Config): SignalState
    requires StageOf(row.status).Some?
  {
    AdvanceAfterResult(TimedOutState(row, StageOf(row.status).value, cfg), Timeout, now, cfg)
  }

  /** What a timeout applied at `reading` leaves of a placed row: lost after the last stage, otherwise
      expired once the next stage's instant and the tolerance have passed, and the next stage before. */
  predicate TimedOutAs(was: SignalRow, row: SignalRow, reading: real, cfg: Config) {
    var t, e := was.signal.triggerInitial, was.signal.expirationSeconds as real;
    match was.status
    case PlacedInitial =>
      row == if reading > t + 300.0 + cfg.skewTolerance then SignalRow(was.signal, Error, Some(SignalExpired), reading)
             else SignalRow(was.signal, PlacedGale1, None, reading)
    case PlacedGale1 =>
      row == if reading > t + e + 300.0 + cfg.skewTolerance
             then SignalRow(was.signal, Error, Some(SignalExpired), reading)
             else SignalRow(was.signal, PlacedGale2, None, reading)
    case PlacedGale2 => row == SignalRow(was.signal, DoneLoss, None, reading)
    case _ => false
  }

  /** `record_timeout` applies a timeout to the stage the row waits on. */
  lemma TimeoutTable(row: SignalRow, stage: Stage, reading: real, cfg: Config)
    requires row.status == PlacedStatus(stage)
    ensures var r := Transition(TimedOutState(row, stage, cfg), ResultEvent(Timeout, reading), cfg);
            r.Accepted? && TimedOutAs(row, SignalRow(row.signal, r.state.status, r.state.errorReason, reading),
                reading, cfg)
  {
    ResultTable(TimedOutState(row, stage, cfg), Timeout, reading, cfg);
  }

  /** Past recovery's window, with a tolerance of at most 30 s, only the endings are left. */
  lemma PastWindowEnds(was: SignalRow, row: SignalRow, now: real, reading: real, cfg: Config)
    requires PastWindow(was, now) && reading >= now && cfg.skewTolerance <= 30.0 && TimedOutAs(was, row, reading, cfg)
    ensures TimedOutEnding(was, row)
  {
  }

  /** Lost if it waited on the last stage, expired otherwise. */
  predicate TimedOutEnding(was: SignalRow, row: SignalRow) {
    && row.signal == was.signal
    && if was.status == PlacedGale2 then row.status == DoneLoss && row.errorReason == None
       else row.status == Error && row.errorReason == Some(SignalExpired)
  }

  /** A row recovery finds past its window is always finished, whatever the expiration. */
  lemma TimedOutRowsFinish(row: SignalRow, now: real, later: real, cfg: Config)
    requires PastWindow(row, now) && later >= now && cfg.skewTolerance <= 30.0
    ensures IsTerminal(TimedOutNext(row, later, cfg).status)
    ensures Transition(TimedOutState(row, StageOf(row.status).value, cfg), ResultEvent(Timeout, later), cfg)
            == Accepted(TimedOutNext(row, later, cfg))
  {
  }

  /** The re-adopt branch is dead exactly when the tolerance is at most 30 s. */
  lemma ReadoptUnreachableIff(row: SignalRow, cfg: Config)
    requires row.status == PlacedInitial || row.status == PlacedGale1
    ensures cfg.skewTolerance <= 30.0 <==>
              forall now: real, later: real :: PastWindow(row, now) && later >= now ==>
                                   !IsPlaced(TimedOutNext(row, later, cfg).status)
  {
    if cfg.skewTolerance > 30.0 {
      var now := StageFireTime(row.signal, StageOf(row.status).value) + 300.0 + cfg.skewTolerance;
      assert PastWindow(row, now) && IsPlaced(TimedOutNext(row, now, cfg).status);
    }
  }
}
