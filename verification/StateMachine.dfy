/** The pure cascade state machine of `domain/state.py`. */
module StateMachine {
  import opened Gale

  datatype Status =
    | Pending | PlacedInitial | PlacedGale1 | PlacedGale2
    | DoneWin | DoneLoss | DoneTie | Error

  datatype StageResult = Win | Loss | Tie | Timeout | Failed

  datatype ErrorReason = SignalExpired | BrokerUnavailable | DailyLimitHit | Unknown

  datatype Event =
    | FireEvent(now: real)
    | ResultEvent(result: StageResult, now: real)

  /** Identity of a signal: the four fields its hash is taken over (see `SignalIds`). */
  datatype SignalId = SignalId(pair: string, minuteOfDay: int, direction: Direction, date: int)

  datatype Signal = Signal(
    id: SignalId,
    expirationSeconds: int,
    receivedAt: real,
    sourceMessageId: int,
    triggerInitial: real,
    triggerGale1: real,
    triggerGale2: real
  )

  datatype SignalState = SignalState(
    signalId: SignalId,
    status: Status,
    stage: Option<Stage>,
    amount: real,
    triggerUnix: real,
    expiresAt: real,
    result: Option<StageResult>,
    cumulativePnl: real,
    errorReason: Option<ErrorReason>
  )

  datatype Rejection = StateIsTerminal | AlreadyPlaced | NotPlaced | PendingButNotInitial

  datatype TransitionResult = Accepted(state: SignalState) | Rejected(reason: Rejection)

  const PAYOUT: real := 0.92

  function FromSignal(signal: Signal, cfg: Config): SignalState {
    SignalState(
      signal.id, Pending, Some(Initial), AmountForStage(Initial, cfg),
      signal.triggerInitial, signal.triggerInitial + signal.expirationSeconds as real,
      None, 0.0, None)
  }

  predicate IsTerminal(s: Status) { s in {DoneWin, DoneLoss, DoneTie, Error} }

  predicate IsPlaced(s: Status) { s in {PlacedInitial, PlacedGale1, PlacedGale2} }

  predicate LossLike(r: StageResult) { r in {Loss, Tie, Timeout} }

  function PlacedStatus(stage: Stage): Status {
    match stage
    case Initial => PlacedInitial
    case Gale1 => PlacedGale1
    case Gale2 => PlacedGale2
  }

  predicate WindowPassed(s: SignalState, now: real, tolerance: real) {
    now > s.triggerUnix + tolerance
  }

  /** `_stage_pnl`. */
  function StagePnl(amount: real, result: StageResult): real {
    if result == Win then amount * PAYOUT
    else if LossLike(result) then -amount
    else 0.0
  }

  function ToPlaced(s: SignalState, next: Stage, result: StageResult, cumulative: real, cfg: Config): SignalState {
    var trigger := s.triggerUnix + 300.0;
    SignalState(
      s.signalId, PlacedStatus(next), Some(next), AmountForStage(next, cfg),
      trigger, trigger + 300.0, Some(result), cumulative, None)
  }

  function NextStageTrigger(s: SignalState): real {
    if s.stage == Some(Initial) then s.triggerUnix + 300.0
    else if s.stage == Some(Gale1) then s.triggerUnix + 300.0
    else s.triggerUnix
  }

  function ToTerminal(s: SignalState, terminal: Status, result: StageResult, cumulative: real): SignalState {
    SignalState(
      s.signalId, terminal, None, 0.0, s.triggerUnix, s.expiresAt, Some(result), cumulative, None)
  }

  function ToError(s: SignalState, reason: ErrorReason, result: Option<StageResult>, cumulative: real): SignalState {
    SignalState(
      s.signalId, Error, None, 0.0, s.triggerUnix, s.expiresAt, result, cumulative, Some(reason))
  }

  function AdvanceAfterResult(s: SignalState, result: StageResult, now: real, cfg: Config): SignalState {
    var cumulative := s.cumulativePnl + StagePnl(s.amount, result);
    if result == Win then
      ToTerminal(s, DoneWin, result, cumulative)
    else if LossLike(result) && s.stage == Some(Gale2) then
      ToTerminal(s, DoneLoss, result, cumulative)
    else if LossLike(result) && now > NextStageTrigger(s) + cfg.skewTolerance then
      ToError(s, SignalExpired, Some(result), cumulative)
    else if LossLike(result) && s.stage == Some(Initial) then
      ToPlaced(s, Gale1, result, cumulative, cfg)
    else if LossLike(result) && s.stage == Some(Gale1) then
      ToPlaced(s, Gale2, result, cumulative, cfg)
    else if result == Failed then
      ToError(s, BrokerUnavailable, Some(result), cumulative)
    else
      ToError(s, Unknown, Some(result), cumulative)
  }

  function Transition(s: SignalState, event: Event, cfg: Config): TransitionResult {
    if IsTerminal(s.status) then
      Rejected(StateIsTerminal)
    else if event.FireEvent? then
      if s.status != Pending then
        Rejected(AlreadyPlaced)
      else if WindowPassed(s, event.now, cfg.skewTolerance) then
        Accepted(ToError(s, SignalExpired, None, s.cumulativePnl))
      else if s.stage == Some(Initial) then
        Accepted(s.(status := PlacedInitial, stage := Some(Initial), result := None, errorReason := None))
      else
        Rejected(PendingButNotInitial)
    else if !IsPlaced(s.status) then
      Rejected(NotPlaced)
    else
      Accepted(AdvanceAfterResult(s, event.result, event.now, cfg))
  }

  /** What a driver that ignores rejected events sees. */
  function Next(s: SignalState, event: Event, cfg: Config): SignalState {
    match Transition(s, event, cfg)
    case Accepted(s') => s'
    case Rejected(_) => s
  }

  function Fold(s: SignalState, events: seq<Event>, cfg: Config): SignalState
    decreases |events|
  {
    if events == [] then s else Fold(Next(s, events[0], cfg), events[1..], cfg)
  }

  /** Number of events of the run that the machine accepted. */
  function AcceptedCount(s: SignalState, events: seq<Event>, cfg: Config): nat
    decreases |events|
  {
    if events == [] then 0
    else (if Transition(s, events[0], cfg).Accepted? then 1 else 0)
         + AcceptedCount(Next(s, events[0], cfg), events[1..], cfg)
  }

  // ----- The transition table -----

  /** Over: no stage and nothing at stake, the schedule left as it was. */
  predicate EndedAs(s: SignalState, next: SignalState, status: Status, reason: Option<ErrorReason>) {
    && next.status == status && next.errorReason == reason && next.stage == None && next.amount == 0.0
    && next.triggerUnix == s.triggerUnix && next.expiresAt == s.expiresAt
  }

  /** On to the next stage, five minutes later. */
  predicate MovedOnTo(s: SignalState, next: SignalState, status: Status, stage: Stage, amount: real) {
    && next.status == status && next.errorReason == None && next.stage == Some(stage) && next.amount == amount
    && next.triggerUnix == s.triggerUnix + 300.0 && next.expiresAt == s.triggerUnix + 600.0
  }

  /** What a result makes of a placed state, in plain numbers: 92 hundredths of the stake for a win,
      the whole of it lost otherwise, and a broker failure costs nothing. */
  predicate AfterResult(s: SignalState, result: StageResult, now: real, next: SignalState, cfg: Config) {
    && next.signalId == s.signalId && next.result == Some(result)
    && match result
       case Win => next.cumulativePnl == s.cumulativePnl + s.amount * 0.92 && EndedAs(s, next, DoneWin, None)
       case Failed => next.cumulativePnl == s.cumulativePnl && EndedAs(s, next, Error, Some(BrokerUnavailable))
       case _ =>
         && next.cumulativePnl == s.cumulativePnl - s.amount
         && if s.stage == Some(Gale2) then EndedAs(s, next, DoneLoss, None)
            else if now > s.triggerUnix + 300.0 + cfg.skewTolerance then EndedAs(s, next, Error, Some(SignalExpired))
            else if s.stage == Some(Initial) then MovedOnTo(s, next, PlacedGale1, Gale1, cfg.amountGale1)
            else MovedOnTo(s, next, PlacedGale2, Gale2, cfg.amountGale2)
  }

  /** What a fire makes of a pending initial state. */
  predicate AfterFire(s: SignalState, now: real, next: SignalState, cfg: Config) {
    && next.signalId == s.signalId && next.result == None && next.cumulativePnl == s.cumulativePnl
    && if now > s.triggerUnix + cfg.skewTolerance then EndedAs(s, next, Error, Some(SignalExpired))
       else
         && next.status == PlacedInitial && next.errorReason == None && next.stage == Some(Initial)
         && next.amount == s.amount && next.triggerUnix == s.triggerUnix && next.expiresAt == s.expiresAt
  }

  lemma ResultTable(s: SignalState, result: StageResult, now: real, cfg: Config)
    requires s.stage.Some? && IsPlaced(s.status)
    ensures var r := Transition(s, ResultEvent(result, now), cfg);
            r.Accepted? && AfterResult(s, result, now, r.state, cfg)
  {
    var next := AdvanceAfterResult(s, result, now, cfg);
    assert s.amount * PAYOUT == s.amount * 0.92;
    if LossLike(result) && s.stage != Some(Gale2) {
      if now > s.triggerUnix + 300.0 + cfg.skewTolerance {
        assert EndedAs(s, next, Error, Some(SignalExpired));
      } else if s.stage == Some(Initial) {
        assert MovedOnTo(s, next, PlacedGale1, Gale1, cfg.amountGale1);
      } else {
        assert s.stage.value.Gale1?;
        assert MovedOnTo(s, next, PlacedGale2, Gale2, cfg.amountGale2);
      }
    }
  }

  /** Every answer of the machine, field by field. */
  lemma TransitionTable(s: SignalState, event: Event, cfg: Config)
    requires s.stage.Some? || s.status == DoneWin || s.status == DoneLoss || s.status == DoneTie || s.status == Error
    ensures var r := Transition(s, event, cfg);
            match s.status
            case Pending =>
              if event.ResultEvent? then r == Rejected(NotPlaced)
              else if s.stage == Some(Initial) then r.Accepted? && AfterFire(s, event.now, r.state, cfg)
              else if event.now > s.triggerUnix + cfg.skewTolerance
              then r.Accepted? && EndedAs(s, r.state, Error, Some(SignalExpired)) && r.state.result == None
              else r == Rejected(PendingButNotInitial)
            case DoneWin => r == Rejected(StateIsTerminal)
            case DoneLoss => r == Rejected(StateIsTerminal)
            case DoneTie => r == Rejected(StateIsTerminal)
            case Error => r == Rejected(StateIsTerminal)
            case _ =>
              if event.FireEvent? then r == Rejected(AlreadyPlaced)
              else r.Accepted? && AfterResult(s, event.result, event.now, r.state, cfg)
  {
    if IsPlaced(s.status) && event.ResultEvent? {
      ResultTable(s, event.result, event.now, cfg);
    }
  }

  // ----- Inductive invariant and strict progress -----

  /** Events a state can still accept: the longest run is fire, loss, loss, loss. */
  function Rank(s: Status): nat {
    match s
    case Pending => 4
    case PlacedInitial => 3
    case PlacedGale1 => 2
    case PlacedGale2 => 1
    case _ => 0
  }

  /** The stakes of the first k stages. */
  function StakesBefore(k: nat, cfg: Config): real
    requires k <= 3
  {
    if k == 0 then 0.0 else StakesBefore(k - 1, cfg) + AmountForStage(StageAt(k - 1), cfg)
  }

  /** Everything a reachable state satisfies. */
  predicate StateInv(s: SignalState, signal: Signal, cfg: Config) {
    && s.signalId == signal.id
    && (s.stage.None? <==> IsTerminal(s.status))
    && s.status != DoneTie
    && (s.errorReason.Some? <==> s.status == Error)
    && s.errorReason != Some(Unknown) && s.errorReason != Some(DailyLimitHit)
    && (s.status == Pending ==> s.stage == Some(Initial) && s.result.None?)
    && (s.stage.Some? ==>
          var stage := s.stage.value;
          && (s.status == Pending || s.status == PlacedStatus(stage))
          && s.amount == AmountForStage(stage, cfg)
          && s.triggerUnix == signal.triggerInitial + 300.0 * Index(stage) as real
          && s.expiresAt == s.triggerUnix
             + (if stage.Initial? then signal.expirationSeconds as real else 300.0)
          && s.cumulativePnl == -StakesBefore(Index(stage), cfg))
  }

  lemma FromSignalInv(signal: Signal, cfg: Config)
    ensures StateInv(FromSignal(signal, cfg), signal, cfg)
  {
  }

  /** Every accepted event keeps the invariant and strictly lowers the rank; the machine
      accepts exactly a fire while pending and a result while placed. */
  lemma TransitionKeepsInv(s: SignalState, event: Event, signal: Signal, cfg: Config)
    requires StateInv(s, signal, cfg)
    ensures Transition(s, event, cfg).Accepted? <==>
            (event.FireEvent? && s.status == Pending) || (event.ResultEvent? && IsPlaced(s.status))
    ensures Transition(s, event, cfg).Accepted? ==>
              && StateInv(Transition(s, event, cfg).state, signal, cfg)
              && Rank(Transition(s, event, cfg).state.status) < Rank(s.status)
  {
  }

  lemma {:induction false} FoldKeepsInv(s: SignalState, events: seq<Event>, signal: Signal, cfg: Config)
    requires StateInv(s, signal, cfg)
    ensures StateInv(Fold(s, events, cfg), signal, cfg)
    ensures AcceptedCount(s, events, cfg) + Rank(Fold(s, events, cfg).status) <= Rank(s.status)
    ensures IsTerminal(s.status) ==> Fold(s, events, cfg) == s
    decreases |events|
  {
    if events != [] {
      TransitionKeepsInv(s, events[0], signal, cfg);
      FoldKeepsInv(Next(s, events[0], cfg), events[1..], signal, cfg);
    }
  }

  /** Whatever happens to a signal, in any order, its state satisfies the invariant, at most
      four events were ever accepted, and once terminal nothing changes it. */
  lemma ReachableStates(signal: Signal, before: seq<Event>, after: seq<Event>, cfg: Config)
    ensures StateInv(Fold(FromSignal(signal, cfg), before, cfg), signal, cfg)
    ensures AcceptedCount(FromSignal(signal, cfg), before, cfg) <= 4
    ensures IsTerminal(Fold(FromSignal(signal, cfg), before, cfg).status) ==>
              Fold(FromSignal(signal, cfg), before + after, cfg) == Fold(FromSignal(signal, cfg), before, cfg)
  {
    var s := FromSignal(signal, cfg);
    FromSignalInv(signal, cfg);
    FoldKeepsInv(s, before, signal, cfg);
    FoldAppend(s, before, after, cfg);
    FoldKeepsInv(Fold(s, before, cfg), after, signal, cfg);
  }

  lemma {:induction false} FoldAppend(s: SignalState, a: seq<Event>, b: seq<Event>, cfg: Config)
    ensures Fold(s, a + b, cfg) == Fold(Fold(s, a, cfg), b, cfg)
    decreases |a|
  {
    if a == [] {
      assert a + b == b;
    } else {
      assert (a + b)[1..] == a[1..] + b;
      FoldAppend(Next(s, a[0], cfg), a[1..], b, cfg);
    }
  }

  // ----- Closed form of any run -----

  /** A result as the broker reported it, and when. */
  datatype Report = Report(result: StageResult, now: real)

  function OnlyReports(events: seq<Event>): seq<Report> {
    if events == [] then []
    else if events[0].ResultEvent? then [Report(events[0].result, events[0].now)] + OnlyReports(events[1..])
    else OnlyReports(events[1..])
  }

  /** The reports that matter: those delivered after the first fire. */
  function ReportsAfterFire(events: seq<Event>): seq<Report> {
    if events == [] then []
    else if events[0].FireEvent? then OnlyReports(events[1..])
    else ReportsAfterFire(events[1..])
  }

  /** The clock reading of the first fire, if there is one. */
  function FirstFire(events: seq<Event>): Option<real> {
    if events == [] then None
    else if events[0].FireEvent? then Some(events[0].now)
    else FirstFire(events[1..])
  }

  /** Latest instant at which a loss at stage k still opens the next stage. */
  function GaleDeadline(k: nat, trigger: real, cfg: Config): real {
    trigger + 300.0 * (k + 1) as real + cfg.skewTolerance
  }

  /** The first k reports are all losses, each in time for the next gale. */
  predicate LostInWindow(rs: seq<Report>, k: nat, trigger: real, cfg: Config) {
    && k <= |rs|
    && forall j :: 0 <= j < k ==>
         LossLike(rs[j].result) && (j < 2 ==> rs[j].now <= GaleDeadline(j, trigger, cfg))
  }

  datatype Verdict =
    | NeverFired | FiredLate                   // nothing was ever placed
    | WonAt(k: nat) | LostAll                  // natural endings
    | LateAfter(k: nat) | BrokerFailedAt(k: nat) | WaitingAt(k: nat)

  /** Which verdict a list of reports deserves: no state and no recursion. */
  predicate Deserves(rs: seq<Report>, v: Verdict, trigger: real, cfg: Config) {
    match v
    case WonAt(k) => k < 3 && k < |rs| && LostInWindow(rs, k, trigger, cfg) && rs[k].result == Win
    case LostAll => LostInWindow(rs, 3, trigger, cfg)
    case LateAfter(k) =>
      && k < 2 && k < |rs| && LostInWindow(rs, k, trigger, cfg)
      && LossLike(rs[k].result) && rs[k].now > GaleDeadline(k, trigger, cfg)
    case BrokerFailedAt(k) => k < 3 && k < |rs| && LostInWindow(rs, k, trigger, cfg) && rs[k].result == Failed
    case WaitingAt(k) => k < 3 && k == |rs| && LostInWindow(rs, k, trigger, cfg)
    case _ => false
  }

  /** Which verdict a whole event list deserves. */
  predicate Describes(v: Verdict, events: seq<Event>, trigger: real, cfg: Config) {
    match FirstFire(events)
    case None => v == NeverFired
    case Some(t) =>
      if t > trigger + cfg.skewTolerance then v == FiredLate
      else Deserves(ReportsAfterFire(events), v, trigger, cfg)
  }

  /** What the machine's final state looks like under each verdict. */
  predicate Shows(s: SignalState, v: Verdict, cfg: Config) {
    match v
    case NeverFired => s.status == Pending && s.cumulativePnl == 0.0
    case FiredLate => s.status == Error && s.errorReason == Some(SignalExpired) && s.cumulativePnl == 0.0
    case WonAt(k) =>
      && k < 3 && s.status == DoneWin
      && s.cumulativePnl == PAYOUT * AmountForStage(StageAt(k), cfg) - StakesBefore(k, cfg)
    case LostAll => s.status == DoneLoss && s.cumulativePnl == -TotalStake(cfg)
    case LateAfter(k) =>
      && k < 2 && s.status == Error && s.errorReason == Some(SignalExpired)
      && s.cumulativePnl == -StakesBefore(k + 1, cfg)
    case BrokerFailedAt(k) =>
      && k < 3 && s.status == Error && s.errorReason == Some(BrokerUnavailable)
      && s.cumulativePnl == -StakesBefore(k, cfg)
    case WaitingAt(k) =>
      k < 3 && s.status == PlacedStatus(StageAt(k)) && s.cumulativePnl == -StakesBefore(k, cfg)
  }

  lemma StakesTotal(cfg: Config)
    ensures StakesBefore(1, cfg) == cfg.amountInitial
    ensures StakesBefore(2, cfg) == cfg.amountInitial + cfg.amountGale1
    ensures StakesBefore(3, cfg) == TotalStake(cfg)
  {
  }

  /** The verdict a report at stage k forces on its own; WaitingAt(k + 1) means the cascade goes on. */
  function VerdictAt(r: Report, k: nat, trigger: real, cfg: Config): Verdict {
    if r.result == Win then WonAt(k)
    else if r.result == Failed then BrokerFailedAt(k)
    else if k >= 2 then LostAll
    else if r.now > GaleDeadline(k, trigger, cfg) then LateAfter(k)
    else WaitingAt(k + 1)
  }

  lemma ReportStep(s: SignalState, k: nat, r: Report, signal: Signal, cfg: Config)
    requires StateInv(s, signal, cfg) && k < 3 && s.status == PlacedStatus(StageAt(k))
    ensures
      var s' := Next(s, ResultEvent(r.result, r.now), cfg);
      && StateInv(s', signal, cfg)
      && Shows(s', VerdictAt(r, k, signal.triggerInitial, cfg), cfg)
  {
    StakesTotal(cfg);
    TransitionKeepsInv(s, ResultEvent(r.result, r.now), signal, cfg);
  }

  /** After k losses in window, the next report decides on its own or is one more of them. */
  lemma ReportDecides(rs: seq<Report>, k: nat, trigger: real, cfg: Config)
    requires k < 3 && k < |rs| && LostInWindow(rs, k, trigger, cfg)
    ensures var v := VerdictAt(rs[k], k, trigger, cfg);
            if v.WaitingAt? then v.k == k + 1 < 3 && LostInWindow(rs, k + 1, trigger, cfg)
            else Deserves(rs, v, trigger, cfg)
  {
  }

  /** A state placed at stage k, after k losses in window, ends as the remaining reports say. */
  lemma {:induction false} FoldFromPlaced(
      s: SignalState, rs: seq<Report>, k: nat, events: seq<Event>, signal: Signal, cfg: Config)
    returns (v: Verdict)
    requires StateInv(s, signal, cfg) && k < 3 && s.status == PlacedStatus(StageAt(k))
    requires LostInWindow(rs, k, signal.triggerInitial, cfg)
    requires rs[k..] == OnlyReports(events)
    ensures Shows(Fold(s, events, cfg), v, cfg)
    ensures Deserves(rs, v, signal.triggerInitial, cfg)
    decreases |events|
  {
    if events == [] {
      v := WaitingAt(k);
    } else if events[0].FireEvent? {
      v := FoldFromPlaced(s, rs, k, events[1..], signal, cfg);
    } else {
      var r := Report(events[0].result, events[0].now);
      assert rs[k] == rs[k..][0] == r;
      assert rs[k + 1..] == rs[k..][1..];
      ReportStep(s, k, r, signal, cfg);
      var s' := Next(s, events[0], cfg);
      v := VerdictAt(r, k, signal.triggerInitial, cfg);
      ReportDecides(rs, k, signal.triggerInitial, cfg);
      if v.WaitingAt? {
        v := FoldFromPlaced(s', rs, k + 1, events[1..], signal, cfg);
      } else {
        FoldKeepsInv(s', events[1..], signal, cfg);
      }
    }
  }

  lemma {:induction false} FoldFromPending(s: SignalState, events: seq<Event>, signal: Signal, cfg: Config)
    returns (v: Verdict)
    requires StateInv(s, signal, cfg) && s.status == Pending
    ensures Shows(Fold(s, events, cfg), v, cfg) && Describes(v, events, signal.triggerInitial, cfg)
    decreases |events|
  {
    if events == [] {
      v := NeverFired;
    } else {
      TransitionKeepsInv(s, events[0], signal, cfg);
      var s' := Next(s, events[0], cfg);
      if events[0].ResultEvent? {
        v := FoldFromPending(s, events[1..], signal, cfg);
      } else if s'.status == Error {
        FoldKeepsInv(s', events[1..], signal, cfg);
        v := FiredLate;
      } else {
        v := FoldFromPlaced(s', OnlyReports(events[1..]), 0, events[1..], signal, cfg);
      }
    }
  }

  /** An event list deserves at most one verdict, so the closed form below decides the run. */
  lemma VerdictUnique(u: Verdict, v: Verdict, events: seq<Event>, trigger: real, cfg: Config)
    requires Describes(u, events, trigger, cfg) && Describes(v, events, trigger, cfg)
    ensures u == v
  {
  }

  lemma VerdictExists(signal: Signal, events: seq<Event>, cfg: Config) returns (v: Verdict)
    ensures Describes(v, events, signal.triggerInitial, cfg)
    ensures Shows(Fold(FromSignal(signal, cfg), events, cfg), v, cfg)
    ensures forall u :: Describes(u, events, signal.triggerInitial, cfg) ==> u == v
  {
    FromSignalInv(signal, cfg);
    v := FoldFromPending(FromSignal(signal, cfg), events, signal, cfg);
    forall u | Describes(u, events, signal.triggerInitial, cfg) ensures u == v {
      VerdictUnique(u, v, events, signal.triggerInitial, cfg);
    }
  }

  /** Closed form: after any event list at all, status, error reason and total are exactly those
      of the one verdict the events deserve. */
  lemma ClosedForm(signal: Signal, events: seq<Event>, cfg: Config)
    ensures
      var s := Fold(FromSignal(signal, cfg), events, cfg);
      var t := signal.triggerInitial;
      && (forall v :: Describes(v, events, t, cfg) ==> Shows(s, v, cfg))
      && (s.status == Pending <==> Describes(NeverFired, events, t, cfg))
      && (s.status == DoneWin <==> exists k: nat :: Describes(WonAt(k), events, t, cfg))
      && (s.status == DoneLoss <==> Describes(LostAll, events, t, cfg))
      && (s.errorReason == Some(SignalExpired) <==>
            || Describes(FiredLate, events, t, cfg)
            || exists k: nat :: Describes(LateAfter(k), events, t, cfg))
      && (s.errorReason == Some(BrokerUnavailable) <==> exists k: nat :: Describes(BrokerFailedAt(k), events, t, cfg))
      && (forall k: nat :: k < 3 ==>
         (s.status == PlacedStatus(StageAt(k)) <==> Describes(WaitingAt(k), events, t, cfg)))
  {
    var v := VerdictExists(signal, events, cfg);
    ReachableStates(signal, events, [], cfg);
  }

  // ----- Money -----

  function Max(a: real, b: real): real { if a < b then b else a }

  /** No run loses more than the three stakes or wins more than one payout. */
  lemma PnlBounds(signal: Signal, events: seq<Event>, cfg: Config)
    ensures
      -TotalStake(cfg) <= Fold(FromSignal(signal, cfg), events, cfg).cumulativePnl
      <= PAYOUT * Max(cfg.amountInitial, Max(cfg.amountGale1, cfg.amountGale2))
  {
    var v := VerdictExists(signal, events, cfg);
    StakesTotal(cfg);
  }

  /** Each stake pays for the ones it follows. */
  predicate StakesRecover(cfg: Config) {
    && PAYOUT * cfg.amountGale1 > cfg.amountInitial
    && PAYOUT * cfg.amountGale2 > cfg.amountInitial + cfg.amountGale1
  }

  /** A run that wins at stage k: fire on time, lose k times on time, win. */
  function WinningRun(signal: Signal, k: nat): seq<Event> {
    [FireEvent(signal.triggerInitial)] + Losses(signal, k)
    + [ResultEvent(Win, signal.triggerInitial + 300.0 * k as real)]
  }

  function Losses(signal: Signal, k: nat): seq<Event> {
    seq(k, j => ResultEvent(Loss, signal.triggerInitial))
  }

  /** Martingale soundness: every win ends in profit exactly when the stakes recover. */
  lemma WinsAlwaysProfit(signal: Signal, cfg: Config)
    ensures StakesRecover(cfg) <==>
              forall events: seq<Event> :: Fold(FromSignal(signal, cfg), events, cfg).status == DoneWin ==>
                                Fold(FromSignal(signal, cfg), events, cfg).cumulativePnl > 0.0
    ensures cfg.amountGale1 == 2.0 * cfg.amountInitial && cfg.amountGale2 == 2.0 * cfg.amountGale1 ==>
            StakesRecover(cfg)
  {
    StakesTotal(cfg);
    if StakesRecover(cfg) {
      forall events: seq<Event> | Fold(FromSignal(signal, cfg), events, cfg).status == DoneWin
        ensures Fold(FromSignal(signal, cfg), events, cfg).cumulativePnl > 0.0
      {
        var v := VerdictExists(signal, events, cfg);
      }
    } else {
      var k := if PAYOUT * cfg.amountGale1 <= cfg.amountInitial then 1 else 2;
      WinningRunShows(signal, k, cfg);
      var events := WinningRun(signal, k);
      assert !(Fold(FromSignal(signal, cfg), events, cfg).cumulativePnl > 0.0);
    }
  }

  lemma WinningRunShows(signal: Signal, k: nat, cfg: Config)
    requires 1 <= k < 3
    ensures Shows(Fold(FromSignal(signal, cfg), WinningRun(signal, k), cfg), WonAt(k), cfg)
  {
    var events := WinningRun(signal, k);
    var tail := Losses(signal, k) + [ResultEvent(Win, signal.triggerInitial + 300.0 * k as real)];
    assert events[1..] == tail;
    ReportsOf(tail);
    ClosedForm(signal, events, cfg);
    assert Describes(WonAt(k), events, signal.triggerInitial, cfg);
  }

  lemma {:induction false} ReportsOf(events: seq<Event>)
    requires forall i :: 0 <= i < |events| ==> events[i].ResultEvent?
    ensures OnlyReports(events) == seq(|events|, (i: nat) requires i < |events| && events[i].ResultEvent? =>
                                         Report(events[i].result, events[i].now))
  {
    if events != [] {
      ReportsOf(events[1..]);
    }
  }
}
