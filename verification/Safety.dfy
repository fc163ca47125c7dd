/** What every step of every task keeps: the inductive invariant of the protocol. */
module Safety {
  import opened Gale
  import opened StateMachine
  import opened Tables
  import opened Protocol

  // ----- Who is responsible for a signal -----

  /** Tasks that answer for a signal already stored. */
  predicate Owns(t: Task) { !t.IntakeUpsert? }

  function PendingRecovery(at: RecoveryPc): Option<SignalId> {
    match at
    case NextRow => None
    case ReadTimedOut(id, _) => Some(id)
    case WriteTimedOut(id, _, _) => Some(id)
    case ReadAdvanced(id) => Some(id)
  }

  /** Signals recovery has yet to hand over. */
  predicate HeldByRecovery(p: Phase, id: SignalId) {
    && p.Recovering?
    && (PendingRecovery(p.at) == Some(id) || exists k :: 0 <= k < |p.rest| && p.rest[k].signal.id == id)
  }

  /** Every stored signal has at most one owner: a task, the queue, or recovery. */
  predicate OneOwner(w: World) {
    && (forall t :: t in w.tasks ==> t < w.nextTask)
    && (forall t, u :: t in w.tasks && u in w.tasks && t != u && Owns(w.tasks[t]) && Owns(w.tasks[u]) ==>
          w.tasks[t].signal.id != w.tasks[u].signal.id)
    && (forall a, b :: 0 <= a < b < |w.queue| ==> w.queue[a].id != w.queue[b].id)
    && (forall a, t :: 0 <= a < |w.queue| && t in w.tasks && Owns(w.tasks[t]) ==>
          w.queue[a].id != w.tasks[t].signal.id)
    && (forall a :: 0 <= a < |w.queue| ==> !HeldByRecovery(w.phase, w.queue[a].id))
    && (forall t :: t in w.tasks && Owns(w.tasks[t]) ==> !HeldByRecovery(w.phase, w.tasks[t].signal.id))
    && (w.phase.Recovering? ==>
          && (forall a, b :: 0 <= a < b < |w.phase.rest| ==> w.phase.rest[a].signal.id != w.phase.rest[b].signal.id)
          && (forall a :: 0 <= a < |w.phase.rest| ==> PendingRecovery(w.phase.at) != Some(w.phase.rest[a].signal.id)))
    && (w.phase.Booting? ==> forall t :: t in w.tasks ==> !w.tasks[t].Supervisor?)
  }

  // ----- What the tables and the broker log say about a signal -----

  predicate Stored(w: World, s: Signal) {
    s.id in w.tables.signals && w.tables.signals[s.id].signal == s
  }

  function StatusOf(w: World, id: SignalId): Status
    requires id in w.tables.signals
  {
    w.tables.signals[id].status
  }

  /** Only stages below k have been placed for this signal. */
  predicate PlacedBelow(w: World, id: SignalId, k: nat) {
    forall i :: 0 <= i < |w.log| && w.log[i].signalId == id ==> Index(w.log[i].stage) < k
  }

  /** No two placements share a signal and a stage. */
  predicate NoDuplicate(log: seq<Placement>) {
    forall i, j :: 0 <= i < j < |log| ==> log[i].signalId != log[j].signalId || log[i].stage != log[j].stage
  }

  /** How many stages a stored status admits in the log. */
  function Allowance(s: Status): nat {
    match s
    case Pending => 0
    case PlacedInitial => 1
    case PlacedGale1 => 2
    case _ => 3
  }

  predicate LogInv(w: World, cfg: Config) {
    && NoDuplicate(w.log)
    && (forall i :: 0 <= i < |w.log| ==>
          && w.log[i].signalId in w.tables.signals
          && w.log[i].amount == AmountForStage(w.log[i].stage, cfg))
    && (forall id :: id in w.tables.signals ==> PlacedBelow(w, id, Allowance(StatusOf(w, id))))
  }

  predicate RowsInv(w: World, cfg: Config) {
    forall id :: id in w.tables.signals ==>
      && w.tables.signals[id].signal.id == id
      && ProperSignal(w.tables.signals[id].signal, cfg)
      && w.tables.signals[id].status != DoneTie
  }

  /** A supervisor's program counter agrees with its signal's row and placements. */
  predicate PcInv(w: World, s: Signal, pc: Pc, cfg: Config)
    requires s.id in w.tables.signals
  {
    var row := StatusOf(w, s.id);
    match pc
    case CheckLimit => !IsTerminal(row)
    case RejectLimit => !IsTerminal(row)
    case CheckGate => !IsTerminal(row)
    case AwaitFire(st) =>
      StateInv(st, s, cfg) && st.status == row && st.stage.Some? && PlacedBelow(w, s.id, Index(st.stage.value))
    case PersistFire(fired) =>
      StateInv(fired, s, cfg) && row == Pending && fired.status in {PlacedInitial, Error}
    case PlaceTrade(st) =>
      StateInv(st, s, cfg) && st.status == row && IsPlaced(row) && PlacedBelow(w, s.id, Index(st.stage.value))
    case PersistFailure(failed) => StateInv(failed, s, cfg) && failed.status == Error && IsPlaced(row)
    case RecordPlaced(st, _, _) => StateInv(st, s, cfg) && st.status == row && IsPlaced(row)
    case StartWait(st, _, _) => StateInv(st, s, cfg) && st.status == row && IsPlaced(row)
    case AwaitResult(st, _, _) => StateInv(st, s, cfg) && st.status == row && IsPlaced(row)
    case RecordResult(st, next, _, _, _) =>
      && StateInv(st, s, cfg) && st.status == row && IsPlaced(row)
      && StateInv(next, s, cfg) && Rank(next.status) < Rank(row) && StatusAdvance(row, next.status)
    case PersistResult(next, _, _, _, _) =>
      && StateInv(next, s, cfg) && IsPlaced(row) && StatusAdvance(row, next.status)
    case BookDaily(next, _, _, _) =>
      && StateInv(next, s, cfg) && next.status == row
         && (next.stage.Some? ==> PlacedBelow(w, s.id, Index(next.stage.value)))
  }

  /** The only forward moves of a status. */
  predicate StatusAdvance(a: Status, b: Status) {
    || (!IsTerminal(a) && IsTerminal(b) && b != DoneTie)
    || (a == Pending && b == PlacedInitial)
    || (a == PlacedInitial && b == PlacedGale1)
    || (a == PlacedGale1 && b == PlacedGale2)
  }

  predicate TaskInv(w: World, t: Task, cfg: Config) {
    match t
    case IntakeUpsert(s) => ProperSignal(s, cfg)
    case IntakePut(s) => Stored(w, s) && StatusOf(w, s.id) == Pending && s.id !in w.enqueued
    case Supervisor(s, pc) => Stored(w, s) && PcInv(w, s, pc, cfg)
  }

  predicate RecoveryInv(w: World, cfg: Config) {
    w.phase.Recovering? ==>
      && (forall k :: 0 <= k < |w.phase.rest| ==>
            var row := w.phase.rest[k];
            && row.signal.id in w.tables.signals && w.tables.signals[row.signal.id] == row && IsPlaced(row.status))
      && (match w.phase.at
          case NextRow => true
          case ReadTimedOut(id, stage) =>
            id in w.tables.signals && StatusOf(w, id) == PlacedStatus(stage)
          case WriteTimedOut(id, state, _) =>
            && id in w.tables.signals && IsPlaced(StatusOf(w, id)) && StatusAdvance(StatusOf(w, id), state.status)
          case ReadAdvanced(id) => id in w.tables.signals && IsPlaced(StatusOf(w, id)))
  }

  predicate IntakeInv(w: World) {
    && (forall a, b :: 0 <= a < b < |w.enqueued| ==> w.enqueued[a] != w.enqueued[b])
    && (forall a :: 0 <= a < |w.enqueued| ==> w.enqueued[a] in w.tables.signals)
    && (forall a :: 0 <= a < |w.queue| ==>
          Stored(w, w.queue[a]) && StatusOf(w, w.queue[a].id) == Pending)
  }

  predicate Inv(w: World, cfg: Config) {
    && OneOwner(w)
    && LogInv(w, cfg)
    && RowsInv(w, cfg)
    && IntakeInv(w)
    && RecoveryInv(w, cfg)
    && (forall t :: t in w.tasks ==> TaskInv(w, w.tasks[t], cfg))
  }

  // ----- Moving one row forward -----

  /** No row disappears, and each either stays exactly as it is or moves strictly up. */
  predicate RowsForward(a: World, b: World) {
    forall id :: id in a.tables.signals ==>
      && id in b.tables.signals
      && (b.tables.signals[id] == a.tables.signals[id]
          || (b.tables.signals[id].signal == a.tables.signals[id].signal
              && StatusAdvance(StatusOf(a, id), StatusOf(b, id))))
  }

  /** A step of the supervisor t that touches only its own signal's row and placements. */
  predicate OnlyTouches(a: World, b: World, t: nat, id: SignalId) {
    && b.tables.signals.Keys == a.tables.signals.Keys
    && (forall i :: i in a.tables.signals && i != id ==> b.tables.signals[i] == a.tables.signals[i])
    && |a.log| <= |b.log| && b.log[..|a.log|] == a.log
    && (forall k :: |a.log| <= k < |b.log| ==> b.log[k].signalId == id)
    && b.queue == a.queue && b.nextTask == a.nextTask && b.phase == a.phase && b.enqueued == a.enqueued
    && (forall u :: u in b.tasks ==> u in a.tasks)
    && (forall u :: u in a.tasks && u != t ==> u in b.tasks && b.tasks[u] == a.tasks[u])
    && (t in b.tasks && t in a.tasks ==> b.tasks[t].Supervisor? && b.tasks[t].signal == a.tasks[t].signal)
  }

  lemma OthersKeepOwners(a: World, b: World, t: nat)
    requires OneOwner(a) && t in a.tasks && a.tasks[t].Supervisor?
    requires OnlyTouches(a, b, t, a.tasks[t].signal.id)
    ensures OneOwner(b)
  {
  }

  lemma OthersKeepIntakeAndRecovery(a: World, b: World, t: nat, cfg: Config)
    requires OneOwner(a) && t in a.tasks && a.tasks[t].Supervisor?
    requires OnlyTouches(a, b, t, a.tasks[t].signal.id)
    requires IntakeInv(a) && RecoveryInv(a, cfg)
    ensures IntakeInv(b) && RecoveryInv(b, cfg)
  {
  }

  /** Tasks of other signals see the same row and the same placements. */
  lemma OtherTaskKept(a: World, b: World, task: Task, id: SignalId, cfg: Config)
    requires TaskInv(a, task, cfg) && (Owns(task) ==> task.signal.id != id)
    requires forall i :: i in a.tables.signals && i != id ==>
            i in b.tables.signals && b.tables.signals[i] == a.tables.signals[i]
    requires |a.log| <= |b.log| && b.log[..|a.log|] == a.log
    requires forall k :: |a.log| <= k < |b.log| ==> b.log[k].signalId == id
    requires b.enqueued == a.enqueued
    ensures TaskInv(b, task, cfg)
  {
  }

  /** Frame rule: what a supervisor does to its own signal cannot disturb anyone else. */
  lemma OthersUndisturbed(a: World, b: World, t: nat, cfg: Config)
    requires Inv(a, cfg) && t in a.tasks && a.tasks[t].Supervisor?
    requires OnlyTouches(a, b, t, a.tasks[t].signal.id)
    ensures OneOwner(b) && IntakeInv(b) && RecoveryInv(b, cfg)
    ensures forall u :: u in b.tasks && u != t ==> TaskInv(b, b.tasks[u], cfg)
  {
    OthersKeepOwners(a, b, t);
    OthersKeepIntakeAndRecovery(a, b, t, cfg);
    forall u | u in b.tasks && u != t ensures TaskInv(b, b.tasks[u], cfg) {
      OtherTaskKept(a, b, a.tasks[u], a.tasks[t].signal.id, cfg);
    }
  }

  // ----- Supervisor steps, by program counter -----

  /** What each supervisor step has to establish; the frame rule does the rest. */
  predicate GoodStep(a: World, b: World, t: nat, cfg: Config)
    requires t in a.tasks && a.tasks[t].Supervisor?
  {
    && OnlyTouches(a, b, t, a.tasks[t].signal.id)
    && RowsForward(a, b)
    && LogInv(b, cfg)
    && (t in b.tasks ==> TaskInv(b, b.tasks[t], cfg))
  }

  lemma GoodStepKeepsInv(a: World, b: World, t: nat, cfg: Config)
    requires Inv(a, cfg) && t in a.tasks && a.tasks[t].Supervisor? && GoodStep(a, b, t, cfg)
    ensures Inv(b, cfg)
  {
    OthersUndisturbed(a, b, t, cfg);
    forall id | id in b.tables.signals
      ensures b.tables.signals[id].signal == a.tables.signals[id].signal && StatusOf(b, id) != DoneTie
    {
      assert id in a.tables.signals;
    }
  }

  /** A forward write to one row keeps the log within its allowance. */
  lemma ForwardKeepsLog(a: World, b: World, id: SignalId, cfg: Config)
    requires LogInv(a, cfg) && id in a.tables.signals && b.log == a.log
    requires b.tables.signals.Keys == a.tables.signals.Keys
    requires forall i :: i in a.tables.signals && i != id ==> b.tables.signals[i] == a.tables.signals[i]
    requires StatusAdvance(StatusOf(a, id), StatusOf(b, id))
    ensures LogInv(b, cfg)
  {
  }

  /** Steps that leave the signals table and the log alone. */
  lemma QuietStep(a: World, b: World, t: nat, cfg: Config)
    requires LogInv(a, cfg) && t in a.tasks && a.tasks[t].Supervisor? && Stored(a, a.tasks[t].signal)
    requires b.tables.signals == a.tables.signals && b.log == a.log
    requires OnlyTouches(a, b, t, a.tasks[t].signal.id)
    requires t in b.tasks ==> PcInv(a, a.tasks[t].signal, b.tasks[t].pc, cfg)
    ensures GoodStep(a, b, t, cfg)
  {
    forall id | id in a.tables.signals ensures PlacedBelow(b, id, Allowance(StatusOf(b, id))) {
      assert PlacedBelow(a, id, Allowance(StatusOf(a, id)));
    }
  }

  lemma GateStep(w: World, t: nat, o: Oracle, cfg: Config)
    requires LogInv(w, cfg) && t in w.tasks && w.tasks[t].Supervisor? && TaskInv(w, w.tasks[t], cfg)
    requires w.tasks[t].pc.CheckLimit? || w.tasks[t].pc.CheckGate?
    ensures GoodStep(w, DoSupervise(w, t, o, cfg), t, cfg)
  {
    var s := w.tasks[t].signal;
    FromSignalInv(s, cfg);
    assert PlacedBelow(w, s.id, Allowance(StatusOf(w, s.id)));
    QuietStep(w, DoSupervise(w, t, o, cfg), t, cfg);
  }

  /** Steps whose one effect is a forward write to the supervisor's own row. */
  lemma ForwardStep(a: World, b: World, t: nat, cfg: Config)
    requires LogInv(a, cfg) && t in a.tasks && a.tasks[t].Supervisor?
    requires b.log == a.log && OnlyTouches(a, b, t, a.tasks[t].signal.id)
    requires var id := a.tasks[t].signal.id;
             && id in a.tables.signals && b.tables.signals[id].signal == a.tables.signals[id].signal
             && StatusAdvance(StatusOf(a, id), StatusOf(b, id))
    requires t in b.tasks ==> TaskInv(b, b.tasks[t], cfg)
    ensures GoodStep(a, b, t, cfg)
  {
    ForwardKeepsLog(a, b, a.tasks[t].signal.id, cfg);
  }

  lemma FirstWriteStep(w: World, t: nat, o: Oracle, cfg: Config)
    requires LogInv(w, cfg) && t in w.tasks && w.tasks[t].Supervisor? && TaskInv(w, w.tasks[t], cfg)
    requires w.tasks[t].pc.PersistFire?
    ensures GoodStep(w, DoSupervise(w, t, o, cfg), t, cfg)
  {
    var s := w.tasks[t].signal;
    assert PlacedBelow(w, s.id, Allowance(StatusOf(w, s.id)));
    ForwardStep(w, DoSupervise(w, t, o, cfg), t, cfg);
  }

  /** Writes that end the supervisor. */
  lemma LastWriteStep(w: World, t: nat, o: Oracle, cfg: Config)
    requires LogInv(w, cfg) && t in w.tasks && w.tasks[t].Supervisor? && TaskInv(w, w.tasks[t], cfg)
    requires w.tasks[t].pc.RejectLimit? || w.tasks[t].pc.PersistFailure?
    ensures GoodStep(w, DoSupervise(w, t, o, cfg), t, cfg)
  {
    ForwardStep(w, DoSupervise(w, t, o, cfg), t, cfg);
  }

  lemma PersistResultStep(w: World, t: nat, o: Oracle, cfg: Config)
    requires LogInv(w, cfg) && t in w.tasks && w.tasks[t].Supervisor? && TaskInv(w, w.tasks[t], cfg)
    requires w.tasks[t].pc.PersistResult?
    ensures GoodStep(w, DoSupervise(w, t, o, cfg), t, cfg)
  {
    var s := w.tasks[t].signal;
    assert PlacedBelow(w, s.id, Allowance(StatusOf(w, s.id)));
    ForwardStep(w, DoSupervise(w, t, o, cfg), t, cfg);
  }

  lemma FireStep(w: World, t: nat, o: Oracle, cfg: Config)
    requires LogInv(w, cfg) && t in w.tasks && w.tasks[t].Supervisor? && TaskInv(w, w.tasks[t], cfg)
    requires w.tasks[t].pc.AwaitFire?
    ensures GoodStep(w, DoSupervise(w, t, o, cfg), t, cfg)
  {
    TransitionKeepsInv(w.tasks[t].pc.state, FireEvent(o.now), w.tasks[t].signal, cfg);
    QuietStep(w, DoSupervise(w, t, o, cfg), t, cfg);
  }

  lemma RecordStep(w: World, t: nat, o: Oracle, cfg: Config)
    requires LogInv(w, cfg) && t in w.tasks && w.tasks[t].Supervisor? && TaskInv(w, w.tasks[t], cfg)
    requires w.tasks[t].pc.RecordPlaced? || w.tasks[t].pc.StartWait?
    ensures GoodStep(w, DoSupervise(w, t, o, cfg), t, cfg)
  {
    QuietStep(w, DoSupervise(w, t, o, cfg), t, cfg);
  }

  lemma CloseStep(w: World, t: nat, o: Oracle, cfg: Config)
    requires LogInv(w, cfg) && t in w.tasks && w.tasks[t].Supervisor? && TaskInv(w, w.tasks[t], cfg)
    requires w.tasks[t].pc.RecordResult?
    ensures GoodStep(w, DoSupervise(w, t, o, cfg), t, cfg)
  {
    QuietStep(w, DoSupervise(w, t, o, cfg), t, cfg);
  }

  lemma BookStep(w: World, t: nat, o: Oracle, cfg: Config)
    requires LogInv(w, cfg) && t in w.tasks && w.tasks[t].Supervisor? && TaskInv(w, w.tasks[t], cfg)
    requires w.tasks[t].pc.BookDaily?
    ensures GoodStep(w, DoSupervise(w, t, o, cfg), t, cfg)
  {
    QuietStep(w, DoSupervise(w, t, o, cfg), t, cfg);
  }

  lemma AwaitResultStep(w: World, t: nat, o: Oracle, cfg: Config)
    requires LogInv(w, cfg) && t in w.tasks && w.tasks[t].Supervisor? && TaskInv(w, w.tasks[t], cfg)
    requires w.tasks[t].pc.AwaitResult?
    ensures GoodStep(w, DoSupervise(w, t, o, cfg), t, cfg)
  {
    var s, pc := w.tasks[t].signal, w.tasks[t].pc;
    var result := if pc.known then o.result else Failed;
    TransitionKeepsInv(pc.state, ResultEvent(result, o.now), s, cfg);
    AdvanceIsForward(pc.state, result, o.now, s, cfg);
    QuietStep(w, DoSupervise(w, t, o, cfg), t, cfg);
  }

  lemma AdvanceIsForward(st: SignalState, result: StageResult, now: real, s: Signal, cfg: Config)
    requires StateInv(st, s, cfg) && IsPlaced(st.status)
    ensures Transition(st, ResultEvent(result, now), cfg).Accepted?
    ensures StatusAdvance(st.status, Transition(st, ResultEvent(result, now), cfg).state.status)
  {
  }

  /** Appending one placement above everything placed so far, and within the row's allowance. */
  lemma AppendKeepsLog(a: World, b: World, p: Placement, cfg: Config)
    requires LogInv(a, cfg) && b.tables.signals == a.tables.signals && b.log == a.log + [p]
    requires p.signalId in a.tables.signals && p.amount == AmountForStage(p.stage, cfg)
    requires PlacedBelow(a, p.signalId, Index(p.stage)) && Index(p.stage) < Allowance(StatusOf(a, p.signalId))
    ensures LogInv(b, cfg)
  {
  }

  lemma PlaceTouches(w: World, t: nat, st: SignalState, o: Oracle, cfg: Config)
    requires t in w.tasks && w.tasks[t].Supervisor? && w.tasks[t].pc == PlaceTrade(st) && st.stage.Some?
    ensures
      var s := w.tasks[t].signal;
      var w' := DoPlaceTrade(w, t, s, st, o, cfg);
      && OnlyTouches(w, w', t, s.id)
      && w'.tables == w.tables && w'.log == w.log + [Placement(s.id, st.stage.value, st.amount)]
  {
  }

  lemma PlacedTaskInv(w: World, t: nat, st: SignalState, o: Oracle, cfg: Config)
    requires t in w.tasks && w.tasks[t].Supervisor? && w.tasks[t].pc == PlaceTrade(st)
    requires TaskInv(w, w.tasks[t], cfg)
    ensures
      var w' := DoPlaceTrade(w, t, w.tasks[t].signal, st, o, cfg);
      t in w'.tasks ==> TaskInv(w', w'.tasks[t], cfg)
  {
  }

  /** The only step that calls the broker finds the row at exactly this stage, and the stage unplaced. */
  lemma PlaceStep(w: World, t: nat, o: Oracle, cfg: Config)
    requires LogInv(w, cfg) && t in w.tasks && w.tasks[t].Supervisor? && TaskInv(w, w.tasks[t], cfg)
    requires w.tasks[t].pc.PlaceTrade?
    ensures GoodStep(w, DoSupervise(w, t, o, cfg), t, cfg)
  {
    var s, st := w.tasks[t].signal, w.tasks[t].pc.state;
    var w' := DoPlaceTrade(w, t, s, st, o, cfg);
    PlaceTouches(w, t, st, o, cfg);
    PlacedTaskInv(w, t, st, o, cfg);
    AppendKeepsLog(w, w', Placement(s.id, st.stage.value, st.amount), cfg);
  }

  lemma SuperviseKeepsInv(w: World, t: nat, o: Oracle, cfg: Config)
    requires Inv(w, cfg) && t in w.tasks && w.tasks[t].Supervisor?
    ensures GoodStep(w, DoSupervise(w, t, o, cfg), t, cfg)
  {
    assert TaskInv(w, w.tasks[t], cfg);
    match w.tasks[t].pc
    case CheckLimit => GateStep(w, t, o, cfg);
    case CheckGate => GateStep(w, t, o, cfg);
    case RejectLimit => LastWriteStep(w, t, o, cfg);
    case PersistFire(_) => FirstWriteStep(w, t, o, cfg);
    case PersistFailure(_) => LastWriteStep(w, t, o, cfg);
    case PersistResult(_, _, _, _, _) => PersistResultStep(w, t, o, cfg);
    case AwaitFire(_) => FireStep(w, t, o, cfg);
    case PlaceTrade(_) => PlaceStep(w, t, o, cfg);
    case RecordPlaced(_, _, _) => RecordStep(w, t, o, cfg);
    case BookDaily(_, _, _, _) => BookStep(w, t, o, cfg);
    case StartWait(_, _, _) => RecordStep(w, t, o, cfg);
    case AwaitResult(_, _, _) => AwaitResultStep(w, t, o, cfg);
    case RecordResult(_, _, _, _, _) => CloseStep(w, t, o, cfg);
  }

  // ----- Intake, scheduler, recovery and crash steps -----

  /** Tables, log and enqueue history untouched: only ownership is left to check. */
  predicate SameData(a: World, b: World) {
    b.tables == a.tables && b.log == a.log && b.enqueued == a.enqueued
  }

  lemma SameDataKeeps(a: World, b: World, cfg: Config)
    requires LogInv(a, cfg) && RowsInv(a, cfg) && SameData(a, b)
    ensures LogInv(b, cfg) && RowsInv(b, cfg) && RowsForward(a, b)
    ensures forall task :: TaskInv(a, task, cfg) ==> TaskInv(b, task, cfg)
  {
  }

  lemma ArriveKeepsInv(w: World, s: Signal, cfg: Config)
    requires Inv(w, cfg) && ProperSignal(s, cfg)
    ensures Inv(Spawn(w, IntakeUpsert(s)), cfg) && RowsForward(w, Spawn(w, IntakeUpsert(s)))
  {
    SameDataKeeps(w, Spawn(w, IntakeUpsert(s)), cfg);
  }

  /** A new row cannot be owned by anyone yet, nor have a placement. */
  lemma UpsertKeepsInv(w: World, t: nat, cfg: Config)
    requires Inv(w, cfg) && t in w.tasks && w.tasks[t].IntakeUpsert?
    ensures Inv(DoUpsert(w, t), cfg) && RowsForward(w, DoUpsert(w, t))
  {
    var s := w.tasks[t].signal;
    var w' := DoUpsert(w, t);
    assert TaskInv(w, w.tasks[t], cfg);
    if s.id in w.tables.signals {
      SameDataKeeps(w, w', cfg);
    } else {
      InsertKeepsLog(w, w', s, cfg);
      InsertKeepsTasks(w, w', t, s, cfg);
      InsertKeepsOwners(w, w', t, s, cfg);
    }
  }

  lemma InsertKeepsTasks(a: World, b: World, t: nat, s: Signal, cfg: Config)
    requires t in a.tasks && a.tasks[t] == IntakeUpsert(s) && s.id !in a.tables.signals && IntakeInv(a)
    requires forall u :: u in a.tasks ==> TaskInv(a, a.tasks[u], cfg)
    requires b == DoUpsert(a, t)
    ensures forall u :: u in b.tasks ==> TaskInv(b, b.tasks[u], cfg)
  {
    forall u | u in b.tasks && u != t ensures TaskInv(b, b.tasks[u], cfg) {
      assert TaskInv(a, a.tasks[u], cfg);
      OtherTaskKept(a, b, a.tasks[u], s.id, cfg);
    }
  }

  lemma InsertKeepsLog(a: World, b: World, s: Signal, cfg: Config)
    requires LogInv(a, cfg) && RowsInv(a, cfg) && ProperSignal(s, cfg) && s.id !in a.tables.signals
    requires b.log == a.log
    requires b.tables.signals == a.tables.signals[s.id := SignalRow(s, Pending, None, s.receivedAt)]
    ensures LogInv(b, cfg) && RowsInv(b, cfg)
  {
  }

  lemma InsertKeepsOwners(a: World, b: World, t: nat, s: Signal, cfg: Config)
    requires Inv(a, cfg) && t in a.tasks && a.tasks[t] == IntakeUpsert(s) && s.id !in a.tables.signals
    requires b == DoUpsert(a, t)
    ensures OneOwner(b) && IntakeInv(b) && RecoveryInv(b, cfg)
  {
    forall u | u in a.tasks && Owns(a.tasks[u]) ensures a.tasks[u].signal.id != s.id {
      assert TaskInv(a, a.tasks[u], cfg);
    }
    assert !HeldByRecovery(a.phase, s.id);
  }

  lemma EnqueueKeepsOwners(w: World, t: nat, cfg: Config)
    requires OneOwner(w) && IntakeInv(w) && RecoveryInv(w, cfg)
    requires t in w.tasks && w.tasks[t].IntakePut? && TaskInv(w, w.tasks[t], cfg)
    ensures OneOwner(DoEnqueue(w, t)) && IntakeInv(DoEnqueue(w, t)) && RecoveryInv(DoEnqueue(w, t), cfg)
  {
  }

  lemma EnqueueOtherTask(w: World, t: nat, task: Task, cfg: Config)
    requires t in w.tasks && w.tasks[t].IntakePut?
    requires TaskInv(w, task, cfg) && (Owns(task) ==> task.signal.id != w.tasks[t].signal.id)
    ensures TaskInv(DoEnqueue(w, t), task, cfg)
  {
  }

  lemma EnqueueKeepsInv(w: World, t: nat, cfg: Config)
    requires Inv(w, cfg) && t in w.tasks && w.tasks[t].IntakePut?
    ensures Inv(DoEnqueue(w, t), cfg) && RowsForward(w, DoEnqueue(w, t))
  {
    var w' := DoEnqueue(w, t);
    assert TaskInv(w, w.tasks[t], cfg);
    EnqueueKeepsOwners(w, t, cfg);
    assert LogInv(w', cfg) by {
      SameDataKeeps(w, w'.(enqueued := w.enqueued, tasks := w.tasks, queue := w.queue), cfg);
      forall id | id in w'.tables.signals ensures PlacedBelow(w', id, Allowance(StatusOf(w', id))) {
        assert PlacedBelow(w, id, Allowance(StatusOf(w, id)));
      }
    }
    forall u | u in w'.tasks ensures TaskInv(w', w'.tasks[u], cfg) {
      EnqueueOtherTask(w, t, w.tasks[u], cfg);
    }
  }

  lemma DispatchKeepsInv(w: World, cfg: Config)
    requires Inv(w, cfg) && w.phase.Running? && w.queue != []
    ensures Inv(DoDispatch(w), cfg) && RowsForward(w, DoDispatch(w))
  {
    var w' := DoDispatch(w);
    SameDataKeeps(w, w', cfg);
    assert Stored(w, w.queue[0]);
    forall u | u in w'.tasks ensures TaskInv(w', w'.tasks[u], cfg) {
      assert u in w.tasks ==> TaskInv(w, w.tasks[u], cfg);
    }
  }

  lemma DropKeepsInv(w: World, w': World, cfg: Config)
    requires Inv(w, cfg) && SameData(w, w')
    requires forall t :: t in w'.tasks ==> t in w.tasks && w'.tasks[t] == w.tasks[t]
    requires w'.nextTask == w.nextTask
    requires (w'.queue == w.queue && w'.phase == w.phase)
             || (w'.queue == [] && w'.tasks == map[] && w'.phase == Booting)
    ensures Inv(w', cfg) && RowsForward(w, w')
  {
    SameDataKeeps(w, w', cfg);
  }

  /** At boot every placed row is free: tasks and queue only hold pending ones. */
  lemma ReadActiveKeepsInv(w: World, rows: seq<SignalRow>, now: real, cfg: Config)
    requires Inv(w, cfg) && w.phase.Booting? && IsActiveSnapshot(w.tables, rows)
    ensures var w' := w.(phase := Recovering(now, rows, NextRow)); Inv(w', cfg) && RowsForward(w, w')
  {
    var w' := w.(phase := Recovering(now, rows, NextRow));
    SameDataKeeps(w, w', cfg);
    forall t | t in w.tasks ensures !w.tasks[t].Supervisor? && TaskInv(w, w.tasks[t], cfg) {
    }
    ReadActiveKeepsOwners(w, w', rows, cfg);
  }

  lemma ReadActiveKeepsOwners(w: World, w': World, rows: seq<SignalRow>, cfg: Config)
    requires OneOwner(w) && IntakeInv(w) && IsActiveSnapshot(w.tables, rows)
    requires forall t :: t in w.tasks ==> !w.tasks[t].Supervisor? && TaskInv(w, w.tasks[t], cfg)
    requires w'.phase.Recovering? && w'.phase.rest == rows && w'.phase.at.NextRow? && w' == w.(phase := w'.phase)
    ensures OneOwner(w') && IntakeInv(w') && RecoveryInv(w', cfg)
  {
    forall id | HeldByRecovery(w'.phase, id) ensures id in w.tables.signals && IsPlaced(StatusOf(w, id)) {
    }
  }

  lemma AdoptedSignal(row: SignalRow, cfg: Config)
    requires ProperSignal(row.signal, cfg)
    ensures RebuildSignal(row) == row.signal
  {
  }

  /** Handing a held row over moves its ownership from recovery to one new task. */
  lemma AdoptKeepsOwners(w: World, w': World, row: SignalRow, cfg: Config)
    requires OneOwner(w) && w.phase.Recovering? && HeldByRecovery(w.phase, row.signal.id)
    requires w'.phase.Recovering? && w' == Spawn(w.(phase := w'.phase), Supervisor(row.signal, CheckLimit))
    requires forall id :: HeldByRecovery(w'.phase, id) ==> HeldByRecovery(w.phase, id) && id != row.signal.id
    requires RestDistinct(w'.phase)
    ensures OneOwner(w')
  {
  }

  /** Recovery hands a row it holds to a fresh supervisor. */
  lemma AdoptKeepsInv(w: World, w': World, row: SignalRow, cfg: Config)
    requires Inv(w, cfg) && w.phase.Recovering? && HeldByRecovery(w.phase, row.signal.id)
    requires row.signal.id in w.tables.signals && w.tables.signals[row.signal.id] == row && !IsTerminal(row.status)
    requires w'.phase.Recovering? && w' == Spawn(w.(phase := w'.phase), Supervisor(row.signal, CheckLimit))
    requires forall id :: HeldByRecovery(w'.phase, id) ==> HeldByRecovery(w.phase, id) && id != row.signal.id
    requires RecoveryInv(w', cfg) && RestDistinct(w'.phase)
    ensures Inv(w', cfg) && RowsForward(w, w')
  {
    SameDataKeeps(w, w', cfg);
    AdoptKeepsOwners(w, w', row, cfg);
    assert TaskInv(w', Supervisor(row.signal, CheckLimit), cfg);
  }

  predicate RestDistinct(p: Phase) {
    p.Recovering? ==>
      && (forall a, b :: 0 <= a < b < |p.rest| ==> p.rest[a].signal.id != p.rest[b].signal.id)
      && (forall a :: 0 <= a < |p.rest| ==> PendingRecovery(p.at) != Some(p.rest[a].signal.id))
  }

  /** Recovery moves on without touching tables or tasks, and holds no more than before. */
  lemma AdvanceRecovery(w: World, w': World, cfg: Config)
    requires Inv(w, cfg) && w' == w.(phase := w'.phase) && !w'.phase.Booting? && w.phase.Recovering?
    requires forall id :: HeldByRecovery(w'.phase, id) ==> HeldByRecovery(w.phase, id)
    requires RecoveryInv(w', cfg) && RestDistinct(w'.phase)
    ensures Inv(w', cfg) && RowsForward(w, w')
  {
    SameDataKeeps(w, w', cfg);
  }

  lemma RestHeld(p: Phase, q: Phase)
    requires p.Recovering? && p.rest != [] && q.Recovering? && q.rest == p.rest[1..]
    requires PendingRecovery(q.at).None? || PendingRecovery(q.at) == Some(p.rest[0].signal.id)
    requires RestDistinct(p)
    ensures RestDistinct(q)
    ensures forall id :: HeldByRecovery(q, id) ==> HeldByRecovery(p, id)
    ensures PendingRecovery(q.at).None? ==> forall id :: HeldByRecovery(q, id) ==> id != p.rest[0].signal.id
  {
  }

  lemma NextRowKeepsInv(w: World, cfg: Config)
    requires Inv(w, cfg) && w.phase.Recovering? && w.phase.at.NextRow?
    ensures Inv(DoNextRow(w), cfg) && RowsForward(w, DoNextRow(w))
  {
    var w' := DoNextRow(w);
    if w.phase.rest == [] {
      AdvanceRecovery(w, w', cfg);
    } else {
      RestHeld(w.phase, w'.phase);
      var row := w.phase.rest[0];
      AdoptedSignal(row, cfg);
      if w.phase.now > StageFireTime(row.signal, StageOf(row.status).value) + STAGE_WINDOW {
        AdvanceRecovery(w, w', cfg);
      } else {
        AdoptKeepsInv(w, w', row, cfg);
      }
    }
  }

  /** Whatever `record_timeout` computes from a placed row is a forward move. */
  lemma TimeoutIsForward(row: SignalRow, stage: Stage, now: real, cfg: Config)
    requires row.status == PlacedStatus(stage)
    ensures
      var r := Transition(TimedOutState(row, stage, cfg), ResultEvent(Timeout, now), cfg);
      r.Accepted? && StatusAdvance(row.status, r.state.status)
  {
  }

  lemma ReadTimedOutKeepsInv(w: World, now: real, cfg: Config)
    requires Inv(w, cfg) && w.phase.Recovering? && w.phase.at.ReadTimedOut?
    ensures
      var w' := DoReadTimedOut(w, w.phase.at.id, w.phase.at.stage, now, cfg);
      Inv(w', cfg) && RowsForward(w, w')
  {
    var id, stage := w.phase.at.id, w.phase.at.stage;
    TimeoutIsForward(w.tables.signals[id], stage, now, cfg);
    AdvanceRecovery(w, DoReadTimedOut(w, id, stage, now, cfg), cfg);
  }

  lemma WriteTimedOutKeepsOwners(w: World, cfg: Config)
    requires OneOwner(w) && IntakeInv(w) && RecoveryInv(w, cfg)
    requires w.phase.Recovering? && w.phase.at.WriteTimedOut?
    ensures
      var w' := DoWriteTimedOut(w, w.phase.at.id, w.phase.at.state, w.phase.at.now);
      OneOwner(w') && IntakeInv(w') && RecoveryInv(w', cfg)
  {
    var id := w.phase.at.id;
    var w' := DoWriteTimedOut(w, id, w.phase.at.state, w.phase.at.now);
    assert HeldByRecovery(w.phase, id);
    assert forall i :: HeldByRecovery(w'.phase, i) ==> HeldByRecovery(w.phase, i);
  }

  lemma WriteTimedOutKeepsInv(w: World, cfg: Config)
    requires Inv(w, cfg) && w.phase.Recovering? && w.phase.at.WriteTimedOut?
    ensures
      var w' := DoWriteTimedOut(w, w.phase.at.id, w.phase.at.state, w.phase.at.now);
      Inv(w', cfg) && RowsForward(w, w')
  {
    var id := w.phase.at.id;
    var w' := DoWriteTimedOut(w, id, w.phase.at.state, w.phase.at.now);
    WriteTimedOutKeepsOwners(w, cfg);
    ForwardKeepsLog(w, w', id, cfg);
    assert HeldByRecovery(w.phase, id);
    forall u | u in w'.tasks ensures TaskInv(w', w'.tasks[u], cfg) {
      OtherTaskKept(w, w', w.tasks[u], id, cfg);
    }
  }

  lemma ReadAdvancedKeepsInv(w: World, cfg: Config)
    requires Inv(w, cfg) && w.phase.Recovering? && w.phase.at.ReadAdvanced?
    ensures
      var w' := DoReadAdvanced(w, w.phase.at.id);
      Inv(w', cfg) && RowsForward(w, w')
  {
    var id := w.phase.at.id;
    var row := w.tables.signals[id];
    AdoptedSignal(row, cfg);
    AdoptKeepsInv(w, DoReadAdvanced(w, id), row, cfg);
  }

  lemma RecoverKeepsInv(w: World, o: Oracle, cfg: Config)
    requires Inv(w, cfg) && w.phase.Recovering?
    ensures Inv(DoRecover(w, o, cfg), cfg) && RowsForward(w, DoRecover(w, o, cfg))
  {
    match w.phase.at
    case NextRow => NextRowKeepsInv(w, cfg);
    case ReadTimedOut(_, _) => ReadTimedOutKeepsInv(w, o.now, cfg);
    case WriteTimedOut(_, _, _) => WriteTimedOutKeepsInv(w, cfg);
    case ReadAdvanced(_) => ReadAdvancedKeepsInv(w, cfg);
  }

  // ----- Whole runs -----

  /** Every step of every task keeps the invariant and moves no row backwards. */
  lemma StepKeepsInv(w: World, step: Step, cfg: Config)
    requires Inv(w, cfg) && Enabled(w, step, cfg)
    ensures Inv(Apply(w, step, cfg), cfg) && RowsForward(w, Apply(w, step, cfg))
  {
    match step
    case Arrive(s) => ArriveKeepsInv(w, s, cfg);
    case Upsert(t) => UpsertKeepsInv(w, t, cfg);
    case Enqueue(t) => EnqueueKeepsInv(w, t, cfg);
    case Dispatch => DispatchKeepsInv(w, cfg);
    case Supervise(t, o) =>
      SuperviseKeepsInv(w, t, o, cfg);
      GoodStepKeepsInv(w, DoSupervise(w, t, o, cfg), t, cfg);
    case Die(t) => DropKeepsInv(w, DoDie(w, t), cfg);
    case Crash => DropKeepsInv(w, DoCrash(w), cfg);
    case ReadActive(rows, now) => ReadActiveKeepsInv(w, rows, now, cfg);
    case Recover(o) => RecoverKeepsInv(w, o, cfg);
  }

  lemma {:induction false} RunKeepsInv(w: World, steps: seq<Step>, w': World, cfg: Config)
    requires Inv(w, cfg) && Run(w, steps, w', cfg)
    ensures Inv(w', cfg)
    decreases |steps|
  {
    if steps != [] {
      StepKeepsInv(w, steps[0], cfg);
      RunKeepsInv(Apply(w, steps[0], cfg), steps[1..], w', cfg);
    }
  }

  lemma ReachableInv(w: World, cfg: Config)
    requires Reachable(w, cfg)
    ensures Inv(w, cfg)
  {
    var steps :| Run(INIT, steps, w, cfg);
    RunKeepsInv(INIT, steps, w, cfg);
  }
}
