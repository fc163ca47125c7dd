/** What boot-time recovery writes, over all runs: exactly what a timeout makes of the stage a row
    was waiting on. */
module RecoveryEndings {
  import opened Gale
  import opened StateMachine
  import opened Tables
  import opened Protocol
  import opened Safety
  import opened Ledger
  import opened Endings
  import opened Timing
  import opened Copiers

  /** The write recovery is about to make is the one the row, as it stands, deserves. */
  predicate WriteDue(w: World, cfg: Config) {
    w.phase.Recovering? && w.phase.at.WriteTimedOut? ==>
      var at := w.phase.at;
      && at.id in w.tables.signals
      && var was := w.tables.signals[at.id];
         TimedOutAs(was, SignalRow(was.signal, at.state.status, at.state.errorReason, at.now), at.now, cfg)
  }

  lemma RecoverKeepsDue(w: World, o: Oracle, cfg: Config)
    requires w.phase.Recovering? && RecoveryInv(w, cfg)
    ensures WriteDue(DoRecover(w, o, cfg), cfg)
  {
    if w.phase.at.ReadTimedOut? {
      TimeoutTable(w.tables.signals[w.phase.at.id], w.phase.at.stage, o.now, cfg);
    }
  }

  lemma StepKeepsDue(w: World, step: Step, cfg: Config)
    requires Inv(w, cfg) && Enabled(w, step, cfg) && WriteDue(w, cfg)
    ensures WriteDue(Apply(w, step, cfg), cfg)
  {
    if step.Recover? {
      RecoverKeepsDue(w, step.oracle, cfg);
    } else if !step.Crash? && !step.ReadActive? {
      PhaseStays(w, step, cfg);
      HeldRowsStay(w, step, cfg);
      if w.phase.Recovering? && w.phase.at.WriteTimedOut? {
        assert HeldByRecovery(w.phase, w.phase.at.id);
      }
    }
  }

  lemma {:induction false} RunKeepsDue(w: World, steps: seq<Step>, w': World, cfg: Config)
    requires Inv(w, cfg) && WriteDue(w, cfg) && Run(w, steps, w', cfg)
    ensures WriteDue(w', cfg)
    decreases |steps|
  {
    if steps != [] {
      StepKeepsInv(w, steps[0], cfg);
      StepKeepsDue(w, steps[0], cfg);
      RunKeepsDue(Apply(w, steps[0], cfg), steps[1..], w', cfg);
    }
  }

  lemma ReachableDue(w: World, cfg: Config)
    requires Reachable(w, cfg)
    ensures Inv(w, cfg) && WriteDue(w, cfg)
  {
    var steps :| Run(INIT, steps, w, cfg);
    assert Run(INIT, [], INIT, cfg);
    ReachableInv(INIT, cfg);
    ReachableInv(w, cfg);
    RunKeepsDue(INIT, steps, w, cfg);
  }

  /** In any run, when recovery changes a row: a row that waited on the last stage ends lost, without
      a reason; any other ends expired if its stamp is later than the next stage's instant, five
      minutes after its own, by more than the tolerance, and moves to the next stage otherwise. */
  lemma RecoveryWrites(w: World, o: Oracle, id: SignalId, cfg: Config)
    requires Reachable(w, cfg) && w.phase.Recovering? && id in w.tables.signals
    ensures var w' := DoRecover(w, o, cfg);
            && id in w'.tables.signals
            && var was, row := w.tables.signals[id], w'.tables.signals[id];
               row == was || TimedOutAs(was, row, row.updatedAt, cfg)
  {
    ReachableDue(w, cfg);
  }

  /** So a row recovery turns terminal is lost or expired by its stage, and nothing else. */
  lemma RecoveryEnds(w: World, o: Oracle, id: SignalId, cfg: Config)
    requires Reachable(w, cfg) && w.phase.Recovering? && id in w.tables.signals
    requires !IsTerminal(w.tables.signals[id].status)
    ensures id in DoRecover(w, o, cfg).tables.signals
    ensures var was, row := w.tables.signals[id], DoRecover(w, o, cfg).tables.signals[id];
            IsTerminal(row.status) ==>
              match was.status
              case PlacedGale2 => row.status == DoneLoss && row.errorReason == None
              case PlacedGale1 => row.status == Error && row.errorReason == Some(SignalExpired)
              case PlacedInitial => row.status == Error && row.errorReason == Some(SignalExpired)
              case _ => false
  {
    RecoveryWrites(w, o, id, cfg);
  }
}
