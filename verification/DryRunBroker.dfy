/** `broker/dry_run.py`: the map from trade ids to what was placed under them. */
module DryRunBrokers {
  import opened Gale
  import opened StateMachine
  import opened Tables

  /** What `place` may answer; only an accepted trade has an id. */
  datatype PlaceReply = Filled(id: BrokerTradeId) | PairUnavailable | Refused

  class Broker {
    var placed: map<BrokerTradeId, (SignalId, Stage)>

    constructor ()
      ensures placed == map[]
    {
      placed := map[];
    }

    /** A dry-run broker always accepts; the other answers are those of a real one. */
    method Place(signalId: SignalId, stage: Stage) returns (reply: PlaceReply)
      modifies this
      ensures reply.Filled? ==>
                && reply.id.signalId == signalId && reply.id.stage == stage
                && placed == old(placed)[reply.id := (signalId, stage)]
      ensures !reply.Filled? ==> placed == old(placed)
    {
      if * {
        return PairUnavailable;
      }
      if * {
        return Refused;
      }
      var suffix: int := *;
      var id := BrokerTradeId(signalId, stage, suffix);
      placed := placed[id := (signalId, stage)];
      reply := Filled(id);
    }

    /** Pops the entry; an unknown id is reported as an error result. */
    method WaitResult(id: BrokerTradeId) returns (known: bool, signalId: SignalId, stage: Stage)
      modifies this
      ensures known == (id in old(placed))
      ensures known ==> (signalId, stage) == old(placed)[id]
      ensures placed == old(placed) - {id}
    {
      known, signalId, stage := id in placed, id.signalId, id.stage;
      if known {
        signalId, stage := placed[id].0, placed[id].1;
        placed := placed - {id};
      }
    }
  }
}
