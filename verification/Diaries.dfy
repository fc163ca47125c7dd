/** What one coroutine hears from outside, in order: clock readings, the broker's replies, results.
    The values are arbitrary; the contracts of the coroutines say what they do with them. */
module Diaries {
  import opened Gale
  import opened StateMachine
  import opened Tables
  import opened Timing
  import opened StateStores
  import opened DryRunBrokers

  datatype Happening =
    | Slept                                                    // others ran
    | SleptUntil(target: real)                                 // likewise, with an alarm set for this instant
    | Read(now: real)                                          // the clock
    | Called(stage: Stage, amount: real, reply: PlaceReply)    // the broker, about a placement
    | Answered(result: StageResult)                            // the broker, about a trade
    | Rang(timer: Timer)                                       // the wait timer went off
    | Threw                                                    // an exception, of the database or the notifier

  // ----- The events a cascade hears of -----

  /** What the next clock reading stamps. */
  datatype Expecting = TheFire | AResult(result: StageResult) | Nothing

  function After(e: Expecting, h: Happening): Expecting {
    match h
    case Slept => e
    case SleptUntil(_) => e
    case Read(_) => Nothing
    case Called(_, _, reply) => if reply.PairUnavailable? then AResult(Failed) else e
    case Answered(result) => AResult(result)
    case Rang(_) => AResult(Timeout)
    case Threw => e
  }

  function Says(e: Expecting, h: Happening): seq<Event> {
    if !h.Read? then []
    else match e
      case TheFire => [FireEvent(h.now)]
      case AResult(result) => [ResultEvent(result, h.now)]
      case Nothing => []
  }

  function Expects(heard: seq<Happening>): Expecting {
    if heard == [] then TheFire else After(Expects(heard[..|heard| - 1]), heard[|heard| - 1])
  }

  /** The machine's events in what was heard: the first reading fires, and the first reading after
      a result stamps it. */
  function Told(heard: seq<Happening>): seq<Event> {
    if heard == [] then []
    else Told(heard[..|heard| - 1]) + Says(Expects(heard[..|heard| - 1]), heard[|heard| - 1])
  }

  lemma OneMore(heard: seq<Happening>, a: Happening)
    ensures Expects(heard + [a]) == After(Expects(heard), a)
    ensures Told(heard + [a]) == Told(heard) + Says(Expects(heard), a)
  {
    assert (heard + [a])[..|heard|] == heard;
  }

  class Diary {
    ghost var heard: seq<Happening>

    constructor ()
      ensures heard == []
    {
      heard := [];
    }

    ghost method Sleep()
      modifies this
      ensures heard == old(heard) + [Slept]
    {
      heard := heard + [Slept];
    }

    ghost method SleepUntil(target: real)
      modifies this
      ensures heard == old(heard) + [SleptUntil(target)]
    {
      heard := heard + [SleptUntil(target)];
    }

    /** The last thing heard is an exception: one thrown, or the broker's own. */
    ghost predicate Broken()
      reads this
    {
      heard != [] && var last := heard[|heard| - 1]; last == Threw || (last.Called? && last.reply.Refused?)
    }

    /** An exception of a call that only reads or notifies. */
    method Throws() returns (threw: bool)
      modifies this
      ensures heard == if threw then old(heard) + [Threw] else old(heard)
    {
      threw := *;
      if threw {
        heard := heard + [Threw];
      }
    }

    /** Notes how a database call came back. */
    ghost method Note(r: Outcome)
      modifies this
      ensures heard == if r.Raised? then old(heard) + [Threw] else old(heard)
    {
      if r.Raised? {
        heard := heard + [Threw];
      }
    }

    /** A clock reading: anything at all. */
    method Now() returns (t: real)
      modifies this
      ensures heard == old(heard) + [Read(t)]
    {
      t := *;
      heard := heard + [Read(t)];
    }

    /** Calls the broker and notes what it answered. */
    method Place(broker: Broker, signalId: SignalId, stage: Stage, amount: real) returns (reply: PlaceReply)
      modifies this, broker
      ensures heard == old(heard) + [Called(stage, amount, reply)]
      ensures reply.Filled? ==>
                && reply.id.signalId == signalId && reply.id.stage == stage
                && broker.placed == old(broker.placed)[reply.id := (signalId, stage)]
      ensures !reply.Filled? ==> broker.placed == old(broker.placed)
    {
      reply := broker.Place(signalId, stage);
      heard := heard + [Called(stage, amount, reply)];
    }

    /** How a wait ends: an unknown trade is an error result; for a known one any result may come, or
        the timer goes off first. */
    method Result(known: bool, timer: Timer) returns (result: StageResult, rang: bool)
      modifies this
      ensures heard == old(heard) + [if rang then Rang(timer) else Answered(result)]
      ensures rang ==> known && result == Timeout
      ensures !known ==> result == Failed
    {
      result, rang := *, false;
      if !known {
        result := Failed;
      } else if * {
        result, rang := Timeout, true;
      }
      heard := heard + [if rang then Rang(timer) else Answered(result)];
    }
  }
}
