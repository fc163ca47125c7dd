/** The two reconnect loops: `broker/reconnect.py` and `TelegramClient.start`. */
module Reconnects {

  const BASE: real := 1.0
  const CAP: real := 30.0
  const JITTER: real := 0.1

  function Pow2(n: nat): real { if n == 0 then 1.0 else 2.0 * Pow2(n - 1) }

  function Min(a: real, b: real): real { if a < b then a else b }

  /** The broker's backoff; `draw` is the random number in [0, 1). */
  function BrokerBackoff(attempt: nat, jitter: real, draw: real): real {
    var capped := Min(BASE * Pow2(attempt), CAP);
    if jitter == 0.0 then capped
    else
      var moved := capped + capped * jitter * (draw * 2.0 - 1.0);
      if moved < 0.0 then 0.0 else moved
  }

  function TelegramBackoff(attempt: nat): real { Min(BASE * Pow2(attempt), CAP) }

  lemma {:induction false} Pow2AtLeast32(n: nat)
    requires n >= 5
    ensures Pow2(n) >= 32.0
  {
    if n == 5 {
      assert Pow2(1) == 2.0 && Pow2(2) == 4.0 && Pow2(3) == 8.0 && Pow2(4) == 16.0;
    } else {
      Pow2AtLeast32(n - 1);
    }
  }

  lemma Jittered(capped: real, draw: real)
    requires 0.0 <= draw < 1.0 && capped >= 0.0
    ensures var moved := capped + capped * JITTER * (draw * 2.0 - 1.0);
            0.9 * capped <= moved <= 1.1 * capped && moved == capped * (0.9 + 0.2 * draw)
  {
  }

  /** 1, 2, 4, 8, 16 seconds and then 30 for ever. */
  function Pause(attempt: nat): real {
    if attempt == 0 then 1.0 else if attempt == 1 then 2.0 else if attempt == 2 then 4.0
    else if attempt == 3 then 8.0 else if attempt == 4 then 16.0 else 30.0
  }

  /** The two backoffs agree without jitter and stay within ten percent with it, in proportion
      to the draw. */
  lemma BackoffsAgree(attempt: nat, draw: real)
    requires 0.0 <= draw < 1.0
    ensures BrokerBackoff(attempt, 0.0, draw) == TelegramBackoff(attempt)
    ensures 0.9 * TelegramBackoff(attempt) <= BrokerBackoff(attempt, JITTER, draw) <= 1.1 * TelegramBackoff(attempt)
    ensures BrokerBackoff(attempt, JITTER, draw) == Pause(attempt) * (0.9 + 0.2 * draw)
    ensures TelegramBackoff(attempt) == Pause(attempt)
  {
    if attempt >= 5 {
      Pow2AtLeast32(attempt);
    } else {
      assert Pow2(1) == 2.0 && Pow2(2) == 4.0 && Pow2(3) == 8.0 && Pow2(4) == 16.0;
    }
    Jittered(TelegramBackoff(attempt), draw);
  }

  /** What n sleeps add up to without jitter. */
  function Budget(n: nat): real { if n == 0 then 0.0 else Budget(n - 1) + TelegramBackoff(n - 1) }

  lemma {:induction false} BudgetClosedForm(n: nat)
    ensures Budget(n) == if n <= 5 then Pow2(n) - 1.0 else 31.0 + 30.0 * (n - 5) as real
  {
    if n > 0 {
      BudgetClosedForm(n - 1);
      BackoffsAgree(n - 1, 0.0);
      assert Pow2(1) == 2.0 && Pow2(2) == 4.0 && Pow2(3) == 8.0 && Pow2(4) == 16.0;
    }
  }

  // ----- with_retry -----

  /** How one call of the operation ends: normally, with an error worth retrying, or otherwise. */
  datatype Call = Success | Transient | Fatal

  datatype RetryResult = Returned | Propagated | Exhausted

  /** The first n calls all fail with retryable errors. */
  ghost predicate AllTransient(op: nat -> Call, n: nat) { forall k: nat :: k < n ==> op(k) == Transient }

  /** The first n pauses, each jittered by its own draw. */
  function Slept(draws: nat -> real, n: nat): real {
    if n == 0 then 0.0 else Slept(draws, n - 1) + Pause(n - 1) * (0.9 + 0.2 * draws(n - 1))
  }

  lemma {:induction false} SleptWithinBudget(draws: nat -> real, n: nat)
    requires forall k: nat :: 0.0 <= draws(k) < 1.0
    ensures 0.9 * Budget(n) <= Slept(draws, n) <= 1.1 * Budget(n)
  {
    if n > 0 {
      SleptWithinBudget(draws, n - 1);
      BackoffsAgree(n - 1, draws(n - 1));
    }
  }

  /** `op(k)` is the outcome of the k-th call and `draws(k)` the k-th random number. Never more than
      `maxAttempts` calls, one retry fewer than calls, and before each retry its own pause. */
  method WithRetry(op: nat -> Call, draws: nat -> real, maxAttempts: int)
    returns (r: RetryResult, calls: nat, retries: nat, slept: real)
    requires forall k: nat :: 0.0 <= draws(k) < 1.0
    ensures calls <= (if maxAttempts < 0 then 0 else maxAttempts)
    ensures retries == if calls == 0 then 0 else calls - 1
    ensures AllTransient(op, retries)
    ensures match r
            case Returned => calls > 0 && op(calls - 1) == Success
            case Propagated => calls > 0 && op(calls - 1) == Fatal
            case Exhausted => calls >= maxAttempts && AllTransient(op, calls)
    ensures slept == Slept(draws, retries)
  {
    calls, retries, slept := 0, 0, 0.0;
    while calls < maxAttempts
      invariant 0 <= calls && (calls > 0 ==> calls < maxAttempts)
      invariant retries == calls
      invariant AllTransient(op, calls)
      invariant slept == Slept(draws, retries)
      decreases maxAttempts - calls
    {
      var outcome := op(calls);
      calls := calls + 1;
      if outcome == Success {
        return Returned, calls, retries, slept;
      }
      if outcome == Fatal {
        return Propagated, calls, retries, slept;
      }
      if calls >= maxAttempts {
        break;
      }
      BackoffsAgree(retries, draws(retries));
      slept := slept + BrokerBackoff(retries, JITTER, draws(retries));
      retries := retries + 1;
    }
    r := Exhausted;
  }

  // ----- The Telegram client's loop -----

  const MAX_RECONNECTS: nat := 10
  const FLOOD_THRESHOLD: int := 60

  /** How one connection ends. */
  datatype Ending = Disconnected | FloodWait(seconds: int) | ConnectionLost

  datatype StartResult = Stopped | FloodRaised | ConnectionRaised | StillRunning

  predicate Final(e: Ending) { e.Disconnected? || (e.FloodWait? && e.seconds > FLOOD_THRESHOLD) }

  function Losses(events: seq<Ending>): nat {
    if events == [] then 0
    else Losses(events[..|events| - 1]) + if events[|events| - 1].ConnectionLost? then 1 else 0
  }

  /** Runs the client over the given endings. The counter is never reset, so in its whole life the
      client survives ten lost connections and any number of short flood waits; the k-th loss is
      followed by the k-th backoff. */
  method Start(events: seq<Ending>) returns (r: StartResult, used: nat, delays: seq<real>)
    ensures used <= |events|
    ensures forall k :: 0 <= k < used - 1 ==>
              events[k].ConnectionLost? || (events[k].FloodWait? && events[k].seconds <= 60)
    ensures delays == seq(|delays|, k requires 0 <= k => Pause(k)) && |delays| <= 10
    ensures match r
            case Stopped => used > 0 && events[used - 1].Disconnected? && |delays| == Losses(events[..used])
            case FloodRaised =>
              && used > 0 && events[used - 1].FloodWait? && events[used - 1].seconds > 60
              && |delays| == Losses(events[..used])
            case ConnectionRaised =>
              used > 0 && events[used - 1].ConnectionLost?
                  && Losses(events[..used]) == 11 && |delays| == 10
            case StillRunning => used == |events| && |delays| == Losses(events)
    ensures r == StillRunning ==> forall k :: 0 <= k < |events| ==> !Final(events[k])
  {
    used, delays := 0, [];
    var attempt := 0;
    while used < |events|
      invariant used <= |events| && forall k :: 0 <= k < used ==> !Final(events[k])
      invariant attempt == |delays| == Losses(events[..used]) <= MAX_RECONNECTS
      invariant delays == seq(|delays|, k requires 0 <= k => Pause(k))
    {
      var e := events[used];
      used := used + 1;
      assert events[..used][..used - 1] == events[..used - 1];
      if e.Disconnected? {
        return Stopped, used, delays;
      }
      if e.FloodWait? {
        if e.seconds > FLOOD_THRESHOLD {
          return FloodRaised, used, delays;
        }
        continue;
      }
      attempt := attempt + 1;
      if attempt > MAX_RECONNECTS {
        return ConnectionRaised, used, delays;
      }
      BackoffsAgree(attempt - 1, 0.0);
      delays := delays + [TelegramBackoff(attempt - 1)];
    }
    assert events[..used] == events;
    r := StillRunning;
  }
}
