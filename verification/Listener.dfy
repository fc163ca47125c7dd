/** `telegram/listener.py`: from a channel message to a stored and queued signal. */
module Listeners {
  import opened Gale
  import opened StateMachine
  import opened Tables
  import opened Protocol
  import opened Safety
  import opened Guarantees
  import opened StateStores
  import opened Endings
  import opened Copiers
  import opened Diaries
  import opened Regexes
  import opened Parser
  import opened SignalIds
  import Clock

  /** What the handler reads off an event; whether it comes from the watched channel is the
      resolver's answer. */
  datatype Message = Message(outgoing: bool, fromTarget: bool, text: Option<string>, id: int)

  /** What a message is worth before anything is written. */
  datatype Decision = Skip | Refuse(reason: FailureReason) | TooFar | Accept(signal: Signal)

  datatype Intake = Ignored | Unparsed(reason: FailureReason) | OutOfWindow
                  | Duplicate | Enqueued | Blocked | Lost

  function TextOf(m: Message): string { if m.text.Some? then m.text.value else "" }

  /** The signal a parsed message stands for, read at `now`. */
  function Build(p: ParsedSignal, now: real, id: int, cfg: Config): Signal
    requires Clock.HhmmShape(p.triggerHhmm)
  {
    var date := Clock.SignalDate(now, cfg.utcOffset);
    var trigger := Clock.HhmmToUnix(Clock.MinuteOfDay(p.triggerHhmm), date, cfg.utcOffset);
    Signal(IdOf(p, date), p.expirationSeconds, now, id, trigger,
           trigger + p.expirationSeconds as real, trigger + 2.0 * p.expirationSeconds as real)
  }

  function Place(s: Signal, now: real): Decision {
    if Clock.IsWithinWindow(s.triggerInitial, now) then Accept(s) else TooFar
  }

  function Decide(m: Message, now: real, cfg: Config): Decision {
    if m.outgoing || !m.fromTarget || Blank(TextOf(m)) then Skip
    else
      ParsedIsWellFormed(TextOf(m), {cfg.expirationSeconds});
      match ParseSignal(TextOf(m), {cfg.expirationSeconds})
      case Failure(reason) => Refuse(reason)
      case Parsed(p) => Place(Build(p, now, m.id, cfg), now)
  }

  lemma BuiltIsProper(p: ParsedSignal, now: real, id: int, cfg: Config)
    requires WellFormed(p, {cfg.expirationSeconds})
    ensures ProperSignal(Build(p, now, id, cfg), cfg)
  {
  }

  /** An accepted message is incoming, from the watched channel and not blank, and yields a signal
      the rest of the system can rely on: the parsed pair, time and direction on the local date of
      its reception, and the three triggers spaced by the expiration. */
  lemma AcceptedIsProper(m: Message, now: real, cfg: Config)
    requires Decide(m, now, cfg).Accept?
    ensures !m.outgoing && m.fromTarget && !Blank(TextOf(m))
    ensures ParseSignal(TextOf(m), {cfg.expirationSeconds}).Parsed?
    ensures var s := Decide(m, now, cfg).signal;
            var p := ParseSignal(TextOf(m), {cfg.expirationSeconds}).signal;
            && ProperSignal(s, cfg)
            && s.id.pair == p.pair && s.id.direction == p.direction
            && Clock.HhmmShape(p.triggerHhmm) && s.id.minuteOfDay == Clock.MinuteOfDay(p.triggerHhmm)
            && s.id.date == Clock.SignalDate(now, cfg.utcOffset)
            && s.receivedAt == now && s.sourceMessageId == m.id && s.expirationSeconds == cfg.expirationSeconds
            && s.triggerInitial - 1800.0 <= now <= s.triggerInitial + 60.0
            && s.triggerGale1 - s.triggerInitial == s.triggerGale2 - s.triggerGale1 == cfg.expirationSeconds as real
  {
    ParsedIsWellFormed(TextOf(m), {cfg.expirationSeconds});
    BuiltIsProper(ParseSignal(TextOf(m), {cfg.expirationSeconds}).signal, now, m.id, cfg);
  }

  /** Redelivered or edited, the same text gets the same identity exactly when it is read on the
      same local date; the message number and the time of day play no part. */
  lemma RedeliveryKeepsIdentity(m: Message, m': Message, now: real, later: real, cfg: Config)
    requires Decide(m, now, cfg).Accept? && Decide(m', later, cfg).Accept? && TextOf(m) == TextOf(m')
    ensures Decide(m, now, cfg).signal.id == Decide(m', later, cfg).signal.id
            <==> Clock.SignalDate(now, cfg.utcOffset) == Clock.SignalDate(later, cfg.utcOffset)
  {
  }

  /** Seconds since local midnight. */
  function SecondOfDay(t: real, utcOffset: int): real {
    t + utcOffset as real - (Clock.SignalDate(t, utcOffset) * Clock.DAY) as real
  }

  /** The window is measured within one local date, so a parsed message is accepted exactly when
      its time of day is at most 60 s before or 1800 s after the clock on the same day: a time just
      after midnight announced just before it is always dropped. */
  lemma AcceptedIff(m: Message, now: real, cfg: Config)
    requires !m.outgoing && m.fromTarget && !Blank(TextOf(m))
    requires ParseSignal(TextOf(m), {cfg.expirationSeconds}).Parsed?
    ensures Clock.HhmmShape(ParseSignal(TextOf(m), {cfg.expirationSeconds}).signal.triggerHhmm)
    ensures var minute := Clock.MinuteOfDay(ParseSignal(TextOf(m), {cfg.expirationSeconds}).signal.triggerHhmm);
            Decide(m, now, cfg).Accept? <==>
              var second := SecondOfDay(now, cfg.utcOffset);
              second - 60.0 <= (60 * minute) as real <= second + 1800.0
  {
    ParsedIsWellFormed(TextOf(m), {cfg.expirationSeconds});
    var minute := Clock.MinuteOfDay(ParseSignal(TextOf(m), {cfg.expirationSeconds}).signal.triggerHhmm);
    var date := Clock.SignalDate(now, cfg.utcOffset);
    assert Clock.HhmmToUnix(minute, date, cfg.utcOffset) - now
        == (60 * minute) as real - SecondOfDay(now, cfg.utcOffset);
  }

  class Listener {
    const copier: Copier
    const diary: Diary

    constructor (copier: Copier)
      ensures this.copier == copier && fresh(diary) && diary.heard == []
    {
      this.copier := copier;
      diary := new Diary();
    }

    /** One delivery, through either handler. The bot's own messages, other chats and blank texts are
        ignored. Of the rest, one that does not parse is refused for its reason, one outside 60 s
        before to 1800 s after the clock is dropped, and the signal of any other is persisted. The
        clock is read once, before the text is parsed. A refused message writes nothing, though others
        may act while its notice is sent; `left` is the world as this delivery leaves it. */
    method ProcessMessage(m: Message) returns (r: Intake, now: real, ghost left: World)
      requires copier.Valid()
      modifies copier, copier.store, copier.broker, diary
      ensures copier.Valid() && Reaches(old(copier.State()), left, copier.cfg)
      ensures Reaches(left, copier.State(), copier.cfg)
      ensures r == Ignored <==> m.outgoing || !m.fromTarget || m.text == None || Blank(m.text.value)
      ensures r == Ignored ==> left == copier.State() == old(copier.State()) && diary.heard == old(diary.heard)
      ensures r != Ignored ==> old(diary.heard) + [Read(now)] <= diary.heard
      ensures r == Lost ==> diary.Broken()
      ensures r != Ignored ==>
                match ParseSignal(m.text.value, {copier.cfg.expirationSeconds})
                case Failure(reason) => r == Unparsed(reason) && left == old(copier.State())
                case Parsed(p) =>
                  && left == copier.State() && Clock.HhmmShape(p.triggerHhmm)
                  && Handled(r, p, now, m.id, old(copier.State()), left)
      ensures match Decide(m, now, copier.cfg)
              case Skip => r == Ignored
              case Refuse(reason) => r == Unparsed(reason)
              case TooFar => r == OutOfWindow
              case Accept(s) => Delivered(r, s, old(copier.State()), left)
    {
      left := copier.State();
      ReachesSelf(left, copier.cfg);
      now := 0.0;
      if m.outgoing {
        return Ignored, now, left;
      }
      if !m.fromTarget {
        return Ignored, now, left;
      }
      var text := if m.text.Some? then m.text.value else "";
      if Blank(text) {
        return Ignored, now, left;
      }
      now := diary.Now();
      var result := ParseSignal(text, {copier.cfg.expirationSeconds});
      if result.Failure? {
        copier.Await(Bystander);
        diary.Sleep();
        return Unparsed(result.reason), now, left;
      }
      ParsedIsWellFormed(text, {copier.cfg.expirationSeconds});
      r := ProcessParsed(result.signal, now, m.id);
      left := copier.State();
      ReachesSelf(left, copier.cfg);
    }

    /** A parsed message outside the window changes nothing; one inside is delivered as the signal
        with its fields, on the local date of its reception. */
    ghost predicate Handled(r: Intake, p: ParsedSignal, now: real, id: int, before: World, after: World)
      requires Clock.HhmmShape(p.triggerHhmm)
    {
      var minute, date := Clock.MinuteOfDay(p.triggerHhmm), Clock.SignalDate(now, copier.cfg.utcOffset);
      var trigger := (date * 86400 + minute * 60 - copier.cfg.utcOffset) as real;
      var e := p.expirationSeconds as real;
      var signal := Signal(SignalId(p.pair, minute, p.direction, date), p.expirationSeconds, now, id,
                           trigger, trigger + e, trigger + e + e);
      if trigger < now - 60.0 || trigger > now + 1800.0 then r == OutOfWindow && after == before
      else Delivered(r, signal, before, after)
    }

    /** The window check, then persistence. */
    method ProcessParsed(p: ParsedSignal, now: real, id: int) returns (r: Intake)
      requires copier.Valid() && WellFormed(p, {copier.cfg.expirationSeconds})
      modifies copier, copier.store, copier.broker, diary
      ensures copier.Valid() && Reaches(old(copier.State()), copier.State(), copier.cfg)
      ensures Handled(r, p, now, id, old(copier.State()), copier.State())
      ensures old(diary.heard) <= diary.heard && r != Ignored && (r == Lost ==> diary.Broken())
    {
      ReachesSelf(copier.State(), copier.cfg);
      var date := Clock.SignalDate(now, copier.cfg.utcOffset);
      var trigger := Clock.HhmmToUnix(Clock.MinuteOfDay(p.triggerHhmm), date, copier.cfg.utcOffset);
      if !Clock.IsWithinWindow(trigger, now) {
        return OutOfWindow;
      }
      var e := p.expirationSeconds;
      var signal := Signal(
        IdOf(p, date), e, now, id, trigger, trigger + e as real, trigger + 2.0 * e as real);
      BuiltIsProper(p, now, id, copier.cfg);
      r := Persist(signal);
    }

    /** How an accepted signal may end: stored before or by someone faster; queued last, as the first
        ever with this identity, its row pending; stored but waiting for room in a queue of 1000; or
        lost to a database exception. */
    ghost predicate Delivered(r: Intake, signal: Signal, before: World, after: World) {
      var id := signal.id;
      && (r == Duplicate || r == Enqueued || r == Blocked || r == Lost)
      && (r != Lost ==> id in after.tables.signals)
      && (r == Enqueued || r == Blocked ==>
            && id !in before.tables.signals && id !in before.enqueued
            && after.tables.signals[id] == SignalRow(signal, Pending, None, signal.receivedAt))
      && (r == Enqueued ==>
            && id in after.enqueued && 0 < |after.queue| <= 1000 && after.queue[|after.queue| - 1] == signal)
      && (r == Blocked ==> |after.queue| >= 1000)
    }

    method Persist(signal: Signal) returns (r: Intake)
      requires copier.Valid() && ProperSignal(signal, copier.cfg)
      modifies copier, copier.store, copier.broker, diary
      ensures copier.Valid() && Reaches(old(copier.State()), copier.State(), copier.cfg)
      ensures Delivered(r, signal, old(copier.State()), copier.State()) && old(diary.heard) <= diary.heard
      ensures r == Lost ==> diary.Broken()
    {
      ghost var start := copier.State();
      var me := copier.nextTask;
      copier.tasks, copier.nextTask := copier.tasks[me := IntakeUpsert(signal)], me + 1;
      copier.Took(start, Arrive(signal));
      ghost var w := copier.State();
      copier.Await(TaskActor(me));
      diary.Sleep();
      ReachesTransitive(start, w, copier.State(), copier.cfg);
      w := copier.State();
      r := Upsert(me, signal);
      ReachesTransitive(start, w, copier.State(), copier.cfg);
      StoredStays(start, w, signal.id);
    }

    lemma StoredStays(start: World, w: World, id: SignalId)
      requires Reachable(start, copier.cfg) && Reaches(start, w, copier.cfg)
      ensures id in start.tables.signals ==> id in w.tables.signals
      ensures id in start.enqueued ==> id in start.tables.signals
    {
      ReachesMonotone(start, w, copier.cfg);
      ReachableInv(start, copier.cfg);
    }

    method Upsert(me: nat, signal: Signal) returns (r: Intake)
      requires copier.Valid() && me in copier.tasks && copier.tasks[me] == IntakeUpsert(signal)
      modifies copier, copier.store, copier.broker, diary
      ensures copier.Valid() && Reaches(old(copier.State()), copier.State(), copier.cfg)
      ensures Delivered(r, signal, old(copier.State()), copier.State()) && old(diary.heard) <= diary.heard
      ensures r == Lost ==> diary.Broken()
    {
      ghost var w := copier.State();
      var ok, inserted := copier.store.UpsertSignal(signal);
      diary.Note(ok);
      if ok.Raised? {
        copier.tasks := copier.tasks - {me};
        copier.Took(w, Die(me));
        return Lost;
      }
      if !inserted {
        copier.tasks := copier.tasks - {me};
        copier.Took(w, Protocol.Step.Upsert(me));
        return Duplicate;
      }
      copier.tasks := copier.tasks[me := IntakePut(signal)];
      copier.Took(w, Protocol.Step.Upsert(me));
      ghost var v := copier.State();
      r := Put(me, signal);
      ReachesTransitive(w, v, copier.State(), copier.cfg);
      NewlyDelivered(w, v, copier.State(), r, signal);
    }

    /** A row inserted just now, and what became of the signal since. */
    lemma NewlyDelivered(w: World, v: World, z: World, r: Intake, signal: Signal)
      requires Reachable(w, copier.cfg) && Reaches(w, v, copier.cfg) && signal.id !in w.tables.signals
      requires signal.id in v.tables.signals && SameRow(v, z, signal.id)
      requires v.tables.signals[signal.id] == SignalRow(signal, Pending, None, signal.receivedAt)
      requires r == Blocked || r == Enqueued
      requires r == Blocked ==> |z.queue| >= 1000
      requires r == Enqueued ==>
                 signal.id in z.enqueued && 0 < |z.queue| <= 1000 && z.queue[|z.queue| - 1] == signal
      ensures Delivered(r, signal, w, z)
    {
      StoredStays(w, v, signal.id);
    }

    /** Waits for room; a queue that stays full keeps the handler suspended. */
    method Put(me: nat, signal: Signal) returns (r: Intake)
      requires copier.Valid() && me in copier.tasks && copier.tasks[me] == IntakePut(signal)
      modifies copier, copier.store, copier.broker, diary
      ensures copier.Valid() && Reaches(old(copier.State()), copier.State(), copier.cfg)
      ensures r == Blocked || r == Enqueued
      ensures r == Blocked ==> me in copier.tasks && |copier.queue| >= 1000
      ensures r == Enqueued ==> signal.id in copier.enqueued
                                && 0 < |copier.queue| <= 1000 && copier.queue[|copier.queue| - 1] == signal
      ensures SameRow(old(copier.State()), copier.State(), signal.id) && diary.heard == old(diary.heard) + [Slept]
    {
      ghost var start := copier.State();
      copier.Await(TaskActor(me));
      diary.Sleep();
      ghost var w := copier.State();
      if |copier.queue| >= QUEUE_CAPACITY {
        return Blocked;
      }
      copier.queue, copier.enqueued := copier.queue + [signal], copier.enqueued + [signal.id];
      copier.tasks := copier.tasks - {me};
      copier.Took(w, Enqueue(me));
      ReachesTransitive(start, w, copier.State(), copier.cfg);
      r := Enqueued;
    }
  }
}
