/** Messages the listener accepts: when there are any, and enough of them to fill a day. */
module Announcements {
  import opened Gale
  import opened StateMachine
  import opened Protocol
  import opened Regexes
  import opened SignalLines
  import opened Parser
  import opened Rendering
  import opened SignalIds
  import opened Listeners
  import Clock

  /** Some message, read when the signal says it was received, is accepted as this signal. */
  ghost predicate Announced(s: Signal, cfg: Config) {
    exists m: Message :: Decide(m, s.receivedAt, cfg) == Accept(s)
  }

  /** All signals that messages can stand for. */
  ghost function Heard(cfg: Config): iset<Signal> { iset s: Signal | Announced(s, cfg) }

  // ----- Headers speak in minutes -----

  lemma HeaderInMinutes(t: string, e: int)
    requires HeaderSays(t, e)
    ensures e % 60 == 0
  {
  }

  lemma ParsedInMinutes(raw: string, allowed: set<int>)
    requires ParseSignal(raw, allowed).Parsed?
    ensures var e := ParseSignal(raw, allowed).signal.expirationSeconds; e in allowed && e % 60 == 0
  {
    ParsesVisibleText(raw, allowed);
    var s := ParseSignal(raw, allowed).signal;
    ParserMeetsGrammar(Visible(raw), allowed, s);
    HeaderInMinutes(Visible(raw), s.expirationSeconds);
  }

  lemma HeardInMinutes(s: Signal, cfg: Config)
    requires s in Heard(cfg)
    ensures cfg.expirationSeconds % 60 == 0
  {
    var m: Message :| Decide(m, s.receivedAt, cfg) == Accept(s);
    AcceptedInMinutes(m, s.receivedAt, cfg);
  }

  lemma AcceptedInMinutes(m: Message, now: real, cfg: Config)
    requires Decide(m, now, cfg).Accept?
    ensures cfg.expirationSeconds % 60 == 0
  {
    ParsedInMinutes(TextOf(m), {cfg.expirationSeconds});
  }

  // ----- Many signals of one minute -----

  function Pow26(m: nat): nat { if m == 0 then 1 else 26 * Pow26(m - 1) }

  function Letter(k: nat): char { ('A' as int + k % 26) as char }

  /** k written in base 26, with m letters. */
  function Letters(k: nat, m: nat): (s: string)
    ensures |s| == m && forall c :: c in s ==> IsUpper(c)
  {
    if m == 0 then [] else Letters(k / 26, m - 1) + [Letter(k)]
  }

  lemma {:induction false} LettersDiffer(j: nat, k: nat, m: nat)
    requires j < Pow26(m) && k < Pow26(m) && Letters(j, m) == Letters(k, m)
    ensures j == k
  {
    if m > 0 {
      assert Letters(j, m)[m - 1] == Letter(j) && Letters(k, m)[m - 1] == Letter(k);
      assert Letters(j / 26, m - 1) == Letters(j, m)[..m - 1] == Letters(k, m)[..m - 1] == Letters(k / 26, m - 1);
      LettersDiffer(j / 26, k / 26, m - 1);
      assert j == 26 * (j / 26) + j % 26 && k == 26 * (k / 26) + k % 26;
    }
  }

  function PairName(k: nat): string { Letters(k, 6)[..3] + "/" + Letters(k, 6)[3..] }

  lemma PairNameIsPair(k: nat)
    ensures IsPair(PairName(k))
  {
    var l := Letters(k, 6);
    assert forall i :: 0 <= i < 6 ==> l[i] in l;
  }

  /** Pairs and directions of one minute. */
  const IDENTITIES: nat := 617831552

  lemma PairNamesDiffer(j: nat, k: nat)
    requires j < IDENTITIES / 2 && k < IDENTITIES / 2 && PairName(j) == PairName(k)
    ensures j == k
  {
    assert Pow26(1) == 26 && Pow26(2) == 676 && Pow26(3) == 17576;
    assert Pow26(4) == 456976 && Pow26(5) == 11881376 && Pow26(6) == IDENTITIES / 2;
    assert Letters(j, 6) == PairName(j)[..3] + PairName(j)[4..];
    assert Letters(k, 6) == PairName(k)[..3] + PairName(k)[4..];
    LettersDiffer(j, k, 6);
  }

  function DirectionOf(i: nat): Direction { if i % 2 == 0 then Up else Down }

  const MIDNIGHT: string := "00:00"

  /** Local midnight of the date, the trigger of all these signals. */
  function Trigger(d: int, cfg: Config): real { Clock.HhmmToUnix(0, d, cfg.utcOffset) }

  function Spoken(i: nat, cfg: Config): ParsedSignal {
    assert Clock.HhmmShape(MIDNIGHT);
    ParsedSignal(PairName(i / 2), DirectionOf(i), MIDNIGHT, cfg.expirationSeconds,
                 Clock.AddMinutes(MIDNIGHT, 5), Clock.AddMinutes(MIDNIGHT, 10))
  }

  /** The i-th signal of the date, announced at its trigger. */
  function Sig(i: nat, d: int, cfg: Config): Signal { Build(Spoken(i, cfg), Trigger(d, cfg), 0, cfg) }

  lemma SigIs(i: nat, d: int, cfg: Config)
    ensures var s := Sig(i, d, cfg);
            && s.id == SignalId(PairName(i / 2), 0, DirectionOf(i), d) && s.triggerInitial == Trigger(d, cfg)
            && s.receivedAt == Trigger(d, cfg) && ProperSignal(s, cfg)
  {
    Clock.ClockRoundTrip(0, d, cfg.utcOffset);
    PairNameIsPair(i / 2);
    BuiltIsProper(Spoken(i, cfg), Trigger(d, cfg), 0, cfg);
  }

  lemma SigsDiffer(i: nat, j: nat, d: int, cfg: Config)
    requires i < IDENTITIES && j < IDENTITIES && Sig(i, d, cfg).id == Sig(j, d, cfg).id
    ensures i == j
  {
    SigIs(i, d, cfg);
    SigIs(j, d, cfg);
    PairNamesDiffer(i / 2, j / 2);
  }

  const TIGHT: Spacing := Spacing("", "", "", "", "", "", "", "")

  function MarkOf(d: Direction): char { if d.Down? then '\U{1F534}' else '\U{1F7E9}' }

  function MessageOf(i: nat, cfg: Config): Message {
    Message(false, true,
            Some(Render(PairName(i / 2), DirectionOf(i), MIDNIGHT, cfg.expirationSeconds / 60, MarkOf(DirectionOf(i)),
                TIGHT, "", "")),
            0)
  }

  lemma RenderedIsNotBlank(
      pair: string, d: Direction, hhmm: string, minutes: nat, mark: char, sp: Spacing, between: string, after: string)
    requires mark in Marks(d)
    ensures !Blank(Render(pair, d, hhmm, minutes, mark, sp, between, after))
  {
    var t := Render(pair, d, hhmm, minutes, mark, sp, between, after);
    assert mark in LineBody(pair, d, hhmm, mark, sp);
    assert mark in t && !IsSpace(mark);
  }

  /** Every one of them is really announced by a message, when the expiration is whole minutes. */
  lemma SigAnnounced(i: nat, d: int, cfg: Config)
    requires cfg.expirationSeconds % 60 == 0
    ensures Decide(MessageOf(i, cfg), Trigger(d, cfg), cfg) == Accept(Sig(i, d, cfg))
    ensures Sig(i, d, cfg) in Heard(cfg)
  {
    var pair, dir := PairName(i / 2), DirectionOf(i);
    PairNameIsPair(i / 2);
    assert Renderable(pair, dir, MIDNIGHT, MarkOf(dir), TIGHT, "", "");
    ParseInvertsRender(pair, dir, MIDNIGHT, cfg.expirationSeconds / 60, MarkOf(dir), TIGHT, "", "",
        {cfg.expirationSeconds});
    RenderedIsNotBlank(pair, dir, MIDNIGHT, cfg.expirationSeconds / 60, MarkOf(dir), TIGHT, "", "");
    assert ParseSignal(TextOf(MessageOf(i, cfg)), {cfg.expirationSeconds}) == Parsed(Spoken(i, cfg));
    SigIs(i, d, cfg);
  }

  /** The listener can accept a message at all if and only if the configured expiration is a whole
      number of minutes; the configuration itself asks only that it be positive. */
  lemma SomeMessageAcceptedIff(cfg: Config)
    ensures (exists m: Message, now: real :: Decide(m, now, cfg).Accept?) <==> cfg.expirationSeconds % 60 == 0
  {
    if cfg.expirationSeconds % 60 == 0 {
      SigAnnounced(0, 0, cfg);
    }
    forall m: Message, now: real | Decide(m, now, cfg).Accept? ensures cfg.expirationSeconds % 60 == 0 {
      AcceptedInMinutes(m, now, cfg);
    }
  }
}
