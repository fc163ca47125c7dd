/** The identity of a signal: the payload that `derive_signal_id` hashes. */
module SignalIds {
  import opened Gale
  import opened StateMachine
  import opened Regexes
  import opened SignalLines
  import opened Clock
  import opened Parser

  function DirectionText(d: Direction): string { if d.Up? then "up" else "down" }

  /** Pair, time, direction and ISO date, joined by bars. */
  function Payload(pair: string, hhmm: string, d: Direction, isoDate: string): string {
    pair + "|" + hhmm + "|" + DirectionText(d) + "|" + isoDate
  }

  lemma PayloadSpelled(pair: string, hhmm: string, iso: string)
    ensures Payload(pair, hhmm, Up, iso) == pair + "|" + hhmm + "|up|" + iso
    ensures Payload(pair, hhmm, Down, iso) == pair + "|" + hhmm + "|down|" + iso
  {
    assert pair + "|" + hhmm + "|" + "up" + "|" == pair + "|" + hhmm + "|up|";
    assert pair + "|" + hhmm + "|" + "down" + "|" == pair + "|" + hhmm + "|down|";
  }

  /** The identity this model uses in place of the hash. */
  function IdOf(p: ParsedSignal, date: int): SignalId
    requires HhmmShape(p.triggerHhmm)
  {
    SignalId(p.pair, MinuteOfDay(p.triggerHhmm), p.direction, date)
  }

  /** The bars make the payload unambiguous: it determines all four fields. */
  lemma PayloadInjective(
      pair: string, hhmm: string, d: Direction, iso: string, pair': string, hhmm': string, d': Direction, iso': string)
    requires IsPair(pair) && IsPair(pair') && HhmmShape(hhmm) && HhmmShape(hhmm')
    requires Payload(pair, hhmm, d, iso) == Payload(pair', hhmm', d', iso')
    ensures pair == pair' && hhmm == hhmm' && d == d' && iso == iso'
  {
    var p, p' := Payload(pair, hhmm, d, iso), Payload(pair', hhmm', d', iso');
    assert pair == p[..7] && pair' == p'[..7];
    assert hhmm == p[8..13] && hhmm' == p'[8..13];
    assert DirectionText(d)[0] == p[14] && DirectionText(d')[0] == p'[14];
    var n := 15 + |DirectionText(d)|;
    assert iso == p[n..] && iso' == p'[n..];
  }

  predicate WellFormed(s: ParsedSignal, allowed: set<int>) {
    && IsPair(s.pair) && ValidHhmm(s.triggerHhmm) && s.expirationSeconds in allowed
    && s.gale1Hhmm == AddMinutes(s.triggerHhmm, 5) && s.gale2Hhmm == AddMinutes(s.triggerHhmm, 10)
  }

  /** What the parser guarantees of the signals it returns. */
  lemma ParsedIsWellFormed(raw: string, allowed: set<int>)
    ensures ParseSignal(raw, allowed).Parsed? ==> WellFormed(ParseSignal(raw, allowed).signal, allowed)
  {
  }

  /** Well-formed means: six capitals around a slash, and a time of the day. */
  lemma WellFormedShape(s: ParsedSignal, allowed: set<int>)
    requires WellFormed(s, allowed)
    ensures |s.pair| == 7 && s.pair[3] == '/' && forall k :: 0 <= k < 7 && k != 3 ==> 'A' <= s.pair[k] <= 'Z'
    ensures HhmmShape(s.triggerHhmm) && 0 <= MinuteOfDay(s.triggerHhmm) < 1440
  {
  }

  /** For any two parsed messages on any two dates: same identity exactly when same payload,
      whatever injective date format is used. */
  lemma IdMeansPayload(
      raw: string, raw': string, allowed: set<int>, allowed': set<int>, date: int, date': int, iso: int -> string)
    requires ParseSignal(raw, allowed).Parsed? && ParseSignal(raw', allowed').Parsed?
    requires forall a: int, b: int :: iso(a) == iso(b) ==> a == b
    ensures
      var s, s' := ParseSignal(raw, allowed).signal, ParseSignal(raw', allowed').signal;
      && HhmmShape(s.triggerHhmm) && HhmmShape(s'.triggerHhmm)
      && (IdOf(s, date) == IdOf(s', date') <==>
          Payload(s.pair, s.triggerHhmm, s.direction, iso(date))
          == Payload(s'.pair, s'.triggerHhmm, s'.direction, iso(date')))
  {
    ParsedIsWellFormed(raw, allowed);
    ParsedIsWellFormed(raw', allowed');
    var s, s' := ParseSignal(raw, allowed).signal, ParseSignal(raw', allowed').signal;
    ReadThenFormat(s.triggerHhmm);
    ReadThenFormat(s'.triggerHhmm);
    if Payload(s.pair, s.triggerHhmm, s.direction, iso(date))
       == Payload(s'.pair, s'.triggerHhmm, s'.direction, iso(date'))
    {
      PayloadInjective(s.pair, s.triggerHhmm, s.direction, iso(date), s'.pair, s'.triggerHhmm, s'.direction,
          iso(date'));
    }
  }
}
