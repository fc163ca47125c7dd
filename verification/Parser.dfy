/** `parse_signal` of `domain/signal.py`, the grammar it decides, and what it cannot see. */
module Parser {
  import opened Gale
  import opened Regexes
  import opened SignalLines
  import opened Clock

  datatype FailureReason =
    | MissingHeaderLine | ExpirationNotAllowed | MissingSignalLine | MultipleSignalLines | BadTimeFormat

  datatype ParsedSignal = ParsedSignal(
    pair: string, direction: Direction, triggerHhmm: string, expirationSeconds: int,
    gale1Hhmm: string, gale2Hhmm: string)

  datatype ParseResult = Parsed(signal: ParsedSignal) | Failure(reason: FailureReason)

  // ----- Invisible characters -----

  const BOM: char := '\U{FEFF}'
  const ZERO_WIDTH: set<char> :=
    {'\U{200B}', '\U{200C}', '\U{200D}', '\U{2060}', '\U{FEFF}', '\U{FE0E}', '\U{FE0F}'}

  function StripLeft(t: string): string {
    if t != [] && t[0] == BOM then StripLeft(t[1..]) else t
  }

  function StripRight(t: string): string {
    if t != [] && t[|t| - 1] == BOM then StripRight(t[..|t| - 1]) else t
  }

  /** The text with every zero-width character removed. */
  function Visible(t: string): string {
    if t == [] then [] else (if t[0] in ZERO_WIDTH then [] else [t[0]]) + Visible(t[1..])
  }

  // ----- The parse -----

  function DecimalValue(digits: string): int {
    if digits == [] then 0
    else 10 * DecimalValue(digits[..|digits| - 1]) + (digits[|digits| - 1] as int - '0' as int)
  }

  /** The minutes a header line states, in seconds. */
  function HeaderSeconds(t: string, cuts: seq<nat>): int
    requires |cuts| == |HEADER| + 1 && cuts[2] <= cuts[4] <= |t|
  {
    60 * DecimalValue(t[cuts[2]..cuts[4]])
  }

  function PairOf(t: string, l: Line): (s: string)
    requires IsLine(t, l)
    ensures IsPair(s)
  {
    MatchLayout(t, l.direction, l.cuts);
    t[l.cuts[0]..l.cuts[7]]
  }

  function TimeOf(t: string, l: Line): (s: string)
    requires IsLine(t, l)
    ensures HhmmShape(s)
  {
    MatchLayout(t, l.direction, l.cuts);
    t[l.cuts[10]..l.cuts[15]]
  }

  function ParseText(t: string, allowed: set<int>): ParseResult {
    FirstHeaderIff(t, 0);
    AllLinesAreAll(t, 0);
    match FirstHeader(t, 0)
    case None => Failure(MissingHeaderLine)
    case Some(h) =>
      HeaderCuts(t, h);
      var expiration := HeaderSeconds(t, h);
      var lines := AllLines(t, 0);
      if expiration !in allowed then Failure(ExpirationNotAllowed)
      else if |lines| == 0 then Failure(MissingSignalLine)
      else if |lines| > 1 then Failure(MultipleSignalLines)
      else
        var hhmm := TimeOf(t, lines[0]);
        if !(Hour(hhmm) <= 23 && Minute(hhmm) <= 59) then Failure(BadTimeFormat)
        else Parsed(ParsedSignal(
          PairOf(t, lines[0]), lines[0].direction, hhmm, expiration, AddMinutes(hhmm, 5), AddMinutes(hhmm, 10)))
  }

  function ParseSignal(raw: string, allowed: set<int>): ParseResult {
    ParseText(Visible(StripRight(StripLeft(raw))), allowed)
  }

  lemma HeaderCuts(t: string, cuts: seq<nat>)
    requires Match(HEADER, t, cuts)
    ensures cuts[2] < cuts[4] <= |t| && cuts[2] == cuts[1] + 1 && t[cuts[1]] == '\U{1F4B0}'
    ensures cuts[0] <= cuts[1] && forall k :: cuts[0] <= k < cuts[1] ==> IsSpace(t[k])
    ensures forall k :: cuts[2] <= k < cuts[4] ==> IsDigit(t[k])
  {
    HeaderAtoms();
    assert AtomMatches(HEADER[0], t, cuts[0], cuts[1]) && AtomMatches(HEADER[1], t, cuts[1], cuts[2]);
    assert AtomMatches(HEADER[2], t, cuts[2], cuts[3]) && AtomMatches(HEADER[3], t, cuts[3], cuts[4]);
  }

  // ----- The grammar -----

  /** The first header line of the text states this expiration. */
  ghost predicate HeaderSays(t: string, expiration: int) {
    exists cuts: seq<nat>, end: nat ::
      && IsHeader(t, cuts, end)
      && cuts[2] <= cuts[4] <= |t| && expiration == HeaderSeconds(t, cuts)
      && forall other: seq<nat>, e: nat :: IsHeader(t, other, e) ==> cuts[0] <= other[0]
  }

  /** l is a signal line of the text and every signal line starts where it does. */
  ghost predicate OnlyLine(t: string, l: Line) {
    IsLine(t, l) && forall m :: IsLine(t, m) ==> m.cuts[0] == l.cuts[0]
  }

  /** The declarative meaning of a message: its first header states an allowed expiration, and the
      fields are those of its only signal line, whose time exists. */
  ghost predicate Denotes(t: string, allowed: set<int>, s: ParsedSignal) {
    && HeaderSays(t, s.expirationSeconds) && s.expirationSeconds in allowed
    && (exists l ::
          OnlyLine(t, l) && l.direction == s.direction && PairOf(t, l) == s.pair && TimeOf(t, l) == s.triggerHhmm)
    && ValidHhmm(s.triggerHhmm)
    && s.gale1Hhmm == AddMinutes(s.triggerHhmm, 5) && s.gale2Hhmm == AddMinutes(s.triggerHhmm, 10)
  }

  /** The executable header search finds the header the grammar speaks of. */
  lemma HeaderFound(t: string)
    ensures FirstHeader(t, 0).None? <==> forall cuts: seq<nat>, end: nat :: !IsHeader(t, cuts, end)
    ensures FirstHeader(t, 0).Some? ==>
              var h := FirstHeader(t, 0).value;
              && |h| == |HEADER| + 1 && h[2] <= h[4] <= |t|
              && forall e :: HeaderSays(t, e) <==> e == HeaderSeconds(t, h)
  {
    FirstHeaderIff(t, 0);
    if FirstHeader(t, 0).Some? {
      var h := FirstHeader(t, 0).value;
      var end: nat :| IsHeader(t, h, end);
      HeaderCuts(t, h);
      assert HeaderSays(t, HeaderSeconds(t, h));
    }
  }

  /** Lines that start together are the same line, whatever trailing space each takes. */
  lemma SameStartSameLine(t: string, l: Line, m: Line)
    requires IsLine(t, l) && IsLine(t, m) && l.cuts[0] == m.cuts[0]
    ensures l.direction == m.direction && l.cuts == m.cuts
  {
    LineAtIff(t, l.cuts[0]);
  }

  /** Counting matches left to right tells exactly how many places start a signal line. */
  lemma LinesCounted(t: string)
    ensures AllLines(t, 0) == [] <==> forall l :: !IsLine(t, l)
    ensures |AllLines(t, 0)| > 1 <==> exists l, m :: IsLine(t, l) && IsLine(t, m) && l.cuts[0] != m.cuts[0]
    ensures |AllLines(t, 0)| == 1 ==> OnlyLine(t, AllLines(t, 0)[0])
  {
    AllLinesAreAll(t, 0);
    var ls := AllLines(t, 0);
    if |ls| > 1 {
      assert IsLine(t, ls[0]) && IsLine(t, ls[1]) && ls[0].cuts[0] < ls[1].cuts[0];
    }
    forall l | IsLine(t, l) ensures Has(ls, l.cuts) {
      assert 0 <= l.cuts[0];
    }
  }

  /** The only line of a text is the one the scan reports, field by field. */
  lemma OnlyLineFound(t: string, l: Line)
    requires OnlyLine(t, l)
    ensures |AllLines(t, 0)| == 1
    ensures var m := AllLines(t, 0)[0];
            OnlyLine(t, m) && m.direction == l.direction && PairOf(t, m) == PairOf(t, l) && TimeOf(t, m) == TimeOf(t, l)
  {
    LinesCounted(t);
    SameStartSameLine(t, l, AllLines(t, 0)[0]);
  }

  /** The parser decides the grammar: it succeeds with exactly the signal the message denotes. */
  lemma ParserMeetsGrammar(t: string, allowed: set<int>, s: ParsedSignal)
    ensures ParseText(t, allowed) == Parsed(s) <==> Denotes(t, allowed, s)
  {
    HeaderFound(t);
    LinesCounted(t);
    if Denotes(t, allowed, s) {
      var l :| OnlyLine(t, l) && l.direction == s.direction && PairOf(t, l) == s.pair && TimeOf(t, l) == s.triggerHhmm;
      OnlyLineFound(t, l);
    }
  }

  ghost predicate HeaderAllowed(t: string, allowed: set<int>) { exists e :: HeaderSays(t, e) && e in allowed }

  ghost predicate Ambiguous(t: string) { exists l, m :: IsLine(t, l) && IsLine(t, m) && l.cuts[0] != m.cuts[0] }

  /** Each failure reason is reported exactly when its own rule, and none before it, is broken. */
  lemma FailureReasons(t: string, allowed: set<int>)
    ensures
      var r := ParseText(t, allowed);
      && (r == Failure(MissingHeaderLine) <==> forall cuts: seq<nat>, end: nat :: !IsHeader(t, cuts, end))
      && (r == Failure(ExpirationNotAllowed) <==> exists e :: HeaderSays(t, e) && e !in allowed)
      && (r == Failure(MissingSignalLine) <==> HeaderAllowed(t, allowed) && forall l :: !IsLine(t, l))
      && (r == Failure(MultipleSignalLines) <==> HeaderAllowed(t, allowed) && Ambiguous(t))
      && (r == Failure(BadTimeFormat) <==>
            HeaderAllowed(t, allowed) && exists l :: OnlyLine(t, l) && !ValidHhmm(TimeOf(t, l)))
  {
    HeaderFound(t);
    LinesCounted(t);
    assert FirstHeader(t, 0).Some? ==> HeaderSays(t, HeaderSeconds(t, FirstHeader(t, 0).value));
    forall l | OnlyLine(t, l) ensures |AllLines(t, 0)| == 1 && TimeOf(t, AllLines(t, 0)[0]) == TimeOf(t, l) {
      OnlyLineFound(t, l);
    }
  }

  // ----- Blindness -----

  lemma {:induction false} VisibleAppend(a: string, b: string)
    ensures Visible(a + b) == Visible(a) + Visible(b)
    decreases |a|
  {
    if a == [] {
      assert a + b == b;
    } else {
      assert (a + b)[1..] == a[1..] + b;
      VisibleAppend(a[1..], b);
    }
  }

  lemma {:induction false} StripLeftKeeps(t: string)
    ensures Visible(StripLeft(t)) == Visible(t)
  {
    if t != [] && t[0] == BOM {
      StripLeftKeeps(t[1..]);
    }
  }

  lemma {:induction false} StripRightKeeps(t: string)
    ensures Visible(StripRight(t)) == Visible(t)
  {
    if t != [] && t[|t| - 1] == BOM {
      StripRightKeeps(t[..|t| - 1]);
      VisibleAppend(t[..|t| - 1], [BOM]);
      assert t == t[..|t| - 1] + [BOM];
    }
  }

  /** The parse is a function of the visible text alone; stripping byte-order marks first changes nothing. */
  lemma ParsesVisibleText(raw: string, allowed: set<int>)
    ensures ParseSignal(raw, allowed) == ParseText(Visible(raw), allowed)
  {
    StripLeftKeeps(raw);
    StripRightKeeps(StripLeft(raw));
  }

  lemma {:induction false} NothingVisible(z: string)
    requires forall c :: c in z ==> c in ZERO_WIDTH
    ensures Visible(z) == []
  {
    if z != [] {
      NothingVisible(z[1..]);
    }
  }

  lemma InsertionInvisible(a: string, z: string, b: string)
    requires forall c :: c in z ==> c in ZERO_WIDTH
    ensures Visible(a + z + b) == Visible(a + b)
  {
    NothingVisible(z);
    VisibleAppend(a + z, b);
    VisibleAppend(a, z);
    VisibleAppend(a, b);
  }

  /** Inserting any zero-width characters at any place leaves the result unchanged. */
  lemma BlindToZeroWidth(a: string, z: string, b: string, allowed: set<int>)
    requires forall c :: c in z ==> c in ZERO_WIDTH
    ensures ParseSignal(a + z + b, allowed) == ParseSignal(a + b, allowed)
  {
    ParsesVisibleText(a + z + b, allowed);
    ParsesVisibleText(a + b, allowed);
    InsertionInvisible(a, z, b);
  }

  /** Blind to each of the seven: zero-width space, non-joiner and joiner, word joiner, byte-order mark,
      and the two variation selectors. */
  lemma BlindToEach(a: string, c: char, b: string, allowed: set<int>)
    requires c == '\U{200B}' || c == '\U{200C}' || c == '\U{200D}' || c == '\U{2060}' || c == '\U{FEFF}'
             || c == '\U{FE0E}' || c == '\U{FE0F}'
    ensures ParseSignal(a + [c] + b, allowed) == ParseSignal(a + b, allowed)
  {
    BlindToZeroWidth(a, [c], b, allowed);
  }

  /** And to no other character. */
  lemma OnlySevenInvisible(c: char)
    ensures Visible([c]) == [] <==>
              c == '\U{200B}' || c == '\U{200C}' || c == '\U{200D}' || c == '\U{2060}' || c == '\U{FEFF}'
              || c == '\U{FE0E}' || c == '\U{FE0F}'
  {
    assert [c][1..] == [];
  }

  lemma {:induction false} VisibleIs(t: string)
    ensures forall c :: c in Visible(t) ==> c !in ZERO_WIDTH
    ensures (forall c :: c in t ==> c !in ZERO_WIDTH) ==> Visible(t) == t
  {
    if t != [] {
      VisibleIs(t[1..]);
    }
  }
}
