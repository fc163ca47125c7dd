/** Which words and marks mean which direction, spelled out. */
module Directions {
  import opened Gale
  import opened Regexes
  import opened SignalLines
  import opened Clock
  import opened Parser
  import opened Rendering

  /** A message with a header line, a signal line that ends in this word and mark, and other lines. */
  function Message(
      word: string, mark: char, pair: string, hhmm: string, minutes: nat, sp: Spacing,
      between: string, after: string): string
  {
    var header := sp.indent + "\U{1F4B0}" + Decimal(minutes) + "-minute expiration" + sp.afterHeader;
    var line := pair + (sp.pairEnd + ";" + sp.timeStart) + hhmm + (sp.timeEnd + ";" + sp.wordStart)
                + word + (sp.wordEnd + [mark]) + sp.lineEnd;
    header + "\n" + between + line + after
  }

  /** The rest of such a message is in order. */
  predicate Orderly(pair: string, hhmm: string, sp: Spacing, between: string, after: string) {
    && |pair| == 7 && pair[3] == '/' && (forall k :: 0 <= k < 7 && k != 3 ==> 'A' <= pair[k] <= 'Z')
    && |hhmm| == 5 && hhmm[2] == ':' && (forall k :: 0 <= k < 5 && k != 2 ==> '0' <= hhmm[k] <= '9')
    && (hhmm[0] < '2' || (hhmm[0] == '2' && hhmm[1] <= '3')) && hhmm[3] <= '5'
    && BlankSpacing(sp)
    && Chatter(between) && (between == [] || between[|between| - 1] == '\n')
    && Chatter(after) && (after == [] || after[0] == '\n')
  }

  lemma OrderlyShapes(pair: string, hhmm: string, sp: Spacing, between: string, after: string)
    requires Orderly(pair, hhmm, sp, between, after)
    ensures IsPair(pair) && ValidHhmm(hhmm)
  {
  }

  /** PUT with a red circle, square or triangle is a signal down. */
  lemma PutMeansDown(
      mark: char, pair: string, hhmm: string, minutes: nat, sp: Spacing, between: string, after: string,
      allowed: set<int>)
    requires Orderly(pair, hhmm, sp, between, after) && 60 * minutes in allowed
    requires mark == '\U{1F534}' || mark == '\U{1F7E5}' || mark == '\U{1F53B}'
    ensures ParseSignal(Message("PUT", mark, pair, hhmm, minutes, sp, between, after), allowed)
            == Parsed(ParsedSignal(pair, Down, hhmm, 60 * minutes, AddMinutes(hhmm, 5), AddMinutes(hhmm, 10)))
  {
    OrderlyShapes(pair, hhmm, sp, between, after);
    ParseInvertsRender(pair, Down, hhmm, minutes, mark, sp, between, after, allowed);
  }

  /** CALL with a green square, circle or an upward triangle is a signal up. */
  lemma CallMeansUp(
      mark: char, pair: string, hhmm: string, minutes: nat, sp: Spacing, between: string, after: string,
      allowed: set<int>)
    requires Orderly(pair, hhmm, sp, between, after) && 60 * minutes in allowed
    requires mark == '\U{1F7E9}' || mark == '\U{1F7E2}' || mark == '\U{1F53A}'
    ensures ParseSignal(Message("CALL", mark, pair, hhmm, minutes, sp, between, after), allowed)
            == Parsed(ParsedSignal(pair, Up, hhmm, 60 * minutes, AddMinutes(hhmm, 5), AddMinutes(hhmm, 10)))
  {
    OrderlyShapes(pair, hhmm, sp, between, after);
    ParseInvertsRender(pair, Up, hhmm, minutes, mark, sp, between, after, allowed);
  }

  // ----- A word with the wrong mark -----

  /** The part of a signal line that ends with its word. */
  function UpToWord(d: Direction): Pattern { SignalLine(d)[..18 + |Word(d)|] }

  function PartsToWord(pair: string, d: Direction, hhmm: string, sp: Spacing): seq<string> {
    Chars(pair) + [sp.pairEnd, ";", sp.timeStart] + Chars(hhmm) + [sp.timeEnd, ";", sp.wordStart] + Chars(Word(d))
  }

  function TextToWord(pair: string, d: Direction, hhmm: string, sp: Spacing): string {
    pair + (sp.pairEnd + ";" + sp.timeStart) + hhmm + (sp.timeEnd + ";" + sp.wordStart) + Word(d)
  }

  lemma PartsToWordJoin(pair: string, d: Direction, hhmm: string, sp: Spacing)
    ensures Join(PartsToWord(pair, d, hhmm, sp)) == TextToWord(pair, d, hhmm, sp)
  {
    var first, second := [sp.pairEnd, ";", sp.timeStart], [sp.timeEnd, ";", sp.wordStart];
    JoinFour(sp.pairEnd, ";", sp.timeStart, "");
    JoinFour(sp.timeEnd, ";", sp.wordStart, "");
    JoinChars(pair);
    JoinChars(hhmm);
    JoinChars(Word(d));
    JoinSix(Chars(pair), first, Chars(hhmm), second, Chars(Word(d)), []);
    assert PartsToWord(pair, d, hhmm, sp) + [] == PartsToWord(pair, d, hhmm, sp);
  }

  lemma PartsToWordSpell(pair: string, d: Direction, hhmm: string, sp: Spacing)
    requires IsPair(pair) && HhmmShape(hhmm) && BlankSpacing(sp)
    ensures SpellsAll(PartsToWord(pair, d, hhmm, sp), UpToWord(d))
  {
    assert SpellsAll(Chars(pair), PAIR);
    assert SpellsAll([sp.pairEnd, ";", sp.timeStart], SEPARATOR);
    assert SpellsAll(Chars(hhmm), TIME);
    assert SpellsAll([sp.timeEnd, ";", sp.wordStart], SEPARATOR);
    assert SpellsAll(Chars(Word(d)), Literal(Word(d)));
    assert UpToWord(d) == PAIR + SEPARATOR + TIME + SEPARATOR + Literal(Word(d));
  }

  lemma UpToWordDeterministic(d: Direction)
    ensures Deterministic(UpToWord(d))
  {
    SignalAtoms(d);
    SignalDeterministic(d);
    var p := SignalLine(d);
    assert p[17 + |Word(d)|] == One(Is(Word(d)[|Word(d)| - 1]));
  }

  /** Any signal line that starts with the pair has its word where the text has it. */
  lemma WordFound(pre: string, pair: string, d: Direction, hhmm: string, sp: Spacing, post: string, l: Line)
    requires IsPair(pair) && HhmmShape(hhmm) && BlankSpacing(sp)
    requires var t := pre + TextToWord(pair, d, hhmm, sp) + post; IsLine(t, l) && l.cuts[0] == |pre|
    ensures l.direction == d && l.cuts[18 + |Word(d)|] == |pre| + |TextToWord(pair, d, hhmm, sp)|
  {
    var t, n := pre + TextToWord(pair, d, hhmm, sp) + post, 18 + |Word(d)|;
    PartsToWordJoin(pair, d, hhmm, sp);
    PartsToWordSpell(pair, d, hhmm, sp);
    var cuts := SpelledMatches(UpToWord(d), pre, PartsToWord(pair, d, hhmm, sp), post);
    SignalAtoms(d);
    SameDirection(t, d, cuts, l);
    UpToWordDeterministic(d);
    PrefixMatches(SignalLine(d), t, l.cuts, n);
    ScanComplete(UpToWord(d), t, cuts);
    ScanComplete(UpToWord(d), t, l.cuts[..n + 1]);
    assert l.cuts[n] == l.cuts[..n + 1][n] == cuts[n];
  }

  /** The letters P and C tell the two words apart. */
  lemma SameDirection(t: string, d: Direction, cuts: seq<nat>, l: Line)
    requires Match(UpToWord(d), t, cuts) && IsLine(t, l) && l.cuts[0] == cuts[0]
    ensures l.direction == d
  {
    var p, q := SignalLine(d), SignalLine(l.direction);
    SignalAtoms(d);
    SignalAtoms(l.direction);
    assert p[..17] == PAIR + SEPARATOR + TIME + SEPARATOR[..2] == q[..17];
    assert UpToWord(d)[..17] == p[..17];
    assert Deterministic(p[..17]) by {
      SignalDeterministic(d);
      assert p[16] == p[15..18][1];
    }
    PrefixMatches(UpToWord(d), t, cuts, 17);
    PrefixMatches(q, t, l.cuts, 17);
    ScanComplete(p[..17], t, cuts[..18]);
    ScanComplete(p[..17], t, l.cuts[..18]);
    assert cuts[17] == cuts[..18][17] == l.cuts[..18][17] == l.cuts[17];
    SpacesThenWord(t, l.direction, l.cuts);
    assert UpToWord(d)[17] == p[15..18][2] && UpToWord(d)[18] == One(Is(Word(d)[0]));
    assert AtomMatches(UpToWord(d)[17], t, cuts[17], cuts[18]) && AtomMatches(UpToWord(d)[18], t, cuts[18], cuts[19]);
    SkipStops(Space, t, cuts[17], cuts[18]);
  }

  /** After its word a signal line holds white space and then one of its own marks. */
  lemma MarkFound(t: string, l: Line, a: nat, blank: string, mark: char, post: string)
    requires IsLine(t, l) && l.cuts[18 + |Word(l.direction)|] == a <= |t| && t[a..] == blank + [mark] + post
    requires Blank(blank) && !IsSpace(mark)
    ensures mark in Marks(l.direction)
  {
    var p, n := SignalLine(l.direction), 18 + |Word(l.direction)|;
    SignalAtoms(l.direction);
    assert AtomMatches(p[n], t, l.cuts[n], l.cuts[n + 1]) && AtomMatches(p[n + 1], t, l.cuts[n + 1], l.cuts[n + 2]);
    assert t[a + |blank|] == t[a..][|blank|] == mark;
    forall j | a <= j < a + |blank| ensures IsSpace(t[j]) {
      assert blank[j - a] in blank;
      assert t[j] == t[a..][j - a] == blank[j - a];
    }
  }

  lemma Positions(pre: string, pair: string, word: string, rest: string)
    ensures var t := pre + (pair + word) + rest;
            t == pre + pair + (word + rest) && t[|pre + (pair + word)|..] == rest
  {
  }

  /** A word with any visible mark that is not one of its own makes no signal line. */
  lemma WrongMark(
      d: Direction, mark: char, pair: string, hhmm: string, minutes: nat, sp: Spacing, between: string, after: string,
      allowed: set<int>)
    requires Orderly(pair, hhmm, sp, between, after) && 60 * minutes in allowed
    requires mark !in Marks(d) && !IsSpace(mark) && mark != '/' && mark !in ZERO_WIDTH
    ensures ParseSignal(Message(Word(d), mark, pair, hhmm, minutes, sp, between, after), allowed)
            == Failure(MissingSignalLine)
  {
    var header, line := HeaderText(minutes, sp), LineText(pair, d, hhmm, mark, sp);
    var pre, t := header + "\n" + between, header + "\n" + between + line + after;
    OrderlyShapes(pair, hhmm, sp, between, after);
    HeaderIsChatter(minutes, sp);
    ChatterJoins(header + "\n", between);
    AfterPairIsChatter(d, hhmm, mark, sp);
    ChatterJoins(AfterPair(d, hhmm, mark, sp), after);
    PairThenRest(pair, d, hhmm, mark, sp);
    Positions(pre, pair, AfterPair(d, hhmm, mark, sp), after);
    RenderedIsVisible(pre, pair, AfterPair(d, hhmm, mark, sp) + after);
    forall l ensures !IsLine(t, l) {
      if IsLine(t, l) {
        NotALine(pre, pair, d, hhmm, mark, sp, after, l);
      }
    }
    RenderedSays(minutes, sp, between + line + after);
    Regroup(header, between, line, after);
    ParsesVisibleText(t, allowed);
    FailureReasons(t, allowed);
  }

  lemma NotALine(
      pre: string, pair: string, d: Direction, hhmm: string, mark: char, sp: Spacing, after: string, l: Line)
    requires IsPair(pair) && HhmmShape(hhmm) && BlankSpacing(sp) && Chatter(pre)
    requires Chatter(AfterPair(d, hhmm, mark, sp) + after)
    requires mark !in Marks(d) && !IsSpace(mark)
    ensures !IsLine(pre + LineText(pair, d, hhmm, mark, sp) + after, l)
  {
    var t := pre + LineText(pair, d, hhmm, mark, sp) + after;
    if IsLine(t, l) {
      PairThenRest(pair, d, hhmm, mark, sp);
      Positions(pre, pair, AfterPair(d, hhmm, mark, sp), after);
      OneSlashOneLine(pre, pair, AfterPair(d, hhmm, mark, sp) + after, l);
      var body, rest := TextToWord(pair, d, hhmm, sp), sp.wordEnd + [mark] + (sp.lineEnd + after);
      Split(pre, body, sp.wordEnd + [mark], sp.lineEnd, after);
      WordFound(pre, pair, d, hhmm, sp, rest, l);
      Positions(pre, body, "", rest);
      assert body + "" == body;
      MarkFound(t, l, |pre| + |body|, sp.wordEnd, mark, sp.lineEnd + after);
    }
  }

  lemma Split(pre: string, body: string, end: string, blank: string, after: string)
    ensures pre + (body + end + blank) + after == pre + body + (end + (blank + after))
  {
  }

  /** PUT with a green mark, or any other visible one but the three red ones, is no signal. */
  lemma PutNeedsRed(
      mark: char, pair: string, hhmm: string, minutes: nat, sp: Spacing, between: string, after: string,
      allowed: set<int>)
    requires Orderly(pair, hhmm, sp, between, after) && 60 * minutes in allowed
    requires mark != '\U{1F534}' && mark != '\U{1F7E5}' && mark != '\U{1F53B}'
    requires !IsSpace(mark) && mark != '/' && mark !in ZERO_WIDTH
    ensures ParseSignal(Message("PUT", mark, pair, hhmm, minutes, sp, between, after), allowed)
            == Failure(MissingSignalLine)
  {
    WrongMark(Down, mark, pair, hhmm, minutes, sp, between, after, allowed);
  }

  /** CALL with a red mark, or any other visible one but the two green ones and the upward triangle, is
      no signal. */
  lemma CallNeedsGreen(
      mark: char, pair: string, hhmm: string, minutes: nat, sp: Spacing, between: string, after: string,
      allowed: set<int>)
    requires Orderly(pair, hhmm, sp, between, after) && 60 * minutes in allowed
    requires mark != '\U{1F7E9}' && mark != '\U{1F7E2}' && mark != '\U{1F53A}'
    requires !IsSpace(mark) && mark != '/' && mark !in ZERO_WIDTH
    ensures ParseSignal(Message("CALL", mark, pair, hhmm, minutes, sp, between, after), allowed)
            == Failure(MissingSignalLine)
  {
    WrongMark(Up, mark, pair, hhmm, minutes, sp, between, after, allowed);
  }

  lemma FiveMinuteMessage(mark: char)
    ensures Message("PUT", mark, "EUR/JPY", "10:20", 5, Spacing("", "", "", "", "", "", "", ""), "", "")
            == "\U{1F4B0}5-minute expiration\nEUR/JPY;10:20;PUT" + [mark]
  {
    FiveMinuteHeader();
    FiveMinuteLine(mark);
  }

  lemma FiveMinuteHeader()
    ensures "" + "\U{1F4B0}" + Decimal(5) + "-minute expiration" + "" == "\U{1F4B0}5-minute expiration"
  {
  }

  lemma FiveMinuteLine(mark: char)
    ensures "EUR/JPY" + ("" + ";" + "") + "10:20" + ("" + ";" + "") + "PUT" + ("" + [mark]) + ""
            == "EUR/JPY;10:20;PUT" + [mark]
  {
  }

  lemma ExampleOrderly()
    ensures Orderly("EUR/JPY", "10:20", Spacing("", "", "", "", "", "", "", ""), "", "")
  {
  }

  lemma LaterTimes()
    ensures AddMinutes("10:20", 5) == "10:25" && AddMinutes("10:20", 10) == "10:30"
  {
  }

  /** One message in full, with its own mark and with the other direction's. */
  lemma ExampleParses()
    ensures ParseSignal("\U{1F4B0}5-minute expiration\nEUR/JPY;10:20;PUT" + ['\U{1F7E5}'], {300})
            == Parsed(ParsedSignal("EUR/JPY", Down, "10:20", 300, "10:25", "10:30"))
    ensures ParseSignal("\U{1F4B0}5-minute expiration\nEUR/JPY;10:20;PUT" + ['\U{1F7E9}'], {300})
            == Failure(MissingSignalLine)
  {
    var sp := Spacing("", "", "", "", "", "", "", "");
    FiveMinuteMessage('\U{1F7E5}');
    FiveMinuteMessage('\U{1F7E9}');
    LaterTimes();
    ExampleOrderly();
    PutMeansDown('\U{1F7E5}', "EUR/JPY", "10:20", 5, sp, "", "", {300});
    PutNeedsRed('\U{1F7E9}', "EUR/JPY", "10:20", 5, sp, "", "", {300});
  }
}
