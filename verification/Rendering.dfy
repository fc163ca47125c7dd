/** Messages as analysts write them, and the parser read as their inverse. */
module Rendering {
  import opened Gale
  import opened Regexes
  import opened SignalLines
  import opened Clock
  import opened Parser

  // ----- Spelling out a pattern -----

  function Join(parts: seq<string>): string {
    if parts == [] then [] else parts[0] + Join(parts[1..])
  }

  function Chars(s: string): seq<string> {
    seq(|s|, (i: nat) requires i < |s| => [s[i]])
  }

  predicate Spells(part: string, a: Atom) {
    && (a.One? ==> |part| == 1)
    && forall c :: c in part ==> In(a.cls, c)
  }

  lemma {:induction false} JoinAppend(a: seq<string>, b: seq<string>)
    ensures Join(a + b) == Join(a) + Join(b)
    decreases |a|
  {
    if a == [] {
      assert a + b == b;
    } else {
      assert (a + b)[1..] == a[1..] + b;
      JoinAppend(a[1..], b);
    }
  }

  lemma {:induction false} JoinChars(s: string)
    ensures Join(Chars(s)) == s
  {
    if s != [] {
      assert Chars(s)[1..] == Chars(s[1..]);
      JoinChars(s[1..]);
    }
  }

  predicate Piece(t: string, i: int, j: int, part: string) { 0 <= i <= j <= |t| && t[i..j] == part }

  /** The cut points divide the text into these parts. */
  predicate Divides(t: string, cuts: seq<nat>, parts: seq<string>) {
    && |cuts| == |parts| + 1
    && forall k :: 0 <= k < |parts| ==> Piece(t, cuts[k], cuts[k + 1], parts[k])
  }

  /** Text that spells a pattern, part by part, is matched part by part. */
  lemma {:induction false} SpelledMatches(p: Pattern, pre: string, parts: seq<string>, post: string)
    returns (cuts: seq<nat>)
    requires |parts| == |p| && forall k :: 0 <= k < |p| ==> Spells(parts[k], p[k])
    ensures var t := pre + Join(parts) + post;
            && Match(p, t, cuts) && cuts[0] == |pre| && cuts[|p|] == |pre| + |Join(parts)|
            && Divides(t, cuts, parts)
    decreases |p|
  {
    var t := pre + Join(parts) + post;
    if p == [] {
      cuts := [|pre|];
    } else {
      var part := parts[0];
      assert pre + part + Join(parts[1..]) + post == t;
      var rest := SpelledMatches(p[1..], pre + part, parts[1..], post);
      cuts := [|pre|] + rest;
      assert t[|pre|..|pre + part|] == part;
      assert AtomMatches(p[0], t, cuts[0], cuts[1]) by {
        assert forall k :: |pre| <= k < |pre + part| ==> t[k] == part[k - |pre|];
      }
      ShiftCuts(p, t, cuts, parts);
    }
  }

  lemma ShiftCuts(p: Pattern, t: string, cuts: seq<nat>, parts: seq<string>)
    requires |p| == |parts| > 0 && |cuts| == |p| + 1 && Match(p[1..], t, cuts[1..]) && Divides(t, cuts[1..], parts[1..])
    requires AtomMatches(p[0], t, cuts[0], cuts[1]) && t[cuts[0]..cuts[1]] == parts[0]
    ensures Match(p, t, cuts) && Divides(t, cuts, parts)
  {
  }

  // ----- Messages -----

  function Decimal(n: nat): string {
    if n < 10 then [Digit(n)] else Decimal(n / 10) + [Digit(n % 10)]
  }

  lemma {:induction false} DecimalReads(n: nat)
    ensures DecimalValue(Decimal(n)) == n
    ensures |Decimal(n)| > 0 && forall c :: c in Decimal(n) ==> IsDigit(c)
  {
    if n < 10 {
      assert Decimal(n)[..0] == [];
    } else {
      DecimalReads(n / 10);
      assert Decimal(n)[..|Decimal(n)| - 1] == Decimal(n / 10);
    }
  }

  /** White space the patterns tolerate: around the header, around each semicolon, before the
      mark and at the end of the line. */
  datatype Spacing = Spacing(
    indent: string, afterHeader: string, pairEnd: string, timeStart: string, timeEnd: string,
    wordStart: string, wordEnd: string, lineEnd: string)

  predicate BlankSpacing(sp: Spacing) {
    && Blank(sp.indent) && Blank(sp.afterHeader) && Blank(sp.pairEnd) && Blank(sp.timeStart)
    && Blank(sp.timeEnd) && Blank(sp.wordStart) && Blank(sp.wordEnd) && Blank(sp.lineEnd)
  }

  function HeaderParts(minutes: nat, sp: Spacing): seq<string> {
    DecimalReads(minutes);
    [sp.indent, "\U{1F4B0}", Decimal(minutes)[..1], Decimal(minutes)[1..]] + Chars("-minute expiration")
  }

  function LineParts(pair: string, d: Direction, hhmm: string, mark: char, sp: Spacing): seq<string> {
    Chars(pair) + [sp.pairEnd, ";", sp.timeStart] + Chars(hhmm) + [sp.timeEnd, ";", sp.wordStart] + Chars(Word(d))
    + [sp.wordEnd, [mark]]
  }

  function HeaderText(minutes: nat, sp: Spacing): string {
    sp.indent + "\U{1F4B0}" + Decimal(minutes) + "-minute expiration" + sp.afterHeader
  }

  /** A signal line up to its mark. */
  function LineBody(pair: string, d: Direction, hhmm: string, mark: char, sp: Spacing): string {
    pair + (sp.pairEnd + ";" + sp.timeStart) + hhmm + (sp.timeEnd + ";" + sp.wordStart) + Word(d)
        + (sp.wordEnd + [mark])
  }

  function LineText(pair: string, d: Direction, hhmm: string, mark: char, sp: Spacing): string {
    LineBody(pair, d, hhmm, mark, sp) + sp.lineEnd
  }

  /** Other lines of the message: visible text without a slash. */
  predicate Chatter(s: string) { forall c :: c in s ==> c != '/' && c !in ZERO_WIDTH }

  /** A header line, then lines of chatter, then a signal line, then lines of chatter. */
  function Render(
      pair: string, d: Direction, hhmm: string, minutes: nat, mark: char, sp: Spacing,
      between: string, after: string): string
  {
    HeaderText(minutes, sp) + "\n" + between + LineText(pair, d, hhmm, mark, sp) + after
  }

  predicate Renderable(
      pair: string, d: Direction, hhmm: string, mark: char, sp: Spacing, between: string, after: string)
  {
    && IsPair(pair) && ValidHhmm(hhmm) && mark in Marks(d) && BlankSpacing(sp)
    && Chatter(between) && (between == [] || between[|between| - 1] == '\n')
    && Chatter(after) && (after == [] || after[0] == '\n')
  }

  lemma HeaderPartsJoin(minutes: nat, sp: Spacing)
    ensures Join(HeaderParts(minutes, sp)) + sp.afterHeader == HeaderText(minutes, sp)
  {
    DecimalReads(minutes);
    var n := Decimal(minutes);
    assert n == n[..1] + n[1..];
    JoinChars("-minute expiration");
    JoinAppend([sp.indent, "\U{1F4B0}", n[..1], n[1..]], Chars("-minute expiration"));
    JoinFour(sp.indent, "\U{1F4B0}", n[..1], n[1..]);
  }

  lemma JoinFour(a: string, b: string, c: string, d: string)
    ensures Join([a, b, c, d]) == a + b + c + d
    ensures Join([a, b, c]) == a + b + c
    ensures Join([a, b]) == a + b
  {
    JoinTwo(c, d);
    JoinTwo(b, c);
    JoinTwo(a, b);
    assert [a, b, c, d] == [a, b] + [c, d];
    JoinAppend([a, b], [c, d]);
    assert [a, b, c] == [a] + [b, c];
    JoinAppend([a], [b, c]);
  }

  lemma JoinTwo(a: string, b: string)
    ensures Join([a]) == a && Join([a, b]) == a + b
  {
    assert [a][1..] == [] && [a, b][1..] == [b];
    assert Join([b]) == b + Join([b][1..]);
  }

  lemma LinePartsJoin(pair: string, d: Direction, hhmm: string, mark: char, sp: Spacing)
    ensures Join(LineParts(pair, d, hhmm, mark, sp)) == LineBody(pair, d, hhmm, mark, sp)
  {
    var first, second, last := [sp.pairEnd, ";", sp.timeStart], [sp.timeEnd, ";", sp.wordStart], [sp.wordEnd, [mark]];
    JoinFour(sp.pairEnd, ";", sp.timeStart, "");
    JoinFour(sp.timeEnd, ";", sp.wordStart, "");
    JoinFour(sp.wordEnd, [mark], "", "");
    JoinChars(pair);
    JoinChars(hhmm);
    JoinChars(Word(d));
    JoinSix(Chars(pair), first, Chars(hhmm), second, Chars(Word(d)), last);
  }

  lemma JoinSix(a: seq<string>, b: seq<string>, c: seq<string>, d: seq<string>, e: seq<string>, f: seq<string>)
    ensures Join(a + b + c + d + e + f) == Join(a) + Join(b) + Join(c) + Join(d) + Join(e) + Join(f)
  {
    JoinAppend(a, b);
    JoinAppend(a + b, c);
    JoinAppend(a + b + c, d);
    JoinAppend(a + b + c + d, e);
    JoinAppend(a + b + c + d + e, f);
  }

  lemma HeaderSpelled(minutes: nat, sp: Spacing)
    requires Blank(sp.indent)
    ensures |HeaderParts(minutes, sp)| == |HEADER|
    ensures forall k :: 0 <= k < |HEADER| ==> Spells(HeaderParts(minutes, sp)[k], HEADER[k])
  {
    DecimalReads(minutes);
    HeaderAtoms();
  }

  lemma LineSpelled(pair: string, d: Direction, hhmm: string, mark: char, sp: Spacing)
    requires IsPair(pair) && HhmmShape(hhmm) && mark in Marks(d) && BlankSpacing(sp)
    ensures |LineParts(pair, d, hhmm, mark, sp)| == |SignalLine(d)|
    ensures forall k :: 0 <= k < |SignalLine(d)| ==> Spells(LineParts(pair, d, hhmm, mark, sp)[k], SignalLine(d)[k])
  {
    assert SpellsAll(Chars(pair), PAIR);
    assert SpellsAll([sp.pairEnd, ";", sp.timeStart], SEPARATOR);
    assert SpellsAll(Chars(hhmm), TIME);
    assert SpellsAll([sp.timeEnd, ";", sp.wordStart], SEPARATOR);
    assert SpellsAll(Chars(Word(d)), Literal(Word(d)));
    assert SpellsAll([sp.wordEnd, [mark]], [Many(Space), One(Among(Marks(d)))]);
  }

  predicate SpellsAll(parts: seq<string>, p: Pattern) {
    |parts| == |p| && forall k :: 0 <= k < |p| ==> Spells(parts[k], p[k])
  }

  // ----- Parsing what was rendered -----

  lemma RenderedHeader(pre: string, minutes: nat, sp: Spacing, rest: string) returns (cuts: seq<nat>, end: nat)
    requires BlankSpacing(sp) && (pre == [] || pre[|pre| - 1] == '\n')
    ensures var t := pre + (HeaderText(minutes, sp) + "\n" + rest);
            && IsHeader(t, cuts, end) && cuts[0] == |pre| && cuts[2] <= cuts[4] <= |t|
            && t[cuts[2]..cuts[4]] == Decimal(minutes)
  {
    var t := pre + (HeaderText(minutes, sp) + "\n" + rest);
    var parts := HeaderParts(minutes, sp);
    var post := sp.afterHeader + "\n" + rest;
    HeaderPartsJoin(minutes, sp);
    HeaderSpelled(minutes, sp);
    DecimalReads(minutes);
    RegroupHeader(pre, Join(parts), sp.afterHeader, rest);
    cuts := SpelledMatches(HEADER, pre, parts, post);
    end := |pre| + |HeaderText(minutes, sp)|;
    HeaderEnds(t, pre, Join(parts), sp.afterHeader, rest, cuts, end);
    assert Piece(t, cuts[2], cuts[3], parts[2]) && Piece(t, cuts[3], cuts[4], parts[3]);
    assert t[cuts[2]..cuts[4]] == t[cuts[2]..cuts[3]] + t[cuts[3]..cuts[4]];
  }

  lemma RegroupHeader(pre: string, body: string, blank: string, rest: string)
    ensures pre + (body + blank + "\n" + rest) == pre + body + (blank + "\n" + rest)
  {
  }

  lemma HeaderEnds(t: string, pre: string, body: string, blank: string, rest: string, cuts: seq<nat>, end: nat)
    requires t == pre + body + (blank + "\n" + rest) && Blank(blank) && (pre == [] || pre[|pre| - 1] == '\n')
    requires Match(HEADER, t, cuts) && cuts[0] == |pre| && cuts[|HEADER|] == |pre| + |body|
    requires end == |pre| + |body| + |blank|
    ensures IsHeader(t, cuts, end)
  {
  }

  lemma RenderedLine(pre: string, pair: string, d: Direction, hhmm: string, mark: char, sp: Spacing, after: string)
    returns (l: Line)
    requires IsPair(pair) && HhmmShape(hhmm) && mark in Marks(d) && BlankSpacing(sp)
    requires pre == [] || pre[|pre| - 1] == '\n'
    requires after == [] || after[0] == '\n'
    ensures var t := pre + LineText(pair, d, hhmm, mark, sp) + after;
            && IsLine(t, l) && l.direction == d && l.cuts[0] == |pre| && PairOf(t, l) == pair && TimeOf(t, l) == hhmm
  {
    var t := pre + LineText(pair, d, hhmm, mark, sp) + after;
    var parts := LineParts(pair, d, hhmm, mark, sp);
    var post := sp.lineEnd + after;
    LinePartsJoin(pair, d, hhmm, mark, sp);
    LineSpelled(pair, d, hhmm, mark, sp);
    assert t == pre + Join(parts) + post;
    var cuts := SpelledMatches(SignalLine(d), pre, parts, post);
    var n := |SignalLine(d)|;
    l := Line(d, cuts, cuts[n] + |sp.lineEnd|);
    LineEnds(t, pre, Join(parts), sp.lineEnd, after, l);
    LineFields(t, l, pair, hhmm, mark, sp);
  }

  lemma LineEnds(t: string, pre: string, body: string, blank: string, after: string, l: Line)
    requires t == pre + body + (blank + after) && Blank(blank)
    requires (pre == [] || pre[|pre| - 1] == '\n') && (after == [] || after[0] == '\n')
    requires Match(SignalLine(l.direction), t, l.cuts) && l.cuts[0] == |pre|
    requires l.cuts[|SignalLine(l.direction)|] == |pre| + |body| && l.end == |pre| + |body| + |blank|
    ensures IsLine(t, l)
  {
    assert forall k :: |pre| + |body| <= k < l.end ==> t[k] == blank[k - |pre| - |body|];
    assert pre != [] ==> t[|pre| - 1] == pre[|pre| - 1];
    assert l.end < |t| ==> t[l.end] == after[0];
  }

  lemma LineFields(t: string, l: Line, pair: string, hhmm: string, mark: char, sp: Spacing)
    requires IsLine(t, l) && |pair| == 7 && |hhmm| == 5
    requires Divides(t, l.cuts, LineParts(pair, l.direction, hhmm, mark, sp))
    ensures PairOf(t, l) == pair && TimeOf(t, l) == hhmm
  {
    var parts := LineParts(pair, l.direction, hhmm, mark, sp);
    MatchLayout(t, l.direction, l.cuts);
    CharsAt(t, l.cuts, parts, pair, 0);
    CharsAt(t, l.cuts, parts, hhmm, 10);
  }

  /** A stretch of single-character parts reads as the text it came from. */
  lemma CharsAt(t: string, cuts: seq<nat>, parts: seq<string>, s: string, k: nat)
    requires Divides(t, cuts, parts) && s != [] && k + |s| <= |parts|
    requires forall j :: 0 <= j < |s| ==> parts[k + j] == [s[j]]
    ensures Piece(t, cuts[k], cuts[k + |s|], s)
  {
    var n := |s| - 1;
    assert Piece(t, cuts[k + n], cuts[k + n + 1], parts[k + n]) && parts[k + n] == [s[n]];
    if n == 0 {
      assert s == [s[0]];
    } else {
      CharsAt(t, cuts, parts, s[..n], k);
      assert s == s[..n] + [s[n]];
      assert t[cuts[k]..cuts[k + n + 1]] == t[cuts[k]..cuts[k + n]] + t[cuts[k + n]..cuts[k + n + 1]];
    }
  }

  lemma ChatterJoins(a: string, b: string)
    ensures Chatter(a) && Chatter(b) ==> Chatter(a + b)
  {
  }

  lemma {:induction false} JoinChatter(parts: seq<string>)
    requires forall k :: 0 <= k < |parts| ==> Chatter(parts[k])
    ensures Chatter(Join(parts))
  {
    if parts != [] {
      JoinChatter(parts[1..]);
      ChatterJoins(parts[0], Join(parts[1..]));
    }
  }

  lemma BlankIsChatter(s: string)
    requires Blank(s)
    ensures Chatter(s)
  {
  }

  lemma CharsChatter(s: string)
    requires Chatter(s)
    ensures forall k :: 0 <= k < |s| ==> Chatter(Chars(s)[k])
  {
    forall k | 0 <= k < |s| ensures Chatter(Chars(s)[k]) {
      assert s[k] in s && Chars(s)[k] == [s[k]];
    }
  }

  lemma PhraseIsChatter()
    ensures Chatter("-minute expiration") && Chatter("\n") && Chatter("\U{1F4B0}")
  {
    var phrase := "-minute expiration";
    forall c | c in phrase ensures c != '/' && c !in ZERO_WIDTH {
      var k :| 0 <= k < |phrase| && phrase[k] == c;
      assert c < '\U{80}' && c != '/';
    }
  }

  lemma DigitsAreChatter(s: string)
    requires forall c :: c in s ==> IsDigit(c)
    ensures Chatter(s)
  {
  }

  lemma HeaderIsChatter(minutes: nat, sp: Spacing)
    requires BlankSpacing(sp)
    ensures Chatter(HeaderText(minutes, sp) + "\n")
  {
    DecimalReads(minutes);
    BlankIsChatter(sp.indent);
    BlankIsChatter(sp.afterHeader);
    DigitsAreChatter(Decimal(minutes));
    PhraseIsChatter();
    ChatterJoins(sp.indent, "\U{1F4B0}");
    ChatterJoins(sp.indent + "\U{1F4B0}", Decimal(minutes));
    ChatterJoins(sp.indent + "\U{1F4B0}" + Decimal(minutes), "-minute expiration");
    ChatterJoins(sp.indent + "\U{1F4B0}" + Decimal(minutes) + "-minute expiration", sp.afterHeader);
    ChatterJoins(HeaderText(minutes, sp), "\n");
  }

  /** What a signal line holds after its pair. */
  function AfterPair(d: Direction, hhmm: string, mark: char, sp: Spacing): string {
    LineText("", d, hhmm, mark, sp)
  }

  lemma PairThenRest(pair: string, d: Direction, hhmm: string, mark: char, sp: Spacing)
    ensures LineText(pair, d, hhmm, mark, sp) == pair + AfterPair(d, hhmm, mark, sp)
  {
    Regroup6(pair, sp.pairEnd + ";" + sp.timeStart, hhmm, sp.timeEnd + ";" + sp.wordStart, Word(d),
        sp.wordEnd + [mark], sp.lineEnd);
  }

  lemma Regroup6(a: string, b: string, c: string, d: string, e: string, f: string, g: string)
    ensures a + b + c + d + e + f + g == a + ("" + b + c + d + e + f + g)
  {
  }

  lemma AfterPairIsChatter(d: Direction, hhmm: string, mark: char, sp: Spacing)
    requires HhmmShape(hhmm) && mark != '/' && mark !in ZERO_WIDTH && BlankSpacing(sp)
    ensures Chatter(AfterPair(d, hhmm, mark, sp))
  {
    LinePartsJoin("", d, hhmm, mark, sp);
    BlankIsChatter(sp.pairEnd);
    BlankIsChatter(sp.timeStart);
    BlankIsChatter(sp.timeEnd);
    BlankIsChatter(sp.wordStart);
    BlankIsChatter(sp.wordEnd);
    BlankIsChatter(sp.lineEnd);
    CharsChatter(hhmm);
    CharsChatter(Word(d));
    JoinChatter(LineParts("", d, hhmm, mark, sp));
    ChatterJoins(Join(LineParts("", d, hhmm, mark, sp)), sp.lineEnd);
  }

  lemma OnlySlash(pre: string, pair: string, post: string, i: nat)
    requires Chatter(pre) && IsPair(pair) && Chatter(post)
    requires i < |pre + pair + post| && (pre + pair + post)[i] == '/'
    ensures i == |pre| + 3
  {
    var c := if i < |pre| then pre[i] else if i < |pre| + 7 then pair[i - |pre|] else post[i - |pre| - 7];
    assert c == '/';
    assert i < |pre| ==> c in pre;
    assert i >= |pre| + 7 ==> c in post;
  }

  /** The only slash of the text is the pair's, so only one signal line can start. */
  lemma OneSlashOneLine(pre: string, pair: string, post: string, m: Line)
    requires Chatter(pre) && IsPair(pair) && Chatter(post) && IsLine(pre + pair + post, m)
    ensures m.cuts[0] == |pre|
  {
    var t := pre + pair + post;
    LineAdvances(t, m);
    assert t[m.cuts[0] + 3] == t[m.cuts[0]..m.cuts[0] + 7][3];
    OnlySlash(pre, pair, post, m.cuts[0] + 3);
  }

  /** A header that says e and an only line decide the parse. */
  lemma ParsesAs(t: string, e: int, l: Line, allowed: set<int>)
    requires HeaderSays(t, e) && OnlyLine(t, l) && ValidHhmm(TimeOf(t, l))
    ensures ParseText(t, allowed)
            == if e in allowed
               then Parsed(ParsedSignal(PairOf(t, l), l.direction, TimeOf(t, l), e,
                                        AddMinutes(TimeOf(t, l), 5), AddMinutes(TimeOf(t, l), 10)))
               else Failure(ExpirationNotAllowed)
  {
    var hhmm := TimeOf(t, l);
    var s := ParsedSignal(PairOf(t, l), l.direction, hhmm, e, AddMinutes(hhmm, 5), AddMinutes(hhmm, 10));
    if e in allowed {
      assert Denotes(t, allowed, s);
      ParserMeetsGrammar(t, allowed, s);
    } else {
      FailureReasons(t, allowed);
    }
  }

  /** Round trip: a rendered message parses back to its fields, whatever the white space, the mark,
      the expiration and the surrounding lines, or is refused for its expiration alone. */
  lemma ParseInvertsRender(
      pair: string, d: Direction, hhmm: string, minutes: nat, mark: char, sp: Spacing,
      between: string, after: string, allowed: set<int>)
    requires Renderable(pair, d, hhmm, mark, sp, between, after)
    ensures ParseSignal(Render(pair, d, hhmm, minutes, mark, sp, between, after), allowed)
            == if 60 * minutes in allowed
               then Parsed(ParsedSignal(pair, d, hhmm, 60 * minutes, AddMinutes(hhmm, 5), AddMinutes(hhmm, 10)))
               else Failure(ExpirationNotAllowed)
  {
    var header, line := HeaderText(minutes, sp), LineText(pair, d, hhmm, mark, sp);
    HeaderIsChatter(minutes, sp);
    var l := OnlyLineIn(header + "\n" + between, pair, d, hhmm, mark, sp, after);
    RenderedSays(minutes, sp, between + line + after);
    Regroup(header, between, line, after);
    Concludes(header + "\n" + between + line + after, 60 * minutes, l, allowed);
  }

  lemma Regroup(header: string, between: string, line: string, after: string)
    ensures header + "\n" + (between + line + after) == header + "\n" + between + line + after
  {
  }

  lemma Concludes(t: string, e: int, l: Line, allowed: set<int>)
    requires Visible(t) == t && HeaderSays(t, e) && OnlyLine(t, l) && ValidHhmm(TimeOf(t, l))
    ensures ParseSignal(t, allowed)
            == if e in allowed
               then Parsed(ParsedSignal(PairOf(t, l), l.direction, TimeOf(t, l), e,
                                        AddMinutes(TimeOf(t, l), 5), AddMinutes(TimeOf(t, l), 10)))
               else Failure(ExpirationNotAllowed)
  {
    ParsesVisibleText(t, allowed);
    ParsesAs(t, e, l, allowed);
  }

  /** In a text whose other lines are chatter, the rendered line is visible and the only one. */
  lemma OnlyLineIn(
      pre: string, pair: string, d: Direction, hhmm: string, mark: char, sp: Spacing, after: string)
    returns (l: Line)
    requires Renderable(pair, d, hhmm, mark, sp, "", after)
    requires Chatter(pre) && pre != [] && pre[|pre| - 1] == '\n'
    ensures var t := pre + LineText(pair, d, hhmm, mark, sp) + after;
            && Visible(t) == t && OnlyLine(t, l)
            && l.direction == d && PairOf(t, l) == pair && TimeOf(t, l) == hhmm
  {
    var rest := AfterPair(d, hhmm, mark, sp);
    AfterPairIsChatter(d, hhmm, mark, sp);
    ChatterJoins(rest, after);
    PairThenRest(pair, d, hhmm, mark, sp);
    RenderedIsVisible(pre, pair, rest + after);
    l := RenderedLine(pre, pair, d, hhmm, mark, sp, after);
    OnlyOne(pre, pair, rest, after, l);
  }

  lemma OnlyOne(pre: string, pair: string, rest: string, after: string, l: Line)
    requires Chatter(pre) && IsPair(pair) && Chatter(rest + after)
    requires IsLine(pre + (pair + rest) + after, l) && l.cuts[0] == |pre|
    ensures pre + (pair + rest) + after == pre + pair + (rest + after)
    ensures OnlyLine(pre + (pair + rest) + after, l)
  {
    var t := pre + (pair + rest) + after;
    assert t == pre + pair + (rest + after);
    forall m | IsLine(t, m) ensures m.cuts[0] == |pre| {
      OneSlashOneLine(pre, pair, rest + after, m);
    }
  }

  lemma RenderedIsVisible(pre: string, pair: string, post: string)
    requires Chatter(pre) && IsPair(pair) && Chatter(post)
    ensures Visible(pre + pair + post) == pre + pair + post
  {
    VisibleIs(pre + pair + post);
  }

  lemma RenderedSays(minutes: nat, sp: Spacing, rest: string)
    requires BlankSpacing(sp)
    ensures HeaderSays(HeaderText(minutes, sp) + "\n" + rest, 60 * minutes)
  {
    var t := HeaderText(minutes, sp) + "\n" + rest;
    var cuts, end := RenderedHeader([], minutes, sp, rest);
    assert [] + t == t;
    DecimalReads(minutes);
  }

  /** Having a header line with an allowed expiration is not enough: the first header decides. Any
      message with a 5-minute header after a 1-minute one is refused under {300}. */
  lemma AllowedHeaderIsNotEnough(pair: string, d: Direction, hhmm: string, mark: char, sp: Spacing)
    requires Renderable(pair, d, hhmm, mark, sp, "", "")
    ensures var t := Render(pair, d, hhmm, 1, mark, sp, HeaderText(5, sp) + "\n", "");
            && ParseSignal(t, {300}) == Failure(ExpirationNotAllowed)
            && exists cuts: seq<nat>, end: nat ::
                 IsHeader(t, cuts, end) && cuts[2] <= cuts[4] <= |t| && HeaderSeconds(t, cuts) == 300
  {
    var between := HeaderText(5, sp) + "\n";
    HeaderIsChatter(5, sp);
    ParseInvertsRender(pair, d, hhmm, 1, mark, sp, between, "", {300});
    var first, line := HeaderText(1, sp), LineText(pair, d, hhmm, mark, sp);
    var cuts, end := RenderedHeader(first + "\n", 5, sp, line);
    DecimalReads(5);
    TwoHeaders(first, HeaderText(5, sp), line);
  }

  lemma TwoHeaders(a: string, b: string, line: string)
    ensures a + "\n" + (b + "\n") + line + "" == a + "\n" + (b + "\n" + line)
  {
  }
}
