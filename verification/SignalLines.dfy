/** The two line patterns of `domain/signal.py`, and how they are searched for in a text. */
module SignalLines {
  import opened Gale
  import opened Regexes
  import opened Clock

  // ----- Patterns -----

  /** An optionally indented money bag, digits and a fixed phrase. */
  const HEADER: Pattern :=
    [Many(Space), One(Is('\U{1F4B0}')), One(Digits), Many(Digits)] + Literal("-minute expiration")

  const PAIR: Pattern := [One(Upper), One(Upper), One(Upper), One(Is('/')), One(Upper), One(Upper), One(Upper)]
  const TIME: Pattern := [One(Digits), One(Digits), One(Is(':')), One(Digits), One(Digits)]
  const SEPARATOR: Pattern := [Many(Space), One(Is(';')), Many(Space)]

  function Word(d: Direction): string { if d.Down? then "PUT" else "CALL" }

  function Marks(d: Direction): set<char> {
    if d.Down? then {'\U{1F534}', '\U{1F7E5}', '\U{1F53B}'} else {'\U{1F7E9}', '\U{1F7E2}', '\U{1F53A}'}
  }

  /** One alternative of the signal line pattern for each direction. */
  function SignalLine(d: Direction): Pattern {
    PAIR + SEPARATOR + TIME + SEPARATOR + Literal(Word(d)) + [Many(Space), One(Among(Marks(d)))]
  }

  lemma SignalAtoms(d: Direction)
    ensures |SignalLine(d)| == 20 + |Word(d)|
    ensures SignalLine(d)[..7] == PAIR && SignalLine(d)[7..10] == SEPARATOR
    ensures SignalLine(d)[10..15] == TIME && SignalLine(d)[15..18] == SEPARATOR
    ensures forall k :: 0 <= k < |Word(d)| ==> SignalLine(d)[18 + k] == One(Is(Word(d)[k]))
    ensures SignalLine(d)[18 + |Word(d)|] == Many(Space) && SignalLine(d)[19 + |Word(d)|] == One(Among(Marks(d)))
  {
  }

  lemma HeaderAtoms()
    ensures |HEADER| == 4 + |"-minute expiration"|
    ensures HEADER[0] == Many(Space) && HEADER[1] == One(Is('\U{1F4B0}')) && HEADER[2] == One(Digits)
    ensures HEADER[3] == Many(Digits)
    ensures forall k :: 0 <= k < |"-minute expiration"| ==> HEADER[4 + k] == One(Is("-minute expiration"[k]))
  {
  }

  lemma HeaderDeterministic()
    ensures Deterministic(HEADER)
  {
  }

  lemma SignalDeterministic(d: Direction)
    ensures Deterministic(SignalLine(d))
  {
    SignalAtoms(d);
    var p := SignalLine(d);
    assert p[7] == p[7..10][0] && p[8] == p[7..10][1] && p[9] == p[7..10][2] && p[10] == p[10..15][0];
    assert p[15] == p[15..18][0] && p[16] == p[15..18][1] && p[17] == p[15..18][2] && p[18] == One(Is(Word(d)[0]));
    assert forall a :: 0 <= a < |p| && p[a].Many? ==> a in {7, 9, 15, 17, 18 + |Word(d)|};
  }

  predicate IsUpper(c: char) { 'A' <= c <= 'Z' }

  predicate IsPair(s: string) {
    && |s| == 7 && IsUpper(s[0]) && IsUpper(s[1]) && IsUpper(s[2]) && s[3] == '/'
    && IsUpper(s[4]) && IsUpper(s[5]) && IsUpper(s[6])
  }

  /** What the cut points of a signal line say about the text, part by part. */
  predicate Layout(t: string, d: Direction, cuts: seq<nat>) {
    var w := |Word(d)|;
    && |cuts| == 21 + w
    && cuts[0] + 7 == cuts[7] <= cuts[10] <= cuts[15] <= cuts[18] <= cuts[18 + w] < cuts[20 + w] <= |t|
    && IsPair(t[cuts[0]..cuts[7]])
    && (forall k :: cuts[7] <= k < cuts[10] ==> IsSpace(t[k]) || t[k] == ';')
    && cuts[10] + 5 == cuts[15] && HhmmShape(t[cuts[10]..cuts[15]])
    && (forall k :: cuts[15] <= k < cuts[18] ==> IsSpace(t[k]) || t[k] == ';')
    && cuts[18] + w == cuts[18 + w] && t[cuts[18]..cuts[18 + w]] == Word(d)
    && (forall k :: cuts[18 + w] <= k < cuts[20 + w] ==> IsSpace(t[k]) || t[k] in Marks(d))
  }

  lemma MatchLayout(t: string, d: Direction, cuts: seq<nat>)
    requires Match(SignalLine(d), t, cuts)
    ensures Layout(t, d, cuts)
  {
    SignalAtoms(d);
    var p := SignalLine(d);
    PairLayout(t, p, cuts);
    SeparatorLayout(t, p, cuts, 7);
    TimeLayout(t, p, cuts);
    SeparatorLayout(t, p, cuts, 15);
    WordLayout(t, d, cuts);
  }

  lemma PairLayout(t: string, p: Pattern, cuts: seq<nat>)
    requires Match(p, t, cuts) && |p| >= 7 && p[..7] == PAIR
    ensures cuts[7] == cuts[0] + 7 <= |t| && IsPair(t[cuts[0]..cuts[7]])
  {
    assert forall k :: 0 <= k < 7 ==> p[k] == PAIR[k];
    assert AtomMatches(p[0], t, cuts[0], cuts[1]) && AtomMatches(p[1], t, cuts[1], cuts[2]);
    assert AtomMatches(p[2], t, cuts[2], cuts[3]) && AtomMatches(p[3], t, cuts[3], cuts[4]);
    assert AtomMatches(p[4], t, cuts[4], cuts[5]) && AtomMatches(p[5], t, cuts[5], cuts[6]);
    assert AtomMatches(p[6], t, cuts[6], cuts[7]);
  }

  lemma SeparatorLayout(t: string, p: Pattern, cuts: seq<nat>, a: nat)
    requires Match(p, t, cuts) && a + 3 <= |p| && p[a..a + 3] == SEPARATOR
    ensures cuts[a] <= cuts[a + 3] <= |t|
    ensures forall k :: cuts[a] <= k < cuts[a + 3] ==> IsSpace(t[k]) || t[k] == ';'
  {
    assert p[a] == SEPARATOR[0] && p[a + 1] == SEPARATOR[1] && p[a + 2] == SEPARATOR[2];
    assert AtomMatches(p[a], t, cuts[a], cuts[a + 1]) && AtomMatches(p[a + 1], t, cuts[a + 1], cuts[a + 2]);
    assert AtomMatches(p[a + 2], t, cuts[a + 2], cuts[a + 3]);
  }

  lemma TimeLayout(t: string, p: Pattern, cuts: seq<nat>)
    requires Match(p, t, cuts) && |p| >= 15 && p[10..15] == TIME
    ensures cuts[15] == cuts[10] + 5 <= |t| && HhmmShape(t[cuts[10]..cuts[15]])
  {
    assert forall k :: 0 <= k < 5 ==> p[10 + k] == TIME[k];
    assert AtomMatches(p[10], t, cuts[10], cuts[11]) && AtomMatches(p[11], t, cuts[11], cuts[12]);
    assert AtomMatches(p[12], t, cuts[12], cuts[13]) && AtomMatches(p[13], t, cuts[13], cuts[14]);
    assert AtomMatches(p[14], t, cuts[14], cuts[15]);
  }

  lemma WordLayout(t: string, d: Direction, cuts: seq<nat>)
    requires Match(SignalLine(d), t, cuts)
    ensures var w := |Word(d)|;
            && |cuts| == 21 + w && cuts[18] + w == cuts[18 + w] < cuts[20 + w] <= |t|
               && t[cuts[18]..cuts[18 + w]] == Word(d)
            && forall k :: cuts[18 + w] <= k < cuts[20 + w] ==> IsSpace(t[k]) || t[k] in Marks(d)
  {
    SignalAtoms(d);
    var p, w := SignalLine(d), |Word(d)|;
    assert AtomMatches(p[18], t, cuts[18], cuts[19]) && AtomMatches(p[19], t, cuts[19], cuts[20]);
    assert AtomMatches(p[20], t, cuts[20], cuts[21]) && AtomMatches(p[21], t, cuts[21], cuts[22]);
    assert AtomMatches(p[17 + w], t, cuts[17 + w], cuts[18 + w]);
    assert AtomMatches(p[18 + w], t, cuts[18 + w], cuts[19 + w])
        && AtomMatches(p[19 + w], t, cuts[19 + w], cuts[20 + w]);
  }

  // ----- Signal lines never overlap -----

  /** Only a pair can start a signal line. */
  predicate StartsLine(t: string, i: nat) {
    LineStart(t, i) && i + 7 <= |t| && IsPair(t[i..i + 7])
  }

  /** Although a separator may run over newlines, no other line starts inside a signal line. */
  lemma NoOverlap(t: string, d: Direction, cuts: seq<nat>, end: nat, i: nat)
    requires LineMatch(SignalLine(d), t, cuts, end) && cuts[0] < i < end
    ensures !StartsLine(t, i)
  {
    MatchLayout(t, d, cuts);
    var w := |Word(d)|;
    assert i + 7 <= |t| ==> t[i..i + 7][0] == t[i];
    if i <= cuts[7] {
      assert t[i - 1] == t[cuts[0]..cuts[7]][i - 1 - cuts[0]];
    } else if cuts[10] <= i < cuts[15] {
      TimeHasNoLetter(t, cuts[10], i);
    } else if cuts[18] <= i < cuts[18 + w] {
      assert t[i] == t[cuts[18]..cuts[18 + w]][i - cuts[18]];
      if i == cuts[18] {
        assert i + 7 <= |t| ==> t[i..i + 7][3] == t[i + 3];
        assert d.Up? ==> t[i + 3] == t[cuts[18]..cuts[18 + w]][3];
      } else {
        assert t[i - 1] == t[cuts[18]..cuts[18 + w]][i - 1 - cuts[18]];
      }
    }
  }

  lemma TimeHasNoLetter(t: string, a: nat, i: nat)
    requires a + 5 <= |t| && HhmmShape(t[a..a + 5]) && a <= i < a + 5
    ensures !IsUpper(t[i])
  {
  }

  // ----- Finding lines -----

  /** One match of the signal line pattern. */
  datatype Line = Line(direction: Direction, cuts: seq<nat>, end: nat)

  predicate IsLine(t: string, l: Line) { LineMatch(SignalLine(l.direction), t, l.cuts, l.end) }

  function LineAt(t: string, i: nat): Option<Line> {
    match LineScan(SignalLine(Down), t, i)
    case Some((cuts, end)) => Some(Line(Down, cuts, end))
    case None =>
      match LineScan(SignalLine(Up), t, i)
      case Some((cuts, end)) => Some(Line(Up, cuts, end))
      case None => None
  }

  lemma PrefixMatches(p: Pattern, t: string, cuts: seq<nat>, n: nat)
    requires Match(p, t, cuts) && n <= |p|
    ensures Match(p[..n], t, cuts[..n + 1])
  {
    if n < |p| {
      assert AtomMatches(p[n], t, cuts[n], cuts[n + 1]);
    }
  }

  /** The two alternatives share everything up to their words, so they exclude each other. */
  lemma OneDirection(t: string, a: seq<nat>, b: seq<nat>)
    requires Match(SignalLine(Down), t, a) && Match(SignalLine(Up), t, b)
    ensures a[0] != b[0]
  {
    if a[0] == b[0] {
      var p, q := SignalLine(Down), SignalLine(Up);
      SignalAtoms(Down);
      SignalAtoms(Up);
      assert p[..17] == PAIR + SEPARATOR + TIME + SEPARATOR[..2] == q[..17];
      SignalDeterministic(Down);
      assert Deterministic(p[..17]) by {
        assert p[16] == p[15..18][1];
      }
      PrefixMatches(p, t, a, 17);
      PrefixMatches(q, t, b, 17);
      ScanComplete(p[..17], t, a[..18]);
      ScanComplete(p[..17], t, b[..18]);
      assert a[17] == a[..18][17] == b[..18][17] == b[17];
      SpacesThenWord(t, Down, a);
      SpacesThenWord(t, Up, b);
    }
  }

  lemma SpacesThenWord(t: string, d: Direction, cuts: seq<nat>)
    requires Match(SignalLine(d), t, cuts)
    ensures cuts[17] <= |t| && Skip(Space, t, cuts[17]) < |t| && t[Skip(Space, t, cuts[17])] == Word(d)[0]
  {
    SignalAtoms(d);
    var p := SignalLine(d);
    assert p[17] == p[15..18][2] && p[18] == One(Is(Word(d)[0]));
    assert AtomMatches(p[17], t, cuts[17], cuts[18]) && AtomMatches(p[18], t, cuts[18], cuts[19]);
    SkipStops(Space, t, cuts[17], cuts[18]);
  }

  /** The executable search at one position agrees with the pattern, for both directions. */
  lemma LineAtIff(t: string, i: nat)
    ensures LineAt(t, i).Some? ==> IsLine(t, LineAt(t, i).value) && LineAt(t, i).value.cuts[0] == i
    ensures forall l :: IsLine(t, l) && l.cuts[0] == i ==>
              && LineAt(t, i).Some? && LineAt(t, i).value.direction == l.direction && LineAt(t, i).value.cuts == l.cuts
  {
    SignalDeterministic(Down);
    SignalDeterministic(Up);
    LineScanIff(SignalLine(Down), t, i);
    LineScanIff(SignalLine(Up), t, i);
    forall l | IsLine(t, l) && l.cuts[0] == i
      ensures LineAt(t, i).Some? && LineAt(t, i).value.direction == l.direction && LineAt(t, i).value.cuts == l.cuts
    {
      if l.direction.Up? && LineScan(SignalLine(Down), t, i).Some? {
        OneDirection(t, LineScan(SignalLine(Down), t, i).value.0, l.cuts);
      }
    }
  }

  lemma LineAdvances(t: string, l: Line)
    requires IsLine(t, l)
    ensures l.cuts[0] < l.end <= |t| && StartsLine(t, l.cuts[0])
  {
    MatchLayout(t, l.direction, l.cuts);
  }

  /** Every match from pos on, left to right, each search resuming where the last match ended. */
  function AllLines(t: string, pos: nat): seq<Line>
    decreases |t| - pos
  {
    if pos > |t| then []
    else match LineAt(t, pos)
      case None => AllLines(t, pos + 1)
      case Some(l) =>
        LineAtIff(t, pos);
        LineAdvances(t, l);
        [l] + AllLines(t, l.end)
  }

  /** One of these lines has these cut points. */
  predicate Has(ls: seq<Line>, cuts: seq<nat>) { exists k :: 0 <= k < |ls| && ls[k].cuts == cuts }

  /** Exactly the signal lines that start at pos or later, in order. */
  ghost predicate Lists(t: string, pos: nat, ls: seq<Line>) {
    && (forall k :: 0 <= k < |ls| ==> IsLine(t, ls[k]) && pos <= ls[k].cuts[0])
    && (forall j, k :: 0 <= j < k < |ls| ==> ls[j].cuts[0] < ls[k].cuts[0])
    && (forall l :: IsLine(t, l) && pos <= l.cuts[0] ==> Has(ls, l.cuts))
  }

  lemma LinesApart(t: string, l: Line, m: Line)
    requires IsLine(t, l) && IsLine(t, m) && l.cuts[0] < m.cuts[0]
    ensures l.end <= m.cuts[0]
  {
    LineAdvances(t, m);
    if m.cuts[0] < l.end {
      NoOverlap(t, l.direction, l.cuts, l.end, m.cuts[0]);
    }
  }

  lemma HasCons(l: Line, rest: seq<Line>, cuts: seq<nat>)
    ensures Has([l] + rest, cuts) <==> cuts == l.cuts || Has(rest, cuts)
  {
    assert ([l] + rest)[0] == l;
    assert forall k :: 0 <= k < |rest| ==> ([l] + rest)[k + 1] == rest[k];
  }

  lemma FirstThenRest(t: string, l: Line, rest: seq<Line>, m: Line)
    requires IsLine(t, l) && Lists(t, l.end, rest) && IsLine(t, m) && l.cuts[0] <= m.cuts[0]
    requires m.cuts[0] == l.cuts[0] ==> m.cuts == l.cuts
    ensures Has([l] + rest, m.cuts)
  {
    HasCons(l, rest, m.cuts);
    if m.cuts[0] != l.cuts[0] {
      LinesApart(t, l, m);
    }
  }

  lemma LineFirst(t: string, l: Line, rest: seq<Line>)
    requires IsLine(t, l) && l.cuts[0] < l.end && Lists(t, l.end, rest)
    requires forall m :: IsLine(t, m) && m.cuts[0] == l.cuts[0] ==> m.cuts == l.cuts
    ensures Lists(t, l.cuts[0], [l] + rest)
  {
    forall m | IsLine(t, m) && l.cuts[0] <= m.cuts[0] ensures Has([l] + rest, m.cuts) {
      FirstThenRest(t, l, rest, m);
    }
    assert forall k :: 0 < k < |rest| + 1 ==> ([l] + rest)[k] == rest[k - 1];
  }

  /** The scan reports every signal line of the text exactly once, in order. */
  lemma {:induction false} AllLinesAreAll(t: string, pos: nat)
    ensures Lists(t, pos, AllLines(t, pos))
    decreases |t| - pos
  {
    if pos > |t| {
      forall l | IsLine(t, l) ensures l.cuts[0] < pos {
        LineAdvances(t, l);
      }
    } else {
      LineAtIff(t, pos);
      if LineAt(t, pos).None? {
        AllLinesAreAll(t, pos + 1);
        forall l | IsLine(t, l) && pos <= l.cuts[0] ensures pos + 1 <= l.cuts[0] {
        }
      } else {
        var l := LineAt(t, pos).value;
        LineAdvances(t, l);
        AllLinesAreAll(t, l.end);
        LineFirst(t, l, AllLines(t, l.end));
      }
    }
  }

  predicate IsHeader(t: string, cuts: seq<nat>, end: nat) { LineMatch(HEADER, t, cuts, end) }

  /** The first match of the header pattern at or after i. */
  function FirstHeader(t: string, i: nat): Option<seq<nat>>
    decreases |t| - i
  {
    if i > |t| then None
    else match LineScan(HEADER, t, i)
      case Some((cuts, _)) => Some(cuts)
      case None => FirstHeader(t, i + 1)
  }

  lemma {:induction false} FirstHeaderIff(t: string, i: nat)
    ensures FirstHeader(t, i).Some? ==>
              var cuts := FirstHeader(t, i).value;
              && |cuts| == |HEADER| + 1 && i <= cuts[0] && (exists end: nat :: IsHeader(t, cuts, end))
    ensures forall cuts: seq<nat>, end: nat :: IsHeader(t, cuts, end) && i <= cuts[0] ==>
              && FirstHeader(t, i).Some?
              && (FirstHeader(t, i).value[0] < cuts[0] || FirstHeader(t, i).value == cuts)
    decreases |t| - i
  {
    if i <= |t| {
      HeaderDeterministic();
      LineScanIff(HEADER, t, i);
      assert LineScan(HEADER, t, i).Some? ==>
          IsHeader(t, LineScan(HEADER, t, i).value.0, LineScan(HEADER, t, i).value.1);
      FirstHeaderIff(t, i + 1);
    }
  }
}
