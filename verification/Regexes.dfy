/** The line patterns of `domain/signal.py`: what it means to match one, and a matcher that scans
    left to right without backtracking. */
module Regexes {
  import opened Gale
  import Clock

  datatype Class = Is(c: char) | Among(chars: set<char>) | Upper | Digits | Space

  /** `One` is a single character of a class, `Many` any number of them. */
  datatype Atom = One(cls: Class) | Many(cls: Class)

  type Pattern = seq<Atom>

  /** Characters that both regex `\s` and string stripping treat as white space. */
  predicate IsSpace(c: char) {
    || '\t' <= c <= '\r' || '\U{1C}' <= c <= ' ' || c == '\U{85}' || c == '\U{A0}'
    || c == '\U{1680}' || '\U{2000}' <= c <= '\U{200A}' || c == '\U{2028}' || c == '\U{2029}'
    || c == '\U{202F}' || c == '\U{205F}' || c == '\U{3000}'
  }

  /** The white space of Unicode and the four separators of ASCII, one by one. */
  lemma SpacesListed(c: char)
    ensures IsSpace(c) <==>
              c in {'\t', '\n', '\U{B}', '\U{C}', '\r', '\U{1C}', '\U{1D}', '\U{1E}', '\U{1F}', ' ',
                    '\U{85}', '\U{A0}', '\U{1680}', '\U{2000}', '\U{2001}', '\U{2002}', '\U{2003}', '\U{2004}',
                    '\U{2005}', '\U{2006}', '\U{2007}', '\U{2008}', '\U{2009}', '\U{200A}', '\U{2028}',
                    '\U{2029}', '\U{202F}', '\U{205F}', '\U{3000}'}
  {
    assert '\U{2000}' <= c <= '\U{200A}' ==> c as int - 0x2000 in {0, 1, 2, 3, 4, 5, 6, 7, 8, 9, 10};
  }

  predicate Blank(s: string) { forall c :: c in s ==> IsSpace(c) }

  predicate In(cls: Class, c: char) {
    match cls
    case Is(d) => c == d
    case Among(chars) => c in chars
    case Upper => 'A' <= c <= 'Z'
    case Digits => Clock.IsDigit(c)
    case Space => IsSpace(c)
  }

  /** `text`, taken literally. */
  function Literal(text: string): Pattern {
    seq(|text|, (i: nat) requires i < |text| => One(Is(text[i])))
  }

  // ----- What a match is -----

  predicate AtomMatches(a: Atom, t: string, i: nat, j: nat) {
    && i <= j <= |t|
    && match a
       case One(cls) => j == i + 1 && In(cls, t[i])
       case Many(cls) => forall k :: i <= k < j ==> In(cls, t[k])
  }

  /** Cut points of the text between which the atoms match, one after the other. */
  predicate Match(p: Pattern, t: string, cuts: seq<nat>) {
    && |cuts| == |p| + 1
    && cuts[|p|] <= |t|
    && forall a :: 0 <= a < |p| ==> AtomMatches(p[a], t, cuts[a], cuts[a + 1])
  }

  /** `^` and `$` under the MULTILINE flag. */
  predicate LineStart(t: string, i: nat) { i <= |t| && (i == 0 || t[i - 1] == '\n') }

  predicate LineEnd(t: string, j: nat) { j <= |t| && (j == |t| || t[j] == '\n') }

  /** A match of `^p\s*$`. */
  predicate LineMatch(p: Pattern, t: string, cuts: seq<nat>, end: nat) {
    && Match(p, t, cuts)
    && LineStart(t, cuts[0])
    && AtomMatches(Many(Space), t, cuts[|p|], end)
    && LineEnd(t, end)
  }

  // ----- Scanning -----

  /** End of the run of class characters that starts at i. */
  function Skip(cls: Class, t: string, i: nat): nat
    decreases |t| - i
  {
    if i < |t| && In(cls, t[i]) then Skip(cls, t, i + 1) else i
  }

  function Scan(p: Pattern, t: string, i: nat): Option<seq<nat>>
    decreases |p|
  {
    if i > |t| then None
    else if p == [] then Some([i])
    else
      var next := if p[0].Many? then Some(Skip(p[0].cls, t, i))
                  else if i < |t| && In(p[0].cls, t[i]) then Some(i + 1) else None;
      if next.None? then None
      else match Scan(p[1..], t, next.value)
        case None => None
        case Some(cuts) => Some([i] + cuts)
  }

  predicate Disjoint(a: Class, b: Class) { forall c: char :: In(a, c) ==> !In(b, c) }

  /** Every run is followed by a character that cannot belong to it. */
  predicate Deterministic(p: Pattern) {
    forall a :: 0 <= a < |p| && p[a].Many? ==> a + 1 < |p| && p[a + 1].One? && Disjoint(p[a].cls, p[a + 1].cls)
  }

  lemma {:induction false} SkipRuns(cls: Class, t: string, i: nat)
    requires i <= |t|
    ensures AtomMatches(Many(cls), t, i, Skip(cls, t, i))
    ensures Skip(cls, t, i) < |t| ==> !In(cls, t[Skip(cls, t, i)])
    decreases |t| - i
  {
    if i < |t| && In(cls, t[i]) {
      SkipRuns(cls, t, i + 1);
    }
  }

  lemma TailMatches(p: Pattern, t: string, cuts: seq<nat>)
    requires Match(p, t, cuts) && p != []
    ensures Match(p[1..], t, cuts[1..])
  {
  }

  lemma {:induction false} ScanSound(p: Pattern, t: string, i: nat)
    ensures Scan(p, t, i).Some? ==> Match(p, t, Scan(p, t, i).value) && Scan(p, t, i).value[0] == i
    decreases |p|
  {
    if Scan(p, t, i).Some? && p != [] {
      if p[0].Many? {
        SkipRuns(p[0].cls, t, i);
        ScanSound(p[1..], t, Skip(p[0].cls, t, i));
      } else {
        ScanSound(p[1..], t, i + 1);
      }
      var cuts := Scan(p, t, i).value;
      forall a | 0 <= a < |p| ensures AtomMatches(p[a], t, cuts[a], cuts[a + 1]) {
        assert a > 0 ==> p[a] == p[1..][a - 1] && cuts[a] == cuts[1..][a - 1] && cuts[a + 1] == cuts[1..][a];
      }
    }
  }

  /** Scanning without backtracking loses no match of a deterministic pattern. */
  lemma {:induction false} ScanComplete(p: Pattern, t: string, cuts: seq<nat>)
    requires Deterministic(p) && Match(p, t, cuts)
    ensures Scan(p, t, cuts[0]) == Some(cuts)
    decreases |p|
  {
    if p != [] {
      TailMatches(p, t, cuts);
      assert AtomMatches(p[0], t, cuts[0], cuts[1]);
      if p[0].Many? {
        assert AtomMatches(p[1], t, cuts[1], cuts[2]);
        SkipStops(p[0].cls, t, cuts[0], cuts[1]);
      }
      assert Deterministic(p[1..]) by {
        assert forall a :: 0 <= a < |p| - 1 ==> p[1..][a] == p[a + 1];
      }
      ScanComplete(p[1..], t, cuts[1..]);
      assert cuts == [cuts[0]] + cuts[1..];
    } else {
      assert cuts == [cuts[0]];
    }
  }

  lemma {:induction false} SkipStops(cls: Class, t: string, i: nat, j: nat)
    requires AtomMatches(Many(cls), t, i, j) && (j < |t| ==> !In(cls, t[j]))
    ensures Skip(cls, t, i) == j
    decreases j - i
  {
    if i < j {
      SkipStops(cls, t, i + 1, j);
    }
  }

  /** The furthest line end that only white space separates from e: what a greedy `\s*$` takes. */
  function LastLineEnd(t: string, e: nat): Option<nat>
    requires e <= |t|
    decreases |t| - e
  {
    if e == |t| then Some(e)
    else if !IsSpace(t[e]) then None
    else match LastLineEnd(t, e + 1)
      case Some(j) => Some(j)
      case None => if t[e] == '\n' then Some(e) else None
  }

  predicate IsTail(t: string, e: nat, j: nat) { AtomMatches(Many(Space), t, e, j) && LineEnd(t, j) }

  lemma {:induction false} LastLineEndIs(t: string, e: nat)
    requires e <= |t|
    ensures LastLineEnd(t, e).Some? ==> IsTail(t, e, LastLineEnd(t, e).value)
    ensures forall j: nat :: IsTail(t, e, j) ==> LastLineEnd(t, e).Some? && j <= LastLineEnd(t, e).value
    decreases |t| - e
  {
    if e < |t| && IsSpace(t[e]) {
      LastLineEndIs(t, e + 1);
      forall j: nat | IsTail(t, e, j) ensures j == e || IsTail(t, e + 1, j) {
      }
    }
  }

  /** A match of `^p\s*$` at i, the one the regex engine finds. */
  function LineScan(p: Pattern, t: string, i: nat): (r: Option<(seq<nat>, nat)>) {
    if !LineStart(t, i) then None
    else match Scan(p, t, i)
      case None => None
      case Some(cuts) =>
        ScanSound(p, t, i);
        match LastLineEnd(t, cuts[|p|])
        case None => None
        case Some(end) => Some((cuts, end))
  }

  /** Soundness and completeness: a line is found at i exactly when one is there, with its only
      cut points and its furthest end. */
  lemma LineScanIff(p: Pattern, t: string, i: nat)
    requires Deterministic(p)
    ensures LineScan(p, t, i).Some? ==>
              var (cuts, end) := LineScan(p, t, i).value;
              LineMatch(p, t, cuts, end) && cuts[0] == i
    ensures forall cuts: seq<nat>, end: nat :: LineMatch(p, t, cuts, end) && cuts[0] == i ==>
              LineScan(p, t, i).Some? && LineScan(p, t, i).value.0 == cuts && end <= LineScan(p, t, i).value.1
  {
    ScanSound(p, t, i);
    if Scan(p, t, i).Some? {
      LastLineEndIs(t, Scan(p, t, i).value[|p|]);
    }
    forall cuts: seq<nat>, end: nat | LineMatch(p, t, cuts, end) && cuts[0] == i
      ensures LineScan(p, t, i).Some? && LineScan(p, t, i).value.0 == cuts && end <= LineScan(p, t, i).value.1
    {
      ScanComplete(p, t, cuts);
      assert IsTail(t, cuts[|p|], end);
    }
  }
}
