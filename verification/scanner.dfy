/** The trace parser: a hand-written, deterministic rendering of the step
    pattern

      label, whitespace+, digits+, ':', whitespace*, body

    scanned left to right the way `re.finditer` scans: try a match at each
    position, emit it and resume at its end, or else move on by one.

    Each scanning function is paired with a declarative predicate that says
    what the regular expression accepts (`IsHeader`, `IsBody`, `IsMatch`,
    `FindAll`); the lemmas prove the scanner computes exactly those. */
module Scanner {
  import opened Optional
  import opened Text
  import opened Steps

  // ---------------------------------------------------------------------------
  // Labels and character runs
  // ---------------------------------------------------------------------------

  /** The label of kind `k` is spelled out in `s` starting at `i`. */
  predicate LabelOccursAt(s: string, i: nat, k: Kind) {
    i + |Label(k)| <= |s| && s[i..i + |Label(k)|] == Label(k)
  }

  /** The label spelled at `i`, if any; the alternatives start with distinct
      letters, so at most one applies. */
  function LabelAt(s: string, i: nat): (r: Option<Kind>)
    ensures r.Some? ==> LabelOccursAt(s, i, r.value)
  {
    if LabelOccursAt(s, i, Thought) then Some(Thought)
    else if LabelOccursAt(s, i, Action) then Some(Action)
    else if LabelOccursAt(s, i, Observation) then Some(Observation)
    else None
  }

  /** No position spells two different labels. */
  lemma LabelsExclusive(s: string, i: nat, j: Kind, k: Kind)
    requires LabelOccursAt(s, i, j) && LabelOccursAt(s, i, k)
    ensures j == k
  {
    assert s[i] == s[i..i + |Label(j)|][0] == Label(j)[0];
    assert s[i] == s[i..i + |Label(k)|][0] == Label(k)[0];
  }

  /** The end of the (possibly empty) whitespace run starting at `i`. */
  function SpaceEnd(s: string, i: nat): (j: nat)
    requires i <= |s|
    ensures i <= j <= |s|
    ensures forall q :: i <= q < j ==> IsSpace(s[q])
    ensures j == |s| || !IsSpace(s[j])
    decreases |s| - i
  {
    if i < |s| && IsSpace(s[i]) then SpaceEnd(s, i + 1) else i
  }

  /** The end of the (possibly empty) digit run starting at `i`. */
  function DigitEnd(s: string, i: nat): (j: nat)
    requires i <= |s|
    ensures i <= j <= |s|
    ensures forall q :: i <= q < j ==> IsDigit(s[q])
    ensures j == |s| || !IsDigit(s[j])
    decreases |s| - i
  {
    if i < |s| && IsDigit(s[i]) then DigitEnd(s, i + 1) else i
  }

  /** The end of the line containing `i`: the next newline, or the end of input. */
  function LineEnd(s: string, i: nat): (j: nat)
    requires i <= |s|
    ensures i <= j <= |s|
    ensures forall q :: i <= q < j ==> s[q] != '\n'
    ensures j == |s| || s[j] == '\n'
    decreases |s| - i
  {
    if i < |s| && s[i] != '\n' then LineEnd(s, i + 1) else i
  }

  // ---------------------------------------------------------------------------
  // Header: label, whitespace+, digits+, ':'
  // ---------------------------------------------------------------------------

  /** A recognised header: its kind, where its digit run starts, and where its
      colon is (the digit run ends there). */
  datatype Header = Header(kind: Kind, digits: nat, colon: nat)

  /** `h` is a header starting at `i`: the label, at least one whitespace
      character (newlines included), at least one digit, then a colon. */
  ghost predicate IsHeader(s: string, i: nat, h: Header) {
    var a := i + |Label(h.kind)|;
    && LabelOccursAt(s, i, h.kind)
    && a < h.digits < h.colon < |s|
    && (forall q :: a <= q < h.digits ==> IsSpace(s[q]))
    && (forall q :: h.digits <= q < h.colon ==> IsDigit(s[q]))
    && s[h.colon] == ':'
  }

  /** The header starting at `i`, if there is one. Both runs are scanned
      greedily: whitespace, digits and ':' are disjoint classes, so the
      pattern's backtracking can never find a different split. */
  function HeaderAt(s: string, i: nat): (r: Option<Header>)
    ensures r.Some? ==> IsHeader(s, i, r.value)
  {
    match LabelAt(s, i)
    case None => None
    case Some(k) =>
      var a := i + |Label(k)|;
      var d := SpaceEnd(s, a);
      var c := DigitEnd(s, d);
      if a < d < c < |s| && s[c] == ':' then Some(Header(k, d, c)) else None
  }

  /** `LabelAt` finds the label spelled at `i`. */
  lemma LabelAtComplete(s: string, i: nat, k: Kind)
    requires LabelOccursAt(s, i, k)
    ensures LabelAt(s, i) == Some(k)
  {
    LabelsExclusive(s, i, LabelAt(s, i).value, k);
  }

  /** A whitespace run that stops before a non-space character is the one
      `SpaceEnd` measures. */
  lemma SpaceEndAt(s: string, i: nat, j: nat)
    requires i <= j < |s| && !IsSpace(s[j])
    requires forall q :: i <= q < j ==> IsSpace(s[q])
    ensures SpaceEnd(s, i) == j
  {
    var e := SpaceEnd(s, i);
    assert e <= j;
    assert !(e < j);
  }

  /** Likewise for digit runs. */
  lemma DigitEndAt(s: string, i: nat, j: nat)
    requires i <= j < |s| && !IsDigit(s[j])
    requires forall q :: i <= q < j ==> IsDigit(s[q])
    ensures DigitEnd(s, i) == j
  {
    var e := DigitEnd(s, i);
    assert e <= j;
    assert !(e < j);
  }

  /** `HeaderAt` finds exactly the headers the pattern accepts: every header
      starting at `i` is the one `HeaderAt` returns, so there is at most one. */
  lemma HeaderAtExact(s: string, i: nat, h: Header)
    ensures HeaderAt(s, i) == Some(h) <==> IsHeader(s, i, h)
  {
    if IsHeader(s, i, h) {
      HeaderAtComplete(s, i, h);
    }
  }

  lemma HeaderAtComplete(s: string, i: nat, h: Header)
    requires IsHeader(s, i, h)
    ensures HeaderAt(s, i) == Some(h)
  {
    var a := i + |Label(h.kind)|;
    SpaceEndAt(s, a, h.digits);
    DigitEndAt(s, h.digits, h.colon);
    HeaderAtStages(s, i, h.kind, h.digits, h.colon);
  }

  // ---------------------------------------------------------------------------
  // Body: whitespace*, then a first line and its continuation lines
  // ---------------------------------------------------------------------------

  /** The body may start at `p` after the colon at `colon`: everything between
      is whitespace, and `p` holds a character other than newline (the first
      character of the body's `[^\n]+`). */
  ghost predicate BodyStartOk(s: string, colon: nat, p: nat) {
    && colon < p < |s|
    && s[p] != '\n'
    && (forall q :: colon < q < p ==> IsSpace(s[q]))
  }

  /** The last position in `[lo, hi)` that is not a newline, if any. */
  function LastNonNewline(s: string, lo: nat, hi: nat): (r: Option<nat>)
    requires lo <= hi <= |s|
    ensures r.Some? ==> lo <= r.value < hi && s[r.value] != '\n'
    ensures r.Some? ==> forall q :: r.value < q < hi ==> s[q] == '\n'
    ensures r.None? ==> forall q :: lo <= q < hi ==> s[q] == '\n'
    decreases hi - lo
  {
    if lo == hi then None
    else if s[hi - 1] != '\n' then Some(hi - 1)
    else LastNonNewline(s, lo, hi - 1)
  }

  /** Where the greedy `\s*` after the colon hands over to the body: the
      LARGEST admissible start. Normally that is the end of the whitespace
      run; when the run reaches the end of input, backtracking gives back
      characters until the last non-newline one. */
  function BodyStart(s: string, colon: nat): (r: Option<nat>)
    requires colon < |s|
    ensures r.Some? ==> BodyStartOk(s, colon, r.value)
    ensures r.Some? ==> forall p: nat :: BodyStartOk(s, colon, p) ==> p <= r.value
    ensures r.None? ==> forall p: nat :: !BodyStartOk(s, colon, p)
  {
    var w := SpaceEnd(s, colon + 1);
    if w < |s| then Some(w) else LastNonNewline(s, colon + 1, |s|)
  }

  /** A header begins at `j`. */
  ghost predicate StartsHeader(s: string, j: nat) {
    exists h :: IsHeader(s, j, h)
  }

  /** The line starting at `j` may be appended to a body: it is non-empty and
      does not begin with a header (the pattern's negative lookahead). */
  ghost predicate ContinuesAt(s: string, j: nat) {
    j < |s| && s[j] != '\n' && !StartsHeader(s, j)
  }

  /** `ContinuesAt`, decided with `HeaderAt`. */
  predicate ContinuationAt(s: string, j: nat) {
    j < |s| && s[j] != '\n' && HeaderAt(s, j).None?
  }

  /** `ContinuationAt` decides `ContinuesAt`. */
  lemma ContinuationExact(s: string, j: nat)
    ensures ContinuationAt(s, j) <==> ContinuesAt(s, j)
  {
    forall h ensures HeaderAt(s, j) == Some(h) <==> IsHeader(s, j, h) {
      HeaderAtExact(s, j, h);
    }
  }

  /** `s[b..e]` is a body as the pattern captures it: a non-empty first line,
      then every following line that `ContinuesAt` admits, stopping at the
      first newline that is not followed by such a line. */
  ghost predicate IsBody(s: string, b: nat, e: nat) {
    && b < e <= |s|
    && s[b] != '\n'
    && (forall j :: b <= j < e && s[j] == '\n' ==> j + 1 < e && ContinuesAt(s, j + 1))
    && (e == |s| || (s[e] == '\n' && !ContinuesAt(s, e + 1)))
  }

  /** The end of the body starting at `b`: its first line, then each
      continuation line in turn. That this is a body is `BodyEndIsBody`. */
  function BodyEnd(s: string, b: nat): (e: nat)
    requires b < |s| && s[b] != '\n'
    ensures b < e <= |s|
    decreases |s| - b
  {
    var l := LineEnd(s, b);
    if l < |s| && ContinuationAt(s, l + 1) then BodyEnd(s, l + 1) else l
  }

  /** `BodyEnd` measures a body: its first line, then every continuation
      line, up to the first line that does not continue it. */
  lemma {:induction false} BodyEndIsBody(s: string, b: nat)
    requires b < |s| && s[b] != '\n'
    ensures IsBody(s, b, BodyEnd(s, b))
    decreases |s| - b
  {
    if ContinuesAt(s, LineEnd(s, b) + 1) {
      BodyEndIsBody(s, LineEnd(s, b) + 1);
      BodyEndMoreLines(s, b);
    } else {
      BodyEndOneLine(s, b);
    }
  }

  /** Where no continuation line follows, `BodyEnd` measures the first line,
      which is a whole body. */
  lemma BodyEndOneLine(s: string, b: nat)
    requires b < |s| && s[b] != '\n' && !ContinuesAt(s, LineEnd(s, b) + 1)
    ensures IsBody(s, b, BodyEnd(s, b))
  {
    BodyEndStops(s, b);
    BodyFirstLine(s, b);
  }

  /** Where a continuation line follows, `BodyEnd` measures the first line
      together with the body starting on the next line. */
  lemma BodyEndMoreLines(s: string, b: nat)
    requires b < |s| && s[b] != '\n' && ContinuesAt(s, LineEnd(s, b) + 1)
    requires IsBody(s, LineEnd(s, b) + 1, BodyEnd(s, LineEnd(s, b) + 1))
    ensures IsBody(s, b, BodyEnd(s, b))
  {
    BodyEndContinues(s, b, BodyEnd(s, LineEnd(s, b) + 1));
    BodyExtend(s, b, BodyEnd(s, LineEnd(s, b) + 1));
  }

  /** One step of `BodyEnd`: past the first line, it goes on exactly when
      the next line continues the body. */
  lemma BodyEndStep(s: string, b: nat)
    requires b < |s| && s[b] != '\n'
    ensures ContinuesAt(s, LineEnd(s, b) + 1) ==> BodyEnd(s, b) == BodyEnd(s, LineEnd(s, b) + 1)
    ensures !ContinuesAt(s, LineEnd(s, b) + 1) ==> BodyEnd(s, b) == LineEnd(s, b)
  {
    ContinuationExact(s, LineEnd(s, b) + 1);
  }

  /** A first line that no continuation line follows is a whole body. */
  lemma BodyFirstLine(s: string, b: nat)
    requires b < |s| && s[b] != '\n' && !ContinuesAt(s, LineEnd(s, b) + 1)
    ensures IsBody(s, b, LineEnd(s, b))
  {
  }

  /** A first line followed by a body starting on the next line is a body
      ending where that one ends. */
  lemma BodyExtend(s: string, b: nat, e: nat)
    requires b < |s| && s[b] != '\n'
    requires ContinuesAt(s, LineEnd(s, b) + 1) && IsBody(s, LineEnd(s, b) + 1, e)
    ensures IsBody(s, b, e)
  {
    forall j | b <= j < e && s[j] == '\n'
      ensures j + 1 < e && ContinuesAt(s, j + 1)
    {
      if j != LineEnd(s, b) {
        BodyLine(s, LineEnd(s, b) + 1, e, j);
      }
    }
  }

  /** Every newline inside a body is followed by one of its continuation
      lines. */
  lemma BodyLine(s: string, b: nat, e: nat, j: nat)
    requires IsBody(s, b, e) && b <= j < e && s[j] == '\n'
    ensures j + 1 < e && ContinuesAt(s, j + 1)
  {
  }

  // ---------------------------------------------------------------------------
  // One match of the whole pattern
  // ---------------------------------------------------------------------------

  /** A match: where it starts, its header, where its body (capture group 3)
      starts, and where the match ends. */
  datatype Match = Match(start: nat, header: Header, bodyStart: nat, end: nat)

  /** `m` is what the pattern matches when tried at `i`. */
  ghost predicate IsMatch(s: string, i: nat, m: Match) {
    && m.start == i
    && IsHeader(s, i, m.header)
    && BodyStartOk(s, m.header.colon, m.bodyStart)
    && (forall p: nat :: BodyStartOk(s, m.header.colon, p) ==> p <= m.bodyStart)
    && IsBody(s, m.bodyStart, m.end)
  }

  /** The fields of a match that building a step reads are in range. */
  predicate WellFormed(s: string, m: Match) {
    && m.header.digits <= m.header.colon <= m.bodyStart <= m.end <= |s|
    && AllDigits(s[m.header.digits..m.header.colon])
  }

  /** Try the pattern at position `i`. That the result is what the pattern
      matches there is `MatchAtExact`. */
  function MatchAt(s: string, i: nat): (r: Option<Match>)
    ensures r.Some? ==> r.value.start == i < r.value.end <= |s| && WellFormed(s, r.value)
  {
    match HeaderAt(s, i)
    case None => None
    case Some(h) =>
      match BodyStart(s, h.colon)
      case None => None
      case Some(b) => Some(Match(i, h, b, BodyEnd(s, b)))
  }

  /** `MatchAt` returns exactly what the pattern matches at `i`; in
      particular the match at a position is unique. */
  lemma MatchAtExact(s: string, i: nat, m: Match)
    ensures MatchAt(s, i) == Some(m) <==> IsMatch(s, i, m)
  {
    if MatchAt(s, i) == Some(m) {
      MatchAtSound(s, i);
    }
    if IsMatch(s, i, m) {
      HeaderAtExact(s, i, m.header);
      BodyStartComplete(s, m.header.colon, m.bodyStart);
      BodyEndIsBody(s, m.bodyStart);
      BodyUnique(s, m.bodyStart, BodyEnd(s, m.bodyStart), m.end);
    }
  }

  /** What `MatchAt` returns is a match of the pattern. */
  lemma MatchAtSound(s: string, i: nat)
    ensures MatchAt(s, i).Some? ==> IsMatch(s, i, MatchAt(s, i).value)
  {
    match HeaderAt(s, i)
    case None =>
    case Some(h) =>
      match BodyStart(s, h.colon)
      case None =>
      case Some(b) =>
        assert BodyStartOk(s, h.colon, b);
        BodyEndIsBody(s, b);
  }

  /** The largest admissible body start is the one `BodyStart` picks. */
  lemma BodyStartComplete(s: string, colon: nat, p: nat)
    requires BodyStartOk(s, colon, p)
    requires forall p': nat :: BodyStartOk(s, colon, p') ==> p' <= p
    ensures BodyStart(s, colon) == Some(p)
  {
    var b := BodyStart(s, colon);
    assert b.Some?;
    assert b.value <= p;
  }

  /** A body's end is determined by its start. */
  lemma BodyUnique(s: string, b: nat, e1: nat, e2: nat)
    requires IsBody(s, b, e1) && IsBody(s, b, e2)
    ensures e1 == e2
  {
  }

  // ---------------------------------------------------------------------------
  // The shape of a body
  // ---------------------------------------------------------------------------

  /** A body takes in at least the whole of its first line, so a second
      header on that line is part of the body. */
  lemma BodyCoversFirstLine(s: string, b: nat, e: nat)
    requires IsBody(s, b, e)
    ensures LineEnd(s, b) <= e
  {
    assert e == |s| || s[e] == '\n';
  }

  /** A line a body takes in after its first is non-empty and does not begin
      with a header. */
  lemma BodyContinuation(s: string, b: nat, e: nat, j: nat)
    requires IsBody(s, b, e)
    requires b < j < e && s[j - 1] == '\n'
    ensures s[j] != '\n'
    ensures !StartsHeader(s, j)
  {
    BodyLine(s, b, e, j - 1);
  }

  /** An empty line ends a body: no body runs across two consecutive
      newlines. A line holding only whitespace is not empty and may continue
      a body. */
  lemma BodyStopsAtEmptyLine(s: string, b: nat, e: nat, j: nat)
    requires IsBody(s, b, e)
    requires b <= j && j + 1 < |s| && s[j] == '\n' && s[j + 1] == '\n'
    ensures e <= j
  {
  }

  /** Position `e` is at the end of input, or at a newline followed by the
      end of input, an empty line, or a header. */
  ghost predicate StopsBody(s: string, e: nat) {
    e == |s| || (e < |s| && s[e] == '\n' && (e + 1 == |s| || s[e + 1] == '\n' || StartsHeader(s, e + 1)))
  }

  /** A body ends at the end of input, or at a newline followed by the end of
      input, an empty line, or a header. */
  lemma BodyStop(s: string, b: nat, e: nat)
    requires IsBody(s, b, e)
    ensures StopsBody(s, e)
  {
    if e < |s| {
      assert s[e] == '\n' && !ContinuesAt(s, e + 1);
    }
  }

  /** The body starts at the first non-whitespace character after the colon
      whenever there is one, even on a later line and even when it begins
      another header. */
  lemma BodyStartsAtText(s: string, i: nat, m: Match, w: nat)
    requires IsMatch(s, i, m)
    requires m.header.colon < w < |s| && !IsSpace(s[w])
    requires forall q :: m.header.colon < q < w ==> IsSpace(s[q])
    ensures m.bodyStart == w
  {
    assert BodyStartOk(s, m.header.colon, w);
  }

  /** When only whitespace follows the colon up to the end of input, the
      match's body is whitespace only and ends the input or its line. */
  lemma BodyAfterTrailingColon(s: string, i: nat, m: Match)
    requires IsMatch(s, i, m)
    requires forall q :: m.header.colon < q < |s| ==> IsSpace(s[q])
    ensures AllSpace(s[m.bodyStart..m.end])
    ensures m.end == |s| || s[m.end] == '\n'
  {
    var body := s[m.bodyStart..m.end];
    forall q | 0 <= q < |body| ensures IsSpace(body[q]) {
      assert body[q] == s[m.bodyStart + q];
    }
  }

  /** The pattern matches nowhere exactly when `MatchAt` fails everywhere. */
  lemma NoMatchIff(s: string)
    ensures (forall p: nat :: MatchAt(s, p).None?) <==> (forall p: nat, m: Match :: !IsMatch(s, p, m))
  {
    forall p: nat, m: Match | IsMatch(s, p, m) ensures MatchAt(s, p).Some? {
      MatchAtExact(s, p, m);
    }
    forall p: nat ensures MatchAt(s, p).Some? ==> IsMatch(s, p, MatchAt(s, p).value) {
      MatchAtSound(s, p);
    }
  }

  // ---------------------------------------------------------------------------
  // Evaluating a match step by step
  // ---------------------------------------------------------------------------

  /** A label begins with its first letter. */
  lemma LabelFirstLetter(s: string, i: nat, k: Kind)
    ensures LabelOccursAt(s, i, k) ==> i < |s| && s[i] == Label(k)[0]
  {
    if LabelOccursAt(s, i, k) {
      assert s[i] == s[i..i + |Label(k)|][0];
    }
  }

  /** No match starts at a character that does not begin a label. */
  lemma NoMatchWithoutLabel(s: string, i: nat)
    requires i < |s| ==> s[i] != 'T' && s[i] != 'A' && s[i] != 'O'
    ensures HeaderAt(s, i).None? && MatchAt(s, i).None?
  {
    forall k ensures !LabelOccursAt(s, i, k) {
      LabelFirstLetter(s, i, k);
    }
  }

  /** The header at `i` assembled from the results of its scanning stages. */
  lemma HeaderAtStages(s: string, i: nat, k: Kind, d: nat, c: nat)
    requires LabelOccursAt(s, i, k)
    requires SpaceEnd(s, i + |Label(k)|) == d && i + |Label(k)| < d
    requires DigitEnd(s, d) == c && d < c < |s| && s[c] == ':'
    ensures HeaderAt(s, i) == Some(Header(k, d, c))
  {
    LabelAtComplete(s, i, k);
  }

  /** A body that stops at the end of its first line. */
  lemma BodyEndStops(s: string, b: nat)
    requires b < |s| && s[b] != '\n' && !ContinuesAt(s, LineEnd(s, b) + 1)
    ensures BodyEnd(s, b) == LineEnd(s, b)
  {
    BodyEndStep(s, b);
  }

  /** A body whose first line is followed by a continuation line. */
  lemma BodyEndContinues(s: string, b: nat, e: nat)
    requires b < |s| && s[b] != '\n'
    requires ContinuesAt(s, LineEnd(s, b) + 1) && BodyEnd(s, LineEnd(s, b) + 1) == e
    ensures BodyEnd(s, b) == e
  {
    BodyEndStep(s, b);
  }

  /** The match at `i` assembled from the results of its scanning stages. */
  lemma MatchAtStages(s: string, i: nat, h: Header, b: nat, e: nat)
    requires HeaderAt(s, i) == Some(h)
    requires BodyStart(s, h.colon) == Some(b)
    requires BodyEnd(s, b) == e
    ensures MatchAt(s, i) == Some(Match(i, h, b, e))
  {
  }
}
