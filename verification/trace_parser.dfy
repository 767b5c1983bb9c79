/** `BusyAgent.parse_trajectory`: `re.finditer` with the step pattern over
    the trace, each match turned into a step record, in match order. */
module TraceParser {
  import opened Optional
  import opened Text
  import opened Steps
  import opened Scanner
  import FindIter

  /** The step pattern, tried at each position of `s`. */
  function Attempt(s: string): nat -> Option<Match> {
    (p: nat) => MatchAt(s, p)
  }

  lemma AttemptIsPattern(s: string)
    ensures FindIter.Pattern(Attempt(s), |s|)
  {
  }

  /** The matches `re.finditer` yields over the whole trace: each is what
      the pattern matches where it starts, and they come in order without
      overlapping. */
  function Matches(s: string): (ms: seq<Match>)
    ensures forall k :: 0 <= k < |ms| ==> IsMatch(s, ms[k].start, ms[k]) && WellFormed(s, ms[k]) && ms[k].start < ms[k].end
    ensures forall k, l :: 0 <= k < l < |ms| ==> ms[k].end <= ms[l].start
  {
    AttemptIsPattern(s);
    FindIter.ScanFindsAll(Attempt(s), |s|, 0);
    var ms := FindIter.Scan(Attempt(s), |s|, 0);
    GenuineMatches(s, ms);
    ms
  }

  /** The pattern's own results are matches of it. */
  lemma GenuineMatches(s: string, ms: seq<Match>)
    requires FindIter.Genuine(Attempt(s), 0, ms)
    ensures forall k :: 0 <= k < |ms| ==> IsMatch(s, ms[k].start, ms[k]) && WellFormed(s, ms[k]) && ms[k].start < ms[k].end
  {
    forall k | 0 <= k < |ms|
      ensures IsMatch(s, ms[k].start, ms[k]) && WellFormed(s, ms[k]) && ms[k].start < ms[k].end
    {
      assert Attempt(s)(ms[k].start) == Some(ms[k]);
      MatchAtExact(s, ms[k].start, ms[k]);
    }
  }

  /** The step record built from one match: the label's kind, `int()` of
      the digit run, and the body with `strip()` applied. */
  function ToStep(s: string, m: Match): Step
    requires WellFormed(s, m)
  {
    Step(m.header.kind, DecimalValue(s[m.header.digits..m.header.colon]), Strip(s[m.bodyStart..m.end]))
  }

  /** `BusyAgent.parse_trajectory`: one step per match, in match order. */
  function Parse(s: string): (steps: seq<Step>)
    ensures |steps| == |Matches(s)|
    ensures forall k :: 0 <= k < |steps| ==> steps[k] == ToStep(s, Matches(s)[k])
  {
    var ms := Matches(s);
    seq(|ms|, k requires 0 <= k < |ms| => ToStep(s, ms[k]))
  }

  // ---------------------------------------------------------------------------
  // What the parser promises
  // ---------------------------------------------------------------------------

  /** The parser's matches are what `re.finditer` yields: the leftmost
      non-overlapping matches of the step pattern; no other sequence is. */
  lemma MatchesAreFindAll(s: string, ms: seq<Match>)
    ensures FindIter.FindAll(Attempt(s), 0, Matches(s))
    ensures FindIter.FindAll(Attempt(s), 0, ms) ==> ms == Matches(s)
  {
    AttemptIsPattern(s);
    FindIter.ScanFindsAll(Attempt(s), |s|, 0);
    if FindIter.FindAll(Attempt(s), 0, ms) {
      FindIter.FindAllUnique(Attempt(s), |s|, 0, ms);
    }
  }

  /** No match is missed: wherever the pattern matches, that position lies
      within the span of one of the parsed steps. */
  lemma NoMatchMissed(s: string, p: nat, m: Match)
    requires IsMatch(s, p, m)
    ensures exists k :: 0 <= k < |Matches(s)| && Matches(s)[k].start <= p < Matches(s)[k].end
  {
    MatchAtExact(s, p, m);
    MatchesAreFindAll(s, []);
    assert Attempt(s)(p).Some?;
    assert FindIter.Covered(Matches(s), p);
  }

  /** The fields of step `k`: its kind is the label spelled where its match
      starts (so its `type` is that label lower-cased), its number is `int()`
      of the digit run between the label's whitespace and the colon, and its
      content is the captured body with surrounding whitespace removed. */
  lemma StepFields(s: string, k: nat)
    requires k < |Parse(s)|
    ensures var m := Matches(s)[k]; var step := Parse(s)[k];
      && step.kind == m.header.kind
      && m.start + |Label(step.kind)| <= |s|
      && TypeName(step.kind) == Lower(s[m.start..m.start + |Label(step.kind)|])
      && step.number == DecimalValue(s[m.header.digits..m.header.colon])
      && PaddedBy(s[m.bodyStart..m.end], |s[m.bodyStart..m.end]| - |StripLeft(s[m.bodyStart..m.end])|, step.content)
      && Trimmed(step.content)
  {
    StepKind(s, k);
    StepContent(s, k);
  }

  lemma StepKind(s: string, k: nat)
    requires k < |Parse(s)|
    ensures var m := Matches(s)[k]; var step := Parse(s)[k];
      && step.kind == m.header.kind
      && m.start + |Label(step.kind)| <= |s|
      && TypeName(step.kind) == Lower(s[m.start..m.start + |Label(step.kind)|])
  {
    var m := Matches(s)[k];
    assert IsMatch(s, m.start, m);
    assert LabelOccursAt(s, m.start, m.header.kind);
  }

  lemma StepContent(s: string, k: nat)
    requires k < |Parse(s)|
    ensures var m := Matches(s)[k]; var step := Parse(s)[k];
      && PaddedBy(s[m.bodyStart..m.end], |s[m.bodyStart..m.end]| - |StripLeft(s[m.bodyStart..m.end])|, step.content)
      && Trimmed(step.content)
  {
    var m := Matches(s)[k];
    assert Parse(s)[k].content == Strip(s[m.bodyStart..m.end]);
  }

  /** Every step has one of the three `type` names, so it takes exactly one
      branch of `print_step`. */
  lemma StepTypes(s: string, k: nat)
    requires k < |Parse(s)|
    ensures TypeName(Parse(s)[k].kind) in {"thought", "action", "observation"}
  {
  }

  /** No steps exactly when the pattern matches nowhere in the trace. */
  lemma ParseEmptyIff(s: string)
    ensures Parse(s) == [] <==> forall p: nat, m: Match :: !IsMatch(s, p, m)
  {
    assert Parse(s) == [] <==> Matches(s) == [];
    MatchesEmptyIff(s);
    NoMatchIff(s);
  }

  lemma MatchesEmptyIff(s: string)
    ensures Matches(s) == [] <==> forall p: nat :: MatchAt(s, p).None?
  {
    AttemptIsPattern(s);
    FindIter.ScanEmpty(Attempt(s), |s|, 0);
    assert forall p: nat :: Attempt(s)(p) == MatchAt(s, p);
  }

  /** A trace in which no label is spelled anywhere yields no steps. */
  lemma NoLabelNoSteps(s: string)
    requires forall p: nat, k: Kind :: !LabelOccursAt(s, p, k)
    ensures Parse(s) == []
  {
    ParseEmptyIff(s);
  }

  /** The span of step `k` reaches at least the end of the line its body
      starts on, so a second header on that line is part of the body: no
      other step starts there. */
  lemma SameLineHeaderAbsorbed(s: string, k: nat, p: nat)
    requires k < |Matches(s)|
    requires Matches(s)[k].bodyStart <= p < LineEnd(s, Matches(s)[k].bodyStart)
    ensures Matches(s)[k].start < p < Matches(s)[k].end
    ensures forall l :: 0 <= l < |Matches(s)| ==> Matches(s)[l].start != p
  {
    MatchSpan(s, k);
    FindIter.InsideOneSpan(Matches(s), k, p);
  }

  /** The span of step `k` starts before its body and reaches at least the
      end of the line its body starts on. */
  lemma MatchSpan(s: string, k: nat)
    requires k < |Matches(s)|
    ensures Matches(s)[k].start < Matches(s)[k].bodyStart
    ensures LineEnd(s, Matches(s)[k].bodyStart) <= Matches(s)[k].end
  {
    var m := Matches(s)[k];
    assert IsMatch(s, m.start, m);
    BodyCoversFirstLine(s, m.bodyStart, m.end);
  }

  /** A line the body of step `k` takes in after its first is non-empty and
      does not begin with a header. */
  lemma ContinuationLine(s: string, k: nat, j: nat)
    requires k < |Matches(s)|
    requires Matches(s)[k].bodyStart < j < Matches(s)[k].end && s[j - 1] == '\n'
    ensures s[j] != '\n' && !StartsHeader(s, j)
  {
    BodyContinuation(s, Matches(s)[k].bodyStart, Matches(s)[k].end, j);
  }

  /** The body of step `k` stops at the end of input, or at a newline
      followed by the end of input, an empty line, or a header. */
  lemma BodyStops(s: string, k: nat)
    requires k < |Matches(s)|
    ensures StopsBody(s, Matches(s)[k].end)
  {
    var m := Matches(s)[k];
    BodyStop(s, m.bodyStart, m.end);
  }

  /** An empty line ends a body: the span of step `k` never runs across two
      consecutive newlines after its body has started. */
  lemma NoEmptyLineInBody(s: string, k: nat, j: nat)
    requires k < |Matches(s)|
    requires Matches(s)[k].bodyStart <= j && j + 1 < |s| && s[j] == '\n' && s[j + 1] == '\n'
    ensures Matches(s)[k].end <= j
  {
    BodyStopsAtEmptyLine(s, Matches(s)[k].bodyStart, Matches(s)[k].end, j);
  }

  /** The body of step `k` starts at the first non-whitespace character after
      its colon whenever there is one, even when it lies on a later line and
      even when it begins another header: a header with nothing after its
      colon takes the rest of the next line that holds anything but
      whitespace as its content. */
  lemma BodyAfterBlankColon(s: string, k: nat, w: nat)
    requires k < |Matches(s)|
    requires Matches(s)[k].header.colon < w < |s| && !IsSpace(s[w])
    requires forall q :: Matches(s)[k].header.colon < q < w ==> IsSpace(s[q])
    ensures Matches(s)[k].bodyStart == w
  {
    BodyStartsAtText(s, Matches(s)[k].start, Matches(s)[k], w);
  }

  /** When only whitespace follows the colon of step `k` up to the end of
      input, its content is empty. */
  lemma TrailingHeaderIsEmpty(s: string, k: nat)
    requires k < |Parse(s)|
    requires forall q :: Matches(s)[k].header.colon < q < |s| ==> IsSpace(s[q])
    ensures Parse(s)[k].content == []
  {
    var m := Matches(s)[k];
    BodyAfterTrailingColon(s, m.start, m);
    var body := s[m.bodyStart..m.end];
    assert body[..0] == [] && body[0..] == body;
    StripUnique(body, 0, []);
  }

  /** From a position on which no label letter occurs, the scan finds
      nothing more. */
  lemma {:induction false} ScanLabelFree(s: string, i: nat)
    requires i <= |s|
    requires 'T' !in s[i..] && 'A' !in s[i..] && 'O' !in s[i..]
    ensures FindIter.Scan(Attempt(s), |s|, i) == []
    decreases |s| - i
  {
    AttemptIsPattern(s);
    if i < |s| {
      assert s[i] == s[i..][0];
      NoMatchWithoutLabel(s, i);
      FindIter.ScanSkips(Attempt(s), |s|, i);
      assert s[i + 1..] == s[i..][1..];
      ScanLabelFree(s, i + 1);
    }
  }

  /** A trace with one match yields the one step built from it. */
  lemma ParseOne(s: string, m: Match, st: Step)
    requires Matches(s) == [m]
    requires WellFormed(s, m) && ToStep(s, m) == st
    ensures Parse(s) == [st]
  {
    ParseOneAt(s, m);
    SingleEq(Parse(s), st);
  }

  lemma ParseOneAt(s: string, m: Match)
    requires Matches(s) == [m] && WellFormed(s, m)
    ensures |Parse(s)| == 1 && Parse(s)[0] == ToStep(s, m)
  {
  }

  lemma SingleEq(ps: seq<Step>, x: Step)
    requires |ps| == 1 && ps[0] == x
    ensures ps == [x]
  {
  }

  /** A trace with two matches yields the two steps built from them. */
  lemma ParseTwo(s: string, m0: Match, m1: Match, st0: Step, st1: Step)
    requires Matches(s) == [m0, m1]
    requires WellFormed(s, m0) && ToStep(s, m0) == st0
    requires WellFormed(s, m1) && ToStep(s, m1) == st1
    ensures Parse(s) == [st0, st1]
  {
    ParseTwoAt(s, m0, m1);
    PairEq(Parse(s), st0, st1);
  }

  lemma ParseTwoAt(s: string, m0: Match, m1: Match)
    requires Matches(s) == [m0, m1] && WellFormed(s, m0) && WellFormed(s, m1)
    ensures |Parse(s)| == 2
    ensures Parse(s)[0] == ToStep(s, m0) && Parse(s)[1] == ToStep(s, m1)
  {
  }

  lemma PairEq(ps: seq<Step>, x: Step, y: Step)
    requires |ps| == 2 && ps[0] == x && ps[1] == y
    ensures ps == [x, y]
  {
  }
}
