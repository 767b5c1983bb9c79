/** The pure decisions `BusyAgent.print_step` and `BusyAgent.run` take about
    the parsed steps: which branch a step's `type` selects, how much of an
    observation is shown, and when a trace is rejected as unparseable. The
    printing, colouring, delays and animations around them are not modelled. */
module Display {
  import opened Optional
  import opened Steps
  import opened Scanner
  import opened TraceParser

  // ---------------------------------------------------------------------------
  // Branch selection in print_step
  // ---------------------------------------------------------------------------

  /** The branch of `print_step` a `type` string selects; `None` when it
      matches none of the three, and then nothing at all is printed. */
  function Branch(typeName: string): (r: Option<Kind>)
    ensures r.Some? ==> TypeName(r.value) == typeName
    ensures r.None? ==> forall k :: TypeName(k) != typeName
  {
    if typeName == "thought" then Some(Thought)
    else if typeName == "action" then Some(Action)
    else if typeName == "observation" then Some(Observation)
    else None
  }

  /** Each kind's `type` name selects that kind's own branch. */
  lemma BranchOfTypeName(k: Kind)
    ensures Branch(TypeName(k)) == Some(k)
  {
    TypeNameInjective(k, Branch(TypeName(k)).value);
  }

  /** Every step the parser returns is printed by exactly the branch of its
      own kind. */
  lemma ParsedStepsHaveBranch(s: string, k: nat)
    requires k < |Parse(s)|
    ensures Branch(TypeName(Parse(s)[k].kind)) == Some(Parse(s)[k].kind)
  {
    BranchOfTypeName(Parse(s)[k].kind);
  }

  // ---------------------------------------------------------------------------
  // Observation truncation in print_step
  // ---------------------------------------------------------------------------

  /** Observations longer than this are cut when animations are on. */
  const ObservationLimit: nat := 500

  /** What is appended to a cut observation. */
  const Ellipsis: string := "..."

  /** The text `print_step` shows for an observation's content: the first
      `ObservationLimit` characters followed by `Ellipsis` when the content is
      longer than the limit and fast mode is off, else the content itself. */
  function ShownObservation(content: string, fast: bool): (shown: string)
    ensures |content| > ObservationLimit && !fast ==>
      && |shown| == ObservationLimit + |Ellipsis|
      && shown[..ObservationLimit] == content[..ObservationLimit]
      && shown[ObservationLimit..] == Ellipsis
    ensures |content| <= ObservationLimit || fast ==> shown == content
  {
    if |content| > ObservationLimit && !fast then content[..ObservationLimit] + Ellipsis else content
  }

  /** The shown text always begins with as much of the content as fits in
      the limit, and with animations on it is never longer than the limit
      plus the ellipsis. */
  lemma ShownObservationBounds(content: string, fast: bool)
    ensures var n := if |content| < ObservationLimit then |content| else ObservationLimit;
      ShownObservation(content, fast)[..n] == content[..n]
    ensures !fast ==> |ShownObservation(content, fast)| <= ObservationLimit + |Ellipsis|
    ensures |ShownObservation(content, fast)| >= |content| || |ShownObservation(content, fast)| == ObservationLimit + |Ellipsis|
  {
  }

  /** The content is shown unchanged exactly when it fits, when fast mode is
      on, or when it already is a cut observation: 500 characters followed by
      the ellipsis. */
  lemma ShownObservationUnchangedIff(content: string, fast: bool)
    ensures ShownObservation(content, fast) == content <==>
      || |content| <= ObservationLimit
      || fast
      || (|content| == ObservationLimit + |Ellipsis| && content[ObservationLimit..] == Ellipsis)
  {
    var shown := ShownObservation(content, fast);
    if |content| == ObservationLimit + |Ellipsis| && content[ObservationLimit..] == Ellipsis {
      assert content == content[..ObservationLimit] + content[ObservationLimit..];
    }
  }

  /** Cutting an already cut observation changes nothing. */
  lemma ShownObservationIdempotent(content: string, fast: bool)
    ensures ShownObservation(ShownObservation(content, fast), fast) == ShownObservation(content, fast)
  {
    var shown := ShownObservation(content, fast);
    if |content| > ObservationLimit && !fast {
      assert shown[..ObservationLimit] + Ellipsis == shown;
    }
  }

  // ---------------------------------------------------------------------------
  // run
  // ---------------------------------------------------------------------------

  /** What `run` does with a trace: report that it cannot be parsed, or
      replay its steps in order. */
  datatype Outcome = Unparseable | Replay(steps: seq<Step>)

  /** `BusyAgent.run` after the row is chosen: parse the trace and stop with
      an error when it yields no step. */
  function Run(trace: string): (r: Outcome)
    ensures r.Replay? ==> r.steps == Parse(trace) && |r.steps| > 0
  {
    var steps := Parse(trace);
    if steps == [] then Unparseable else Replay(steps)
  }

  /** `run` reports an unparseable trace exactly when the step pattern
      matches nowhere in it; otherwise it replays every parsed step. */
  lemma RunUnparseableIff(trace: string)
    ensures Run(trace) == Unparseable <==> forall p: nat, m: Match :: !IsMatch(trace, p, m)
    ensures Run(trace) != Unparseable ==> Run(trace) == Replay(Parse(trace))
  {
    ParseEmptyIff(trace);
  }
}
