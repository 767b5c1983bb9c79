/** The parser's output unit: one typed, numbered step of a ReAct trace. */
module Steps {
  import opened Text

  /** The three step labels the parser recognises. */
  datatype Kind = Thought | Action | Observation

  /** The label as it must appear in a trace (the match is case-sensitive). */
  function Label(k: Kind): string {
    match k
    case Thought => "Thought"
    case Action => "Action"
    case Observation => "Observation"
  }

  /** The step's `type` field: the lower-cased label. */
  function TypeName(k: Kind): (r: string)
    ensures r == Lower(Label(k))
  {
    match k
    case Thought => "thought"
    case Action => "action"
    case Observation => "observation"
  }

  /** One parsed step: `type`, `number` and `content` of the source's step record. */
  datatype Step = Step(kind: Kind, number: nat, content: string)

  /** Distinct kinds have distinct `type` names, so a step's kind can be read
      back from its `type` field. */
  lemma TypeNameInjective(j: Kind, k: Kind)
    requires TypeName(j) == TypeName(k)
    ensures j == k
  {
    assert TypeName(j)[0] == TypeName(k)[0];
  }
}
