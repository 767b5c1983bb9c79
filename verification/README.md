# busy-agent trace parser, modelled in Dafny

`busy_agent.py` replays a recorded ReAct trajectory on the terminal. It has one
real piece of logic, `BusyAgent.parse_trajectory`. That method runs
`re.finditer` with a single regular expression over the trace text. It turns
each match into a step record with three fields:

- `type`: the lower-cased label `thought`, `action` or `observation`;
- `number`: `int()` of the digit run;
- `content`: the captured body, stripped of surrounding whitespace.

Around it, `print_step` picks a display branch from the step's `type` and cuts
observations longer than 500 characters. `run` gives up with an error when the
trace yields no step.

This project models those pieces as pure functions on `string` and proves what
they promise. The modules are:

- `Text`: the Python string semantics the parser uses (`\s`, `\d`, `strip()`,
  `lower()`, `int()`).
- `Steps`: the step record and its `type` names.
- `Scanner`: the regular expression as a deterministic scanner. Each scanning
  function is paired with a declarative predicate (`IsHeader`, `IsBody`,
  `IsMatch`) saying what the pattern accepts, and lemmas show the two agree.
- `FindIter`: `re.finditer` for a pattern whose matches are never empty, as
  the step pattern's are. It scans left to right. On a
  match it emits the match and resumes at its end; otherwise it moves on by one
  character. `FindAll` characterises its result as the leftmost
  non-overlapping matches.
- `TraceParser`: `parse_trajectory` and the properties of the steps it
  returns.
- `Display`: the branch choice and observation cut of `print_step`, and the
  empty-trace check of `run`.
- `Examples`: worked traces, each evaluated to its exact list of steps.

The regular expression is read as follows. It reads each of the following from
the code:

- A label (case-sensitive, with no line-start or word-boundary check).
- At least one whitespace character, which may be a newline.
- At least one digit, then `:`.
- The greedy `\s*`. It gives back characters only when it reaches the end of
  input: the body then starts at the last non-newline character of the run.
- The body's first line.
- Each following line that is non-empty and does not begin with a header.

Two consequences follow from the code and are modelled as they are:

- An empty line ends a body. A line holding only whitespace is not empty and
  continues it.
- A header with nothing after its colon takes the rest of the next line that
  holds anything but whitespace as its content, even when that line is itself
  a header. This is because `\s*` crosses the
  newline and the first body line is not guarded by the lookahead.

The labels are matched case-sensitively (busy_agent.py:65): `thought 1: x`
is not a header. The `[^\n]+` of each body line stops a body at the first
empty line.

## Model

| member | source | states |
|---|---|---|
| Text.Strip | busy_agent.py:72 | `strip()` yields a string with no whitespace at either end, found inside the input with only whitespace around it |
| Text.StripUnique | busy_agent.py:72 | whatever whitespace surrounds a trimmed string, stripping gives back exactly that string |
| Text.PaddedUnique | busy_agent.py:72 | a string has at most one trimmed core inside its surrounding whitespace |
| Text.StripTrimmed | busy_agent.py:72 | a string with no whitespace at either end is its own strip |
| Text.StripIdempotent | busy_agent.py:72 | stripping twice is stripping once |
| Text.StripLeft | busy_agent.py:72 | removing leading whitespace leaves a suffix that starts with a non-space, and only whitespace was removed |
| Text.StripRight | busy_agent.py:72 | removing trailing whitespace leaves a prefix that ends with a non-space, and only whitespace was removed |
| Text.Lower | busy_agent.py:70 | `lower()` keeps the length and lower-cases each ASCII letter in place |
| Text.Decimal | busy_agent.py:71 | the canonical numeral of a number is a non-empty digit run without a leading zero |
| Text.DecimalRoundTrip | busy_agent.py:71 | `int()` of the canonical numeral of `n` is `n` |
| Text.LeadingZeroIgnored | busy_agent.py:71 | a leading zero does not change the value `int()` reads |
| Steps.TypeName | busy_agent.py:70 | a step's `type` is its label lower-cased |
| Steps.TypeNameInjective | busy_agent.py:70 | distinct labels give distinct `type` names |
| Scanner.LabelAt | busy_agent.py:65 | the label alternative found at a position is spelled there |
| Scanner.LabelsExclusive | busy_agent.py:65 | no position spells two different labels |
| Scanner.LabelAtComplete | busy_agent.py:65 | a label spelled at a position is the one found there |
| Scanner.SpaceEnd | busy_agent.py:65 | the greedy whitespace run: all whitespace, ended by a non-space or the end of input |
| Scanner.DigitEnd | busy_agent.py:65 | the greedy digit run: all digits, ended by a non-digit or the end of input |
| Scanner.LineEnd | busy_agent.py:65 | a `[^\n]*` run ends at the next newline or the end of input |
| Scanner.HeaderAt | busy_agent.py:65 | a header found by scanning is a label, at least one whitespace character, at least one digit and a colon |
| Scanner.HeaderAtExact | busy_agent.py:65 | the scanner finds a header at a position exactly when the pattern's header accepts it there, so it is unique |
| Scanner.LastNonNewline | busy_agent.py:65 | the last non-newline position of a range, with only newlines after it; none when the range is all newlines |
| Scanner.BodyStart | busy_agent.py:65 | the body starts at the largest position after the colon reached through whitespace that holds a non-newline; there is none exactly when no position qualifies |
| Scanner.BodyStartComplete | busy_agent.py:65 | the largest admissible body start is the one chosen |
| Scanner.ContinuationExact | busy_agent.py:65 | the scanner's continuation test is the lookahead: a non-empty line that does not begin with a header |
| Scanner.BodyEndIsBody | busy_agent.py:65 | the scanned body is the pattern's body: a first line, then every continuation line, up to the first line that does not continue it |
| Scanner.BodyUnique | busy_agent.py:65 | a body's end is determined by its start |
| Scanner.MatchAt | busy_agent.py:65 | a match tried at `i` starts at `i`, is non-empty, and has in-range fields |
| Scanner.MatchAtExact | busy_agent.py:65 | trying the pattern at `i` returns a match exactly when the pattern matches it there, so the match at a position is unique |
| Scanner.NoMatchIff | busy_agent.py:65 | the scanner fails everywhere exactly when the pattern matches nowhere |
| Scanner.BodyCoversFirstLine | busy_agent.py:65 | a body takes in the whole line it starts on |
| Scanner.BodyContinuation | busy_agent.py:65 | every later line of a body is non-empty and does not begin with a header |
| Scanner.BodyStopsAtEmptyLine | busy_agent.py:65 | no body runs across two consecutive newlines |
| Scanner.BodyStop | busy_agent.py:65 | a body ends at the end of input, or at a newline followed by the end of input, an empty line or a header |
| Scanner.BodyStartsAtText | busy_agent.py:65 | the body starts at the first non-whitespace character after the colon, even on a later line |
| Scanner.BodyAfterTrailingColon | busy_agent.py:65 | with only whitespace after the colon, the body is whitespace and ends the input or its line |
| Scanner.NoMatchWithoutLabel | busy_agent.py:65 | no match starts at a character that does not begin a label |
| FindIter.ScanFindsAll | busy_agent.py:67 | the left-to-right scan yields genuine matches, in order, non-overlapping, missing no position where the pattern matches |
| FindIter.FindAllUnique | busy_agent.py:67 | any sequence with those properties is the scan's result |
| FindIter.FindAllCons | busy_agent.py:67 | a match followed by the leftmost matches from its end is the leftmost sequence |
| FindIter.FindAllFirst | busy_agent.py:67 | the leftmost sequence from a matching position starts with that match |
| FindIter.FindAllRest | busy_agent.py:67 | after its first match the leftmost sequence continues from that match's end |
| FindIter.ScanEmpty | busy_agent.py:67 | the scan yields nothing exactly when the pattern matches nowhere |
| FindIter.InsideOneSpan | busy_agent.py:67 | inside one of the ordered, non-empty spans no match starts |
| TraceParser.Matches | busy_agent.py:67 | each match yielded is what the pattern matches where it starts; matches come in order, without overlap |
| TraceParser.Parse | busy_agent.py:69-80 | one step per match, in match order, each built from its match |
| TraceParser.MatchesAreFindAll | busy_agent.py:67 | the matches are the leftmost non-overlapping ones, and no other sequence is |
| TraceParser.NoMatchMissed | busy_agent.py:67 | wherever the pattern matches, the position lies inside one step's span |
| TraceParser.StepFields | busy_agent.py:70-72 | a step's kind is the label at its match start and its `type` that label lower-cased; its number is `int()` of its digit run; its content is the stripped body |
| TraceParser.StepTypes | busy_agent.py:70 | every step's `type` is `thought`, `action` or `observation` |
| TraceParser.ParseEmptyIff | busy_agent.py:65-80 | no steps exactly when the pattern matches nowhere |
| TraceParser.NoLabelNoSteps | busy_agent.py:65-80 | a trace without any label yields no step |
| TraceParser.SameLineHeaderAbsorbed | busy_agent.py:65-67 | a second header on the line a body starts on is inside that step's span, and no step starts there |
| TraceParser.ContinuationLine | busy_agent.py:65 | each later line of a step's body is non-empty and does not begin with a header |
| TraceParser.BodyStops | busy_agent.py:65 | a step's span ends at the end of input, or at a newline followed by the end of input, an empty line or a header |
| TraceParser.NoEmptyLineInBody | busy_agent.py:65 | an empty line after a body has started ends the step's span |
| TraceParser.BodyAfterBlankColon | busy_agent.py:65 | a body starts at the first non-whitespace character after its colon, even on a later line that begins a header |
| TraceParser.TrailingHeaderIsEmpty | busy_agent.py:65-72 | a header followed only by whitespace to the end of input has empty content |
| TraceParser.ScanLabelFree | busy_agent.py:67 | from a position with no label letter after it, the scan finds nothing |
| TraceParser.ParseOne | busy_agent.py:69-80 | a trace with one match gives the one step built from it |
| TraceParser.ParseTwo | busy_agent.py:69-80 | a trace with two matches gives the two steps built from them, in order |
| Display.Branch | busy_agent.py:134-161 | a `type` selects the branch of its kind, and no branch when it is none of the three names |
| Display.BranchOfTypeName | busy_agent.py:134-161 | each kind's `type` name selects that kind's branch |
| Display.ParsedStepsHaveBranch | busy_agent.py:134-161 | every parsed step is printed by the branch of its own kind |
| Display.ShownObservation | busy_agent.py:167-170 | content over 500 characters, outside fast mode, is shown as its first 500 characters then `...`; otherwise unchanged |
| Display.ShownObservationBounds | busy_agent.py:167-170 | the shown text begins with as much content as fits, is at most 503 characters outside fast mode, and is never shorter than the content unless cut |
| Display.ShownObservationUnchangedIff | busy_agent.py:167-170 | the content is shown unchanged exactly when it fits, fast mode is on, or it already has the cut form |
| Display.ShownObservationIdempotent | busy_agent.py:167-170 | cutting a cut observation changes nothing |
| Display.Run | busy_agent.py:206-210 | replaying happens only with the parsed steps, and only when there is at least one |
| Display.RunUnparseableIff | busy_agent.py:206-210 | the trace is rejected exactly when the pattern matches nowhere in it; otherwise all parsed steps are replayed |
| Examples.SingleObservation | busy_agent.py:65-80 | `Observation 7: X` gives one observation numbered 7 with content `X` |
| Examples.ThoughtThenAction | busy_agent.py:65-80 | a header at the start of the next line ends the body before it |
| Examples.MultiLineThought | busy_agent.py:65-80 | a line that does not begin with a header continues the body |
| Examples.EmptyHeaderSwallowsNext | busy_agent.py:65-80 | `Thought 1:` followed by a header line gives one thought whose content is that line |
| Examples.TrailingHeader | busy_agent.py:65-80 | `Thought 1:` followed only by spaces gives a thought with empty content |
| Examples.MissingNumber | busy_agent.py:65-80 | `Thought: x` gives no step |
| Examples.MissingColon | busy_agent.py:65-80 | `Thought 1 x` gives no step |
| Examples.SpelledNumber | busy_agent.py:65-80 | `Thought one: x` gives no step |
| Examples.EmptyLineEndsBody | busy_agent.py:65-80 | text after an empty line belongs to no step |
| Examples.SpaceLineContinuesBody | busy_agent.py:65-80 | a line holding only spaces continues the body: `Thought 1: a\n  \nb` gives one step with content `a\n  \nb` |
| Examples.SameLineHeader | busy_agent.py:65-80 | a second header on the same line is part of the first step's content |
| Examples.LeadingZeros | busy_agent.py:65-80 | `Action 007: go` is numbered 7 |

## Left out

- Loading the dataset with pandas from a parquet file, and choosing a row, at random or by index: file I/O through a library outside this model. `run` is modelled from the point where the trace text is in hand.
- `typewriter_print` and `loading_animation`: terminal output, sleeps and wall-clock time.
- The random delays in `print_step`: nondeterminism with nothing to state about it.
- The ANSI colour constants and all printed text, including the question, the final answer and the error message: presentation only. `Display.Run` records only whether `run` stops with an error or goes on to replay the steps.
- `main`'s argument parsing, its endless loop and its interrupt handling: command-line plumbing.
- TraceParser.Parse: does not model the `ValueError` Python's `int()` raises for a digit run longer than its conversion limit (4300 digits by default); the model returns the number for a run of any length.
- Text.IsSpace: only ASCII whitespace is modelled; the Unicode whitespace that Python's `\s` and `strip()` also accept is not.
- Text.IsDigit: only ASCII digits are modelled; the other Unicode decimal digits that Python's `\d` and `int()` accept are not.
- Text.Lower: only ASCII letters are lower-cased. The labels are ASCII, so this covers every `type` the parser produces.
- Display.Branch: says which branch runs; what that branch prints is left out as presentation.
