/** Worked traces: what the parser returns on the inputs its behaviour is
    usually explained with. Each trace is evaluated stage by stage: the
    header and body at each match, the scan, and the step records. */
module Examples {
  import opened Optional
  import opened Text
  import opened Steps
  import opened Scanner
  import FindIter
  import opened TraceParser

  // ---------------------------------------------------------------------------
  // The numbers read in the traces below

  lemma NumeralValue7()
    ensures AllDigits("7") && DecimalValue("7") == 7
  {
  }

  lemma NumeralValue1()
    ensures AllDigits("1") && DecimalValue("1") == 1
  {
  }

  lemma NumeralValue007()
    ensures AllDigits("007") && DecimalValue("007") == 7
  {
    assert "007" == "0" + "07";
    LeadingZeroIgnored("07");
    assert "07" == "0" + "7";
    LeadingZeroIgnored("7");
  }

  // ---------------------------------------------------------------------------

  lemma SingleObservationLabel0()
    ensures LabelOccursAt("Observation 7: X", 0, Observation)
  {
    assert "Observation 7: X"[0] == 'O' && "Observation 7: X"[1] == 'b' && "Observation 7: X"[2] == 's' && "Observation 7: X"[3] == 'e' && "Observation 7: X"[4] == 'r' && "Observation 7: X"[5] == 'v' && "Observation 7: X"[6] == 'a' && "Observation 7: X"[7] == 't' && "Observation 7: X"[8] == 'i' && "Observation 7: X"[9] == 'o' && "Observation 7: X"[10] == 'n';
    assert "Observation 7: X"[0..11] == "Observation";
  }

  lemma SingleObservationSpaces11()
    ensures SpaceEnd("Observation 7: X", 11) == 12
  {
  }

  lemma SingleObservationDigits12()
    ensures DigitEnd("Observation 7: X", 12) == 13
  {
  }

  lemma SingleObservationHeader0()
    ensures HeaderAt("Observation 7: X", 0) == Some(Header(Observation, 12, 13))
  {
    SingleObservationLabel0();
    SingleObservationSpaces11();
    SingleObservationDigits12();
    LabelAtComplete("Observation 7: X", 0, Observation);
    HeaderAtStages("Observation 7: X", 0, Observation, 12, 13);
  }

  lemma SingleObservationGap14()
    ensures SpaceEnd("Observation 7: X", 14) == 15
  {
  }

  lemma SingleObservationBodyStart13()
    ensures BodyStart("Observation 7: X", 13) == Some(15)
  {
    SingleObservationGap14();
  }

  lemma SingleObservationLine15()
    ensures LineEnd("Observation 7: X", 15) == 16
  {
  }

  lemma SingleObservationBodyEnd15()
    ensures BodyEnd("Observation 7: X", 15) == 16
  {
    SingleObservationLine15();
    BodyEndStops("Observation 7: X", 15);
  }

  lemma SingleObservationMatch0()
    ensures MatchAt("Observation 7: X", 0) == Some(Match(0, Header(Observation, 12, 13), 15, 16))
  {
    SingleObservationHeader0();
    SingleObservationBodyStart13();
    SingleObservationBodyEnd15();
    MatchAtStages("Observation 7: X", 0, Header(Observation, 12, 13), 15, 16);
  }

  lemma SingleObservationScan16(s: string)
    requires s == "Observation 7: X"
    ensures FindIter.Scan(Attempt(s), |s|, 16) == []
  {
    AttemptIsPattern(s);
  }

  lemma SingleObservationScan0(s: string)
    requires s == "Observation 7: X"
    ensures FindIter.Scan(Attempt(s), |s|, 0) == [Match(0, Header(Observation, 12, 13), 15, 16)]
  {
    AttemptIsPattern(s);
    SingleObservationMatch0();
    FindIter.ScanTakes(Attempt(s), |s|, 0, Match(0, Header(Observation, 12, 13), 15, 16));
    SingleObservationScan16(s);
  }

  lemma SingleObservationMatches(s: string)
    requires s == "Observation 7: X"
    ensures Matches(s) == [Match(0, Header(Observation, 12, 13), 15, 16)]
  {
    SingleObservationScan0(s);
  }

  lemma SingleObservationNumber0()
    ensures "Observation 7: X"[12..13] == "7"
  {
    assert "Observation 7: X"[12] == '7';
    assert "Observation 7: X"[12..13] == "7";
  }

  lemma SingleObservationBody0()
    ensures "Observation 7: X"[15..16] == "X"
  {
    assert "Observation 7: X"[15] == 'X';
    assert "Observation 7: X"[15..16] == "X";
  }

  lemma SingleObservationContent0()
    ensures Strip("X") == "X"
  {
    StripTrimmed("X");
  }

  lemma SingleObservationStep0(s: string)
    requires s == "Observation 7: X"
    ensures WellFormed(s, Match(0, Header(Observation, 12, 13), 15, 16)) && ToStep(s, Match(0, Header(Observation, 12, 13), 15, 16)) == Step(Observation, 7, "X")
  {
    SingleObservationNumber0(); SingleObservationBody0(); NumeralValue7(); SingleObservationContent0();
  }

  /** A single observation: its number is read as 7 and its content is the text after the colon. */
  lemma SingleObservation(s: string)
    requires s == "Observation 7: X"
    ensures Parse(s) == [Step(Observation, 7, "X")]
  {
    SingleObservationMatches(s); SingleObservationStep0(s);
    ParseOne(s, Match(0, Header(Observation, 12, 13), 15, 16), Step(Observation, 7, "X"));
  }

  // ---------------------------------------------------------------------------

  lemma ThoughtThenActionLabel0()
    ensures LabelOccursAt("Thought 1: A\nAction 1: B", 0, Thought)
  {
    assert "Thought 1: A\nAction 1: B"[0] == 'T' && "Thought 1: A\nAction 1: B"[1] == 'h' && "Thought 1: A\nAction 1: B"[2] == 'o' && "Thought 1: A\nAction 1: B"[3] == 'u' && "Thought 1: A\nAction 1: B"[4] == 'g' && "Thought 1: A\nAction 1: B"[5] == 'h' && "Thought 1: A\nAction 1: B"[6] == 't';
    assert "Thought 1: A\nAction 1: B"[0..7] == "Thought";
  }

  lemma ThoughtThenActionSpaces7()
    ensures SpaceEnd("Thought 1: A\nAction 1: B", 7) == 8
  {
  }

  lemma ThoughtThenActionDigits8()
    ensures DigitEnd("Thought 1: A\nAction 1: B", 8) == 9
  {
  }

  lemma ThoughtThenActionHeader0()
    ensures HeaderAt("Thought 1: A\nAction 1: B", 0) == Some(Header(Thought, 8, 9))
  {
    ThoughtThenActionLabel0();
    ThoughtThenActionSpaces7();
    ThoughtThenActionDigits8();
    LabelAtComplete("Thought 1: A\nAction 1: B", 0, Thought);
    HeaderAtStages("Thought 1: A\nAction 1: B", 0, Thought, 8, 9);
  }

  lemma ThoughtThenActionGap10()
    ensures SpaceEnd("Thought 1: A\nAction 1: B", 10) == 11
  {
  }

  lemma ThoughtThenActionBodyStart9()
    ensures BodyStart("Thought 1: A\nAction 1: B", 9) == Some(11)
  {
    ThoughtThenActionGap10();
  }

  lemma ThoughtThenActionLine11()
    ensures LineEnd("Thought 1: A\nAction 1: B", 11) == 12
  {
  }

  lemma ThoughtThenActionLabel13()
    ensures LabelOccursAt("Thought 1: A\nAction 1: B", 13, Action)
  {
    assert "Thought 1: A\nAction 1: B"[13] == 'A' && "Thought 1: A\nAction 1: B"[14] == 'c' && "Thought 1: A\nAction 1: B"[15] == 't' && "Thought 1: A\nAction 1: B"[16] == 'i' && "Thought 1: A\nAction 1: B"[17] == 'o' && "Thought 1: A\nAction 1: B"[18] == 'n';
    assert "Thought 1: A\nAction 1: B"[13..19] == "Action";
  }

  lemma ThoughtThenActionSpaces19()
    ensures SpaceEnd("Thought 1: A\nAction 1: B", 19) == 20
  {
  }

  lemma ThoughtThenActionDigits20()
    ensures DigitEnd("Thought 1: A\nAction 1: B", 20) == 21
  {
  }

  lemma ThoughtThenActionHeader13()
    ensures HeaderAt("Thought 1: A\nAction 1: B", 13) == Some(Header(Action, 20, 21))
  {
    ThoughtThenActionLabel13();
    ThoughtThenActionSpaces19();
    ThoughtThenActionDigits20();
    LabelAtComplete("Thought 1: A\nAction 1: B", 13, Action);
    HeaderAtStages("Thought 1: A\nAction 1: B", 13, Action, 20, 21);
  }

  lemma ThoughtThenActionBodyEnd11()
    ensures BodyEnd("Thought 1: A\nAction 1: B", 11) == 12
  {
    ThoughtThenActionLine11();
    ThoughtThenActionHeader13();
    ContinuationExact("Thought 1: A\nAction 1: B", 13);
    BodyEndStops("Thought 1: A\nAction 1: B", 11);
  }

  lemma ThoughtThenActionMatch0()
    ensures MatchAt("Thought 1: A\nAction 1: B", 0) == Some(Match(0, Header(Thought, 8, 9), 11, 12))
  {
    ThoughtThenActionHeader0();
    ThoughtThenActionBodyStart9();
    ThoughtThenActionBodyEnd11();
    MatchAtStages("Thought 1: A\nAction 1: B", 0, Header(Thought, 8, 9), 11, 12);
  }

  lemma ThoughtThenActionGap22()
    ensures SpaceEnd("Thought 1: A\nAction 1: B", 22) == 23
  {
  }

  lemma ThoughtThenActionBodyStart21()
    ensures BodyStart("Thought 1: A\nAction 1: B", 21) == Some(23)
  {
    ThoughtThenActionGap22();
  }

  lemma ThoughtThenActionLine23()
    ensures LineEnd("Thought 1: A\nAction 1: B", 23) == 24
  {
  }

  lemma ThoughtThenActionBodyEnd23()
    ensures BodyEnd("Thought 1: A\nAction 1: B", 23) == 24
  {
    ThoughtThenActionLine23();
    BodyEndStops("Thought 1: A\nAction 1: B", 23);
  }

  lemma ThoughtThenActionMatch1()
    ensures MatchAt("Thought 1: A\nAction 1: B", 13) == Some(Match(13, Header(Action, 20, 21), 23, 24))
  {
    ThoughtThenActionHeader13();
    ThoughtThenActionBodyStart21();
    ThoughtThenActionBodyEnd23();
    MatchAtStages("Thought 1: A\nAction 1: B", 13, Header(Action, 20, 21), 23, 24);
  }

  lemma ThoughtThenActionScan24(s: string)
    requires s == "Thought 1: A\nAction 1: B"
    ensures FindIter.Scan(Attempt(s), |s|, 24) == []
  {
    AttemptIsPattern(s);
  }

  lemma ThoughtThenActionScan13(s: string)
    requires s == "Thought 1: A\nAction 1: B"
    ensures FindIter.Scan(Attempt(s), |s|, 13) == [Match(13, Header(Action, 20, 21), 23, 24)]
  {
    AttemptIsPattern(s);
    ThoughtThenActionMatch1();
    FindIter.ScanTakes(Attempt(s), |s|, 13, Match(13, Header(Action, 20, 21), 23, 24));
    ThoughtThenActionScan24(s);
  }

  lemma ThoughtThenActionScan12(s: string)
    requires s == "Thought 1: A\nAction 1: B"
    ensures FindIter.Scan(Attempt(s), |s|, 12) == [Match(13, Header(Action, 20, 21), 23, 24)]
  {
    AttemptIsPattern(s);
    NoMatchWithoutLabel(s, 12);
    FindIter.ScanSkips(Attempt(s), |s|, 12);
    ThoughtThenActionScan13(s);
  }

  lemma ThoughtThenActionScan0(s: string)
    requires s == "Thought 1: A\nAction 1: B"
    ensures FindIter.Scan(Attempt(s), |s|, 0) == [Match(0, Header(Thought, 8, 9), 11, 12), Match(13, Header(Action, 20, 21), 23, 24)]
  {
    AttemptIsPattern(s);
    ThoughtThenActionMatch0();
    FindIter.ScanTakes(Attempt(s), |s|, 0, Match(0, Header(Thought, 8, 9), 11, 12));
    ThoughtThenActionScan12(s);
  }

  lemma ThoughtThenActionMatches(s: string)
    requires s == "Thought 1: A\nAction 1: B"
    ensures Matches(s) == [Match(0, Header(Thought, 8, 9), 11, 12), Match(13, Header(Action, 20, 21), 23, 24)]
  {
    ThoughtThenActionScan0(s);
  }

  lemma ThoughtThenActionNumber0()
    ensures "Thought 1: A\nAction 1: B"[8..9] == "1"
  {
    assert "Thought 1: A\nAction 1: B"[8] == '1';
    assert "Thought 1: A\nAction 1: B"[8..9] == "1";
  }

  lemma ThoughtThenActionBody0()
    ensures "Thought 1: A\nAction 1: B"[11..12] == "A"
  {
    assert "Thought 1: A\nAction 1: B"[11] == 'A';
    assert "Thought 1: A\nAction 1: B"[11..12] == "A";
  }

  lemma ThoughtThenActionContent0()
    ensures Strip("A") == "A"
  {
    StripTrimmed("A");
  }

  lemma ThoughtThenActionStep0(s: string)
    requires s == "Thought 1: A\nAction 1: B"
    ensures WellFormed(s, Match(0, Header(Thought, 8, 9), 11, 12)) && ToStep(s, Match(0, Header(Thought, 8, 9), 11, 12)) == Step(Thought, 1, "A")
  {
    ThoughtThenActionNumber0(); ThoughtThenActionBody0(); NumeralValue1(); ThoughtThenActionContent0();
  }

  lemma ThoughtThenActionNumber1()
    ensures "Thought 1: A\nAction 1: B"[20..21] == "1"
  {
    assert "Thought 1: A\nAction 1: B"[20] == '1';
    assert "Thought 1: A\nAction 1: B"[20..21] == "1";
  }

  lemma ThoughtThenActionBody1()
    ensures "Thought 1: A\nAction 1: B"[23..24] == "B"
  {
    assert "Thought 1: A\nAction 1: B"[23] == 'B';
    assert "Thought 1: A\nAction 1: B"[23..24] == "B";
  }

  lemma ThoughtThenActionContent1()
    ensures Strip("B") == "B"
  {
    StripTrimmed("B");
  }

  lemma ThoughtThenActionStep1(s: string)
    requires s == "Thought 1: A\nAction 1: B"
    ensures WellFormed(s, Match(13, Header(Action, 20, 21), 23, 24)) && ToStep(s, Match(13, Header(Action, 20, 21), 23, 24)) == Step(Action, 1, "B")
  {
    ThoughtThenActionNumber1(); ThoughtThenActionBody1(); NumeralValue1(); ThoughtThenActionContent1();
  }

  /** A header at the start of the next line ends the body before it: two steps. */
  lemma ThoughtThenAction(s: string)
    requires s == "Thought 1: A\nAction 1: B"
    ensures Parse(s) == [Step(Thought, 1, "A"), Step(Action, 1, "B")]
  {
    ThoughtThenActionMatches(s); ThoughtThenActionStep0(s); ThoughtThenActionStep1(s);
    ParseTwo(s, Match(0, Header(Thought, 8, 9), 11, 12), Match(13, Header(Action, 20, 21), 23, 24), Step(Thought, 1, "A"), Step(Action, 1, "B"));
  }

  // ---------------------------------------------------------------------------

  lemma MultiLineThoughtLabel0()
    ensures LabelOccursAt("Thought 1: a\nb\nAction 1: c", 0, Thought)
  {
    assert "Thought 1: a\nb\nAction 1: c"[0] == 'T' && "Thought 1: a\nb\nAction 1: c"[1] == 'h' && "Thought 1: a\nb\nAction 1: c"[2] == 'o' && "Thought 1: a\nb\nAction 1: c"[3] == 'u' && "Thought 1: a\nb\nAction 1: c"[4] == 'g' && "Thought 1: a\nb\nAction 1: c"[5] == 'h' && "Thought 1: a\nb\nAction 1: c"[6] == 't';
    assert "Thought 1: a\nb\nAction 1: c"[0..7] == "Thought";
  }

  lemma MultiLineThoughtSpaces7()
    ensures SpaceEnd("Thought 1: a\nb\nAction 1: c", 7) == 8
  {
  }

  lemma MultiLineThoughtDigits8()
    ensures DigitEnd("Thought 1: a\nb\nAction 1: c", 8) == 9
  {
  }

  lemma MultiLineThoughtHeader0()
    ensures HeaderAt("Thought 1: a\nb\nAction 1: c", 0) == Some(Header(Thought, 8, 9))
  {
    MultiLineThoughtLabel0();
    MultiLineThoughtSpaces7();
    MultiLineThoughtDigits8();
    LabelAtComplete("Thought 1: a\nb\nAction 1: c", 0, Thought);
    HeaderAtStages("Thought 1: a\nb\nAction 1: c", 0, Thought, 8, 9);
  }

  lemma MultiLineThoughtGap10()
    ensures SpaceEnd("Thought 1: a\nb\nAction 1: c", 10) == 11
  {
  }

  lemma MultiLineThoughtBodyStart9()
    ensures BodyStart("Thought 1: a\nb\nAction 1: c", 9) == Some(11)
  {
    MultiLineThoughtGap10();
  }

  lemma MultiLineThoughtLine11()
    ensures LineEnd("Thought 1: a\nb\nAction 1: c", 11) == 12
  {
  }

  lemma MultiLineThoughtLine13()
    ensures LineEnd("Thought 1: a\nb\nAction 1: c", 13) == 14
  {
  }

  lemma MultiLineThoughtLabel15()
    ensures LabelOccursAt("Thought 1: a\nb\nAction 1: c", 15, Action)
  {
    assert "Thought 1: a\nb\nAction 1: c"[15] == 'A' && "Thought 1: a\nb\nAction 1: c"[16] == 'c' && "Thought 1: a\nb\nAction 1: c"[17] == 't' && "Thought 1: a\nb\nAction 1: c"[18] == 'i' && "Thought 1: a\nb\nAction 1: c"[19] == 'o' && "Thought 1: a\nb\nAction 1: c"[20] == 'n';
    assert "Thought 1: a\nb\nAction 1: c"[15..21] == "Action";
  }

  lemma MultiLineThoughtSpaces21()
    ensures SpaceEnd("Thought 1: a\nb\nAction 1: c", 21) == 22
  {
  }

  lemma MultiLineThoughtDigits22()
    ensures DigitEnd("Thought 1: a\nb\nAction 1: c", 22) == 23
  {
  }

  lemma MultiLineThoughtHeader15()
    ensures HeaderAt("Thought 1: a\nb\nAction 1: c", 15) == Some(Header(Action, 22, 23))
  {
    MultiLineThoughtLabel15();
    MultiLineThoughtSpaces21();
    MultiLineThoughtDigits22();
    LabelAtComplete("Thought 1: a\nb\nAction 1: c", 15, Action);
    HeaderAtStages("Thought 1: a\nb\nAction 1: c", 15, Action, 22, 23);
  }

  lemma MultiLineThoughtBodyEnd13()
    ensures BodyEnd("Thought 1: a\nb\nAction 1: c", 13) == 14
  {
    MultiLineThoughtLine13();
    MultiLineThoughtHeader15();
    ContinuationExact("Thought 1: a\nb\nAction 1: c", 15);
    BodyEndStops("Thought 1: a\nb\nAction 1: c", 13);
  }

  lemma MultiLineThoughtBodyEnd11()
    ensures BodyEnd("Thought 1: a\nb\nAction 1: c", 11) == 14
  {
    MultiLineThoughtLine11();
    NoMatchWithoutLabel("Thought 1: a\nb\nAction 1: c", 13);
    ContinuationExact("Thought 1: a\nb\nAction 1: c", 13);
    MultiLineThoughtBodyEnd13();
    BodyEndContinues("Thought 1: a\nb\nAction 1: c", 11, 14);
  }

  lemma MultiLineThoughtMatch0()
    ensures MatchAt("Thought 1: a\nb\nAction 1: c", 0) == Some(Match(0, Header(Thought, 8, 9), 11, 14))
  {
    MultiLineThoughtHeader0();
    MultiLineThoughtBodyStart9();
    MultiLineThoughtBodyEnd11();
    MatchAtStages("Thought 1: a\nb\nAction 1: c", 0, Header(Thought, 8, 9), 11, 14);
  }

  lemma MultiLineThoughtGap24()
    ensures SpaceEnd("Thought 1: a\nb\nAction 1: c", 24) == 25
  {
  }

  lemma MultiLineThoughtBodyStart23()
    ensures BodyStart("Thought 1: a\nb\nAction 1: c", 23) == Some(25)
  {
    MultiLineThoughtGap24();
  }

  lemma MultiLineThoughtLine25()
    ensures LineEnd("Thought 1: a\nb\nAction 1: c", 25) == 26
  {
  }

  lemma MultiLineThoughtBodyEnd25()
    ensures BodyEnd("Thought 1: a\nb\nAction 1: c", 25) == 26
  {
    MultiLineThoughtLine25();
    BodyEndStops("Thought 1: a\nb\nAction 1: c", 25);
  }

  lemma MultiLineThoughtMatch1()
    ensures MatchAt("Thought 1: a\nb\nAction 1: c", 15) == Some(Match(15, Header(Action, 22, 23), 25, 26))
  {
    MultiLineThoughtHeader15();
    MultiLineThoughtBodyStart23();
    MultiLineThoughtBodyEnd25();
    MatchAtStages("Thought 1: a\nb\nAction 1: c", 15, Header(Action, 22, 23), 25, 26);
  }

  lemma MultiLineThoughtScan26(s: string)
    requires s == "Thought 1: a\nb\nAction 1: c"
    ensures FindIter.Scan(Attempt(s), |s|, 26) == []
  {
    AttemptIsPattern(s);
  }

  lemma MultiLineThoughtScan15(s: string)
    requires s == "Thought 1: a\nb\nAction 1: c"
    ensures FindIter.Scan(Attempt(s), |s|, 15) == [Match(15, Header(Action, 22, 23), 25, 26)]
  {
    AttemptIsPattern(s);
    MultiLineThoughtMatch1();
    FindIter.ScanTakes(Attempt(s), |s|, 15, Match(15, Header(Action, 22, 23), 25, 26));
    MultiLineThoughtScan26(s);
  }

  lemma MultiLineThoughtScan14(s: string)
    requires s == "Thought 1: a\nb\nAction 1: c"
    ensures FindIter.Scan(Attempt(s), |s|, 14) == [Match(15, Header(Action, 22, 23), 25, 26)]
  {
    AttemptIsPattern(s);
    NoMatchWithoutLabel(s, 14);
    FindIter.ScanSkips(Attempt(s), |s|, 14);
    MultiLineThoughtScan15(s);
  }

  lemma MultiLineThoughtScan0(s: string)
    requires s == "Thought 1: a\nb\nAction 1: c"
    ensures FindIter.Scan(Attempt(s), |s|, 0) == [Match(0, Header(Thought, 8, 9), 11, 14), Match(15, Header(Action, 22, 23), 25, 26)]
  {
    AttemptIsPattern(s);
    MultiLineThoughtMatch0();
    FindIter.ScanTakes(Attempt(s), |s|, 0, Match(0, Header(Thought, 8, 9), 11, 14));
    MultiLineThoughtScan14(s);
  }

  lemma MultiLineThoughtMatches(s: string)
    requires s == "Thought 1: a\nb\nAction 1: c"
    ensures Matches(s) == [Match(0, Header(Thought, 8, 9), 11, 14), Match(15, Header(Action, 22, 23), 25, 26)]
  {
    MultiLineThoughtScan0(s);
  }

  lemma MultiLineThoughtNumber0()
    ensures "Thought 1: a\nb\nAction 1: c"[8..9] == "1"
  {
    assert "Thought 1: a\nb\nAction 1: c"[8] == '1';
    assert "Thought 1: a\nb\nAction 1: c"[8..9] == "1";
  }

  lemma MultiLineThoughtBody0()
    ensures "Thought 1: a\nb\nAction 1: c"[11..14] == "a\nb"
  {
    assert "Thought 1: a\nb\nAction 1: c"[11] == 'a' && "Thought 1: a\nb\nAction 1: c"[12] == '\n' && "Thought 1: a\nb\nAction 1: c"[13] == 'b';
    assert "Thought 1: a\nb\nAction 1: c"[11..14] == "a\nb";
  }

  lemma MultiLineThoughtContent0()
    ensures Strip("a\nb") == "a\nb"
  {
    StripTrimmed("a\nb");
  }

  lemma MultiLineThoughtStep0(s: string)
    requires s == "Thought 1: a\nb\nAction 1: c"
    ensures WellFormed(s, Match(0, Header(Thought, 8, 9), 11, 14)) && ToStep(s, Match(0, Header(Thought, 8, 9), 11, 14)) == Step(Thought, 1, "a\nb")
  {
    MultiLineThoughtNumber0(); MultiLineThoughtBody0(); NumeralValue1(); MultiLineThoughtContent0();
  }

  lemma MultiLineThoughtNumber1()
    ensures "Thought 1: a\nb\nAction 1: c"[22..23] == "1"
  {
    assert "Thought 1: a\nb\nAction 1: c"[22] == '1';
    assert "Thought 1: a\nb\nAction 1: c"[22..23] == "1";
  }

  lemma MultiLineThoughtBody1()
    ensures "Thought 1: a\nb\nAction 1: c"[25..26] == "c"
  {
    assert "Thought 1: a\nb\nAction 1: c"[25] == 'c';
    assert "Thought 1: a\nb\nAction 1: c"[25..26] == "c";
  }

  lemma MultiLineThoughtContent1()
    ensures Strip("c") == "c"
  {
    StripTrimmed("c");
  }

  lemma MultiLineThoughtStep1(s: string)
    requires s == "Thought 1: a\nb\nAction 1: c"
    ensures WellFormed(s, Match(15, Header(Action, 22, 23), 25, 26)) && ToStep(s, Match(15, Header(Action, 22, 23), 25, 26)) == Step(Action, 1, "c")
  {
    MultiLineThoughtNumber1(); MultiLineThoughtBody1(); NumeralValue1(); MultiLineThoughtContent1();
  }

  /** A line that does not begin with a header continues the body before it. */
  lemma MultiLineThought(s: string)
    requires s == "Thought 1: a\nb\nAction 1: c"
    ensures Parse(s) == [Step(Thought, 1, "a\nb"), Step(Action, 1, "c")]
  {
    MultiLineThoughtMatches(s); MultiLineThoughtStep0(s); MultiLineThoughtStep1(s);
    ParseTwo(s, Match(0, Header(Thought, 8, 9), 11, 14), Match(15, Header(Action, 22, 23), 25, 26), Step(Thought, 1, "a\nb"), Step(Action, 1, "c"));
  }

  // ---------------------------------------------------------------------------

  lemma EmptyHeaderSwallowsNextLabel0()
    ensures LabelOccursAt("Thought 1:\nAction 1: x", 0, Thought)
  {
    assert "Thought 1:\nAction 1: x"[0] == 'T' && "Thought 1:\nAction 1: x"[1] == 'h' && "Thought 1:\nAction 1: x"[2] == 'o' && "Thought 1:\nAction 1: x"[3] == 'u' && "Thought 1:\nAction 1: x"[4] == 'g' && "Thought 1:\nAction 1: x"[5] == 'h' && "Thought 1:\nAction 1: x"[6] == 't';
    assert "Thought 1:\nAction 1: x"[0..7] == "Thought";
  }

  lemma EmptyHeaderSwallowsNextSpaces7()
    ensures SpaceEnd("Thought 1:\nAction 1: x", 7) == 8
  {
  }

  lemma EmptyHeaderSwallowsNextDigits8()
    ensures DigitEnd("Thought 1:\nAction 1: x", 8) == 9
  {
  }

  lemma EmptyHeaderSwallowsNextHeader0()
    ensures HeaderAt("Thought 1:\nAction 1: x", 0) == Some(Header(Thought, 8, 9))
  {
    EmptyHeaderSwallowsNextLabel0();
    EmptyHeaderSwallowsNextSpaces7();
    EmptyHeaderSwallowsNextDigits8();
    LabelAtComplete("Thought 1:\nAction 1: x", 0, Thought);
    HeaderAtStages("Thought 1:\nAction 1: x", 0, Thought, 8, 9);
  }

  lemma EmptyHeaderSwallowsNextGap10()
    ensures SpaceEnd("Thought 1:\nAction 1: x", 10) == 11
  {
  }

  lemma EmptyHeaderSwallowsNextBodyStart9()
    ensures BodyStart("Thought 1:\nAction 1: x", 9) == Some(11)
  {
    EmptyHeaderSwallowsNextGap10();
  }

  lemma EmptyHeaderSwallowsNextLine11()
    ensures LineEnd("Thought 1:\nAction 1: x", 11) == 22
  {
  }

  lemma EmptyHeaderSwallowsNextBodyEnd11()
    ensures BodyEnd("Thought 1:\nAction 1: x", 11) == 22
  {
    EmptyHeaderSwallowsNextLine11();
    BodyEndStops("Thought 1:\nAction 1: x", 11);
  }

  lemma EmptyHeaderSwallowsNextMatch0()
    ensures MatchAt("Thought 1:\nAction 1: x", 0) == Some(Match(0, Header(Thought, 8, 9), 11, 22))
  {
    EmptyHeaderSwallowsNextHeader0();
    EmptyHeaderSwallowsNextBodyStart9();
    EmptyHeaderSwallowsNextBodyEnd11();
    MatchAtStages("Thought 1:\nAction 1: x", 0, Header(Thought, 8, 9), 11, 22);
  }

  lemma EmptyHeaderSwallowsNextScan22(s: string)
    requires s == "Thought 1:\nAction 1: x"
    ensures FindIter.Scan(Attempt(s), |s|, 22) == []
  {
    AttemptIsPattern(s);
  }

  lemma EmptyHeaderSwallowsNextScan0(s: string)
    requires s == "Thought 1:\nAction 1: x"
    ensures FindIter.Scan(Attempt(s), |s|, 0) == [Match(0, Header(Thought, 8, 9), 11, 22)]
  {
    AttemptIsPattern(s);
    EmptyHeaderSwallowsNextMatch0();
    FindIter.ScanTakes(Attempt(s), |s|, 0, Match(0, Header(Thought, 8, 9), 11, 22));
    EmptyHeaderSwallowsNextScan22(s);
  }

  lemma EmptyHeaderSwallowsNextMatches(s: string)
    requires s == "Thought 1:\nAction 1: x"
    ensures Matches(s) == [Match(0, Header(Thought, 8, 9), 11, 22)]
  {
    EmptyHeaderSwallowsNextScan0(s);
  }

  lemma EmptyHeaderSwallowsNextNumber0()
    ensures "Thought 1:\nAction 1: x"[8..9] == "1"
  {
    assert "Thought 1:\nAction 1: x"[8] == '1';
    assert "Thought 1:\nAction 1: x"[8..9] == "1";
  }

  lemma EmptyHeaderSwallowsNextBody0()
    ensures "Thought 1:\nAction 1: x"[11..22] == "Action 1: x"
  {
    assert "Thought 1:\nAction 1: x"[11] == 'A' && "Thought 1:\nAction 1: x"[12] == 'c' && "Thought 1:\nAction 1: x"[13] == 't' && "Thought 1:\nAction 1: x"[14] == 'i' && "Thought 1:\nAction 1: x"[15] == 'o' && "Thought 1:\nAction 1: x"[16] == 'n' && "Thought 1:\nAction 1: x"[17] == ' ' && "Thought 1:\nAction 1: x"[18] == '1' && "Thought 1:\nAction 1: x"[19] == ':' && "Thought 1:\nAction 1: x"[20] == ' ' && "Thought 1:\nAction 1: x"[21] == 'x';
    assert "Thought 1:\nAction 1: x"[11..22] == "Action 1: x";
  }

  lemma EmptyHeaderSwallowsNextContent0()
    ensures Strip("Action 1: x") == "Action 1: x"
  {
    StripTrimmed("Action 1: x");
  }

  lemma EmptyHeaderSwallowsNextStep0(s: string)
    requires s == "Thought 1:\nAction 1: x"
    ensures WellFormed(s, Match(0, Header(Thought, 8, 9), 11, 22)) && ToStep(s, Match(0, Header(Thought, 8, 9), 11, 22)) == Step(Thought, 1, "Action 1: x")
  {
    EmptyHeaderSwallowsNextNumber0(); EmptyHeaderSwallowsNextBody0(); NumeralValue1(); EmptyHeaderSwallowsNextContent0();
  }

  /** A header with nothing after its colon takes the next line as its content, even when that line is a header: one step. */
  lemma EmptyHeaderSwallowsNext(s: string)
    requires s == "Thought 1:\nAction 1: x"
    ensures Parse(s) == [Step(Thought, 1, "Action 1: x")]
  {
    EmptyHeaderSwallowsNextMatches(s); EmptyHeaderSwallowsNextStep0(s);
    ParseOne(s, Match(0, Header(Thought, 8, 9), 11, 22), Step(Thought, 1, "Action 1: x"));
  }

  // ---------------------------------------------------------------------------

  lemma TrailingHeaderLabel0()
    ensures LabelOccursAt("Thought 1:  ", 0, Thought)
  {
    assert "Thought 1:  "[0] == 'T' && "Thought 1:  "[1] == 'h' && "Thought 1:  "[2] == 'o' && "Thought 1:  "[3] == 'u' && "Thought 1:  "[4] == 'g' && "Thought 1:  "[5] == 'h' && "Thought 1:  "[6] == 't';
    assert "Thought 1:  "[0..7] == "Thought";
  }

  lemma TrailingHeaderSpaces7()
    ensures SpaceEnd("Thought 1:  ", 7) == 8
  {
  }

  lemma TrailingHeaderDigits8()
    ensures DigitEnd("Thought 1:  ", 8) == 9
  {
  }

  lemma TrailingHeaderHeader0()
    ensures HeaderAt("Thought 1:  ", 0) == Some(Header(Thought, 8, 9))
  {
    TrailingHeaderLabel0();
    TrailingHeaderSpaces7();
    TrailingHeaderDigits8();
    LabelAtComplete("Thought 1:  ", 0, Thought);
    HeaderAtStages("Thought 1:  ", 0, Thought, 8, 9);
  }

  lemma TrailingHeaderGap10()
    ensures SpaceEnd("Thought 1:  ", 10) == 12
  {
  }

  lemma TrailingHeaderLastText10()
    ensures LastNonNewline("Thought 1:  ", 10, 12) == Some(11)
  {
  }

  lemma TrailingHeaderBodyStart9()
    ensures BodyStart("Thought 1:  ", 9) == Some(11)
  {
    TrailingHeaderGap10();
    TrailingHeaderLastText10();
  }

  lemma TrailingHeaderLine11()
    ensures LineEnd("Thought 1:  ", 11) == 12
  {
  }

  lemma TrailingHeaderBodyEnd11()
    ensures BodyEnd("Thought 1:  ", 11) == 12
  {
    TrailingHeaderLine11();
    BodyEndStops("Thought 1:  ", 11);
  }

  lemma TrailingHeaderMatch0()
    ensures MatchAt("Thought 1:  ", 0) == Some(Match(0, Header(Thought, 8, 9), 11, 12))
  {
    TrailingHeaderHeader0();
    TrailingHeaderBodyStart9();
    TrailingHeaderBodyEnd11();
    MatchAtStages("Thought 1:  ", 0, Header(Thought, 8, 9), 11, 12);
  }

  lemma TrailingHeaderScan12(s: string)
    requires s == "Thought 1:  "
    ensures FindIter.Scan(Attempt(s), |s|, 12) == []
  {
    AttemptIsPattern(s);
  }

  lemma TrailingHeaderScan0(s: string)
    requires s == "Thought 1:  "
    ensures FindIter.Scan(Attempt(s), |s|, 0) == [Match(0, Header(Thought, 8, 9), 11, 12)]
  {
    AttemptIsPattern(s);
    TrailingHeaderMatch0();
    FindIter.ScanTakes(Attempt(s), |s|, 0, Match(0, Header(Thought, 8, 9), 11, 12));
    TrailingHeaderScan12(s);
  }

  lemma TrailingHeaderMatches(s: string)
    requires s == "Thought 1:  "
    ensures Matches(s) == [Match(0, Header(Thought, 8, 9), 11, 12)]
  {
    TrailingHeaderScan0(s);
  }

  lemma TrailingHeaderNumber0()
    ensures "Thought 1:  "[8..9] == "1"
  {
    assert "Thought 1:  "[8] == '1';
    assert "Thought 1:  "[8..9] == "1";
  }

  lemma TrailingHeaderBody0()
    ensures "Thought 1:  "[11..12] == " "
  {
    assert "Thought 1:  "[11] == ' ';
    assert "Thought 1:  "[11..12] == " ";
  }

  lemma TrailingHeaderContent0()
    ensures Strip(" ") == ""
  {
    assert " "[..0] == "" && " "[0..0] == "" && " "[0..] == " ";
    StripUnique(" ", 0, "");
  }

  lemma TrailingHeaderStep0(s: string)
    requires s == "Thought 1:  "
    ensures WellFormed(s, Match(0, Header(Thought, 8, 9), 11, 12)) && ToStep(s, Match(0, Header(Thought, 8, 9), 11, 12)) == Step(Thought, 1, "")
  {
    TrailingHeaderNumber0(); TrailingHeaderBody0(); NumeralValue1(); TrailingHeaderContent0();
  }

  /** A header followed only by whitespace at the end of input gives a step with empty content. */
  lemma TrailingHeader(s: string)
    requires s == "Thought 1:  "
    ensures Parse(s) == [Step(Thought, 1, "")]
  {
    TrailingHeaderMatches(s); TrailingHeaderStep0(s);
    ParseOne(s, Match(0, Header(Thought, 8, 9), 11, 12), Step(Thought, 1, ""));
  }

  // ---------------------------------------------------------------------------

  lemma MissingNumberLabel0()
    ensures LabelOccursAt("Thought: x", 0, Thought)
  {
    assert "Thought: x"[0] == 'T' && "Thought: x"[1] == 'h' && "Thought: x"[2] == 'o' && "Thought: x"[3] == 'u' && "Thought: x"[4] == 'g' && "Thought: x"[5] == 'h' && "Thought: x"[6] == 't';
    assert "Thought: x"[0..7] == "Thought";
  }

  lemma MissingNumberSpaces7()
    ensures SpaceEnd("Thought: x", 7) == 7
  {
  }

  lemma MissingNumberDigits7()
    ensures DigitEnd("Thought: x", 7) == 7
  {
  }

  lemma MissingNumberHeader0()
    ensures HeaderAt("Thought: x", 0).None? && MatchAt("Thought: x", 0).None?
  {
    MissingNumberLabel0();
    MissingNumberSpaces7();
    MissingNumberDigits7();
    LabelAtComplete("Thought: x", 0, Thought);
  }

  lemma MissingNumberFree1(s: string)
    requires s == "Thought: x"
    ensures 'T' !in s[1..] && 'A' !in s[1..] && 'O' !in s[1..]
  {
  }

  lemma MissingNumberScan1(s: string)
    requires s == "Thought: x"
    ensures FindIter.Scan(Attempt(s), |s|, 1) == []
  {
    AttemptIsPattern(s);
    MissingNumberFree1(s);
    ScanLabelFree(s, 1);
  }

  lemma MissingNumberScan0(s: string)
    requires s == "Thought: x"
    ensures FindIter.Scan(Attempt(s), |s|, 0) == []
  {
    AttemptIsPattern(s);
    MissingNumberHeader0();
    FindIter.ScanSkips(Attempt(s), |s|, 0);
    MissingNumberScan1(s);
  }

  lemma MissingNumberMatches(s: string)
    requires s == "Thought: x"
    ensures Matches(s) == []
  {
    MissingNumberScan0(s);
  }

  /** Without a number there is no step. */
  lemma MissingNumber(s: string)
    requires s == "Thought: x"
    ensures Parse(s) == []
  {
    MissingNumberMatches(s);
    assert |Parse(s)| == 0;
  }

  // ---------------------------------------------------------------------------

  lemma MissingColonLabel0()
    ensures LabelOccursAt("Thought 1 x", 0, Thought)
  {
    assert "Thought 1 x"[0] == 'T' && "Thought 1 x"[1] == 'h' && "Thought 1 x"[2] == 'o' && "Thought 1 x"[3] == 'u' && "Thought 1 x"[4] == 'g' && "Thought 1 x"[5] == 'h' && "Thought 1 x"[6] == 't';
    assert "Thought 1 x"[0..7] == "Thought";
  }

  lemma MissingColonSpaces7()
    ensures SpaceEnd("Thought 1 x", 7) == 8
  {
  }

  lemma MissingColonDigits8()
    ensures DigitEnd("Thought 1 x", 8) == 9
  {
  }

  lemma MissingColonHeader0()
    ensures HeaderAt("Thought 1 x", 0).None? && MatchAt("Thought 1 x", 0).None?
  {
    MissingColonLabel0();
    MissingColonSpaces7();
    MissingColonDigits8();
    LabelAtComplete("Thought 1 x", 0, Thought);
  }

  lemma MissingColonFree1(s: string)
    requires s == "Thought 1 x"
    ensures 'T' !in s[1..] && 'A' !in s[1..] && 'O' !in s[1..]
  {
  }

  lemma MissingColonScan1(s: string)
    requires s == "Thought 1 x"
    ensures FindIter.Scan(Attempt(s), |s|, 1) == []
  {
    AttemptIsPattern(s);
    MissingColonFree1(s);
    ScanLabelFree(s, 1);
  }

  lemma MissingColonScan0(s: string)
    requires s == "Thought 1 x"
    ensures FindIter.Scan(Attempt(s), |s|, 0) == []
  {
    AttemptIsPattern(s);
    MissingColonHeader0();
    FindIter.ScanSkips(Attempt(s), |s|, 0);
    MissingColonScan1(s);
  }

  lemma MissingColonMatches(s: string)
    requires s == "Thought 1 x"
    ensures Matches(s) == []
  {
    MissingColonScan0(s);
  }

  /** Without a colon there is no step. */
  lemma MissingColon(s: string)
    requires s == "Thought 1 x"
    ensures Parse(s) == []
  {
    MissingColonMatches(s);
    assert |Parse(s)| == 0;
  }

  // ---------------------------------------------------------------------------

  lemma SpelledNumberLabel0()
    ensures LabelOccursAt("Thought one: x", 0, Thought)
  {
    assert "Thought one: x"[0] == 'T' && "Thought one: x"[1] == 'h' && "Thought one: x"[2] == 'o' && "Thought one: x"[3] == 'u' && "Thought one: x"[4] == 'g' && "Thought one: x"[5] == 'h' && "Thought one: x"[6] == 't';
    assert "Thought one: x"[0..7] == "Thought";
  }

  lemma SpelledNumberSpaces7()
    ensures SpaceEnd("Thought one: x", 7) == 8
  {
  }

  lemma SpelledNumberDigits8()
    ensures DigitEnd("Thought one: x", 8) == 8
  {
  }

  lemma SpelledNumberHeader0()
    ensures HeaderAt("Thought one: x", 0).None? && MatchAt("Thought one: x", 0).None?
  {
    SpelledNumberLabel0();
    SpelledNumberSpaces7();
    SpelledNumberDigits8();
    LabelAtComplete("Thought one: x", 0, Thought);
  }

  lemma SpelledNumberFree1(s: string)
    requires s == "Thought one: x"
    ensures 'T' !in s[1..] && 'A' !in s[1..] && 'O' !in s[1..]
  {
  }

  lemma SpelledNumberScan1(s: string)
    requires s == "Thought one: x"
    ensures FindIter.Scan(Attempt(s), |s|, 1) == []
  {
    AttemptIsPattern(s);
    SpelledNumberFree1(s);
    ScanLabelFree(s, 1);
  }

  lemma SpelledNumberScan0(s: string)
    requires s == "Thought one: x"
    ensures FindIter.Scan(Attempt(s), |s|, 0) == []
  {
    AttemptIsPattern(s);
    SpelledNumberHeader0();
    FindIter.ScanSkips(Attempt(s), |s|, 0);
    SpelledNumberScan1(s);
  }

  lemma SpelledNumberMatches(s: string)
    requires s == "Thought one: x"
    ensures Matches(s) == []
  {
    SpelledNumberScan0(s);
  }

  /** A number written in words is not a number: no step. */
  lemma SpelledNumber(s: string)
    requires s == "Thought one: x"
    ensures Parse(s) == []
  {
    SpelledNumberMatches(s);
    assert |Parse(s)| == 0;
  }

  // ---------------------------------------------------------------------------

  lemma EmptyLineEndsBodyLabel0()
    ensures LabelOccursAt("Thought 1: a\n\nb", 0, Thought)
  {
    assert "Thought 1: a\n\nb"[0] == 'T' && "Thought 1: a\n\nb"[1] == 'h' && "Thought 1: a\n\nb"[2] == 'o' && "Thought 1: a\n\nb"[3] == 'u' && "Thought 1: a\n\nb"[4] == 'g' && "Thought 1: a\n\nb"[5] == 'h' && "Thought 1: a\n\nb"[6] == 't';
    assert "Thought 1: a\n\nb"[0..7] == "Thought";
  }

  lemma EmptyLineEndsBodySpaces7()
    ensures SpaceEnd("Thought 1: a\n\nb", 7) == 8
  {
  }

  lemma EmptyLineEndsBodyDigits8()
    ensures DigitEnd("Thought 1: a\n\nb", 8) == 9
  {
  }

  lemma EmptyLineEndsBodyHeader0()
    ensures HeaderAt("Thought 1: a\n\nb", 0) == Some(Header(Thought, 8, 9))
  {
    EmptyLineEndsBodyLabel0();
    EmptyLineEndsBodySpaces7();
    EmptyLineEndsBodyDigits8();
    LabelAtComplete("Thought 1: a\n\nb", 0, Thought);
    HeaderAtStages("Thought 1: a\n\nb", 0, Thought, 8, 9);
  }

  lemma EmptyLineEndsBodyGap10()
    ensures SpaceEnd("Thought 1: a\n\nb", 10) == 11
  {
  }

  lemma EmptyLineEndsBodyBodyStart9()
    ensures BodyStart("Thought 1: a\n\nb", 9) == Some(11)
  {
    EmptyLineEndsBodyGap10();
  }

  lemma EmptyLineEndsBodyLine11()
    ensures LineEnd("Thought 1: a\n\nb", 11) == 12
  {
  }

  lemma EmptyLineEndsBodyBodyEnd11()
    ensures BodyEnd("Thought 1: a\n\nb", 11) == 12
  {
    EmptyLineEndsBodyLine11();
    BodyEndStops("Thought 1: a\n\nb", 11);
  }

  lemma EmptyLineEndsBodyMatch0()
    ensures MatchAt("Thought 1: a\n\nb", 0) == Some(Match(0, Header(Thought, 8, 9), 11, 12))
  {
    EmptyLineEndsBodyHeader0();
    EmptyLineEndsBodyBodyStart9();
    EmptyLineEndsBodyBodyEnd11();
    MatchAtStages("Thought 1: a\n\nb", 0, Header(Thought, 8, 9), 11, 12);
  }

  lemma EmptyLineEndsBodyFree12(s: string)
    requires s == "Thought 1: a\n\nb"
    ensures 'T' !in s[12..] && 'A' !in s[12..] && 'O' !in s[12..]
  {
  }

  lemma EmptyLineEndsBodyScan12(s: string)
    requires s == "Thought 1: a\n\nb"
    ensures FindIter.Scan(Attempt(s), |s|, 12) == []
  {
    AttemptIsPattern(s);
    EmptyLineEndsBodyFree12(s);
    ScanLabelFree(s, 12);
  }

  lemma EmptyLineEndsBodyScan0(s: string)
    requires s == "Thought 1: a\n\nb"
    ensures FindIter.Scan(Attempt(s), |s|, 0) == [Match(0, Header(Thought, 8, 9), 11, 12)]
  {
    AttemptIsPattern(s);
    EmptyLineEndsBodyMatch0();
    FindIter.ScanTakes(Attempt(s), |s|, 0, Match(0, Header(Thought, 8, 9), 11, 12));
    EmptyLineEndsBodyScan12(s);
  }

  lemma EmptyLineEndsBodyMatches(s: string)
    requires s == "Thought 1: a\n\nb"
    ensures Matches(s) == [Match(0, Header(Thought, 8, 9), 11, 12)]
  {
    EmptyLineEndsBodyScan0(s);
  }

  lemma EmptyLineEndsBodyNumber0()
    ensures "Thought 1: a\n\nb"[8..9] == "1"
  {
    assert "Thought 1: a\n\nb"[8] == '1';
    assert "Thought 1: a\n\nb"[8..9] == "1";
  }

  lemma EmptyLineEndsBodyBody0()
    ensures "Thought 1: a\n\nb"[11..12] == "a"
  {
    assert "Thought 1: a\n\nb"[11] == 'a';
    assert "Thought 1: a\n\nb"[11..12] == "a";
  }

  lemma EmptyLineEndsBodyContent0()
    ensures Strip("a") == "a"
  {
    StripTrimmed("a");
  }

  lemma EmptyLineEndsBodyStep0(s: string)
    requires s == "Thought 1: a\n\nb"
    ensures WellFormed(s, Match(0, Header(Thought, 8, 9), 11, 12)) && ToStep(s, Match(0, Header(Thought, 8, 9), 11, 12)) == Step(Thought, 1, "a")
  {
    EmptyLineEndsBodyNumber0(); EmptyLineEndsBodyBody0(); NumeralValue1(); EmptyLineEndsBodyContent0();
  }

  /** An empty line ends a body; the text after it belongs to no step. */
  lemma EmptyLineEndsBody(s: string)
    requires s == "Thought 1: a\n\nb"
    ensures Parse(s) == [Step(Thought, 1, "a")]
  {
    EmptyLineEndsBodyMatches(s); EmptyLineEndsBodyStep0(s);
    ParseOne(s, Match(0, Header(Thought, 8, 9), 11, 12), Step(Thought, 1, "a"));
  }

  // ---------------------------------------------------------------------------

  lemma SpaceLineContinuesBodyLabel0()
    ensures LabelOccursAt("Thought 1: a\n  \nb", 0, Thought)
  {
    assert "Thought 1: a\n  \nb"[0] == 'T' && "Thought 1: a\n  \nb"[1] == 'h' && "Thought 1: a\n  \nb"[2] == 'o' && "Thought 1: a\n  \nb"[3] == 'u' && "Thought 1: a\n  \nb"[4] == 'g' && "Thought 1: a\n  \nb"[5] == 'h' && "Thought 1: a\n  \nb"[6] == 't';
    assert "Thought 1: a\n  \nb"[0..7] == "Thought";
  }

  lemma SpaceLineContinuesBodySpaces7()
    ensures SpaceEnd("Thought 1: a\n  \nb", 7) == 8
  {
  }

  lemma SpaceLineContinuesBodyDigits8()
    ensures DigitEnd("Thought 1: a\n  \nb", 8) == 9
  {
  }

  lemma SpaceLineContinuesBodyHeader0()
    ensures HeaderAt("Thought 1: a\n  \nb", 0) == Some(Header(Thought, 8, 9))
  {
    SpaceLineContinuesBodyLabel0();
    SpaceLineContinuesBodySpaces7();
    SpaceLineContinuesBodyDigits8();
    LabelAtComplete("Thought 1: a\n  \nb", 0, Thought);
    HeaderAtStages("Thought 1: a\n  \nb", 0, Thought, 8, 9);
  }

  lemma SpaceLineContinuesBodyGap10()
    ensures SpaceEnd("Thought 1: a\n  \nb", 10) == 11
  {
  }

  lemma SpaceLineContinuesBodyBodyStart9()
    ensures BodyStart("Thought 1: a\n  \nb", 9) == Some(11)
  {
    SpaceLineContinuesBodyGap10();
  }

  lemma SpaceLineContinuesBodyLine11()
    ensures LineEnd("Thought 1: a\n  \nb", 11) == 12
  {
  }

  lemma SpaceLineContinuesBodyLine13()
    ensures LineEnd("Thought 1: a\n  \nb", 13) == 15
  {
  }

  lemma SpaceLineContinuesBodyLine16()
    ensures LineEnd("Thought 1: a\n  \nb", 16) == 17
  {
  }

  lemma SpaceLineContinuesBodyBodyEnd16()
    ensures BodyEnd("Thought 1: a\n  \nb", 16) == 17
  {
    SpaceLineContinuesBodyLine16();
    BodyEndStops("Thought 1: a\n  \nb", 16);
  }

  lemma SpaceLineContinuesBodyBodyEnd13()
    ensures BodyEnd("Thought 1: a\n  \nb", 13) == 17
  {
    SpaceLineContinuesBodyLine13();
    NoMatchWithoutLabel("Thought 1: a\n  \nb", 16);
    ContinuationExact("Thought 1: a\n  \nb", 16);
    SpaceLineContinuesBodyBodyEnd16();
    BodyEndContinues("Thought 1: a\n  \nb", 13, 17);
  }

  lemma SpaceLineContinuesBodyBodyEnd11()
    ensures BodyEnd("Thought 1: a\n  \nb", 11) == 17
  {
    SpaceLineContinuesBodyLine11();
    NoMatchWithoutLabel("Thought 1: a\n  \nb", 13);
    ContinuationExact("Thought 1: a\n  \nb", 13);
    SpaceLineContinuesBodyBodyEnd13();
    BodyEndContinues("Thought 1: a\n  \nb", 11, 17);
  }

  lemma SpaceLineContinuesBodyMatch0()
    ensures MatchAt("Thought 1: a\n  \nb", 0) == Some(Match(0, Header(Thought, 8, 9), 11, 17))
  {
    SpaceLineContinuesBodyHeader0();
    SpaceLineContinuesBodyBodyStart9();
    SpaceLineContinuesBodyBodyEnd11();
    MatchAtStages("Thought 1: a\n  \nb", 0, Header(Thought, 8, 9), 11, 17);
  }

  lemma SpaceLineContinuesBodyScan17(s: string)
    requires s == "Thought 1: a\n  \nb"
    ensures FindIter.Scan(Attempt(s), |s|, 17) == []
  {
    AttemptIsPattern(s);
  }

  lemma SpaceLineContinuesBodyScan0(s: string)
    requires s == "Thought 1: a\n  \nb"
    ensures FindIter.Scan(Attempt(s), |s|, 0) == [Match(0, Header(Thought, 8, 9), 11, 17)]
  {
    AttemptIsPattern(s);
    SpaceLineContinuesBodyMatch0();
    FindIter.ScanTakes(Attempt(s), |s|, 0, Match(0, Header(Thought, 8, 9), 11, 17));
    SpaceLineContinuesBodyScan17(s);
  }

  lemma SpaceLineContinuesBodyMatches(s: string)
    requires s == "Thought 1: a\n  \nb"
    ensures Matches(s) == [Match(0, Header(Thought, 8, 9), 11, 17)]
  {
    SpaceLineContinuesBodyScan0(s);
  }

  lemma SpaceLineContinuesBodyNumber0()
    ensures "Thought 1: a\n  \nb"[8..9] == "1"
  {
    assert "Thought 1: a\n  \nb"[8] == '1';
    assert "Thought 1: a\n  \nb"[8..9] == "1";
  }

  lemma SpaceLineContinuesBodyBody0()
    ensures "Thought 1: a\n  \nb"[11..17] == "a\n  \nb"
  {
    assert "Thought 1: a\n  \nb"[11] == 'a' && "Thought 1: a\n  \nb"[12] == '\n' && "Thought 1: a\n  \nb"[13] == ' ' && "Thought 1: a\n  \nb"[14] == ' ' && "Thought 1: a\n  \nb"[15] == '\n' && "Thought 1: a\n  \nb"[16] == 'b';
    assert "Thought 1: a\n  \nb"[11..17] == "a\n  \nb";
  }

  lemma SpaceLineContinuesBodyContent0()
    ensures Strip("a\n  \nb") == "a\n  \nb"
  {
    StripTrimmed("a\n  \nb");
  }

  lemma SpaceLineContinuesBodyStep0(s: string)
    requires s == "Thought 1: a\n  \nb"
    ensures WellFormed(s, Match(0, Header(Thought, 8, 9), 11, 17)) && ToStep(s, Match(0, Header(Thought, 8, 9), 11, 17)) == Step(Thought, 1, "a\n  \nb")
  {
    SpaceLineContinuesBodyNumber0(); SpaceLineContinuesBodyBody0(); NumeralValue1(); SpaceLineContinuesBodyContent0();
  }

  /** A line holding only whitespace is not empty: it continues the body. */
  lemma SpaceLineContinuesBody(s: string)
    requires s == "Thought 1: a\n  \nb"
    ensures Parse(s) == [Step(Thought, 1, "a\n  \nb")]
  {
    SpaceLineContinuesBodyMatches(s); SpaceLineContinuesBodyStep0(s);
    ParseOne(s, Match(0, Header(Thought, 8, 9), 11, 17), Step(Thought, 1, "a\n  \nb"));
  }

  // ---------------------------------------------------------------------------

  lemma SameLineHeaderLabel0()
    ensures LabelOccursAt("Thought 1: a Action 2: b", 0, Thought)
  {
    assert "Thought 1: a Action 2: b"[0] == 'T' && "Thought 1: a Action 2: b"[1] == 'h' && "Thought 1: a Action 2: b"[2] == 'o' && "Thought 1: a Action 2: b"[3] == 'u' && "Thought 1: a Action 2: b"[4] == 'g' && "Thought 1: a Action 2: b"[5] == 'h' && "Thought 1: a Action 2: b"[6] == 't';
    assert "Thought 1: a Action 2: b"[0..7] == "Thought";
  }

  lemma SameLineHeaderSpaces7()
    ensures SpaceEnd("Thought 1: a Action 2: b", 7) == 8
  {
  }

  lemma SameLineHeaderDigits8()
    ensures DigitEnd("Thought 1: a Action 2: b", 8) == 9
  {
  }

  lemma SameLineHeaderHeader0()
    ensures HeaderAt("Thought 1: a Action 2: b", 0) == Some(Header(Thought, 8, 9))
  {
    SameLineHeaderLabel0();
    SameLineHeaderSpaces7();
    SameLineHeaderDigits8();
    LabelAtComplete("Thought 1: a Action 2: b", 0, Thought);
    HeaderAtStages("Thought 1: a Action 2: b", 0, Thought, 8, 9);
  }

  lemma SameLineHeaderGap10()
    ensures SpaceEnd("Thought 1: a Action 2: b", 10) == 11
  {
  }

  lemma SameLineHeaderBodyStart9()
    ensures BodyStart("Thought 1: a Action 2: b", 9) == Some(11)
  {
    SameLineHeaderGap10();
  }

  lemma SameLineHeaderLine11()
    ensures LineEnd("Thought 1: a Action 2: b", 11) == 24
  {
  }

  lemma SameLineHeaderBodyEnd11()
    ensures BodyEnd("Thought 1: a Action 2: b", 11) == 24
  {
    SameLineHeaderLine11();
    BodyEndStops("Thought 1: a Action 2: b", 11);
  }

  lemma SameLineHeaderMatch0()
    ensures MatchAt("Thought 1: a Action 2: b", 0) == Some(Match(0, Header(Thought, 8, 9), 11, 24))
  {
    SameLineHeaderHeader0();
    SameLineHeaderBodyStart9();
    SameLineHeaderBodyEnd11();
    MatchAtStages("Thought 1: a Action 2: b", 0, Header(Thought, 8, 9), 11, 24);
  }

  lemma SameLineHeaderScan24(s: string)
    requires s == "Thought 1: a Action 2: b"
    ensures FindIter.Scan(Attempt(s), |s|, 24) == []
  {
    AttemptIsPattern(s);
  }

  lemma SameLineHeaderScan0(s: string)
    requires s == "Thought 1: a Action 2: b"
    ensures FindIter.Scan(Attempt(s), |s|, 0) == [Match(0, Header(Thought, 8, 9), 11, 24)]
  {
    AttemptIsPattern(s);
    SameLineHeaderMatch0();
    FindIter.ScanTakes(Attempt(s), |s|, 0, Match(0, Header(Thought, 8, 9), 11, 24));
    SameLineHeaderScan24(s);
  }

  lemma SameLineHeaderMatches(s: string)
    requires s == "Thought 1: a Action 2: b"
    ensures Matches(s) == [Match(0, Header(Thought, 8, 9), 11, 24)]
  {
    SameLineHeaderScan0(s);
  }

  lemma SameLineHeaderNumber0()
    ensures "Thought 1: a Action 2: b"[8..9] == "1"
  {
    assert "Thought 1: a Action 2: b"[8] == '1';
    assert "Thought 1: a Action 2: b"[8..9] == "1";
  }

  lemma SameLineHeaderBody0()
    ensures "Thought 1: a Action 2: b"[11..24] == "a Action 2: b"
  {
    assert "Thought 1: a Action 2: b"[11] == 'a' && "Thought 1: a Action 2: b"[12] == ' ' && "Thought 1: a Action 2: b"[13] == 'A' && "Thought 1: a Action 2: b"[14] == 'c' && "Thought 1: a Action 2: b"[15] == 't' && "Thought 1: a Action 2: b"[16] == 'i' && "Thought 1: a Action 2: b"[17] == 'o' && "Thought 1: a Action 2: b"[18] == 'n' && "Thought 1: a Action 2: b"[19] == ' ' && "Thought 1: a Action 2: b"[20] == '2' && "Thought 1: a Action 2: b"[21] == ':' && "Thought 1: a Action 2: b"[22] == ' ' && "Thought 1: a Action 2: b"[23] == 'b';
    assert "Thought 1: a Action 2: b"[11..24] == "a Action 2: b";
  }

  lemma SameLineHeaderContent0()
    ensures Strip("a Action 2: b") == "a Action 2: b"
  {
    StripTrimmed("a Action 2: b");
  }

  lemma SameLineHeaderStep0(s: string)
    requires s == "Thought 1: a Action 2: b"
    ensures WellFormed(s, Match(0, Header(Thought, 8, 9), 11, 24)) && ToStep(s, Match(0, Header(Thought, 8, 9), 11, 24)) == Step(Thought, 1, "a Action 2: b")
  {
    SameLineHeaderNumber0(); SameLineHeaderBody0(); NumeralValue1(); SameLineHeaderContent0();
  }

  /** A second header on the same line is part of the first step's content. */
  lemma SameLineHeader(s: string)
    requires s == "Thought 1: a Action 2: b"
    ensures Parse(s) == [Step(Thought, 1, "a Action 2: b")]
  {
    SameLineHeaderMatches(s); SameLineHeaderStep0(s);
    ParseOne(s, Match(0, Header(Thought, 8, 9), 11, 24), Step(Thought, 1, "a Action 2: b"));
  }

  // ---------------------------------------------------------------------------

  lemma LeadingZerosLabel0()
    ensures LabelOccursAt("Action 007: go", 0, Action)
  {
    assert "Action 007: go"[0] == 'A' && "Action 007: go"[1] == 'c' && "Action 007: go"[2] == 't' && "Action 007: go"[3] == 'i' && "Action 007: go"[4] == 'o' && "Action 007: go"[5] == 'n';
    assert "Action 007: go"[0..6] == "Action";
  }

  lemma LeadingZerosSpaces6()
    ensures SpaceEnd("Action 007: go", 6) == 7
  {
  }

  lemma LeadingZerosDigits7()
    ensures DigitEnd("Action 007: go", 7) == 10
  {
  }

  lemma LeadingZerosHeader0()
    ensures HeaderAt("Action 007: go", 0) == Some(Header(Action, 7, 10))
  {
    LeadingZerosLabel0();
    LeadingZerosSpaces6();
    LeadingZerosDigits7();
    LabelAtComplete("Action 007: go", 0, Action);
    HeaderAtStages("Action 007: go", 0, Action, 7, 10);
  }

  lemma LeadingZerosGap11()
    ensures SpaceEnd("Action 007: go", 11) == 12
  {
  }

  lemma LeadingZerosBodyStart10()
    ensures BodyStart("Action 007: go", 10) == Some(12)
  {
    LeadingZerosGap11();
  }

  lemma LeadingZerosLine12()
    ensures LineEnd("Action 007: go", 12) == 14
  {
  }

  lemma LeadingZerosBodyEnd12()
    ensures BodyEnd("Action 007: go", 12) == 14
  {
    LeadingZerosLine12();
    BodyEndStops("Action 007: go", 12);
  }

  lemma LeadingZerosMatch0()
    ensures MatchAt("Action 007: go", 0) == Some(Match(0, Header(Action, 7, 10), 12, 14))
  {
    LeadingZerosHeader0();
    LeadingZerosBodyStart10();
    LeadingZerosBodyEnd12();
    MatchAtStages("Action 007: go", 0, Header(Action, 7, 10), 12, 14);
  }

  lemma LeadingZerosScan14(s: string)
    requires s == "Action 007: go"
    ensures FindIter.Scan(Attempt(s), |s|, 14) == []
  {
    AttemptIsPattern(s);
  }

  lemma LeadingZerosScan0(s: string)
    requires s == "Action 007: go"
    ensures FindIter.Scan(Attempt(s), |s|, 0) == [Match(0, Header(Action, 7, 10), 12, 14)]
  {
    AttemptIsPattern(s);
    LeadingZerosMatch0();
    FindIter.ScanTakes(Attempt(s), |s|, 0, Match(0, Header(Action, 7, 10), 12, 14));
    LeadingZerosScan14(s);
  }

  lemma LeadingZerosMatches(s: string)
    requires s == "Action 007: go"
    ensures Matches(s) == [Match(0, Header(Action, 7, 10), 12, 14)]
  {
    LeadingZerosScan0(s);
  }

  lemma LeadingZerosNumber0()
    ensures "Action 007: go"[7..10] == "007"
  {
    assert "Action 007: go"[7] == '0' && "Action 007: go"[8] == '0' && "Action 007: go"[9] == '7';
    assert "Action 007: go"[7..10] == "007";
  }

  lemma LeadingZerosBody0()
    ensures "Action 007: go"[12..14] == "go"
  {
    assert "Action 007: go"[12] == 'g' && "Action 007: go"[13] == 'o';
    assert "Action 007: go"[12..14] == "go";
  }

  lemma LeadingZerosContent0()
    ensures Strip("go") == "go"
  {
    StripTrimmed("go");
  }

  lemma LeadingZerosStep0(s: string)
    requires s == "Action 007: go"
    ensures WellFormed(s, Match(0, Header(Action, 7, 10), 12, 14)) && ToStep(s, Match(0, Header(Action, 7, 10), 12, 14)) == Step(Action, 7, "go")
  {
    LeadingZerosNumber0(); LeadingZerosBody0(); NumeralValue007(); LeadingZerosContent0();
  }

  /** Leading zeros are dropped from the number. */
  lemma LeadingZeros(s: string)
    requires s == "Action 007: go"
    ensures Parse(s) == [Step(Action, 7, "go")]
  {
    LeadingZerosMatches(s); LeadingZerosStep0(s);
    ParseOne(s, Match(0, Header(Action, 7, 10), 12, 14), Step(Action, 7, "go"));
  }

}
