/** Character classes, whitespace stripping, lower-casing and decimal numerals:
    the small pieces of Python string semantics the trace parser relies on
    (`\s`, `\d`, `str.strip()`, `str.lower()` and `int()` on a digit run).
    Character classes are restricted to ASCII. */
module Text {

  /** Whitespace as `\s` matches it and `str.strip()` removes it: the ASCII
      characters Python's `str.isspace` accepts (tab, line feed, vertical tab,
      form feed, carriage return, the four separators 0x1C-0x1F, and space). */
  predicate IsSpace(c: char) {
    c == ' ' || ('\t' <= c <= '\r') || ('\U{1C}' <= c <= '\U{1F}')
  }

  /** A decimal digit as `\d` matches it (ASCII only). */
  predicate IsDigit(c: char) {
    '0' <= c <= '9'
  }

  ghost predicate AllSpace(t: string) {
    forall q :: 0 <= q < |t| ==> IsSpace(t[q])
  }

  predicate AllDigits(t: string) {
    forall q :: 0 <= q < |t| ==> IsDigit(t[q])
  }

  /** A string with no whitespace at either end. */
  predicate Trimmed(t: string) {
    t == [] || (!IsSpace(t[0]) && !IsSpace(t[|t| - 1]))
  }

  // ---------------------------------------------------------------------------
  // str.strip()
  // ---------------------------------------------------------------------------

  /** `t` with its leading whitespace removed. */
  function StripLeft(t: string): (r: string)
    ensures |r| <= |t| && r == t[|t| - |r|..]
    ensures AllSpace(t[..|t| - |r|])
    ensures r == [] || !IsSpace(r[0])
  {
    if |t| > 0 && IsSpace(t[0]) then
      var r := StripLeft(t[1..]);
      assert t[|t| - |r|..] == t[1..][|t| - 1 - |r|..];
      var cut, rest := t[..|t| - |r|], t[1..][..|t| - 1 - |r|];
      assert AllSpace(cut) by {
        forall q | 0 <= q < |cut| ensures IsSpace(cut[q]) {
          if q > 0 {
            assert cut[q] == rest[q - 1];
          }
        }
      }
      r
    else t
  }

  /** `t` with its trailing whitespace removed. */
  function StripRight(t: string): (r: string)
    ensures |r| <= |t| && r == t[..|r|]
    ensures AllSpace(t[|r|..])
    ensures r == [] || !IsSpace(r[|r| - 1])
  {
    if |t| > 0 && IsSpace(t[|t| - 1]) then
      var r := StripRight(t[..|t| - 1]);
      assert t[..|r|] == t[..|t| - 1][..|r|];
      var cut, rest := t[|r|..], t[..|t| - 1][|r|..];
      assert AllSpace(cut) by {
        forall q | 0 <= q < |cut| ensures IsSpace(cut[q]) {
          if q < |rest| {
            assert cut[q] == rest[q];
          }
        }
      }
      r
    else t
  }

  /** `r` sits inside `t` at offset `lead` with only whitespace around it. */
  ghost predicate PaddedBy(t: string, lead: int, r: string) {
    && 0 <= lead && lead + |r| <= |t|
    && t[lead..lead + |r|] == r
    && AllSpace(t[..lead])
    && AllSpace(t[lead + |r|..])
  }

  /** Python's `str.strip()` with no argument. */
  function Strip(t: string): (r: string)
    ensures Trimmed(r)
    ensures PaddedBy(t, |t| - |StripLeft(t)|, r)
  {
    StripBothEnds(t);
    StripRight(StripLeft(t))
  }

  /** Stripping the left and then the right end leaves a trimmed string
      with only whitespace cut from either side. */
  lemma StripBothEnds(t: string)
    ensures Trimmed(StripRight(StripLeft(t)))
    ensures PaddedBy(t, |t| - |StripLeft(t)|, StripRight(StripLeft(t)))
  {
    var l := StripLeft(t);
    var r := StripRight(l);
    TrimmedPrefix(l, r);
    StripLeftThenRight(t, l, r);
  }

  /** A prefix of a string that starts with a non-space character, when it
      ends with a non-space character itself, is trimmed. */
  lemma TrimmedPrefix(l: string, r: string)
    requires |r| <= |l| && r == l[..|r|]
    requires l == [] || !IsSpace(l[0])
    requires r == [] || !IsSpace(r[|r| - 1])
    ensures Trimmed(r)
  {
    if r != [] {
      assert r[0] == l[0];
    }
  }

  /** The whitespace-free middle of `t`, and what surrounds it. */
  lemma StripLeftThenRight(t: string, l: string, r: string)
    requires |l| <= |t| && l == t[|t| - |l|..] && AllSpace(t[..|t| - |l|])
    requires |r| <= |l| && r == l[..|r|] && AllSpace(l[|r|..])
    ensures PaddedBy(t, |t| - |l|, r)
  {
    var lead := |t| - |l|;
    var mid, after, tail := t[lead..lead + |r|], t[lead + |r|..], l[|r|..];
    assert mid == r by {
      forall q | 0 <= q < |r| ensures mid[q] == r[q] {
        assert r[q] == l[q];
      }
    }
    assert AllSpace(after) by {
      forall q | 0 <= q < |after| ensures IsSpace(after[q]) {
        assert after[q] == tail[q];
      }
    }
  }

  /** Whatever whitespace surrounds a trimmed string, stripping recovers
      exactly that string: the characterisation of `Strip`. */
  lemma StripUnique(t: string, lead: int, m: string)
    requires PaddedBy(t, lead, m) && Trimmed(m)
    ensures Strip(t) == m
  {
    PaddedUnique(t, |t| - |StripLeft(t)|, Strip(t), lead, m);
  }

  /** A string has at most one trimmed core inside its surrounding
      whitespace. */
  lemma PaddedUnique(t: string, l1: int, r1: string, l2: int, r2: string)
    requires PaddedBy(t, l1, r1) && Trimmed(r1)
    requires PaddedBy(t, l2, r2) && Trimmed(r2)
    ensures r1 == r2
  {
    if r1 != [] {
      PaddedEnds(t, l1, r1, l2, r2);
      PaddedEnds(t, l2, r2, l1, r1);
      assert l1 == l2 && |r1| == |r2|;
    } else if r2 != [] {
      PaddedEnds(t, l2, r2, l1, r1);
    }
  }

  /** The first and last characters of a non-empty trimmed core lie inside
      any other core of the same string. */
  lemma PaddedEnds(t: string, l1: int, r1: string, l2: int, r2: string)
    requires PaddedBy(t, l1, r1) && Trimmed(r1) && r1 != []
    requires PaddedBy(t, l2, r2)
    ensures l2 <= l1 && l1 + |r1| <= l2 + |r2|
  {
    PaddedAt(t, l1, r1, 0);
    PaddedAt(t, l1, r1, |r1| - 1);
    PaddedOutside(t, l2, r2, l1);
    PaddedOutside(t, l2, r2, l1 + |r1| - 1);
  }

  /** Inside its padding, `r` is spelled out character by character. */
  lemma PaddedAt(t: string, lead: int, r: string, q: nat)
    requires PaddedBy(t, lead, r) && q < |r|
    ensures t[lead + q] == r[q]
  {
    assert t[lead..lead + |r|][q] == t[lead + q];
  }

  /** A non-space character of `t` lies inside the core. */
  lemma PaddedOutside(t: string, lead: int, r: string, p: nat)
    requires PaddedBy(t, lead, r) && p < |t|
    ensures !IsSpace(t[p]) ==> lead <= p < lead + |r|
  {
    if p < lead {
      assert t[..lead][p] == t[p];
    } else if lead + |r| <= p {
      assert t[lead + |r|..][p - lead - |r|] == t[p];
    }
  }

  /** A string with no whitespace at either end is its own strip. */
  lemma StripTrimmed(t: string)
    requires Trimmed(t)
    ensures Strip(t) == t
  {
    assert t[..0] == [] && t[0 + |t|..] == [];
    StripUnique(t, 0, t);
  }

  /** Stripping twice is stripping once. */
  lemma StripIdempotent(t: string)
    ensures Strip(Strip(t)) == Strip(t)
  {
    var r := Strip(t);
    assert r[..0] == [] && r[0 + |r|..] == [];
    assert PaddedBy(r, 0, r);
    StripUnique(r, 0, r);
  }

  // ---------------------------------------------------------------------------
  // str.lower() on ASCII
  // ---------------------------------------------------------------------------

  function LowerChar(c: char): char {
    if 'A' <= c <= 'Z' then (c as int - 'A' as int + 'a' as int) as char else c
  }

  /** Python's `str.lower()` restricted to ASCII letters. */
  function Lower(t: string): (r: string)
    ensures |r| == |t|
    ensures forall q :: 0 <= q < |t| ==> r[q] == LowerChar(t[q])
  {
    if t == [] then [] else [LowerChar(t[0])] + Lower(t[1..])
  }

  // ---------------------------------------------------------------------------
  // int() on a digit run, and its inverse str() on a nat
  // ---------------------------------------------------------------------------

  function DigitValue(c: char): (v: nat)
    requires IsDigit(c)
    ensures v < 10
  {
    c as int - '0' as int
  }

  function DigitChar(v: nat): (c: char)
    requires v < 10
    ensures IsDigit(c) && DigitValue(c) == v
  {
    ('0' as int + v) as char
  }

  /** The value Python's `int(d)` gives a non-empty run of decimal digits
      (the empty run yields 0; the parser never passes one). Python refuses
      runs longer than its integer conversion limit, 4300 digits by default,
      with `ValueError`; this function has no such limit. */
  function DecimalValue(d: string): nat
    requires AllDigits(d)
    decreases |d|
  {
    if d == [] then 0 else DecimalValue(d[..|d| - 1]) * 10 + DigitValue(d[|d| - 1])
  }

  /** Python's `str(n)`: the canonical decimal numeral of `n`. */
  function Decimal(n: nat): (d: string)
    ensures AllDigits(d) && |d| > 0
    ensures |d| > 1 ==> d[0] != '0'
    decreases n
  {
    if n < 10 then [DigitChar(n)] else Decimal(n / 10) + [DigitChar(n % 10)]
  }

  /** Reading back the canonical numeral of `n` gives `n`. */
  lemma {:induction false} DecimalRoundTrip(n: nat)
    ensures DecimalValue(Decimal(n)) == n
    decreases n
  {
    if n >= 10 {
      var d := Decimal(n);
      assert d[..|d| - 1] == Decimal(n / 10);
      DecimalRoundTrip(n / 10);
    }
  }

  /** Leading zeros do not change the value of a numeral: `int("007") == 7`. */
  lemma {:induction false} LeadingZeroIgnored(d: string)
    requires AllDigits(d)
    ensures AllDigits("0" + d) && DecimalValue("0" + d) == DecimalValue(d)
    decreases |d|
  {
    var z := "0" + d;
    assert AllDigits(z) by {
      forall q | 0 <= q < |z| ensures IsDigit(z[q]) {
        if q > 0 { assert z[q] == d[q - 1]; }
      }
    }
    if d != [] {
      assert z[..|z| - 1] == "0" + d[..|d| - 1];
      LeadingZeroIgnored(d[..|d| - 1]);
    }
  }
}
