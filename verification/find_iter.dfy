/** `re.finditer` for an arbitrary pattern: scan a text of length `n` left to
    right, trying the pattern at each position; on a match, yield it and
    resume at its end, otherwise move on by one character.

    The pattern is given as the function `attempt` saying what it matches
    when tried at each position; `Pattern` states what `finditer` relies on. */
module FindIter {
  import opened Optional
  import opened Scanner

  /** `attempt` behaves like a pattern on a text of length `n`: a match found
      at `p` starts at `p`, is non-empty, and ends within the text. */
  ghost predicate Pattern(attempt: nat -> Option<Match>, n: nat) {
    forall p: nat :: attempt(p).Some? ==> attempt(p).value.start == p < attempt(p).value.end <= n
  }

  /** The matches `finditer` yields once its scan has reached position `i`.
      What they are is `ScanFindsAll`. */
  function Scan(attempt: nat -> Option<Match>, n: nat, i: nat): seq<Match>
    requires Pattern(attempt, n) && i <= n
    decreases n - i
  {
    if i == n then []
    else match attempt(i)
      case Some(m) => [m] + Scan(attempt, n, m.end)
      case None => Scan(attempt, n, i + 1)
  }

  /** Position `p` lies inside the span of one of the matches `ms`. */
  ghost predicate Covered(ms: seq<Match>, p: nat) {
    exists k :: 0 <= k < |ms| && ms[k].start <= p < ms[k].end
  }

  /** Every element of `ms` is a match of the pattern at or after `from`. */
  ghost predicate Genuine(attempt: nat -> Option<Match>, from: nat, ms: seq<Match>) {
    forall k :: 0 <= k < |ms| ==> from <= ms[k].start && attempt(ms[k].start) == Some(ms[k])
  }

  /** The spans of `ms` come in order and do not overlap. */
  ghost predicate Ordered(ms: seq<Match>) {
    forall k, l :: 0 <= k < l < |ms| ==> ms[k].end <= ms[l].start
  }

  /** Every position at or after `from` where the pattern matches lies inside
      one of the spans of `ms`. */
  ghost predicate Complete(attempt: nat -> Option<Match>, from: nat, ms: seq<Match>) {
    forall p: nat :: from <= p && attempt(p).Some? ==> Covered(ms, p)
  }

  /** `ms` is the leftmost, non-overlapping sequence of matches from `from`
      on: each is a genuine match, they come in order with disjoint spans,
      and every position where the pattern matches is inside one of them, so
      no match is skipped in the gaps between them. */
  ghost predicate FindAll(attempt: nat -> Option<Match>, from: nat, ms: seq<Match>) {
    Genuine(attempt, from, ms) && Ordered(ms) && Complete(attempt, from, ms)
  }

  /** A match at `i` followed by the leftmost matches from its end is the
      leftmost sequence from `i`. */
  lemma FindAllCons(attempt: nat -> Option<Match>, n: nat, i: nat, rest: seq<Match>)
    requires Pattern(attempt, n) && attempt(i).Some?
    requires FindAll(attempt, attempt(i).value.end, rest)
    ensures FindAll(attempt, i, [attempt(i).value] + rest)
  {
    var m := attempt(i).value;
    ConsGenuine(attempt, n, i, m, rest);
    ConsOrdered(m, rest);
    ConsComplete(attempt, n, i, m, rest);
  }

  /** Prepending the match at `i` keeps every element a genuine match. */
  lemma ConsGenuine(attempt: nat -> Option<Match>, n: nat, i: nat, m: Match, rest: seq<Match>)
    requires Pattern(attempt, n) && attempt(i) == Some(m) && Genuine(attempt, m.end, rest)
    ensures Genuine(attempt, i, [m] + rest)
  {
    var ms := [m] + rest;
    forall k | 0 <= k < |ms|
      ensures i <= ms[k].start && attempt(ms[k].start) == Some(ms[k])
    {
      if k > 0 {
        assert ms[k] == rest[k - 1];
      }
    }
  }

  /** Prepending a match that ends before all of `rest` keeps the order. */
  lemma ConsOrdered(m: Match, rest: seq<Match>)
    requires forall k :: 0 <= k < |rest| ==> m.end <= rest[k].start
    requires Ordered(rest)
    ensures Ordered([m] + rest)
  {
    var ms := [m] + rest;
    forall k, l | 0 <= k < l < |ms|
      ensures ms[k].end <= ms[l].start
    {
      assert ms[l] == rest[l - 1];
      if k > 0 {
        assert ms[k] == rest[k - 1];
      }
    }
  }

  /** Prepending the match at `i` covers every match position from `i`. */
  lemma ConsComplete(attempt: nat -> Option<Match>, n: nat, i: nat, m: Match, rest: seq<Match>)
    requires Pattern(attempt, n) && attempt(i) == Some(m) && Complete(attempt, m.end, rest)
    ensures Complete(attempt, i, [m] + rest)
  {
    var ms := [m] + rest;
    forall p: nat | i <= p && attempt(p).Some?
      ensures Covered(ms, p)
    {
      if p < m.end {
        assert ms[0].start <= p < ms[0].end;
      } else {
        assert Covered(rest, p);
        var k :| 0 <= k < |rest| && rest[k].start <= p < rest[k].end;
        assert ms[k + 1] == rest[k];
      }
    }
  }

  /** A position strictly inside one span of an ordered sequence of
      non-empty spans is where none of them starts. */
  lemma InsideOneSpan(ms: seq<Match>, k: nat, p: nat)
    requires Ordered(ms) && k < |ms| && ms[k].start < p < ms[k].end
    requires forall l :: 0 <= l < |ms| ==> ms[l].start < ms[l].end
    ensures forall l :: 0 <= l < |ms| ==> ms[l].start != p
  {
    forall l | 0 <= l < |ms|
      ensures ms[l].start != p
    {
      if l < k {
        assert ms[l].end <= ms[k].start;
      } else if k < l {
        assert ms[k].end <= ms[l].start;
      }
    }
  }

  /** Past the end of the text there is nothing to find. */
  lemma FindAllEmpty(attempt: nat -> Option<Match>, n: nat)
    requires Pattern(attempt, n)
    ensures FindAll(attempt, n, [])
  {
  }

  /** Where the pattern does not match, the leftmost sequence from `i` is
      the one from `i + 1`. */
  lemma FindAllSkip(attempt: nat -> Option<Match>, i: nat, ms: seq<Match>)
    requires attempt(i).None?
    ensures FindAll(attempt, i + 1, ms) <==> FindAll(attempt, i, ms)
  {
  }

  /** The leftmost sequence from a position where the pattern matches starts
      with that match. */
  lemma FindAllFirst(attempt: nat -> Option<Match>, n: nat, i: nat, ms: seq<Match>)
    requires Pattern(attempt, n) && attempt(i).Some? && FindAll(attempt, i, ms)
    ensures |ms| > 0 && ms[0] == attempt(i).value
  {
    assert Covered(ms, i);
    var k :| 0 <= k < |ms| && ms[k].start <= i < ms[k].end;
    assert attempt(ms[0].start) == Some(ms[0]);
    assert i <= ms[0].start < ms[0].end;
    assert forall l :: 0 < l < |ms| ==> ms[0].end <= ms[l].start;
    assert k == 0;
  }

  /** After its first match, the leftmost sequence continues with the
      leftmost sequence from that match's end. */
  lemma FindAllRest(attempt: nat -> Option<Match>, n: nat, i: nat, ms: seq<Match>)
    requires Pattern(attempt, n) && |ms| > 0 && FindAll(attempt, i, ms)
    ensures FindAll(attempt, ms[0].end, ms[1..])
  {
    RestGenuine(attempt, i, ms);
    RestOrdered(ms);
    RestComplete(attempt, n, i, ms);
  }

  /** Dropping the first match leaves genuine matches after its end. */
  lemma RestGenuine(attempt: nat -> Option<Match>, i: nat, ms: seq<Match>)
    requires |ms| > 0 && Genuine(attempt, i, ms) && Ordered(ms)
    ensures Genuine(attempt, ms[0].end, ms[1..])
  {
    var rest := ms[1..];
    forall j | 0 <= j < |rest|
      ensures ms[0].end <= rest[j].start && attempt(rest[j].start) == Some(rest[j])
    {
      assert rest[j] == ms[j + 1];
    }
  }

  /** Dropping the first match keeps the order. */
  lemma RestOrdered(ms: seq<Match>)
    requires |ms| > 0 && Ordered(ms)
    ensures Ordered(ms[1..])
  {
    var rest := ms[1..];
    forall j, l | 0 <= j < l < |rest|
      ensures rest[j].end <= rest[l].start
    {
      assert rest[j] == ms[j + 1] && rest[l] == ms[l + 1];
    }
  }

  /** Every match position past the first match's end is covered by a later one. */
  lemma RestComplete(attempt: nat -> Option<Match>, n: nat, i: nat, ms: seq<Match>)
    requires Pattern(attempt, n) && |ms| > 0 && FindAll(attempt, i, ms)
    ensures Complete(attempt, ms[0].end, ms[1..])
  {
    var rest := ms[1..];
    forall p: nat | ms[0].end <= p && attempt(p).Some?
      ensures Covered(rest, p)
    {
      assert i <= p;
      assert Covered(ms, p);
      var j :| 0 <= j < |ms| && ms[j].start <= p < ms[j].end;
      assert j != 0;
      assert rest[j - 1] == ms[j];
    }
  }

  /** The scanner yields the leftmost non-overlapping matches. */
  lemma {:induction false} ScanFindsAll(attempt: nat -> Option<Match>, n: nat, i: nat)
    requires Pattern(attempt, n) && i <= n
    ensures FindAll(attempt, i, Scan(attempt, n, i))
    decreases n - i
  {
    if i == n {
      FindAllEmpty(attempt, n);
    } else if attempt(i).Some? {
      ScanFindsAll(attempt, n, attempt(i).value.end);
      ScanTakeFindsAll(attempt, n, i);
    } else {
      ScanFindsAll(attempt, n, i + 1);
      ScanSkipFindsAll(attempt, n, i);
    }
  }

  /** One step of `ScanFindsAll` where the pattern matches at `i`. */
  lemma ScanTakeFindsAll(attempt: nat -> Option<Match>, n: nat, i: nat)
    requires Pattern(attempt, n) && i < n && attempt(i).Some?
    requires FindAll(attempt, attempt(i).value.end, Scan(attempt, n, attempt(i).value.end))
    ensures FindAll(attempt, i, Scan(attempt, n, i))
  {
    ScanTakes(attempt, n, i, attempt(i).value);
    FindAllCons(attempt, n, i, Scan(attempt, n, attempt(i).value.end));
  }

  /** One step of `ScanFindsAll` where the pattern fails at `i`. */
  lemma ScanSkipFindsAll(attempt: nat -> Option<Match>, n: nat, i: nat)
    requires Pattern(attempt, n) && i < n && attempt(i).None?
    requires FindAll(attempt, i + 1, Scan(attempt, n, i + 1))
    ensures FindAll(attempt, i, Scan(attempt, n, i))
  {
    ScanSkips(attempt, n, i);
    FindAllSkip(attempt, i, Scan(attempt, n, i + 1));
  }

  /** Any leftmost non-overlapping match sequence is the scanner's: what
      `finditer` yields is fully determined by the pattern. */
  lemma {:induction false} FindAllUnique(attempt: nat -> Option<Match>, n: nat, i: nat, ms: seq<Match>)
    requires Pattern(attempt, n) && i <= n && FindAll(attempt, i, ms)
    ensures ms == Scan(attempt, n, i)
    decreases n - i
  {
    if i == n {
      FindAllFirstInside(attempt, n, i, ms);
    } else {
      match attempt(i)
      case Some(m) =>
        FindAllFirst(attempt, n, i, ms);
        FindAllRest(attempt, n, i, ms);
        FindAllUnique(attempt, n, m.end, ms[1..]);
        ScanTakes(attempt, n, i, m);
        assert ms == [m] + ms[1..];
      case None =>
        FindAllSkip(attempt, i, ms);
        FindAllUnique(attempt, n, i + 1, ms);
        ScanSkips(attempt, n, i);
    }
  }

  /** The first of a leftmost sequence from `i` starts at or after `i` and
      inside the text. */
  lemma FindAllFirstInside(attempt: nat -> Option<Match>, n: nat, i: nat, ms: seq<Match>)
    requires Pattern(attempt, n) && FindAll(attempt, i, ms)
    ensures |ms| > 0 ==> i <= ms[0].start < n
  {
    if |ms| > 0 {
      assert attempt(ms[0].start) == Some(ms[0]);
    }
  }

  /** `finditer` yields nothing exactly when the pattern matches nowhere. */
  lemma {:induction false} ScanEmpty(attempt: nat -> Option<Match>, n: nat, i: nat)
    requires Pattern(attempt, n) && i <= n
    ensures Scan(attempt, n, i) == [] <==> forall p: nat :: i <= p ==> attempt(p).None?
  {
    ScanFindsAll(attempt, n, i);
    var ms := Scan(attempt, n, i);
    if ms == [] {
      assert forall p: nat :: i <= p && attempt(p).Some? ==> Covered(ms, p);
    } else {
      assert attempt(ms[0].start).Some?;
    }
  }

  /** Where the pattern fails, the scan moves on by one character. */
  lemma ScanSkips(attempt: nat -> Option<Match>, n: nat, i: nat)
    requires Pattern(attempt, n) && i < n && attempt(i).None?
    ensures Scan(attempt, n, i) == Scan(attempt, n, i + 1)
  {
  }

  /** Where the pattern matches, the scan yields the match and resumes at
      its end. */
  lemma ScanTakes(attempt: nat -> Option<Match>, n: nat, i: nat, m: Match)
    requires Pattern(attempt, n) && i < n && attempt(i) == Some(m)
    ensures Scan(attempt, n, i) == [m] + Scan(attempt, n, m.end)
  {
  }
}
