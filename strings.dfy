/**
 * The three functions of Go's `strings` package that the request engine and
 * the navigator rely on: `ReplaceAll`, `Count` and `Join`, on strings taken
 * as sequences of characters.
 */
module GoStrings {

  /** `pat` occurs in `s` starting at index `i`. */
  predicate OccursAt(s: string, pat: string, i: nat)
  {
    i + |pat| <= |s| && s[i..i + |pat|] == pat
  }

  /** `pat` is a substring of `s` (Go's `strings.Contains`). */
  ghost predicate Contains(s: string, pat: string)
  {
    exists i: nat :: OccursAt(s, pat, i)
  }

  /**
   * Go's `strings.ReplaceAll(s, pat, rep)`. For a non-empty `pat` the
   * occurrences are found left to right and do not overlap, and the inserted
   * text is never searched again. For an empty `pat`, Go inserts `rep` before
   * every character and once at the end.
   */
  function ReplaceAll(s: string, pat: string, rep: string): string
    decreases |s|
  {
    if pat == [] then Interleave(s, rep)
    else if |s| < |pat| then s
    else if s[..|pat|] == pat then rep + ReplaceAll(s[|pat|..], pat, rep)
    else [s[0]] + ReplaceAll(s[1..], pat, rep)
  }

  /** `rep`, then each character of `s` followed by `rep`. */
  function Interleave(s: string, rep: string): string
    decreases |s|
  {
    if s == [] then rep else rep + [s[0]] + Interleave(s[1..], rep)
  }

  /**
   * Go's `strings.Count(s, pat)`: the number of non-overlapping occurrences
   * found left to right, or one more than the length of `s` for an empty `pat`.
   */
  function Count(s: string, pat: string): nat
    decreases |s|
  {
    if pat == [] then |s| + 1
    else if |s| < |pat| then 0
    else if s[..|pat|] == pat then 1 + Count(s[|pat|..], pat)
    else Count(s[1..], pat)
  }

  /** Go's `strings.Join(elems, sep)`. */
  function Join(elems: seq<string>, sep: string): string
    decreases |elems|
  {
    if |elems| == 0 then ""
    else if |elems| == 1 then elems[0]
    else elems[0] + sep + Join(elems[1..], sep)
  }

  /** An occurrence in the tail of `s` is an occurrence in `s`, one place later. */
  lemma OccursInTail(s: string, pat: string, i: nat)
    requires |s| > 0 && OccursAt(s[1..], pat, i)
    ensures OccursAt(s, pat, i + 1)
  {
    assert s[i + 1..i + 1 + |pat|] == s[1..][i..i + |pat|];
  }

  /** Every occurrence of `pat` in `s` starts with the first character of `pat`. */
  lemma OccurrenceStartsWithHead(s: string, pat: string, i: nat)
    requires pat != [] && OccursAt(s, pat, i)
    ensures s[i] == pat[0]
  {
    assert s[i..i + |pat|][0] == s[i];
  }

  /** The length of the result grows or shrinks by `|rep| - |pat|` per replacement. */
  lemma {:induction false} ReplaceAllLength(s: string, pat: string, rep: string)
    ensures |ReplaceAll(s, pat, rep)| == |s| + Count(s, pat) * (|rep| - |pat|)
    decreases |s|
  {
    if pat == [] {
      InterleaveLength(s, rep);
    } else if |s| < |pat| {
    } else if s[..|pat|] == pat {
      var rest := s[|pat|..];
      ReplaceAllLength(rest, pat, rep);
      assert ReplaceAll(s, pat, rep) == rep + ReplaceAll(rest, pat, rep);
      assert Count(s, pat) == 1 + Count(rest, pat);
      MulStep(Count(rest, pat), |rep| - |pat|);
    } else {
      ReplaceAllLength(s[1..], pat, rep);
    }
  }

  lemma MulStep(c: int, d: int)
    ensures (1 + c) * d == d + c * d
  {
  }

  lemma {:induction false} InterleaveLength(s: string, rep: string)
    ensures |Interleave(s, rep)| == |s| + (|s| + 1) * |rep|
    decreases |s|
  {
    if s != [] {
      InterleaveLength(s[1..], rep);
      MulStep(|s|, |rep|);
    }
  }

  /** A string without any occurrence of a non-empty `pat` passes through unchanged. */
  lemma {:induction false} ReplaceAllAbsent(s: string, pat: string, rep: string)
    requires pat != [] && !Contains(s, pat)
    ensures ReplaceAll(s, pat, rep) == s
    decreases |s|
  {
    if |s| >= |pat| {
      assert !OccursAt(s, pat, 0);
      assert s[..|pat|] != pat;
      if Contains(s[1..], pat) {
        var i: nat :| OccursAt(s[1..], pat, i);
        OccursInTail(s, pat, i);
        assert false;
      }
      ReplaceAllAbsent(s[1..], pat, rep);
    }
  }

  /** Replacing a pattern by itself changes nothing. */
  lemma {:induction false} ReplaceAllSame(s: string, pat: string)
    ensures ReplaceAll(s, pat, pat) == s
    decreases |s|
  {
    if pat == [] {
      InterleaveEmpty(s);
    } else if |s| < |pat| {
    } else if s[..|pat|] == pat {
      ReplaceAllSame(s[|pat|..], pat);
      assert s == s[..|pat|] + s[|pat|..];
    } else {
      ReplaceAllSame(s[1..], pat);
      assert s == [s[0]] + s[1..];
    }
  }

  lemma {:induction false} InterleaveEmpty(s: string)
    ensures Interleave(s, "") == s
    decreases |s|
  {
    if s != [] {
      InterleaveEmpty(s[1..]);
      assert s == [s[0]] + s[1..];
    }
  }

  /**
   * For a non-empty pattern, `ReplaceAll` leaves `s` as it is exactly when
   * the pattern does not occur in `s` or is replaced by itself.
   */
  lemma ReplaceAllUnchangedIff(s: string, pat: string, rep: string)
    requires pat != []
    ensures ReplaceAll(s, pat, rep) == s <==> (pat == rep || !Contains(s, pat))
  {
    if pat == rep {
      ReplaceAllSame(s, pat);
    } else if !Contains(s, pat) {
      ReplaceAllAbsent(s, pat, rep);
    } else {
      ReplaceAllChanges(s, pat, rep);
    }
  }

  /** An occurrence of the pattern, replaced by something else, changes the string. */
  lemma {:induction false} ReplaceAllChanges(s: string, pat: string, rep: string)
    requires pat != [] && pat != rep && Contains(s, pat)
    ensures ReplaceAll(s, pat, rep) != s
    decreases |s|
  {
    var i: nat :| OccursAt(s, pat, i);
    if s[..|pat|] == pat {
      LeadingReplacementChanges(s, pat, rep);
    } else {
      assert !OccursAt(s, pat, 0);
      assert OccursAt(s[1..], pat, i - 1) by {
        assert s[1..][i - 1..i - 1 + |pat|] == s[i..i + |pat|];
      }
      ReplaceAllChanges(s[1..], pat, rep);
      assert ReplaceAll(s, pat, rep) == [s[0]] + ReplaceAll(s[1..], pat, rep);
      assert ReplaceAll(s, pat, rep)[1..] == ReplaceAll(s[1..], pat, rep);
    }
  }

  lemma LeadingReplacementChanges(s: string, pat: string, rep: string)
    requires pat != [] && pat != rep && |s| >= |pat| && s[..|pat|] == pat
    ensures ReplaceAll(s, pat, rep) != s
  {
    var rest := s[|pat|..];
    var r := ReplaceAll(s, pat, rep);
    assert r == rep + ReplaceAll(rest, pat, rep);
    ReplaceAllLength(rest, pat, rep);
    var c := Count(rest, pat);
    MulStep(c, |rep| - |pat|);
    if |rep| == |pat| {
      assert r[..|pat|] == rep;
      assert s[..|pat|] == pat;
    } else {
      MulNonZero(1 + c, |rep| - |pat|);
      assert |s| == |pat| + |rest|;
      assert |r| == |s| + (1 + c) * (|rep| - |pat|);
    }
  }

  lemma MulNonZero(a: int, b: int)
    requires a > 0 && b != 0
    ensures a * b != 0
  {
  }

  /**
   * A prefix that does not hold the first character of the pattern cannot
   * take part in any occurrence, so it is copied as it is.
   */
  lemma {:induction false} ReplaceAllSkipsPrefix(p: string, x: string, pat: string, rep: string)
    requires pat != [] && pat[0] !in p
    ensures ReplaceAll(p + x, pat, rep) == p + ReplaceAll(x, pat, rep)
    decreases |p|
  {
    if p == [] {
      assert p + x == x;
    } else {
      var s := p + x;
      assert s[0] == p[0] && s[1..] == p[1..] + x;
      assert pat[0] !in p[1..];
      ReplaceAllSkipsPrefix(p[1..], x, pat, rep);
      ReplaceAllWrongHead(s, pat, rep);
      assert p == [p[0]] + p[1..];
    }
  }

  /** A string whose first character does not start the pattern keeps that character. */
  lemma ReplaceAllWrongHead(s: string, pat: string, rep: string)
    requires pat != [] && s != [] && s[0] != pat[0]
    ensures ReplaceAll(s, pat, rep) == [s[0]] + ReplaceAll(s[1..], pat, rep)
  {
    if |s| < |pat| {
      assert |s[1..]| < |pat|;
      assert s == [s[0]] + s[1..];
    } else {
      assert s[..|pat|][0] == s[0];
    }
  }

  /** A string without the first character of the pattern holds no occurrence of it. */
  lemma NoHeadNoOccurrence(s: string, pat: string)
    requires pat != [] && pat[0] !in s
    ensures !Contains(s, pat)
  {
    if Contains(s, pat) {
      var i: nat :| OccursAt(s, pat, i);
      OccurrenceStartsWithHead(s, pat, i);
      assert false;
    }
  }

  /** A string that starts with the pattern has that occurrence replaced first. */
  lemma ReplaceAllLeading(x: string, pat: string, rep: string)
    requires pat != []
    ensures ReplaceAll(pat + x, pat, rep) == rep + ReplaceAll(x, pat, rep)
  {
    assert (pat + x)[..|pat|] == pat;
    assert (pat + x)[|pat|..] == x;
  }

  /** Appending an element adds one separator and the element. */
  lemma {:induction false} JoinAppend(elems: seq<string>, x: string, sep: string)
    requires |elems| > 0
    ensures Join(elems + [x], sep) == Join(elems, sep) + sep + x
    decreases |elems|
  {
    if |elems| == 1 {
      assert (elems + [x])[1..] == [x];
    } else {
      assert (elems + [x])[1..] == elems[1..] + [x];
      JoinAppend(elems[1..], x, sep);
    }
  }

  /** A single element is joined without any separator. */
  lemma JoinSingle(x: string, sep: string)
    ensures Join([x], sep) == x
  {
  }
}
