/**
 * `_extract_uk_postcode`: the first match of the pattern
 * [A-Z]{1,2}\d[A-Z\d]?\s*\d[A-Z]{2} (case-insensitive), uppercased, or "".
 *
 * PatternAt states in one formula, stage by stage, what the pattern accepts;
 * MatchAt is the backtracking matcher that re.search runs at one position,
 * proved to find a match exactly when there is one; ExtractPostcode scans
 * left to right.
 */
module Postcode {
  import opened Wrappers
  import opened Text

  /** [A-Z] under re.IGNORECASE. */
  predicate IsLetter(c: char) {
    'A' <= c <= 'Z' || 'a' <= c <= 'z'
  }

  /** \d */
  predicate IsDigit(c: char) {
    '0' <= c <= '9'
  }

  /** [A-Z\d] under re.IGNORECASE. */
  predicate IsLetterOrDigit(c: char) {
    IsLetter(c) || IsDigit(c)
  }

  predicate SpacesBetween(s: string, a: int, b: int)
    requires 0 <= a && b <= |s|
  {
    forall k :: a <= k < b ==> IsSpace(s[k])
  }

  /** \s*\d[A-Z]{2} matches s[q..j]. */
  predicate TailAt(s: string, q: nat, j: nat) {
    q + 3 <= j <= |s| && SpacesBetween(s, q, j - 3)
    && IsDigit(s[j - 3]) && IsLetter(s[j - 2]) && IsLetter(s[j - 1])
  }

  /** \d[A-Z\d]?\s*\d[A-Z]{2} matches s[p..j]. */
  predicate HeadAt(s: string, p: nat, j: nat) {
    p < |s| && IsDigit(s[p])
    && (TailAt(s, p + 1, j) || (p + 1 < |s| && IsLetterOrDigit(s[p + 1]) && TailAt(s, p + 2, j)))
  }

  /** [A-Z]{1,2}\d[A-Z\d]?\s*\d[A-Z]{2} matches s[i..j], ignoring case. */
  predicate PatternAt(s: string, i: nat, j: nat) {
    i < |s| && IsLetter(s[i])
    && (HeadAt(s, i + 1, j) || (i + 1 < |s| && IsLetter(s[i + 1]) && HeadAt(s, i + 2, j)))
  }

  /** The whole of t matches the pattern. */
  predicate IsPostcode(t: string) {
    PatternAt(t, 0, |t|)
  }

  /** No match of the pattern starts at a position in [lo, hi). */
  ghost predicate NoMatchFrom(s: string, lo: nat, hi: int) {
    forall a: nat, b: nat :: lo <= a < hi && a <= b <= |s| ==> !PatternAt(s, a, b)
  }

  /** Where the greedy \s* that starts at k stops. */
  function SpaceRunEnd(s: string, k: nat): (e: nat)
    requires k <= |s|
    ensures k <= e <= |s| && SpacesBetween(s, k, e)
    ensures e == |s| || !IsSpace(s[e])
    decreases |s| - k
  {
    if k < |s| && IsSpace(s[k]) then SpaceRunEnd(s, k + 1) else k
  }

  /**
   * \s*\d[A-Z]{2} at q, returning where the match ends. Giving back characters
   * of the greedy \s* never helps, since \d does not match whitespace.
   */
  function MatchInward(s: string, q: nat): (r: Option<nat>)
    requires q <= |s|
    ensures r.Some? ==> q + 3 <= r.value <= |s|
  {
    var e := SpaceRunEnd(s, q);
    if e + 3 <= |s| && IsDigit(s[e]) && IsLetter(s[e + 1]) && IsLetter(s[e + 2])
    then Some(e + 3)
    else None
  }

  /** \d[A-Z\d]?\s*\d[A-Z]{2} at p; the greedy ? tries the optional character first. */
  function MatchAfterLetters(s: string, p: nat): (r: Option<nat>)
    requires p <= |s|
    ensures r.Some? ==> p + 4 <= r.value <= |s|
  {
    if p < |s| && IsDigit(s[p]) then
      if p + 1 < |s| && IsLetterOrDigit(s[p + 1]) && MatchInward(s, p + 2).Some?
      then MatchInward(s, p + 2)
      else MatchInward(s, p + 1)
    else None
  }

  /** The pattern anchored at i; the greedy {1,2} tries two letters before one. */
  function MatchAt(s: string, i: nat): (r: Option<nat>)
    requires i <= |s|
    ensures r.Some? ==> i + 5 <= r.value <= |s|
  {
    if i + 1 < |s| && IsLetter(s[i]) && IsLetter(s[i + 1]) && MatchAfterLetters(s, i + 2).Some?
    then MatchAfterLetters(s, i + 2)
    else if i < |s| && IsLetter(s[i]) then MatchAfterLetters(s, i + 1)
    else None
  }

  /** re.search: the match found at the leftmost position from i on. */
  function FirstMatch(s: string, i: nat): (r: Option<(nat, nat)>)
    requires i <= |s|
    ensures r.Some? ==> i <= r.value.0 && r.value.0 + 5 <= r.value.1 <= |s|
    decreases |s| - i
  {
    match MatchAt(s, i)
    case Some(j) => Some((i, j))
    case None => if i == |s| then None else FirstMatch(s, i + 1)
  }

  /** `_extract_uk_postcode` */
  function ExtractPostcode(text: string): string {
    match FirstMatch(text, 0)
    case Some((a, b)) => Upper(text[a..b])
    case None => ""
  }

  /** No lower-case ASCII letter. */
  predicate IsUpperCase(t: string) {
    forall k :: 0 <= k < |t| ==> !('a' <= t[k] <= 'z')
  }

  lemma DigitsAndLettersAreNotSpace(c: char)
    ensures IsLetterOrDigit(c) ==> !IsSpace(c)
  {
  }

  lemma {:induction false} SpaceRunEndAt(s: string, k: nat, e: nat)
    requires k <= e < |s| && SpacesBetween(s, k, e) && !IsSpace(s[e])
    ensures SpaceRunEnd(s, k) == e
    decreases e - k
  {
    if k < e {
      SpaceRunEndAt(s, k + 1, e);
    }
  }

  /** MatchInward finds exactly the end of the \s*\d[A-Z]{2} match at q. */
  lemma MatchInwardExact(s: string, q: nat, j: nat)
    requires q <= |s|
    ensures MatchInward(s, q) == Some(j) <==> TailAt(s, q, j)
  {
    if TailAt(s, q, j) {
      DigitsAndLettersAreNotSpace(s[j - 3]);
      SpaceRunEndAt(s, q, j - 3);
    }
  }

  /** MatchAfterLetters finds exactly the end of the \d[A-Z\d]?\s*\d[A-Z]{2} match at p. */
  lemma MatchAfterLettersExact(s: string, p: nat, j: nat)
    requires p <= |s|
    ensures MatchAfterLetters(s, p) == Some(j) <==> HeadAt(s, p, j)
  {
    if p < |s| && IsDigit(s[p]) {
      MatchInwardExact(s, p + 1, j);
      if p + 1 < |s| {
        MatchInwardExact(s, p + 2, j);
        if IsLetterOrDigit(s[p + 1]) && MatchInward(s, p + 2).Some? {
          var j2 := MatchInward(s, p + 2).value;
          MatchInwardExact(s, p + 2, j2);
          if TailAt(s, p + 1, j) {
            // s[p + 1] is not whitespace, so the tail's digit is s[p + 1] and s[p + 2] is a letter
            DigitsAndLettersAreNotSpace(s[p + 1]);
            DigitsAndLettersAreNotSpace(s[p + 2]);
            assert false;
          }
        }
      }
    }
  }

  /** MatchAt finds exactly the end of the match of the pattern that starts at i, if any. */
  lemma MatchAtExact(s: string, i: nat, j: nat)
    requires i <= |s|
    ensures MatchAt(s, i) == Some(j) <==> PatternAt(s, i, j)
  {
    if i < |s| && IsLetter(s[i]) {
      MatchAfterLettersExact(s, i + 1, j);
      if i + 1 < |s| {
        MatchAfterLettersExact(s, i + 2, j);
      }
    }
  }

  /** The matcher finds nothing at any position in [lo, hi). */
  ghost predicate NoHitFrom(s: string, lo: nat, hi: int) {
    forall a: nat :: lo <= a < hi && a <= |s| ==> MatchAt(s, a).None?
  }

  lemma {:induction false} FirstMatchScan(s: string, i: nat)
    requires i <= |s|
    ensures FirstMatch(s, i).Some? ==>
      MatchAt(s, FirstMatch(s, i).value.0) == Some(FirstMatch(s, i).value.1)
      && NoHitFrom(s, i, FirstMatch(s, i).value.0)
    ensures FirstMatch(s, i).None? ==> NoHitFrom(s, i, |s| + 1)
    decreases |s| - i
  {
    if MatchAt(s, i).None? && i < |s| {
      FirstMatchScan(s, i + 1);
    }
  }

  lemma NoHitNoMatch(s: string, lo: nat, hi: int)
    requires NoHitFrom(s, lo, hi)
    ensures NoMatchFrom(s, lo, hi)
  {
    forall a: nat, b: nat | lo <= a < hi && a <= b <= |s| ensures !PatternAt(s, a, b) {
      MatchAtExact(s, a, b);
    }
  }

  /** FirstMatch finds the leftmost match from i on, and none when there is none. */
  lemma FirstMatchLeftmost(s: string, i: nat)
    requires i <= |s|
    ensures FirstMatch(s, i).Some? ==>
      var (a, b) := FirstMatch(s, i).value;
      PatternAt(s, a, b) && NoMatchFrom(s, i, a)
    ensures FirstMatch(s, i).None? ==> NoMatchFrom(s, i, |s| + 1)
  {
    FirstMatchScan(s, i);
    match FirstMatch(s, i)
    case Some((a, b)) =>
      MatchAtExact(s, a, b);
      NoHitNoMatch(s, i, a);
    case None =>
      NoHitNoMatch(s, i, |s| + 1);
  }

  /** u has the letters, digits and whitespace of s[i..i + |u|], position by position. */
  predicate SameClasses(u: string, s: string, i: nat) {
    i + |u| <= |s|
    && forall k :: 0 <= k < |u| ==>
         IsLetter(u[k]) == IsLetter(s[i + k]) && IsDigit(u[k]) == IsDigit(s[i + k])
         && IsSpace(u[k]) == IsSpace(s[i + k])
  }

  lemma TailTransfer(u: string, s: string, i: nat, q: nat, j: nat)
    requires SameClasses(u, s, i) && j <= |u|
    ensures TailAt(u, q, j) <==> TailAt(s, q + i, j + i)
  {
    if q + 3 <= j {
      assert SpacesBetween(u, q, j - 3) <==> SpacesBetween(s, q + i, j + i - 3) by {
        forall k | q <= k < j - 3 ensures IsSpace(u[k]) == IsSpace(s[k + i]) {
          assert s[i + k] == s[k + i];
        }
        if SpacesBetween(u, q, j - 3) {
          forall k | q + i <= k < j + i - 3 ensures IsSpace(s[k]) {
            assert IsSpace(u[k - i]);
          }
        }
      }
      assert s[i + (j - 3)] == s[j + i - 3];
      assert s[i + (j - 2)] == s[j + i - 2];
      assert s[i + (j - 1)] == s[j + i - 1];
    }
  }

  lemma HeadTransfer(u: string, s: string, i: nat, p: nat, j: nat)
    requires SameClasses(u, s, i) && j <= |u|
    ensures HeadAt(u, p, j) <==> HeadAt(s, p + i, j + i)
  {
    TailTransfer(u, s, i, p + 1, j);
    TailTransfer(u, s, i, p + 2, j);
    if p + 1 < |u| {
      assert s[i + p] == s[p + i] && s[i + (p + 1)] == s[p + i + 1];
    } else if p < |u| {
      assert s[i + p] == s[p + i];
    }
  }

  /** Whether the pattern matches depends only on which characters are letters, digits and whitespace. */
  lemma PatternTransfer(u: string, s: string, i: nat, j: nat)
    requires SameClasses(u, s, i) && j <= |u|
    ensures PatternAt(u, 0, j) <==> PatternAt(s, i, j + i)
  {
    HeadTransfer(u, s, i, 1, j);
    HeadTransfer(u, s, i, 2, j);
    if 1 < |u| {
      assert s[i + 1] == s[1 + i];
    }
    if 0 < |u| {
      assert s[i + 0] == s[i];
    }
  }

  /** A match at s[a..b] is a postcode as a string of its own. */
  lemma PatternAtSlice(s: string, a: nat, b: nat)
    requires a <= b <= |s|
    ensures PatternAt(s, a, b) <==> IsPostcode(s[a..b])
  {
    var t := s[a..b];
    assert SameClasses(t, s, a) by {
      forall k | 0 <= k < |t| ensures t[k] == s[a + k] { }
    }
    PatternTransfer(t, s, a, |t|);
  }

  lemma UpperClasses(t: string)
    ensures SameClasses(Upper(t), t, 0)
    ensures IsUpperCase(Upper(t))
  {
    var u := Upper(t);
    forall k | 0 <= k < |u|
      ensures IsLetter(u[k]) == IsLetter(t[0 + k]) && IsDigit(u[k]) == IsDigit(t[0 + k])
      ensures IsSpace(u[k]) == IsSpace(t[0 + k])
    {
      assert t[0 + k] == t[k];
    }
  }

  /** Uppercasing keeps a match a match, and makes it upper case. */
  lemma UpperKeepsPostcode(t: string)
    requires IsPostcode(t)
    ensures IsPostcode(Upper(t)) && IsUpperCase(Upper(t))
  {
    UpperClasses(t);
    PatternTransfer(Upper(t), t, 0, |t|);
  }

  /** `_extract_uk_postcode` returns "" exactly when no part of the text matches the pattern. */
  lemma ExtractPostcodeEmpty(text: string)
    ensures ExtractPostcode(text) == "" <==> NoMatchFrom(text, 0, |text| + 1)
  {
    FirstMatchLeftmost(text, 0);
    if FirstMatch(text, 0).Some? {
      var (a, b) := FirstMatch(text, 0).value;
      assert |ExtractPostcode(text)| == b - a;
      assert !NoMatchFrom(text, 0, |text| + 1) by {
        assert PatternAt(text, a, b);
      }
    }
  }

  /**
   * When a match spans text[a..b] and none starts earlier,
   * `_extract_uk_postcode` returns that match uppercased: the leftmost match
   * wins, and no other match starts at the same place.
   */
  lemma ExtractPostcodeLeftmost(text: string, a: nat, b: nat)
    requires a <= b <= |text| && PatternAt(text, a, b) && NoMatchFrom(text, 0, a)
    ensures ExtractPostcode(text) == Upper(text[a..b])
  {
    FirstMatchLeftmost(text, 0);
    match FirstMatch(text, 0)
    case None =>
      assert false;
    case Some((a', b')) =>
      assert a' == a;
      MatchAtExact(text, a, b);
      MatchAtExact(text, a, b');
  }

  /** A non-empty result of `_extract_uk_postcode` matches the pattern and is upper case. */
  lemma ExtractPostcodeShape(text: string)
    ensures ExtractPostcode(text) != "" ==>
      IsPostcode(ExtractPostcode(text)) && IsUpperCase(ExtractPostcode(text))
  {
    FirstMatchLeftmost(text, 0);
    if FirstMatch(text, 0).Some? {
      var (a, b) := FirstMatch(text, 0).value;
      PatternAtSlice(text, a, b);
      UpperKeepsPostcode(text[a..b]);
    }
  }
}
