/**
 * `_extract_emails` after its re.findall: drop every candidate whose lower-case
 * form contains a noise marker, then drop repeats (`list(set(...))`).
 */
module Emails {
  import opened Text

  /** Substrings that mark placeholder addresses, image file names and tracking SDKs. */
  const NoiseMarkers: seq<string> := ["example.", "domain.", "email.", ".png", ".jpg", ".gif", "sentry.io"]

  predicate OccursAt(s: string, x: string, k: nat) {
    k + |x| <= |s| && s[k..k + |x|] == x
  }

  /** Python's `x in s` for strings. */
  predicate Contains(s: string, x: string) {
    exists k: nat :: k <= |s| && OccursAt(s, x, k)
  }

  predicate NoiseFree(e: string) {
    forall m :: m in NoiseMarkers ==> !Contains(Lower(e), m)
  }

  predicate Distinct(xs: seq<string>) {
    forall i, j :: 0 <= i < j < |xs| ==> xs[i] != xs[j]
  }

  /** The list comprehension: the noise-free candidates, in order. */
  function NoiseFiltered(candidates: seq<string>): (r: seq<string>)
    ensures forall e :: e in r <==> e in candidates && NoiseFree(e)
  {
    if candidates == [] then []
    else
      var rest := NoiseFiltered(candidates[..|candidates| - 1]);
      var last := candidates[|candidates| - 1];
      assert candidates == candidates[..|candidates| - 1] + [last];
      if NoiseFree(last) then rest + [last] else rest
  }

  /** One copy of each element, in order of first appearance. */
  function Dedup(xs: seq<string>): (r: seq<string>)
    ensures forall e :: e in r <==> e in xs
    ensures Distinct(r)
  {
    if xs == [] then []
    else
      var rest := Dedup(xs[..|xs| - 1]);
      var last := xs[|xs| - 1];
      assert xs == xs[..|xs| - 1] + [last];
      if last in rest then rest else rest + [last]
  }

  /**
   * `_extract_emails` on the list re.findall produced: every noise-free
   * candidate exactly once and nothing else. Python returns the set's
   * iteration order; this keeps the order of first appearance.
   */
  function ExtractEmails(candidates: seq<string>): (r: seq<string>)
    ensures forall e :: e in r ==> e in candidates && NoiseFree(e)
    ensures forall e :: e in candidates && NoiseFree(e) ==> e in r
    ensures Distinct(r)
  {
    Dedup(NoiseFiltered(candidates))
  }

  lemma {:induction false} NoiseFilteredClean(xs: seq<string>)
    requires forall e :: e in xs ==> NoiseFree(e)
    ensures NoiseFiltered(xs) == xs
  {
    if xs != [] {
      NoiseFilteredClean(xs[..|xs| - 1]);
      assert xs == xs[..|xs| - 1] + [xs[|xs| - 1]];
    }
  }

  lemma {:induction false} DedupDistinct(xs: seq<string>)
    requires Distinct(xs)
    ensures Dedup(xs) == xs
  {
    if xs != [] {
      var init := xs[..|xs| - 1];
      DedupDistinct(init);
      assert xs[|xs| - 1] !in init;
      assert xs == init + [xs[|xs| - 1]];
    }
  }

  /** Extracting from an extraction changes nothing. */
  lemma ExtractEmailsIdempotent(candidates: seq<string>)
    ensures ExtractEmails(ExtractEmails(candidates)) == ExtractEmails(candidates)
  {
    var r := ExtractEmails(candidates);
    NoiseFilteredClean(r);
    DedupDistinct(r);
  }
}
