/**
 * UKBusinessScraper.search: run the adapters of the requested sources in the
 * caller's order, swallow the exceptions of failing ones, concatenate their
 * records, keep the first record of each lower-cased, stripped name, and store
 * the result on the scraper.
 *
 * The web is a parameter `web` giving the outcome of requesting a page
 * parameter from a directory (the query and location are fixed for the call).
 */
module Search {
  import opened Wrappers
  import opened Text
  import opened Business
  import opened Adapters

  /** The sources searched when the caller names none. */
  const DefaultSources: seq<string> := ["yell", "freeindex"]

  /** `sources` when given, the defaults when None. */
  function SourceList(sources: Option<seq<string>>): seq<string> {
    if sources.Some? then sources.value else DefaultSources
  }

  /** The `source_methods` table: the directory behind each source identifier. */
  function Dispatch(id: string): Option<Directory> {
    if id == "yell" then Some(Yell)
    else if id == "google" then Some(GoogleMaps)
    else if id == "thomson" then Some(ThomsonLocal)
    else if id == "freeindex" then Some(FreeIndex)
    else if id == "yelp" then Some(YelpUK)
    else None
  }

  /** The identifier that selects each directory. */
  function SourceId(d: Directory): string {
    match d
    case Yell => "yell"
    case GoogleMaps => "google"
    case ThomsonLocal => "thomson"
    case FreeIndex => "freeindex"
    case YelpUK => "yelp"
  }

  /** The requests one directory's adapter makes, by page parameter. */
  function FetchOf(web: (Directory, int) -> PageOutcome, d: Directory): int -> PageOutcome {
    p => web(d, p)
  }

  /**
   * What the adapter of d returns or raises: the paging adapters get max_pages,
   * Google's single request (page parameter 0) gets max_results = max_pages * 10.
   */
  function RunSource(d: Directory, web: (Directory, int) -> PageOutcome, maxPages: int): Outcome {
    if d == GoogleMaps then GoogleOutcome(web(GoogleMaps, 0), maxPages * 10)
    else AdapterResult(d, FetchOf(web, d), maxPages)
  }

  /** What one entry of `sources` adds to all_businesses. */
  function Contribution(id: string, web: (Directory, int) -> PageOutcome, maxPages: int): seq<UKBusiness> {
    match Dispatch(id)
    case None => []
    case Some(d) =>
      match RunSource(d, web, maxPages)
      case Raised => []
      case Completed(records) => records
  }

  function ContributionOf(web: (Directory, int) -> PageOutcome, maxPages: int): string -> seq<UKBusiness> {
    id => Contribution(id, web, maxPages)
  }

  /** all_businesses after the loop over ids, each id adding run(id). */
  function Gathered(ids: seq<string>, run: string -> seq<UKBusiness>): seq<UKBusiness> {
    if ids == [] then [] else Gathered(ids[..|ids| - 1], run) + run(ids[|ids| - 1])
  }

  /** `biz.name.lower().strip()` */
  function NameKey(b: UKBusiness): string {
    Strip(Lower(b.name))
  }

  /** xs[k] is the first element of xs with its key, and the key is non-empty. */
  predicate FirstOfKey(key: UKBusiness -> string, xs: seq<UKBusiness>, k: nat)
    requires k < |xs|
  {
    key(xs[k]) != "" && forall j :: 0 <= j < k ==> key(xs[j]) != key(xs[k])
  }

  /** The first elements of each non-empty key among xs[..n], in order. */
  function FirstsUpTo(key: UKBusiness -> string, xs: seq<UKBusiness>, n: nat): seq<UKBusiness>
    requires n <= |xs|
  {
    if n == 0 then []
    else FirstsUpTo(key, xs, n - 1) + (if FirstOfKey(key, xs, n - 1) then [xs[n - 1]] else [])
  }

  /** The non-empty keys among xs[..n]. */
  function KeysUpTo(key: UKBusiness -> string, xs: seq<UKBusiness>, n: nat): set<string>
    requires n <= |xs|
  {
    if n == 0 then {}
    else KeysUpTo(key, xs, n - 1) + (if key(xs[n - 1]) != "" then {key(xs[n - 1])} else {})
  }

  /** What search returns for the concatenated records: the first record of each non-empty name key. */
  function Deduplicated(xs: seq<UKBusiness>): seq<UKBusiness> {
    FirstsUpTo(NameKey, xs, |xs|)
  }

  /** r can be had from xs by deleting elements. */
  predicate IsSubsequence<T(==)>(r: seq<T>, xs: seq<T>)
    decreases |xs|
  {
    if r == [] then true
    else if xs == [] then false
    else (r[|r| - 1] == xs[|xs| - 1] && IsSubsequence(r[..|r| - 1], xs[..|xs| - 1]))
         || IsSubsequence(r, xs[..|xs| - 1])
  }

  predicate DistinctKeys(key: UKBusiness -> string, r: seq<UKBusiness>) {
    forall i, j :: 0 <= i < j < |r| ==> key(r[i]) != key(r[j])
  }

  // ---------------------------------------------------------------- dispatch

  /** The table and SourceId are inverse: each identifier selects one directory and each directory has one identifier. */
  lemma DispatchInverse(id: string, d: Directory)
    ensures Dispatch(id) == Some(d) <==> SourceId(d) == id
  {
  }

  /** A record gathered comes from one of the sources, in the order of the sources. */
  lemma {:induction false} GatheredMembers(ids: seq<string>, run: string -> seq<UKBusiness>, b: UKBusiness)
    ensures b in Gathered(ids, run) <==> exists k :: 0 <= k < |ids| && b in run(ids[k])
  {
    if ids != [] {
      var init := ids[..|ids| - 1];
      GatheredMembers(init, run, b);
      if b in Gathered(init, run) {
        var k :| 0 <= k < |init| && b in run(init[k]);
        assert ids[k] == init[k];
      }
      if k :| 0 <= k < |ids| && b in run(ids[k]) {
        if k < |init| {
          assert init[k] == ids[k];
        }
      }
    }
  }

  /** Gathering over two lists of sources concatenates their records in that order. */
  lemma {:induction false} GatheredAppend(ids1: seq<string>, ids2: seq<string>, run: string -> seq<UKBusiness>)
    ensures Gathered(ids1 + ids2, run) == Gathered(ids1, run) + Gathered(ids2, run)
    decreases |ids2|
  {
    if ids2 == [] {
      assert ids1 + ids2 == ids1;
    } else {
      var init := ids2[..|ids2| - 1];
      assert (ids1 + ids2)[..|ids1 + ids2| - 1] == ids1 + init;
      GatheredAppend(ids1, init, run);
    }
  }

  /** A source that adds nothing leaves the records of every other source, before and after it, as they were. */
  lemma GatheredSkips(ids1: seq<string>, id: string, ids2: seq<string>, run: string -> seq<UKBusiness>)
    requires run(id) == []
    ensures Gathered(ids1 + [id] + ids2, run) == Gathered(ids1 + ids2, run)
  {
    GatheredAppend(ids1 + [id], ids2, run);
    GatheredAppend(ids1, [id], run);
    GatheredAppend(ids1, ids2, run);
    assert Gathered([id], run) == Gathered([], run) + run(id);
  }

  lemma NoContribution(id: string, web: (Directory, int) -> PageOutcome, maxPages: int)
    requires Dispatch(id).None? || RunSource(Dispatch(id).value, web, maxPages).Raised?
    ensures ContributionOf(web, maxPages)(id) == []
  {
  }

  /**
   * An unknown identifier, or a source whose adapter raises, adds nothing and
   * leaves the records of every other source, before and after it, as they were.
   */
  lemma SkippedSourceIgnored(ids1: seq<string>, id: string, ids2: seq<string>,
                             web: (Directory, int) -> PageOutcome, maxPages: int)
    requires Dispatch(id).None? || RunSource(Dispatch(id).value, web, maxPages).Raised?
    ensures Gathered(ids1 + [id] + ids2, ContributionOf(web, maxPages))
         == Gathered(ids1 + ids2, ContributionOf(web, maxPages))
  {
    NoContribution(id, web, maxPages);
    GatheredSkips(ids1, id, ids2, ContributionOf(web, maxPages));
  }

  lemma RunSourceRetained(d: Directory, web: (Directory, int) -> PageOutcome, maxPages: int)
    ensures RunSource(d, web, maxPages).Completed? ==>
      forall b :: b in RunSource(d, web, maxPages).records ==> Retained(d, b)
  {
    if d == GoogleMaps {
      var page := web(GoogleMaps, 0);
      if page.Fetched? {
        KeepRetained(GoogleMaps, SliceTo(Containers(page.primary, page.secondary), maxPages * 10));
      }
    } else {
      AdapterResultRetained(d, FetchOf(web, d), maxPages);
    }
  }

  /**
   * Every gathered record came from a known source named in ids, and carries
   * that adapter's tag, a clean non-empty name and a well-formed postcode.
   */
  lemma GatheredRetained(ids: seq<string>, web: (Directory, int) -> PageOutcome, maxPages: int, b: UKBusiness)
    requires b in Gathered(ids, ContributionOf(web, maxPages))
    ensures exists k :: 0 <= k < |ids| && Dispatch(ids[k]).Some? && Retained(Dispatch(ids[k]).value, b)
  {
    var run := ContributionOf(web, maxPages);
    GatheredMembers(ids, run, b);
    var k :| 0 <= k < |ids| && b in run(ids[k]);
    var d := Dispatch(ids[k]).value;
    RunSourceRetained(d, web, maxPages);
  }

  lemma CleanNameKey(b: UKBusiness)
    requires b.name != "" && Tidy(b.name)
    ensures NameKey(b) == Lower(b.name) && NameKey(b) != ""
  {
    var l := Lower(b.name);
    assert !IsSpace(l[0]) && !IsSpace(l[|l| - 1]);
    StripTrimmed(l);
  }

  /**
   * A gathered record's name key is its lower-cased name, never empty: the
   * adapters keep only cleaned, non-empty names, so the dedup's `strip` and
   * its emptiness test never change the outcome for them.
   */
  lemma GatheredNameKeys(ids: seq<string>, web: (Directory, int) -> PageOutcome, maxPages: int, b: UKBusiness)
    requires b in Gathered(ids, ContributionOf(web, maxPages))
    ensures NameKey(b) == Lower(b.name) && NameKey(b) != ""
  {
    GatheredRetained(ids, web, maxPages, b);
    CleanNameKey(b);
  }

  // ------------------------------------------------------------------- dedup

  lemma {:induction false} KeysUpToMembers(key: UKBusiness -> string, xs: seq<UKBusiness>, n: nat, s: string)
    requires n <= |xs|
    ensures s in KeysUpTo(key, xs, n) <==> s != "" && exists j :: 0 <= j < n && key(xs[j]) == s
  {
    if n > 0 {
      KeysUpToMembers(key, xs, n - 1, s);
    }
  }

  /** The element xs[n] is a first occurrence exactly when its key is non-empty and not among the earlier keys. */
  lemma FirstOfKeyBySeen(key: UKBusiness -> string, xs: seq<UKBusiness>, n: nat)
    requires n < |xs|
    ensures FirstOfKey(key, xs, n) <==> key(xs[n]) != "" && key(xs[n]) !in KeysUpTo(key, xs, n)
  {
    KeysUpToMembers(key, xs, n, key(xs[n]));
  }

  /** c is xs[k], the first record with its non-empty key. */
  predicate PickedAt(key: UKBusiness -> string, xs: seq<UKBusiness>, k: nat, c: UKBusiness)
    requires k < |xs|
  {
    FirstOfKey(key, xs, k) && xs[k] == c
  }

  /** The records kept are exactly the first occurrences of the non-empty keys. */
  lemma {:induction false} FirstsUpToMembers(key: UKBusiness -> string, xs: seq<UKBusiness>, n: nat, c: UKBusiness)
    requires n <= |xs|
    ensures c in FirstsUpTo(key, xs, n) <==> exists k :: 0 <= k < n && PickedAt(key, xs, k, c)
  {
    if n > 0 {
      FirstsUpToMembers(key, xs, n - 1, c);
      var r := FirstsUpTo(key, xs, n - 1);
      if FirstOfKey(key, xs, n - 1) {
        assert FirstsUpTo(key, xs, n) == r + [xs[n - 1]];
        if c == xs[n - 1] {
          assert PickedAt(key, xs, n - 1, c);
        }
      } else {
        assert FirstsUpTo(key, xs, n) == r;
        assert !PickedAt(key, xs, n - 1, c);
      }
    }
  }

  /** The kept records have non-empty, pairwise distinct keys, all among the keys of xs[..n]. */
  lemma {:induction false} FirstsUpToKeys(key: UKBusiness -> string, xs: seq<UKBusiness>, n: nat)
    requires n <= |xs|
    ensures forall c :: c in FirstsUpTo(key, xs, n) ==> key(c) != ""
    ensures DistinctKeys(key, FirstsUpTo(key, xs, n))
  {
    if n > 0 {
      var r := FirstsUpTo(key, xs, n - 1);
      FirstsUpToKeys(key, xs, n - 1);
      forall c | c in FirstsUpTo(key, xs, n) ensures key(c) != "" {
        FirstsUpToMembers(key, xs, n, c);
      }
      if FirstOfKey(key, xs, n - 1) {
        forall i | 0 <= i < |r| ensures key(r[i]) != key(xs[n - 1]) {
          FirstsUpToMembers(key, xs, n - 1, r[i]);
        }
        assert FirstsUpTo(key, xs, n) == r + [xs[n - 1]];
      }
    }
  }

  /** The kept records appear in xs[..n] in the same order. */
  lemma {:induction false} FirstsUpToSubsequence(key: UKBusiness -> string, xs: seq<UKBusiness>, n: nat)
    requires n <= |xs|
    ensures IsSubsequence(FirstsUpTo(key, xs, n), xs[..n])
  {
    if n > 0 {
      FirstsUpToSubsequence(key, xs, n - 1);
      var r := FirstsUpTo(key, xs, n - 1);
      assert xs[..n][..n - 1] == xs[..n - 1];
      var ys := xs[..n];
      if FirstOfKey(key, xs, n - 1) {
        var r' := r + [xs[n - 1]];
        assert FirstsUpTo(key, xs, n) == r';
        assert r'[..|r'| - 1] == r && r'[|r'| - 1] == ys[|ys| - 1];
        assert IsSubsequence(r'[..|r'| - 1], ys[..|ys| - 1]);
      } else if r != [] {
        assert FirstsUpTo(key, xs, n) == r;
        assert ys[..|ys| - 1] == xs[..n - 1];
        assert IsSubsequence(r, ys[..|ys| - 1]);
      }
    }
  }

  /**
   * What search's dedup promises: the result is a subsequence of the input;
   * its names have non-empty, pairwise distinct keys; a record is kept exactly
   * when it is the first with its non-empty key; so every non-empty key of the
   * input is represented, by its first record.
   */
  lemma DeduplicatedSpec(xs: seq<UKBusiness>)
    ensures IsSubsequence(Deduplicated(xs), xs)
    ensures forall c :: c in Deduplicated(xs) ==> NameKey(c) != ""
    ensures DistinctKeys(NameKey, Deduplicated(xs))
    ensures forall k :: 0 <= k < |xs| && FirstOfKey(NameKey, xs, k) ==> xs[k] in Deduplicated(xs)
    ensures forall c :: c in Deduplicated(xs) ==> exists k :: 0 <= k < |xs| && PickedAt(NameKey, xs, k, c)
  {
    FirstsUpToSubsequence(NameKey, xs, |xs|);
    assert xs[..|xs|] == xs;
    FirstsUpToKeys(NameKey, xs, |xs|);
    forall k | 0 <= k < |xs| && FirstOfKey(NameKey, xs, k) ensures xs[k] in Deduplicated(xs) {
      FirstsUpToMembers(NameKey, xs, |xs|, xs[k]);
      assert PickedAt(NameKey, xs, k, xs[k]);
    }
    forall c | c in Deduplicated(xs) ensures exists k :: 0 <= k < |xs| && PickedAt(NameKey, xs, k, c) {
      FirstsUpToMembers(NameKey, xs, |xs|, c);
    }
  }

  /** Every non-empty name key of the input has a record in the result, and that record comes first in the input. */
  lemma DeduplicatedCovers(xs: seq<UKBusiness>, k: nat)
    requires k < |xs| && NameKey(xs[k]) != ""
    ensures exists j :: 0 <= j <= k && NameKey(xs[j]) == NameKey(xs[k]) && xs[j] in Deduplicated(xs)
  {
    var j := EarliestWithKey(xs, k);
    DeduplicatedSpec(xs);
  }

  /** The first index whose record has the key of xs[k]. */
  function EarliestWithKey(xs: seq<UKBusiness>, k: nat): (j: nat)
    requires k < |xs| && NameKey(xs[k]) != ""
    ensures j <= k && NameKey(xs[j]) == NameKey(xs[k]) && FirstOfKey(NameKey, xs, j)
  {
    if exists i :: 0 <= i < k && NameKey(xs[i]) == NameKey(xs[k]) then
      var i :| 0 <= i < k && NameKey(xs[i]) == NameKey(xs[k]);
      EarliestWithKey(xs, i)
    else k
  }

  /** Deduplicating a deduplicated list changes nothing. */
  lemma DeduplicatedIdempotent(xs: seq<UKBusiness>)
    ensures Deduplicated(Deduplicated(xs)) == Deduplicated(xs)
  {
    var r := Deduplicated(xs);
    DeduplicatedSpec(xs);
    FirstsOfDistinct(NameKey, r, |r|);
  }

  lemma {:induction false} FirstsOfDistinct(key: UKBusiness -> string, r: seq<UKBusiness>, n: nat)
    requires n <= |r|
    requires forall c :: c in r ==> key(c) != ""
    requires DistinctKeys(key, r)
    ensures FirstsUpTo(key, r, n) == r[..n]
  {
    if n > 0 {
      FirstsOfDistinct(key, r, n - 1);
      assert FirstOfKey(key, r, n - 1);
      assert r[..n] == r[..n - 1] + [r[n - 1]];
    }
  }

  // ----------------------------------------------------------------- methods

  /** `source_methods[source]()` for a known source. */
  method RunAdapter(d: Directory, web: (Directory, int) -> PageOutcome, maxPages: int) returns (outcome: Outcome)
    ensures outcome == RunSource(d, web, maxPages)
  {
    if d == GoogleMaps {
      outcome := ScrapeGoogleMaps(web(GoogleMaps, 0), maxPages * 10);
    } else {
      var requested;
      outcome, requested := Paginate(d, Builder(d), FetchOf(web, d), maxPages);
    }
  }

  /** The loop over sources that fills all_businesses. */
  method Gather(ids: seq<string>, web: (Directory, int) -> PageOutcome, maxPages: int) returns (all: seq<UKBusiness>)
    ensures all == Gathered(ids, ContributionOf(web, maxPages))
  {
    all := [];
    for i := 0 to |ids|
      invariant all == Gathered(ids[..i], ContributionOf(web, maxPages))
    {
      assert ids[..i + 1][..i] == ids[..i];
      var source := Dispatch(ids[i]);
      if source.Some? {
        var outcome := RunAdapter(source.value, web, maxPages);
        if outcome.Completed? {
          all := all + outcome.records;
        }
        // else: `except Exception: pass`
      }
    }
    assert ids[..|ids|] == ids;
  }

  /** The dedup loop: a `seen` set of name keys and the list of first records. */
  method DedupByName(all: seq<UKBusiness>) returns (unique: seq<UKBusiness>)
    ensures unique == Deduplicated(all)
  {
    var seen: set<string> := {};
    unique := [];
    for i := 0 to |all|
      invariant seen == KeysUpTo(NameKey, all, i)
      invariant unique == FirstsUpTo(NameKey, all, i)
    {
      var nameLower := Strip(Lower(all[i].name));
      FirstOfKeyBySeen(NameKey, all, i);
      if nameLower != "" && nameLower !in seen {
        seen := seen + {nameLower};
        unique := unique + [all[i]];
      }
    }
  }

  /** The scraper object; `results` holds what the last search returned. */
  class Scraper {
    var results: seq<UKBusiness>

    constructor()
      ensures results == []
    {
      results := [];
    }

    /** `search`: gather the sources' records, keep the first per name key, store and return them. */
    method Search(sources: Option<seq<string>>, maxPages: int, web: (Directory, int) -> PageOutcome)
      returns (unique: seq<UKBusiness>)
      modifies this
      ensures unique == Deduplicated(Gathered(SourceList(sources), ContributionOf(web, maxPages)))
      ensures results == unique
    {
      var ids := if sources.Some? then sources.value else DefaultSources;
      var all := Gather(ids, web, maxPages);
      unique := DedupByName(all);
      results := unique;
    }
  }
}
