/**
 * The source adapters' control flow: the page loop of scrape_yell,
 * scrape_freeindex, scrape_thomson_local and scrape_yelp_uk, the single page of
 * scrape_google_maps, and the per-listing loop they share. The network is a
 * parameter `fetch` that gives the outcome of requesting a page parameter.
 */
module Adapters {
  import opened Wrappers
  import opened Business

  /** One listing container: what its fields yielded, or Broken when processing it raised. */
  datatype Listing = Parsed(fields: Extracted) | Broken

  /**
   * What requesting one result page gives:
   * TransportError: requests.RequestException (network failure, timeout, error status);
   * Crashed: any other exception while handling the page, which escapes the adapter;
   * Fetched: the containers found by the primary and by the secondary selector.
   */
  datatype PageOutcome =
    | TransportError
    | Crashed
    | Fetched(primary: seq<Listing>, secondary: seq<Listing>)

  /** What an adapter call gives its caller: its records, or an exception. */
  datatype Outcome = Completed(records: seq<UKBusiness>) | Raised

  /** `soup.select(primary) or soup.select(secondary)` */
  function Containers(primary: seq<Listing>, secondary: seq<Listing>): seq<Listing> {
    if |primary| > 0 then primary else secondary
  }

  /** The directories whose adapter pages through results. */
  type PagedDirectory = d: Directory | d != GoogleMaps witness Yell

  /**
   * The page parameter of the k-th request (k from 0): pageNum/p/page = k + 1
   * for Yell, FreeIndex and Thomson Local; start = page * 10 with page = k for Yelp.
   */
  function PageParam(d: PagedDirectory, k: nat): int {
    if d == YelpUK then k * 10 else k + 1
  }

  /** Whether a page without listing containers ends pagination (`if not listings: break`). */
  predicate StopsOnEmpty(d: PagedDirectory) {
    d != YelpUK
  }

  /** The loop goes on to the next page after this outcome. */
  predicate Continues(d: PagedDirectory, o: PageOutcome) {
    o.Fetched? && (|Containers(o.primary, o.secondary)| > 0 || !StopsOnEmpty(d))
  }

  /** The loop goes on after page k (counted from 0). */
  predicate GoesOnAfter(d: PagedDirectory, fetch: int -> PageOutcome, k: nat) {
    Continues(d, fetch(PageParam(d, k)))
  }

  /**
   * The step each adapter runs on one listing container: fill a record from
   * what the container yielded. The adapters share everything around it.
   */
  function Builder(d: Directory): Extracted -> UKBusiness {
    x => Build(d, x)
  }

  /** What one listing contributes: its record when the name is non-empty. */
  function KeptFrom(build: Extracted -> UKBusiness, l: Listing): seq<UKBusiness> {
    match l
    case Broken => []
    case Parsed(x) =>
      var b := build(x);
      if b.name != "" then [b] else []
  }

  /** The records the per-listing loop keeps from a page's containers. */
  function Keep(build: Extracted -> UKBusiness, listings: seq<Listing>): (r: seq<UKBusiness>)
    ensures |r| <= |listings|
  {
    if listings == [] then []
    else Keep(build, listings[..|listings| - 1]) + KeptFrom(build, listings[|listings| - 1])
  }

  /** The per-listing loop with the given build step, as a function of a page's containers. */
  function KeepBy(build: Extracted -> UKBusiness): seq<Listing> -> seq<UKBusiness> {
    listings => Keep(build, listings)
  }

  /** The listing containers of a page, none when it did not load. */
  function ListingsOf(o: PageOutcome): seq<Listing> {
    if o.Fetched? then Containers(o.primary, o.secondary) else []
  }

  /**
   * What the page loop of d returns or raises when it reaches page k of n
   * (counted from 0) holding the records `gathered` so far; `keep` is the
   * per-listing loop, giving the records kept from a page's containers.
   */
  function PageLoop(d: PagedDirectory, keep: seq<Listing> -> seq<UKBusiness>, fetch: int -> PageOutcome,
                    k: nat, n: int, gathered: seq<UKBusiness>): Outcome
    decreases n - k
  {
    if n <= k then Completed(gathered)
    else
      match fetch(PageParam(d, k))
      case TransportError => Completed(gathered)
      case Crashed => Raised
      case Fetched(primary, secondary) =>
        var listings := Containers(primary, secondary);
        if |listings| == 0 && StopsOnEmpty(d) then Completed(gathered)
        else PageLoop(d, keep, fetch, k + 1, n, gathered + keep(listings))
  }

  /** What the paging adapter of d called with max_pages = n returns or raises. */
  function AdapterResult(d: PagedDirectory, fetch: int -> PageOutcome, n: int): Outcome {
    PageLoop(d, KeepBy(Builder(d)), fetch, 0, n, [])
  }

  /** The records of the first k pages, page after page. */
  function RecordsBefore(d: PagedDirectory, keep: seq<Listing> -> seq<UKBusiness>, fetch: int -> PageOutcome, k: nat): seq<UKBusiness> {
    if k == 0 then [] else RecordsBefore(d, keep, fetch, k - 1) + keep(ListingsOf(fetch(PageParam(d, k - 1))))
  }

  /** Python's `xs[:m]`: a negative m counts from the end. */
  function SliceTo<T>(xs: seq<T>, m: int): (r: seq<T>)
    ensures |r| <= |xs| && r == xs[..|r|]
    ensures m >= 0 ==> |r| == if m < |xs| then m else |xs|
    ensures m < 0 ==> |r| == if |xs| + m > 0 then |xs| + m else 0
  {
    if m >= 0 then (if m < |xs| then xs[..m] else xs)
    else if |xs| + m > 0 then xs[..|xs| + m] else []
  }

  /** What scrape_google_maps returns for the outcome of its one request. */
  function GoogleOutcome(page: PageOutcome, maxResults: int): Outcome {
    match page
    case TransportError => Completed([])
    case Crashed => Raised
    case Fetched(primary, secondary) =>
      Completed(Keep(Builder(GoogleMaps), SliceTo(Containers(primary, secondary), maxResults)))
  }

  /** Listing l gives the record b: it parsed, b is what the build step made of it, and b has a name. */
  predicate Yields(build: Extracted -> UKBusiness, l: Listing, b: UKBusiness) {
    l.Parsed? && build(l.fields) == b && b.name != ""
  }

  /** A record is kept exactly when some listing of the page yields it. */
  lemma {:induction false} KeepMembers(build: Extracted -> UKBusiness, listings: seq<Listing>, b: UKBusiness)
    ensures b in Keep(build, listings) <==> exists k :: 0 <= k < |listings| && Yields(build, listings[k], b)
  {
    if listings != [] {
      var init, last := listings[..|listings| - 1], listings[|listings| - 1];
      KeepMembers(build, init, b);
      assert b in KeptFrom(build, last) <==> Yields(build, last, b);
      if b in Keep(build, init) {
        var k :| 0 <= k < |init| && Yields(build, init[k], b);
        assert listings[k] == init[k];
      }
      if k :| 0 <= k < |listings| && Yields(build, listings[k], b) {
        if k < |init| {
          assert init[k] == listings[k];
        }
      }
    }
  }

  /** Every record kept from a page has a clean name, the adapter's tag and a well-formed postcode. */
  lemma {:induction false} KeepRetained(d: Directory, listings: seq<Listing>)
    ensures forall b :: b in Keep(Builder(d), listings) ==> Retained(d, b)
  {
    forall b | b in Keep(Builder(d), listings) ensures Retained(d, b) {
      KeepMembers(Builder(d), listings, b);
      var k :| 0 <= k < |listings| && Yields(Builder(d), listings[k], b);
      BuildRetained(d, listings[k].fields);
    }
  }

  lemma {:induction false} PageLoopRetained(d: PagedDirectory, fetch: int -> PageOutcome, k: nat, n: int, gathered: seq<UKBusiness>)
    requires forall b :: b in gathered ==> Retained(d, b)
    ensures PageLoop(d, KeepBy(Builder(d)), fetch, k, n, gathered).Completed? ==>
      forall b :: b in PageLoop(d, KeepBy(Builder(d)), fetch, k, n, gathered).records ==> Retained(d, b)
    decreases n - k
  {
    if k < n && fetch(PageParam(d, k)).Fetched? {
      var o := fetch(PageParam(d, k));
      var listings := Containers(o.primary, o.secondary);
      KeepRetained(d, listings);
      PageLoopRetained(d, fetch, k + 1, n, gathered + Keep(Builder(d), listings));
    }
  }

  /**
   * Every record a paging adapter returns has a non-empty clean name, the
   * adapter's fixed source tag, an empty or upper-case postcode, and no
   * field the adapter does not read.
   */
  lemma AdapterResultRetained(d: PagedDirectory, fetch: int -> PageOutcome, n: int)
    ensures AdapterResult(d, fetch, n).Completed? ==>
      forall b :: b in AdapterResult(d, fetch, n).records ==> Retained(d, b)
  {
    PageLoopRetained(d, fetch, 0, n, []);
  }

  /** Once pages 0..k-1 have all let the loop go on, it is at page k holding their records. */
  lemma {:induction false} PageLoopReaches(d: PagedDirectory, keep: seq<Listing> -> seq<UKBusiness>, fetch: int -> PageOutcome, k: nat, n: int)
    requires k <= n
    requires forall p :: 0 <= p < k ==> GoesOnAfter(d, fetch, p)
    ensures PageLoop(d, keep, fetch, 0, n, []) == PageLoop(d, keep, fetch, k, n, RecordsBefore(d, keep, fetch, k))
  {
    if k > 0 {
      var j: nat := k - 1;
      PageLoopReaches(d, keep, fetch, j, n);
      assert GoesOnAfter(d, fetch, j);
    }
  }

  /**
   * Pagination ends at the first page that fails to load or, except on Yelp,
   * has no listing containers: the adapter returns the records of the pages
   * before it, exactly what it would have returned had max_pages stopped
   * before that page, and later pages play no part. A page whose handling
   * raises something else makes the call raise.
   */
  lemma {:induction false} CrawlStopsAtFirstFailure(d: PagedDirectory, fetch: int -> PageOutcome, k: nat, n: int)
    requires k < n
    requires forall p :: 0 <= p < k ==> GoesOnAfter(d, fetch, p)
    requires !GoesOnAfter(d, fetch, k)
    ensures fetch(PageParam(d, k)).Crashed? ==> AdapterResult(d, fetch, n) == Raised
    ensures !fetch(PageParam(d, k)).Crashed? ==>
      AdapterResult(d, fetch, n) == Completed(RecordsBefore(d, KeepBy(Builder(d)), fetch, k))
      && AdapterResult(d, fetch, n) == AdapterResult(d, fetch, k)
  {
    PageLoopReaches(d, KeepBy(Builder(d)), fetch, k, n);
    PageLoopReaches(d, KeepBy(Builder(d)), fetch, k, k);
  }

  /**
   * Yelp has no stop on an empty page: after a page without containers the
   * loop goes on with the next page, holding no more records than before.
   */
  lemma {:induction false} YelpContinuesPastEmptyPage(fetch: int -> PageOutcome, k: nat, n: int)
    requires k < n
    requires forall p :: 0 <= p < k ==> GoesOnAfter(YelpUK, fetch, p)
    requires fetch(PageParam(YelpUK, k)).Fetched?
    requires ListingsOf(fetch(PageParam(YelpUK, k))) == []
    ensures AdapterResult(YelpUK, fetch, n)
         == PageLoop(YelpUK, KeepBy(Builder(YelpUK)), fetch, k + 1, n, RecordsBefore(YelpUK, KeepBy(Builder(YelpUK)), fetch, k))
  {
    var records := RecordsBefore(YelpUK, KeepBy(Builder(YelpUK)), fetch, k);
    PageLoopReaches(YelpUK, KeepBy(Builder(YelpUK)), fetch, k, n);
    assert KeepBy(Builder(YelpUK))([]) == [];
    assert records + [] == records;
  }

  /**
   * The per-listing loop: run the adapter's build step on each container that
   * parsed and keep the records whose cleaned name is non-empty.
   */
  method CollectNamed(build: Extracted -> UKBusiness, listings: seq<Listing>) returns (kept: seq<UKBusiness>)
    ensures kept == KeepBy(build)(listings)
  {
    kept := [];
    for i := 0 to |listings|
      invariant kept == Keep(build, listings[..i])
    {
      assert listings[..i + 1][..i] == listings[..i];
      match listings[i]
      case Broken =>
        // `except Exception: continue`
      case Parsed(x) =>
        var business := build(x);
        if business.name != "" {
          kept := kept + [business];
        }
    }
    assert listings[..|listings|] == listings;
  }

  /**
   * The page loop of a paging adapter, for at most maxPages pages, with the
   * adapter's build step. `requested` lists the page parameters of the
   * requests issued, in order.
   */
  method Paginate(d: PagedDirectory, build: Extracted -> UKBusiness, fetch: int -> PageOutcome, maxPages: int)
    returns (outcome: Outcome, requested: seq<int>)
    ensures outcome == PageLoop(d, KeepBy(build), fetch, 0, maxPages, [])
    ensures |requested| <= if maxPages > 0 then maxPages else 0
    ensures maxPages > 0 ==> |requested| > 0
    ensures forall k :: 0 <= k < |requested| ==> requested[k] == PageParam(d, k)
    ensures forall k :: 0 <= k < |requested| - 1 ==> GoesOnAfter(d, fetch, k)
    ensures 0 < |requested| < maxPages ==> !GoesOnAfter(d, fetch, |requested| - 1)
  {
    var businesses: seq<UKBusiness> := [];
    requested := [];
    var page: nat := 0;
    while page < maxPages
      invariant page <= maxPages || page == 0
      invariant |requested| == page
      invariant forall k :: 0 <= k < page ==> requested[k] == PageParam(d, k)
      invariant forall k :: 0 <= k < page ==> GoesOnAfter(d, fetch, k)
      invariant PageLoop(d, KeepBy(build), fetch, 0, maxPages, []) == PageLoop(d, KeepBy(build), fetch, page, maxPages, businesses)
      decreases maxPages - page
    {
      var param := PageParam(d, page);
      requested := requested + [param];
      var response := fetch(param);
      if response.Crashed? {
        // not a RequestException: the exception leaves the adapter
        return Raised, requested;
      }
      if response.TransportError? {
        break;
      }
      var listings := Containers(response.primary, response.secondary);
      if |listings| == 0 && StopsOnEmpty(d) {
        break;
      }
      var kept := CollectNamed(build, listings);
      businesses := businesses + kept;
      page := page + 1;
    }
    outcome := Completed(businesses);
  }

  /** scrape_google_maps: one request, at most maxResults containers, the named records. */
  method ScrapeGoogleMaps(page: PageOutcome, maxResults: int) returns (outcome: Outcome)
    ensures outcome == GoogleOutcome(page, maxResults)
    ensures outcome.Completed? && maxResults >= 0 ==> |outcome.records| <= maxResults
    ensures outcome.Completed? ==> forall b :: b in outcome.records ==> Retained(GoogleMaps, b)
  {
    match page
    case TransportError =>
      outcome := Completed([]);
    case Crashed =>
      outcome := Raised;
    case Fetched(primary, secondary) =>
      var results := SliceTo(Containers(primary, secondary), maxResults);
      var kept := CollectNamed(Builder(GoogleMaps), results);
      KeepRetained(GoogleMaps, results);
      outcome := Completed(kept);
  }
}
