/** The request handler's one rule about the body: how many pages a search may read. */
module Handler {
  import opened Wrappers

  /** The most pages a request may ask for. */
  const MaxPagesCap: int := 5

  /** What the handler uses when the body has no max_pages. */
  const DefaultMaxPages: int := 2

  /** `min(data.get('max_pages', 2), 5)`: the page count the search gets, for an integer or missing max_pages. */
  function CapMaxPages(requested: Option<int>): (r: int)
    ensures r <= MaxPagesCap
    ensures requested.None? ==> r == DefaultMaxPages
    ensures requested.Some? ==> r <= requested.value && (r == requested.value || r == MaxPagesCap)
  {
    if requested.Some? && requested.value < MaxPagesCap then requested.value
    else if requested.Some? then MaxPagesCap
    else DefaultMaxPages
  }
}
