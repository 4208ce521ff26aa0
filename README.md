# UK business scraper, modelled in Dafny

This project models the deterministic core of the UK business scraper in `api/scrape.py`. The scraper is a serverless function. It searches several UK business directories (Yell, FreeIndex, Thomson Local, Yelp UK and Google local results) for a query and a location, and returns the businesses it finds.

The model covers:

- **Text helpers** (`text.dfy`, `postcode.dfy`, `emails.dfy`):
  - `_clean_text`: whitespace normalisation.
  - `_extract_uk_postcode`: the postcode pattern is written out as a hand-written backtracking matcher, with a declarative statement of the pattern beside it.
  - `_extract_emails`: the noise filter and the de-duplication that follow `re.findall`. The candidate list is an input.
- **The `UKBusiness` record and per-listing field filling** (`business.dfy`): the text each field's selector chain found is an input. This is where the adapters differ from each other.
- **The adapters' control flow** (`adapters.dfy`):
  - the page loop shared by `scrape_yell`, `scrape_freeindex`, `scrape_thomson_local` and `scrape_yelp_uk`;
  - the per-listing loop;
  - the single request of `scrape_google_maps`.
  The network is a function `fetch` from the page parameter to the outcome of the request. The outcome is a transport error, another exception, or the listing containers the two selectors found.
- **`UKBusinessScraper.search`** (`search.dfy`): dispatch on source identifiers, swallowing failures, concatenation, de-duplication by lower-cased stripped name, and storing the result on the scraper object.
- **The request handler's cap on `max_pages`** (`handler.dfy`).

Each operation with a loop in the source is a method with loop invariants. It is proved equal to a specification function, and the source's promises are proved about that function as lemmas:

- `CollectNamed` and `Paginate` are proved against `Keep` and `PageLoop`.
- `Gather` and `DedupByName` are proved against `Gathered` and `Deduplicated`.

`Deduplicated` is a declarative definition: it keeps each record that is the first one with its non-empty key. It is independent of the `seen` set the loop uses.

## Model

| member | source | states |
|---|---|---|
| Text.Split | api/scrape.py:93 | `str.split()` yields non-empty whitespace-free words, and yields none exactly when the text is all whitespace |
| Text.SplitConcat | api/scrape.py:93 | the words `str.split()` returns, put back together, are exactly the text's non-whitespace characters in order: nothing but whitespace is dropped, and nothing is added or reordered |
| Text.SplitWhitespaceThen | api/scrape.py:93 | `str.split()` skips a leading whitespace character of any kind, not only a space |
| Text.SplitSpaceRun | api/scrape.py:93 | `str.split()` skips a leading whitespace run of any length and kind |
| Text.SplitJoin | api/scrape.py:93 | splitting a space-joined list of words gives back exactly those words |
| Text.JoinTidy | api/scrape.py:93 | a space-joined list of words has no whitespace at either end, no two whitespace characters in a row and only plain spaces, and is non-empty when the list is |
| Text.CleanTextIsJoin | api/scrape.py:89-93 | `_clean_text` equals `' '.join(text.split())`: the final `strip()` never changes anything, and the empty-text guard agrees with the join |
| Text.CleanTextShape | api/scrape.py:89-93 | the result of `_clean_text` is trimmed, single-spaced and uses only plain spaces; it is empty exactly when the text is all whitespace, "" included |
| Text.CleanTextKeepsWords | api/scrape.py:89-93 | `_clean_text` keeps the words of the text, in order |
| Text.CleanTextKeepsNonSpace | api/scrape.py:89-93 | `_clean_text` changes only whitespace: the non-whitespace characters of the result are those of the text, in the same order |
| Text.CleanTextDropsLeadingSpace | api/scrape.py:89-93 | leading whitespace of any kind makes no difference to `_clean_text` |
| Text.CleanTextCollapsesRun | api/scrape.py:89-93 | `_clean_text` turns a run of whitespace of any length and kind between two words into one plain space |
| Text.CleanTextIdempotent | api/scrape.py:89-93 | cleaning twice is cleaning once |
| Postcode.MatchInwardExact | api/scrape.py:85 | the matcher for `\s*\d[A-Z]{2}` at a position returns end j exactly when that part of the pattern spans the text up to j |
| Postcode.MatchAfterLettersExact | api/scrape.py:85 | the backtracking matcher for `\d[A-Z\d]?\s*\d[A-Z]{2}` returns end j exactly when that part of the pattern spans the text up to j |
| Postcode.MatchAtExact | api/scrape.py:85-86 | the backtracking matcher for the whole pattern at position i returns end j exactly when the pattern spans text[i..j], case-insensitively |
| Postcode.FirstMatchLeftmost | api/scrape.py:86 | `re.search` finds a match that starts at the leftmost position where any match starts, and finds none only when no match exists |
| Postcode.PatternTransfer | api/scrape.py:86 | whether the pattern matches depends only on which characters are letters, digits and whitespace, which is what makes `re.IGNORECASE` and `.upper()` harmless |
| Postcode.UpperKeepsPostcode | api/scrape.py:87 | uppercasing a match leaves a match, with no lower-case letter |
| Postcode.ExtractPostcodeEmpty | api/scrape.py:83-87 | `_extract_uk_postcode` returns "" exactly when no substring of the text matches the pattern |
| Postcode.ExtractPostcodeLeftmost | api/scrape.py:85-87 | when a match spans text[a..b] and no match starts before a, the result is text[a..b] uppercased |
| Postcode.ExtractPostcodeShape | api/scrape.py:87 | a non-empty result matches the whole pattern and is upper case |
| Emails.NoiseFiltered | api/scrape.py:67-68 | the comprehension keeps exactly the candidates whose lower-case form contains none of the seven noise markers |
| Emails.Dedup | api/scrape.py:69 | one copy of each element: same members, no repeats |
| Emails.ExtractEmails | api/scrape.py:63-69 | every returned address is a noise-free candidate, every noise-free candidate is returned, and none twice |
| Emails.NoiseFilteredClean | api/scrape.py:67-68 | the filter leaves a list of noise-free addresses unchanged |
| Emails.DedupDistinct | api/scrape.py:69 | de-duplication leaves a repeat-free list unchanged |
| Emails.ExtractEmailsIdempotent | api/scrape.py:63-69 | extracting from an extraction changes nothing |
| Business.PostcodeInShape | api/scrape.py:182-185 | the postcode taken from an address element is "" or an upper-case postcode |
| Business.BuildRetained | api/scrape.py:115-144 | a record the adapter fills with a non-empty name has a cleaned name, the adapter's fixed source tag, an empty or upper-case postcode, and defaults in every field the adapter does not read: the 13 fields no adapter reads, plus the review count for Yell; phone, description and review count for FreeIndex; industry, rating, description and review count for Thomson Local; address, phone, postcode, rating, description and review count for Yelp; industry and description for Google |
| Business.BuildLeavesAbsentEmpty | api/scrape.py:115-144 | an element the selectors did not find leaves its fields empty: no name, address or postcode without the element; no phone, industry, rating or description without theirs (Google: no phone without a phone match, no rating or review count without a rating match) |
| Adapters.SliceTo | api/scrape.py:317 | Python's `xs[:m]`: a prefix of length min(m, len) for m ≥ 0, and len + m (floored at 0) for negative m |
| Adapters.KeepMembers | api/scrape.py:113-147 | a record survives the per-listing loop exactly when some container parsed without raising, gave that record and the record's name is non-empty |
| Adapters.KeepRetained | api/scrape.py:113-147 | every record the per-listing loop keeps satisfies the adapter's record invariant (name, tag, postcode, defaults) |
| Adapters.PageLoopRetained | api/scrape.py:100-154 | the page loop, from any point, keeps the record invariant of what it has gathered |
| Adapters.AdapterResultRetained | api/scrape.py:100-154 | every record a paging adapter returns carries the adapter's tag, a clean non-empty name, an empty or upper-case postcode, and defaults in every field that adapter does not read |
| Adapters.PageLoopReaches | api/scrape.py:100-152 | after k pages that all let the loop go on, the loop is at page k holding exactly those pages' records in page order |
| Adapters.CrawlStopsAtFirstFailure | api/scrape.py:100-154 | at the first page that fails to load or (except on Yelp) has no containers, the adapter returns the records of the earlier pages, the same as with max_pages at that page; another exception there makes the call raise |
| Adapters.YelpContinuesPastEmptyPage | api/scrape.py:261-272 | on Yelp an empty page does not end pagination: the loop goes on to the next page with its records unchanged |
| Adapters.CollectNamed | api/scrape.py:113-147 | the per-listing loop computes the kept records of the page's containers |
| Adapters.Paginate | api/scrape.py:97-154 | the page loop returns or raises what PageLoop says; it requests at most max_pages pages, and at least one when max_pages > 0, with parameters pageNum/p/page = 1, 2, … or start = 0, 10, … (Yelp); every page before the last one requested let the loop go on, and when fewer than max_pages were requested the last one ended it |
| Adapters.ScrapeGoogleMaps | api/scrape.py:297-352 | one request; a transport error gives no records and other exceptions escape; at most max_results records, each with the google_maps tag and the record invariant |
| Search.DispatchInverse | api/scrape.py:364-370 | the dispatch table maps the five identifiers one-to-one onto the five directories |
| Search.GatheredMembers | api/scrape.py:372-378 | a record is in all_businesses exactly when some listed source contributed it |
| Search.GatheredAppend | api/scrape.py:372-378 | gathering over two lists of sources concatenates their records in that order |
| Search.GatheredSkips | api/scrape.py:372-378 | a source that contributes nothing leaves the records of the sources before and after it unchanged |
| Search.NoContribution | api/scrape.py:373-378 | an unknown identifier or an adapter that raises contributes no records |
| Search.SkippedSourceIgnored | api/scrape.py:372-378 | an unknown or failing source is as if it had not been listed; later sources still run |
| Search.RunSourceRetained | api/scrape.py:364-370 | every record the adapter of a directory returns satisfies that directory's record invariant, Google's `max_pages * 10` included |
| Search.GatheredRetained | api/scrape.py:372-378 | every gathered record came from a known listed source and carries that adapter's tag and a clean, non-empty name |
| Search.CleanNameKey | api/scrape.py:384 | for a cleaned, non-empty name, `name.lower().strip()` is just the lower-cased name and is non-empty |
| Search.GatheredNameKeys | api/scrape.py:380-388 | no gathered record has an empty name key, so the emptiness test never drops an adapter's record |
| Search.KeysUpToMembers | api/scrape.py:381-387 | the seen set after i records holds exactly the non-empty keys among them |
| Search.FirstOfKeyBySeen | api/scrape.py:385-387 | the loop's test (key non-empty and not seen) holds exactly when the record is the first with its non-empty key |
| Search.FirstsUpToMembers | api/scrape.py:380-388 | a record is kept exactly when it is the first with its non-empty key |
| Search.FirstsUpToKeys | api/scrape.py:380-388 | kept records have non-empty, pairwise distinct keys |
| Search.FirstsUpToSubsequence | api/scrape.py:380-388 | kept records appear in the input in the same order |
| Search.DeduplicatedSpec | api/scrape.py:380-388 | the dedup result is a subsequence of all_businesses with non-empty, distinct name keys, and a record is in it exactly when it is the first record of its non-empty key |
| Search.EarliestWithKey | api/scrape.py:380-388 | every non-empty key has a first record in the input, at or before any record with that key |
| Search.DeduplicatedCovers | api/scrape.py:380-388 | every non-empty name key of the input is represented in the result by its earliest record |
| Search.FirstsOfDistinct | api/scrape.py:380-388 | a list whose keys are non-empty and distinct passes the dedup unchanged |
| Search.DeduplicatedIdempotent | api/scrape.py:380-388 | de-duplicating the result again changes nothing |
| Search.RunAdapter | api/scrape.py:364-370 | calling the adapter of a directory returns or raises what RunSource says |
| Search.Gather | api/scrape.py:372-378 | the loop over sources builds the concatenation of the sources' contributions in the given order |
| Search.DedupByName | api/scrape.py:380-388 | the `seen`-set loop returns exactly the declarative first-occurrence dedup |
| Search.Scraper.constructor | api/scrape.py:57 | a new scraper has no results |
| Search.Scraper.Search | api/scrape.py:354-390 | search uses the default sources ['yell', 'freeindex'] when given None; it returns the dedup of the gathered records and stores that same list in `results` |
| Handler.CapMaxPages | api/scrape.py:404 | the page count is at most 5; it is 2 when the body has none, and otherwise the requested count when that is at most 5 and 5 when it is larger |

## Left out

- HTTP requests, headers, timeouts and `raise_for_status` are not modelled. A request is the parameter `fetch` or `web`. `requests.RequestException` is the outcome TransportError, and any other exception while handling a page is Crashed.
- BeautifulSoup parsing and the CSS selector chains are not modelled. A container is the text each field's selector chain found (`Extracted`), or Broken when handling it raised.
- URL construction is not modelled. Only the page parameter is, and query and location are folded into `web`. Google's single request uses page parameter 0.
- `_delay` is left out. It is sleep and randomness with no effect on the result.
- `scraped_at` is not read from a clock. The clock reading is an input, the field `capturedAt` of each container, and it is copied into `scrapedAt`.
- `_extract_uk_phones` and Google's rating regex are not modelled. Their results (the phones found, and the rating and review-count groups) are inputs of `Extracted`.
- Emails.ExtractEmails: keeps the first-appearance order. Python returns the iteration order of a set, which is unspecified. Only membership and the absence of repeats are claimed.
- The email regex that `re.findall` applies is not modelled. Its candidate list is the input.
- Postcode.IsLetter: `[A-Z]` under `re.IGNORECASE` and `\d` are taken as ASCII only. Python's Unicode digits and case folding of non-ASCII letters are not modelled.
- Text.Lower: `str.lower()` and `str.upper()` are modelled on ASCII letters only. In search's de-duplication, Search.NameKey therefore keeps names that differ only in non-ASCII case (such as "CAFÉ" and "café") as two keys. Python merges them into one.
- The handler is not modelled beyond the cap on `max_pages`. That leaves out JSON decoding and encoding, the 400 response for a missing query or location, CORS headers, status codes and `do_OPTIONS`.
- Handler.CapMaxPages: assumes `max_pages` in the body is an integer. Python's `min` on other JSON types is not modelled.
- The web is a fixed function, so a source listed twice sees the same pages both times. Live pages could change between the two requests.
- Search.Scraper.Search: `query` and `location` are not parameters. They only shape the URLs, which are part of `web`.
