/**
 * The business record, the directories the scraper reads, and how each
 * directory's adapter fills a record from what it found in one listing.
 */
module Business {
  import opened Wrappers
  import opened Text
  import opened Postcode

  /** One business as found by one directory (the `UKBusiness` dataclass). */
  datatype UKBusiness = UKBusiness(
    name: string,
    email: string,
    phone: string,
    website: string,
    address: string,
    city: string,
    county: string,
    postcode: string,
    country: string,
    industry: string,
    description: string,
    companyNumber: string,
    revenue: string,
    employees: string,
    yearFounded: string,
    companyStatus: string,
    sicCodes: string,
    rating: string,
    reviewCount: string,
    openingHours: string,
    socialMedia: map<string, string>,
    source: string,
    scrapedAt: string)

  /** `UKBusiness(source=...)`: every field at its default; scrapedAt is the clock reading. */
  function Blank(source: string, scrapedAt: string): UKBusiness {
    UKBusiness("", "", "", "", "", "", "", "", "UK", "", "", "", "", "", "", "", "", "", "", "",
               map[], source, scrapedAt)
  }

  datatype Directory = Yell | FreeIndex | ThomsonLocal | YelpUK | GoogleMaps

  /** The fixed `source` string each adapter stamps on its records. */
  function Tag(d: Directory): string {
    match d
    case Yell => "yell.com"
    case FreeIndex => "freeindex"
    case ThomsonLocal => "thomson_local"
    case YelpUK => "yelp_uk"
    case GoogleMaps => "google_maps"
  }

  /**
   * What one listing container yielded: the text of the element each field's
   * selector chain found (None when no selector matched), the texts of all
   * category links, and for Google the groups of the rating pattern and the
   * phone numbers found in the result's text. capturedAt is the clock reading
   * taken when the record was created.
   */
  datatype Extracted = Extracted(
    name: Option<string>,
    address: Option<string>,
    phone: Option<string>,
    categories: seq<string>,
    category: Option<string>,
    rating: Option<string>,
    description: Option<string>,
    ratingAndReviews: Option<(string, string)>,
    phones: seq<string>,
    capturedAt: string)

  /** `self._clean_text(elem.get_text())` when the element was found, else the default "". */
  function CleanFound(text: Option<string>): string {
    match text
    case Some(t) => CleanText(t)
    case None => ""
  }

  function CleanAll(texts: seq<string>): seq<string> {
    seq(|texts|, k requires 0 <= k < |texts| => CleanText(texts[k]))
  }

  /** `', '.join(...)` of the cleaned category texts, or "" when there were none. */
  function Categories(texts: seq<string>): string {
    if |texts| > 0 then Join(", ", CleanAll(texts)) else ""
  }

  /** The postcode in an address element's text, or "" when there was no element. */
  function PostcodeIn(text: Option<string>): string {
    match text
    case Some(t) => ExtractPostcode(t)
    case None => ""
  }

  /** The record one adapter builds from one listing, field by field. */
  function Build(d: Directory, x: Extracted): UKBusiness {
    var b := Blank(Tag(d), x.capturedAt).(name := CleanFound(x.name));
    match d
    case Yell =>
      // the postcode is looked for in the cleaned address
      var address := CleanFound(x.address);
      b.(address := address,
         postcode := if x.address.Some? then ExtractPostcode(address) else "",
         phone := CleanFound(x.phone),
         industry := Categories(x.categories),
         rating := CleanFound(x.rating),
         description := CleanFound(x.description))
    case FreeIndex =>
      b.(address := CleanFound(x.address),
         postcode := PostcodeIn(x.address),
         industry := CleanFound(x.category),
         rating := CleanFound(x.rating))
    case ThomsonLocal =>
      b.(address := CleanFound(x.address),
         postcode := PostcodeIn(x.address),
         phone := CleanFound(x.phone))
    case YelpUK =>
      b.(industry := Categories(x.categories))
    case GoogleMaps =>
      b.(rating := if x.ratingAndReviews.Some? then x.ratingAndReviews.value.0 else "",
         reviewCount := if x.ratingAndReviews.Some? then x.ratingAndReviews.value.1 else "",
         address := CleanFound(x.address),
         postcode := PostcodeIn(x.address),
         phone := if |x.phones| > 0 then x.phones[0] else "")
  }

  /** A postcode field is empty or an upper-case match of the postcode pattern. */
  predicate PostcodeField(p: string) {
    p == "" || (IsPostcode(p) && IsUpperCase(p))
  }

  /** Fields no adapter reads stay at their defaults. */
  predicate NeverReadDefault(b: UKBusiness) {
    b.email == "" && b.website == "" && b.city == "" && b.county == ""
    && b.country == "UK" && b.companyNumber == "" && b.revenue == "" && b.employees == ""
    && b.yearFounded == "" && b.companyStatus == "" && b.sicCodes == "" && b.openingHours == ""
    && b.socialMedia == map[]
  }

  /** Fields the adapter of d does not read stay at their defaults. */
  predicate UnreadFieldsDefault(d: Directory, b: UKBusiness) {
    NeverReadDefault(b)
    && match d
       case Yell => b.reviewCount == ""
       case FreeIndex => b.phone == "" && b.description == "" && b.reviewCount == ""
       case ThomsonLocal => b.industry == "" && b.rating == "" && b.description == "" && b.reviewCount == ""
       case YelpUK =>
         b.address == "" && b.phone == "" && b.postcode == "" && b.rating == ""
         && b.description == "" && b.reviewCount == ""
       case GoogleMaps => b.industry == "" && b.description == ""
  }

  /** What holds of every record an adapter of d keeps. */
  predicate Retained(d: Directory, b: UKBusiness) {
    b.name != "" && Tidy(b.name)
    && b.source == Tag(d)
    && PostcodeField(b.postcode)
    && UnreadFieldsDefault(d, b)
  }

  lemma PostcodeInShape(text: Option<string>)
    ensures PostcodeField(PostcodeIn(text))
  {
    if text.Some? { ExtractPostcodeShape(text.value); }
  }

  /**
   * A record with a non-empty name is one its adapter keeps: the name is
   * cleaned text, the source is the adapter's tag, the postcode is empty or an
   * upper-case postcode, and nothing the adapter does not read is filled in.
   */
  lemma BuildRetained(d: Directory, x: Extracted)
    requires Build(d, x).name != ""
    ensures Retained(d, Build(d, x))
  {
    var b := Build(d, x);
    CleanTextShape(x.name.GetOr(""));
    assert Tidy(b.name);
    PostcodeInShape(x.address);
    if d == Yell && x.address.Some? {
      ExtractPostcodeShape(CleanText(x.address.value));
    }
  }

  /**
   * An element the selectors did not find leaves its fields empty: the
   * adapters fill a field only from what they found.
   */
  lemma BuildLeavesAbsentEmpty(d: Directory, x: Extracted)
    ensures x.name.None? ==> Build(d, x).name == ""
    ensures x.address.None? ==> Build(d, x).address == "" && Build(d, x).postcode == ""
    ensures x.phone.None? && d != GoogleMaps ==> Build(d, x).phone == ""
    ensures x.phones == [] && d == GoogleMaps ==> Build(d, x).phone == ""
    ensures x.categories == [] && d != FreeIndex ==> Build(d, x).industry == ""
    ensures x.category.None? && d == FreeIndex ==> Build(d, x).industry == ""
    ensures x.rating.None? && d != GoogleMaps ==> Build(d, x).rating == ""
    ensures x.ratingAndReviews.None? && d == GoogleMaps ==> Build(d, x).rating == ""
    ensures x.ratingAndReviews.None? ==> Build(d, x).reviewCount == ""
    ensures x.description.None? ==> Build(d, x).description == ""
  {
  }
}
