/**
 * The parsing logic of the GeM portal scraper: currency strings with Crore
 * and Lakh suffixes, keyword category detection, the default eligibility
 * list, and the limit/parse/category loop over the scraped bid cards.
 * The browser, the HTML parser and Python's `float()` are outside the model:
 * a bid card arrives as the texts its selectors found, and `float()` is a
 * parameter (`None` when it raises).
 */
module GemScraper {
  import opened Wrappers
  import opened Text
  import opened Seqs

  const Crore: real := 10000000.0
  const Lakh: real := 100000.0

  /** The text `parse_currency` inspects: `₹` and `,` deleted, then stripped. */
  function CleanAmount(s: string): (r: string)
    ensures '₹' !in r && ',' !in r
    ensures IsTrimOf(r, RemoveChar(RemoveChar(s, '₹'), ','))
  {
    var t := RemoveChar(RemoveChar(s, '₹'), ',');
    TrimKeepsAbsent(t, '₹');
    TrimKeepsAbsent(t, ',');
    TrimIsTrimOf(t);
    Trim(t)
  }

  lemma TrimKeepsAbsent(s: string, c: char)
    requires c !in s
    ensures c !in Trim(s)
  {
    var t := TrimStart(s);
    TrimStartShape(s);
    TrimEndShape(t);
    assert forall i | 0 <= i < |t| :: t[i] == s[|s| - |t| + i];
    var u := TrimEnd(t);
    assert forall i | 0 <= i < |u| :: u[i] == t[i];
  }

  /** Cleaning an already cleaned amount changes nothing. */
  lemma {:induction false} CleanAmountIdempotent(s: string)
    ensures CleanAmount(CleanAmount(s)) == CleanAmount(s)
  {
    var c := CleanAmount(s);
    RemoveAbsentChar(c, '₹');
    RemoveAbsentChar(c, ',');
    TrimIdempotent(RemoveChar(RemoveChar(s, '₹'), ','));
  }

  /**
   * The conversion `parse_currency` applies to the cleaned text: a `Cr`
   * anywhere scales by a crore (checked first), otherwise an `L` anywhere
   * scales by a lakh; every occurrence of the suffix is deleted before
   * conversion; a failed conversion gives 0.0.
   */
  function ConvertAmount(v: string, toFloat: string -> Option<real>): (r: real)
    ensures Contains(v, "Cr") ==> r == (match toFloat(DeleteAll(v, "Cr")) case Some(x) => x * Crore case None => 0.0)
    ensures !Contains(v, "Cr") && 'L' in v ==> r == (match toFloat(RemoveChar(v, 'L')) case Some(x) => x * Lakh case None => 0.0)
    ensures !Contains(v, "Cr") && 'L' !in v ==> r == toFloat(v).GetOr(0.0)
    ensures (forall w :: toFloat(w).None?) ==> r == 0.0
    ensures (forall w :: toFloat(w).Some? ==> toFloat(w).value >= 0.0) ==> r >= 0.0
  {
    var parsed :=
      if Contains(v, "Cr") then (match toFloat(DeleteAll(v, "Cr")) case Some(x) => Some(x * Crore) case None => None)
      else if 'L' in v then (match toFloat(RemoveChar(v, 'L')) case Some(x) => Some(x * Lakh) case None => None)
      else toFloat(v);
    parsed.GetOr(0.0)
  }

  /** `parse_currency`: a failed conversion gives 0 rather than an error. */
  function ParseCurrency(s: string, toFloat: string -> Option<real>): (r: real)
    ensures (forall v :: toFloat(v).None?) ==> r == 0.0
    ensures (forall v :: toFloat(v).Some? ==> toFloat(v).value >= 0.0) ==> r >= 0.0
  {
    ConvertAmount(CleanAmount(s), toFloat)
  }

  /** The Crore rule wins over the Lakh rule when both suffixes occur. */
  lemma CroreBeforeLakh(s: string, toFloat: string -> Option<real>, x: real)
    requires Contains(CleanAmount(s), "Cr") && 'L' in CleanAmount(s)
    requires toFloat(DeleteAll(CleanAmount(s), "Cr")) == Some(x)
    ensures ParseCurrency(s, toFloat) == x * 10000000.0
  {
  }

  /** Re-parsing the cleaned text gives the same amount as parsing the raw text. */
  lemma {:induction false} ParseCurrencyOfCleaned(s: string, toFloat: string -> Option<real>)
    ensures ParseCurrency(CleanAmount(s), toFloat) == ParseCurrency(s, toFloat)
  {
    CleanAmountIdempotent(s);
  }

  lemma TrimExample()
    ensures Trim("2.5 Cr") == "2.5 Cr"
  {
    var v := "2.5 Cr";
    assert v[0] == '2';
    assert TrimStart(v) == v;
    assert v[|v| - 1] == 'r';
  }

  lemma RemoveExample()
    ensures RemoveChar(RemoveChar("₹2.5 Cr", '₹'), ',') == "2.5 Cr"
  {
    var raw, v := "₹2.5 Cr", "2.5 Cr";
    assert raw[0] == '₹' && raw[1..] == v;
    RemoveAbsentChar(v, '₹');
    RemoveLeadingChar(raw, '₹');
    RemoveAbsentChar(v, ',');
  }

  lemma CleanExample()
    ensures CleanAmount("₹2.5 Cr") == "2.5 Cr"
  {
    RemoveExample();
    TrimExample();
  }

  lemma DeleteCroreExample()
    ensures Contains("2.5 Cr", "Cr") && DeleteAll("2.5 Cr", "Cr") == "2.5 "
  {
    var v := "2.5 Cr";
    assert StartsWith(v[4..], "Cr");
    assert DeleteAll("Cr", "Cr") == "";
    assert DeleteAll(" Cr", "Cr") == " ";
    assert DeleteAll("5 Cr", "Cr") == "5 ";
    assert DeleteAll(".5 Cr", "Cr") == ".5 ";
  }

  /** "₹2.5 Cr" is 25 000 000 whenever `float("2.5 ")` is 2.5. */
  lemma CroreExample(toFloat: string -> Option<real>)
    requires toFloat("2.5 ") == Some(2.5)
    ensures ParseCurrency("₹2.5 Cr", toFloat) == 25000000.0
  {
    CleanExample();
    DeleteCroreExample();
  }

  /** The categories and their keywords, in the order they are tried. */
  const Categories: seq<(string, seq<string>)> := [
    ("IT Services", ["software", "hardware", "computer", "it", "server", "network", "cloud"]),
    ("Construction", ["construction", "building", "road", "bridge", "infrastructure"]),
    ("Medical Equipment", ["medical", "hospital", "healthcare", "equipment", "surgical"]),
    ("Office Supplies", ["stationery", "furniture", "office", "supplies"]),
    ("Consulting", ["consulting", "consultancy", "advisory", "management"])]

  const GeneralCategory := "General"

  /** Some keyword occurs as a substring of `t`. */
  predicate Mentions(t: string, keywords: seq<string>) {
    exists k | k in keywords :: Contains(t, k)
  }

  /** The first entry of `cats` whose keywords `t` mentions, else "General". */
  function FirstCategory(cats: seq<(string, seq<string>)>, t: string): (r: string)
    requires forall i | 0 <= i < |cats| :: cats[i].0 != GeneralCategory
    ensures r == GeneralCategory <==> forall i | 0 <= i < |cats| :: !Mentions(t, cats[i].1)
    ensures r != GeneralCategory ==>
      exists i | 0 <= i < |cats| :: r == cats[i].0 && Mentions(t, cats[i].1) &&
        forall j | 0 <= j < i :: !Mentions(t, cats[j].1)
  {
    if cats == [] then GeneralCategory
    else if Mentions(t, cats[0].1) then cats[0].0
    else
      var r := FirstCategory(cats[1..], t);
      assert forall i | 1 <= i < |cats| :: cats[i] == cats[1..][i - 1];
      r
  }

  /** `detect_category`: keyword substrings of the lowercased title, first category wins. */
  function DetectCategory(title: string): (r: string)
    ensures r == GeneralCategory || exists i | 0 <= i < |Categories| :: r == Categories[i].0
  {
    FirstCategory(Categories, Lower(title))
  }

  /** Substring matching: "it" inside "kitchen" makes a kitchen tender an IT tender. */
  lemma KitchenIsIt()
    ensures DetectCategory("Kitchen") == "IT Services"
  {
    var t := Lower("Kitchen");
    assert t == "kitchen";
    assert StartsWith(t[1..], "it");
    assert Contains(t, "it");
    assert "it" in Categories[0].1;
    assert Mentions(t, Categories[0].1);
  }

  const DefaultEligibility: seq<string> := [
    "Registered company with valid GST",
    "Minimum 2 years of experience",
    "Valid PAN and Aadhaar"]

  function StripAll(items: seq<string>): (r: seq<string>)
    ensures |r| == |items|
    ensures forall i | 0 <= i < |items| :: r[i] == Trim(items[i])
  {
    if items == [] then [] else [Trim(items[0])] + StripAll(items[1..])
  }

  /**
   * `extract_eligibility`: the stripped list items of the eligibility block,
   * or the fixed default list when there are none.
   */
  function ExtractEligibility(items: seq<string>): (r: seq<string>)
    ensures items == [] ==> r == DefaultEligibility
    ensures items != [] ==> |r| == |items| && forall i | 0 <= i < |items| :: r[i] == Trim(items[i])
    ensures r != []
  {
    if items == [] then DefaultEligibility else StripAll(items)
  }

  /** The texts the selectors of one bid card found (`None`: no such element). */
  /** An `a.download-doc` element; reading `['href']` raises when the attribute is absent. */
  datatype Link = Link(href: Option<string>)

  datatype Card = Card(bidNumber: Option<string>, title: Option<string>, organization: Option<string>,
                       publishedDate: Option<string>, closingDate: Option<string>,
                       estimatedValue: Option<string>, emdAmount: Option<string>,
                       description: Option<string>, location: Option<string>,
                       eligibilityItems: seq<string>, downloadLink: Option<Link>)

  datatype ScrapedTender = ScrapedTender(tenderId: string, title: string, organization: string,
                                         description: string, estimatedValue: real, emdAmount: real,
                                         category: string, location: string,
                                         eligibility: seq<string>, documentUrl: Option<string>)

  /**
   * What `parse_tender_card` needs in order not to raise: the seven required
   * elements, and an `href` on the download link when there is one.
   */
  predicate Complete(c: Card) {
    c.bidNumber.Some? && c.title.Some? && c.organization.Some? && c.publishedDate.Some? &&
    c.closingDate.Some? && c.estimatedValue.Some? && c.emdAmount.Some? &&
    (c.downloadLink.Some? ==> c.downloadLink.value.href.Some?)
  }

  /** `parse_tender_card`: `None` when a required element or the `href` of the download link is missing. */
  function ParseCard(c: Card, toFloat: string -> Option<real>): (r: Option<ScrapedTender>)
    ensures r.Some? <==> Complete(c)
    ensures r.Some? ==> r.value.category == DetectCategory(r.value.title) && r.value.title == Trim(c.title.value)
    ensures r.Some? ==> r.value.location == (if c.location.Some? then Trim(c.location.value) else "India")
    ensures r.Some? ==> r.value.description == (if c.description.Some? then Trim(c.description.value) else "")
    ensures r.Some? ==> r.value.eligibility != []
    ensures r.Some? ==> r.value.documentUrl == (if c.downloadLink.Some? then c.downloadLink.value.href else None)
  {
    if !Complete(c) then None
    else
      var title := Trim(c.title.value);
      Some(ScrapedTender(Trim(c.bidNumber.value), title, Trim(c.organization.value),
                         if c.description.Some? then Trim(c.description.value) else "",
                         ParseCurrency(Trim(c.estimatedValue.value), toFloat),
                         ParseCurrency(Trim(c.emdAmount.value), toFloat),
                         DetectCategory(title),
                         if c.location.Some? then Trim(c.location.value) else "India",
                         ExtractEligibility(c.eligibilityItems),
                         if c.downloadLink.Some? then c.downloadLink.value.href else None))
  }

  function Parser(toFloat: string -> Option<real>): Card -> Option<ScrapedTender> {
    c => ParseCard(c, toFloat)
  }

  /** The category condition: an absent or empty filter keeps every tender. */
  predicate Wanted(t: ScrapedTender, category: Option<string>) {
    category.None? || category.value == "" || t.category == category.value
  }

  function WantedIn(category: Option<string>): ScrapedTender -> bool {
    t => Wanted(t, category)
  }

  /**
   * `scrape_latest_tenders` after the page is loaded: the first `limit`
   * cards, cards that fail to parse dropped, the rest kept when they match
   * the category filter.
   */
  method ScrapeLatestTenders(cards: seq<Card>, category: Option<string>, limit: int, toFloat: string -> Option<real>)
    returns (tenders: seq<ScrapedTender>)
    ensures tenders == Filter(FilterMap(PyTake(cards, limit), Parser(toFloat)), WantedIn(category))
  {
    var taken := PyTake(cards, limit);
    tenders := [];
    var i := 0;
    while i < |taken|
      invariant 0 <= i <= |taken|
      invariant tenders == Filter(FilterMap(taken[..i], Parser(toFloat)), WantedIn(category))
    {
      var p := Parser(toFloat)(taken[i]);
      FilterMapStep(taken, i, Parser(toFloat), WantedIn(category));
      if p.Some? && WantedIn(category)(p.value) {
        tenders := tenders + [p.value];
      }
      i := i + 1;
    }
    assert taken[..|taken|] == taken;
  }

  /**
   * What the scrape returns: no more than `limit` tenders, each parsed from
   * one of the first `limit` cards, each of the requested category.
   */
  lemma {:induction false} ScrapeBounds(cards: seq<Card>, category: Option<string>, limit: int, toFloat: string -> Option<real>)
    requires limit >= 0
    ensures var r := Filter(FilterMap(PyTake(cards, limit), Parser(toFloat)), WantedIn(category));
      |r| <= limit &&
      (forall t | t in r :: exists c | c in cards[..|PyTake(cards, limit)|] :: ParseCard(c, toFloat) == Some(t)) &&
      (forall t | t in r :: category.Some? && category.value != "" ==> t.category == category.value)
  {
    var taken := PyTake(cards, limit);
    FilterMapSound(taken, Parser(toFloat));
  }
}
