/**
 * The tender list page: the client-side search filter, the days-left
 * computation with its colour band and label, and the category query.
 */
module TendersPage {
  import opened Wrappers
  import opened Text
  import opened Seqs

  /** The fields of a fetched tender that the page computes with. */
  datatype Tender = Tender(id: string, title: string, organization: string, category: string)

  /** Case-insensitive match of the search term against title or organization. */
  predicate MatchesSearch(t: Tender, term: string) {
    Contains(Lower(t.title), Lower(term)) || Contains(Lower(t.organization), Lower(term))
  }

  /** `filteredTenders`. */
  function FilteredTenders(tenders: seq<Tender>, term: string): (r: seq<Tender>)
    ensures forall t :: t in r <==> t in tenders && MatchesSearch(t, term)
    ensures forall t :: multiset(r)[t] == if MatchesSearch(t, term) then multiset(tenders)[t] else 0
    ensures IsSubsequence(r, tenders)
    ensures term == "" ==> r == tenders
  {
    var p := (t: Tender) => MatchesSearch(t, term);
    FilterMembershipAll(tenders, p);
    FilterMultiplicityAll(tenders, p);
    FilterIsSubsequence(tenders, p);
    if term == "" then
      assert forall i | 0 <= i < |tenders| :: p(tenders[i]) by {
        forall i | 0 <= i < |tenders| ensures p(tenders[i]) {
          EmptyIsContained(Lower(tenders[i].title));
        }
      }
      FilterKeepsAll(tenders, p);
      Filter(tenders, p)
    else
      Filter(tenders, p)
  }

  /** Milliseconds in a day: 1000 * 60 * 60 * 24. */
  const MsPerDay: int := 86400000

  /** `Math.ceil(a / b)` for integers and a positive divisor. */
  function CeilDiv(a: int, b: int): (q: int)
    requires b > 0
    ensures b * (q - 1) < a <= b * q
  {
    var f := (-a) / b;
    assert -a == b * f + (-a) % b;
    -f
  }

  /**
   * `getDaysLeft`: `deadlineMs` is the parsed deadline (`None` when the
   * date is invalid and the difference is NaN), `nowMs` the clock.
   */
  function DaysLeft(deadlineMs: Option<int>, nowMs: int): (d: Option<int>)
    ensures d.None? <==> deadlineMs.None?
    ensures d.Some? ==> MsPerDay * (d.value - 1) < deadlineMs.value - nowMs <= MsPerDay * d.value
  {
    match deadlineMs
    case None => None
    case Some(ms) => Some(CeilDiv(ms - nowMs, MsPerDay))
  }

  /** Whole days left are positive exactly when the deadline is still ahead. */
  lemma PositiveDaysIffAhead(deadlineMs: int, nowMs: int)
    ensures DaysLeft(Some(deadlineMs), nowMs).value > 0 <==> deadlineMs > nowMs
  {
    var d := DaysLeft(Some(deadlineMs), nowMs).value;
    if d > 0 {
      assert MsPerDay * (d - 1) >= 0;
    } else {
      assert MsPerDay * d <= 0;
    }
  }

  datatype Band = Red | Amber | Green

  /** The deadline colour; a NaN count fails every comparison and is green. */
  function DeadlineBand(d: Option<int>): (b: Band)
    ensures b == Red <==> d.Some? && d.value <= 5
    ensures b == Amber <==> d.Some? && 6 <= d.value <= 15
    ensures b == Green <==> d.None? || d.value > 15
  {
    if d.Some? && d.value <= 5 then Red
    else if d.Some? && d.value <= 15 then Amber
    else Green
  }

  /** The deadline caption: "`n` days left" or "Expired". */
  datatype Caption = DaysLeftCaption(days: int) | Expired

  function DeadlineCaption(d: Option<int>): (c: Caption)
    ensures c.DaysLeftCaption? <==> d.Some? && d.value > 0
    ensures c.DaysLeftCaption? ==> c.days == d.value
  {
    if d.Some? && d.value > 0 then DaysLeftCaption(d.value) else Expired
  }

  /** An expired tender with a valid date is always shown red; an invalid date reads "Expired" in green. */
  lemma ExpiredIsRed(deadlineMs: Option<int>, nowMs: int)
    ensures var d := DaysLeft(deadlineMs, nowMs);
      DeadlineCaption(d) == Expired ==> (DeadlineBand(d) == Red <==> deadlineMs.Some?)
  {
  }

  /** `params`: nothing without a category, `?category=<c>` otherwise (not URL-encoded). */
  function CategoryQuery(category: string): (q: string)
    ensures category == "" ==> q == ""
    ensures category != "" ==> StartsWith(q, "?category=") && q[|"?category="|..] == category
  {
    if category != "" then "?category=" + category else ""
  }
}
