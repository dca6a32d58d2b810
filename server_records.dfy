/**
 * The record-keeping handlers of the API server that compute something
 * before touching the database: the BOQ totals, the analysis summary, the
 * upload check, and the query documents of `get_tenders`, `get_contacts`
 * and `create_contact`.  A collection is a sequence of documents in storage
 * order; a query is the MongoDB equality filter it sends, and a document
 * matches when it holds every queried field with the queried value.
 */
module ServerRecords {
  import opened Wrappers
  import opened Text
  import opened Seqs
  import ServerAuth

  type HttpError = ServerAuth.HttpError

  const TenderNotFound := "Tender not found"
  const OnlyPdf := "Only PDF files are supported"
  /** Longest `ai_summary` kept from the model's answer. */
  const SummaryLimit := 500
  /** `to_list(100)` in `get_contacts`. */
  const ContactPageSize := 100
  const GstRate: real := 0.18

  /** A MongoDB equality filter: field name to required value. */
  type Query = map<string, string>

  /** `doc` holds every field of `q` with the value `q` gives it. */
  predicate Matches(q: Query, doc: map<string, string>) {
    forall k | k in q :: k in doc && doc[k] == q[k]
  }

  /* ----- tenders ----- */

  /** The string fields of a stored tender that queries can name. */
  datatype Tender = Tender(id: string, tenderId: string, title: string, organization: string,
                           category: string, location: string, status: string)

  function TenderFields(t: Tender): map<string, string> {
    map["id" := t.id, "tender_id" := t.tenderId, "title" := t.title, "organization" := t.organization,
        "category" := t.category, "location" := t.location, "status" := t.status]
  }

  /** Python truthiness of an optional string parameter. */
  predicate Given(p: Option<string>) {
    p.Some? && p.value != ""
  }

  /** The filter of `get_tenders`: a category only when one is given. */
  function TenderQuery(category: Option<string>): (q: Query)
    ensures "category" in q <==> Given(category)
    ensures forall k | k in q :: k == "category" && q[k] == category.value
  {
    if Given(category) then map["category" := category.value] else map[]
  }

  function TenderMatcher(q: Query): Tender -> bool {
    t => Matches(q, TenderFields(t))
  }

  /** A tender passes the filter exactly when no category is given or it has that category. */
  lemma TenderQueryMeaning(category: Option<string>)
    ensures forall t :: TenderMatcher(TenderQuery(category))(t) <==> !Given(category) || t.category == category.value
  {
    var q := TenderQuery(category);
    forall t
      ensures TenderMatcher(q)(t) <==> !Given(category) || t.category == category.value
    {
      if Given(category) {
        assert "category" in q;
      }
    }
  }

  /**
   * The tenders `get_tenders` can return (before paging): exactly those of
   * the requested category, in storage order.
   */
  function SelectTenders(tenders: seq<Tender>, category: Option<string>): (r: seq<Tender>)
    ensures IsSubsequence(r, tenders)
    ensures forall t :: t in r <==> t in tenders && (!Given(category) || t.category == category.value)
    ensures forall t :: multiset(r)[t] == (if !Given(category) || t.category == category.value
                                           then multiset(tenders)[t] else 0)
  {
    TenderQueryMeaning(category);
    FilterMultiplicityAll(tenders, TenderMatcher(TenderQuery(category)));
    FilterIsSubsequence(tenders, TenderMatcher(TenderQuery(category)));
    FilterMembershipAll(tenders, TenderMatcher(TenderQuery(category)));
    Filter(tenders, TenderMatcher(TenderQuery(category)))
  }

  /** Without a category (absent or empty) every tender is selected, in order. */
  lemma NoCategorySelectsAll(tenders: seq<Tender>, category: Option<string>)
    requires !Given(category)
    ensures SelectTenders(tenders, category) == tenders
  {
    TenderQueryMeaning(category);
    FilterKeepsAll(tenders, TenderMatcher(TenderQuery(category)));
  }

  /** `find_one({"id": id})` on the tenders. */
  function FindTender(tenders: seq<Tender>, id: string): (r: Option<Tender>)
    ensures r.None? <==> forall i | 0 <= i < |tenders| :: tenders[i].id != id
    ensures r.Some? ==> r.value in tenders && r.value.id == id
  {
    if tenders == [] then None
    else if tenders[0].id == id then Some(tenders[0])
    else
      var r := FindTender(tenders[1..], id);
      assert forall i | 0 <= i < |tenders| - 1 :: tenders[1..][i] == tenders[i + 1];
      r
  }

  /* ----- BOQ totals ----- */

  /** A BOQ item as posted: `quantity` and `unit_price` may be missing. */
  datatype BoqItem = BoqItem(quantity: Option<real>, unitPrice: Option<real>)

  function LineCost(item: BoqItem): real {
    item.quantity.GetOr(0.0) * item.unitPrice.GetOr(0.0)
  }

  /** The generator sum of `quantity * unit_price`, a missing field counting as 0. */
  function TotalCost(items: seq<BoqItem>): real {
    if items == [] then 0.0 else TotalCost(items[..|items| - 1]) + LineCost(items[|items| - 1])
  }

  /** The sum splits over concatenation. */
  lemma {:induction false} TotalCostAppend(a: seq<BoqItem>, b: seq<BoqItem>)
    ensures TotalCost(a + b) == TotalCost(a) + TotalCost(b)
  {
    if b == [] {
      assert a + b == a;
    } else {
      TotalCostAppend(a, b[..|b| - 1]);
      assert (a + b)[..|a + b| - 1] == a + b[..|b| - 1];
    }
  }

  /** An item missing either field adds nothing to the total. */
  lemma IncompleteItemAddsNothing(items: seq<BoqItem>, item: BoqItem)
    requires item.quantity.None? || item.unitPrice.None?
    ensures TotalCost(items + [item]) == TotalCost(items)
  {
    assert (items + [item])[..|items|] == items;
  }

  /** Items with non-negative fields give a non-negative total. */
  lemma {:induction false} TotalCostNonNegative(items: seq<BoqItem>)
    requires forall i | 0 <= i < |items| :: items[i].quantity.GetOr(0.0) >= 0.0 && items[i].unitPrice.GetOr(0.0) >= 0.0
    ensures TotalCost(items) >= 0.0
  {
    if items != [] {
      TotalCostNonNegative(items[..|items| - 1]);
      var last := items[|items| - 1];
      assert LineCost(last) >= 0.0 by {
        NonNegativeProduct(last.quantity.GetOr(0.0), last.unitPrice.GetOr(0.0));
      }
    }
  }

  lemma NonNegativeProduct(x: real, y: real)
    requires x >= 0.0 && y >= 0.0
    ensures x * y >= 0.0
  {
  }

  /** The stored `BOQ` record (amounts before `round(…, 2)`). */
  datatype BoqRecord = BoqRecord(tenderId: string, userId: string, items: seq<BoqItem>,
                                 totalCost: real, gstAmount: real, grandTotal: real)

  /**
   * `generate_boq` of the API: 404 for an unknown tender; otherwise the
   * record of the caller with total, 18 % GST and their sum.
   */
  function GenerateBoq(tenders: seq<Tender>, tenderId: string, items: seq<BoqItem>, userId: string): (r: Result<BoqRecord, HttpError>)
    ensures r.Err? <==> forall i | 0 <= i < |tenders| :: tenders[i].id != tenderId
    ensures r.Err? ==> r.error == ServerAuth.HttpError(404, TenderNotFound)
    ensures r.Ok? ==> r.value.tenderId == tenderId && r.value.userId == userId && r.value.items == items
    ensures r.Ok? ==> r.value.totalCost == TotalCost(items)
    ensures r.Ok? ==> r.value.gstAmount == 0.18 * TotalCost(items) && r.value.grandTotal == 1.18 * TotalCost(items)
  {
    if FindTender(tenders, tenderId).None? then Err(ServerAuth.HttpError(404, TenderNotFound))
    else
      var total := TotalCost(items);
      var gst := total * GstRate;
      Ok(BoqRecord(tenderId, userId, items, total, gst, total + gst))
  }

  /* ----- analysis summary and uploads ----- */

  /** `response[:500] if len(response) > 500 else response`. */
  function Summary(response: string): (r: string)
    ensures |r| == if |response| > SummaryLimit then SummaryLimit else |response|
    ensures r == response[..|r|]
  {
    if |response| > SummaryLimit then response[..SummaryLimit] else response
  }

  /** Summarising a summary changes nothing. */
  lemma SummaryIdempotent(response: string)
    ensures Summary(Summary(response)) == Summary(response)
  {
  }

  /** The part of `analyze_tender` after the model answers: 404 for an unknown tender, else the summary. */
  function AnalysisSummary(tenders: seq<Tender>, tenderId: string, response: string): (r: Result<string, HttpError>)
    ensures r.Err? <==> forall i | 0 <= i < |tenders| :: tenders[i].id != tenderId
    ensures r.Err? ==> r.error == ServerAuth.HttpError(404, TenderNotFound)
    ensures r.Ok? ==> |r.value| <= SummaryLimit && StartsWith(response, r.value)
    ensures r.Ok? && |response| <= SummaryLimit ==> r.value == response
  {
    if FindTender(tenders, tenderId).None? then Err(ServerAuth.HttpError(404, TenderNotFound))
    else Ok(Summary(response))
  }

  /** The suffix test of `upload_tender_document`; `None` lets the upload through. */
  function UploadCheck(filename: string): (r: Option<HttpError>)
    ensures r.None? <==> |filename| >= 4 && filename[|filename| - 4..] == ".pdf"
    ensures r.Some? ==> r.value == ServerAuth.HttpError(400, OnlyPdf)
  {
    if EndsWith(filename, ".pdf") then None else Some(ServerAuth.HttpError(400, OnlyPdf))
  }

  /** The test is case-sensitive: an upper-case extension is refused. */
  lemma UpperCaseExtensionRefused()
    ensures UploadCheck("TENDER.PDF").Some?
    ensures UploadCheck("tender.pdf").None?
  {
    assert "TENDER.PDF"[6..] == ".PDF";
    assert "tender.pdf"[6..] == ".pdf";
  }

  /* ----- CRM contacts ----- */

  /** A stored CRM contact. */
  datatype Contact = Contact(id: string, userId: string, name: string, email: string,
                             phone: Option<string>, company: Option<string>, kind: string,
                             notes: Option<string>, createdAt: int)

  /** The string fields of a contact that queries can name (`kind` is stored as `type`). */
  function ContactFields(c: Contact): map<string, string> {
    map["id" := c.id, "user_id" := c.userId, "name" := c.name, "email" := c.email, "type" := c.kind]
  }

  /** The filter of `get_contacts`: always the caller, plus a type when one is given. */
  function ContactQuery(userId: string, contactType: Option<string>): (q: Query)
    ensures "user_id" in q && q["user_id"] == userId
    ensures "type" in q <==> Given(contactType)
    ensures forall k | k in q :: k == "user_id" || (k == "type" && q[k] == contactType.value)
  {
    var q := map["user_id" := userId];
    if Given(contactType) then q["type" := contactType.value] else q
  }

  function ContactMatcher(q: Query): Contact -> bool {
    c => Matches(q, ContactFields(c))
  }

  /** A contact is selected for `userId` exactly when it is theirs and of the requested type. */
  lemma ContactQueryMeaning(userId: string, contactType: Option<string>)
    ensures forall c :: ContactMatcher(ContactQuery(userId, contactType))(c) <==>
      c.userId == userId && (!Given(contactType) || c.kind == contactType.value)
  {
    var q := ContactQuery(userId, contactType);
    forall c
      ensures ContactMatcher(q)(c) <==> c.userId == userId && (!Given(contactType) || c.kind == contactType.value)
    {
      var f := ContactFields(c);
      if c.userId == userId && (!Given(contactType) || c.kind == contactType.value) {
        forall k | k in q
          ensures k in f && f[k] == q[k]
        {
        }
      }
    }
  }

  /**
   * `get_contacts`: the first 100 contacts, in storage order, that belong
   * to the caller and have the requested type.
   */
  function GetContacts(contacts: seq<Contact>, userId: string, contactType: Option<string>): (r: seq<Contact>)
    ensures var all := Filter(contacts, ContactMatcher(ContactQuery(userId, contactType)));
      |r| == (if |all| < ContactPageSize then |all| else ContactPageSize) && r == all[..|r|]
    ensures forall c | c in r :: c in contacts && c.userId == userId && (!Given(contactType) || c.kind == contactType.value)
  {
    ContactQueryMeaning(userId, contactType);
    PyTake(Filter(contacts, ContactMatcher(ContactQuery(userId, contactType))), ContactPageSize)
  }

  /** The `crm_contacts` collection. */
  class ContactStore {
    var contacts: seq<Contact>

    constructor()
      ensures contacts == []
    {
      contacts := [];
    }

    /** `create_contact`: whatever owner the body names, the contact is stored as the caller's. */
    method CreateContact(c: Contact, callerId: string) returns (saved: Contact)
      modifies this
      ensures saved == c.(userId := callerId)
      ensures contacts == old(contacts) + [saved]
    {
      saved := c.(userId := callerId);
      contacts := contacts + [saved];
    }
  }

  /** A contact created by one user never shows in another user's list. */
  lemma ContactInvisibleToOthers(contacts: seq<Contact>, c: Contact, owner: string, other: string,
                                 contactType: Option<string>)
    requires other != owner
    ensures GetContacts(contacts + [c.(userId := owner)], other, contactType) == GetContacts(contacts, other, contactType)
  {
    var keep := ContactMatcher(ContactQuery(other, contactType));
    var saved := c.(userId := owner);
    FilterAppend(contacts, [saved], keep);
    ContactQueryMeaning(other, contactType);
    assert Filter([saved], keep) == [];
    assert Filter(contacts + [saved], keep) == Filter(contacts, keep);
  }

  /** The owner's unfiltered selection grows by exactly the contact they create. */
  lemma OwnerSelectionGrows(contacts: seq<Contact>, saved: Contact)
    ensures var keep := ContactMatcher(ContactQuery(saved.userId, None));
      Filter(contacts + [saved], keep) == Filter(contacts, keep) + [saved]
  {
    var keep := ContactMatcher(ContactQuery(saved.userId, None));
    FilterAppend(contacts, [saved], keep);
    ContactQueryMeaning(saved.userId, None);
    assert Filter([saved], keep) == [saved];
  }

  /** A contact its owner creates shows in the owner's unfiltered list while the page is not full. */
  lemma ContactVisibleToOwner(contacts: seq<Contact>, c: Contact, owner: string)
    requires |Filter(contacts, ContactMatcher(ContactQuery(owner, None)))| < ContactPageSize
    ensures c.(userId := owner) in GetContacts(contacts + [c.(userId := owner)], owner, None)
  {
    var saved := c.(userId := owner);
    OwnerSelectionGrows(contacts, saved);
    var all := Filter(contacts + [saved], ContactMatcher(ContactQuery(owner, None)));
    assert GetContacts(contacts + [saved], owner, None) == all;
    assert all[|all| - 1] == saved;
  }
}
