/** The documents page: the category filter. */
module DocumentsPage {
  import opened Seqs

  datatype Document = Document(id: string, name: string, category: string)

  const Categories: seq<string> := ["All", "Technical", "Financial", "Legal", "Company"]

  /** The category selected when the page opens. */
  const InitialCategory := "All"

  /** `filteredDocs`: "All" keeps everything, any other value is compared exactly. */
  function FilteredDocs(docs: seq<Document>, selected: string): (r: seq<Document>)
    ensures selected == "All" ==> r == docs
    ensures selected != "All" ==> forall d :: d in r <==> d in docs && d.category == selected
    ensures (selected != "All" ==>
      forall d :: multiset(r)[d] == if d.category == selected then multiset(docs)[d] else 0)
    ensures IsSubsequence(r, docs)
  {
    var p := (d: Document) => d.category == selected;
    FilterMembershipAll(docs, p);
    FilterMultiplicityAll(docs, p);
    FilterIsSubsequence(docs, p);
    SubsequenceOfItself(docs);
    if selected == "All" then docs else Filter(docs, p)
  }
}
