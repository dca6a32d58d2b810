/**
 * The document generator's arithmetic and its BOQ worksheet: EMD and
 * security-deposit percentages, and the cells `generate_boq` writes (title
 * block, header row, one row per item, then total, GST and grand total).
 * Styling, column widths and saving the workbook are outside the model; the
 * date stamps are parameters.
 */
module DocumentGenerator {
  import opened Wrappers

  const DefaultEmdPercent: real := 2.0
  const DefaultSecurityDepositPercent: real := 10.0
  const GstRate: real := 0.18
  const TemplatesDir := "/app/backend/document_templates"

  /** `calculate_emd`: `percentage` per cent of the tender value. */
  function CalculateEmd(tenderValue: real, percentage: real): (emd: real)
    ensures emd * 100.0 == tenderValue * percentage
  {
    (tenderValue * percentage) / 100.0
  }

  /** `calculate_security_deposit`: `percentage` per cent of the tender value. */
  function CalculateSecurityDeposit(tenderValue: real, percentage: real): (sd: real)
    ensures sd * 100.0 == tenderValue * percentage
  {
    (tenderValue * percentage) / 100.0
  }

  /** At the default 2 %, a tender of 50 lakh needs an EMD of one lakh. */
  lemma EmdExample()
    ensures CalculateEmd(5000000.0, DefaultEmdPercent) == 100000.0
  {
  }

  /** With both defaults the security deposit is five times the EMD, and neither exceeds the tender value. */
  lemma {:induction false} DefaultDepositIsFiveEmds(v: real)
    requires v >= 0.0
    ensures CalculateSecurityDeposit(v, DefaultSecurityDepositPercent) == 5.0 * CalculateEmd(v, DefaultEmdPercent)
    ensures 0.0 <= CalculateEmd(v, DefaultEmdPercent) <= CalculateSecurityDeposit(v, DefaultSecurityDepositPercent) <= v
  {
    var emd := CalculateEmd(v, DefaultEmdPercent);
    var sd := CalculateSecurityDeposit(v, DefaultSecurityDepositPercent);
    assert emd * 100.0 == v * 2.0;
    assert sd * 100.0 == v * 10.0;
  }

  /** One item of the request; every key may be missing. */
  datatype BoqLine = BoqLine(description: Option<string>, unit: Option<string>, quantity: Option<real>, rate: Option<real>)

  /** `quantity * rate`, a missing quantity being 1 and a missing rate 0. */
  function Amount(item: BoqLine): (a: real)
    ensures item.rate.None? ==> a == 0.0
    ensures item.quantity.None? ==> a == item.rate.GetOr(0.0)
  {
    item.quantity.GetOr(1.0) * item.rate.GetOr(0.0)
  }

  /** The sum of the line amounts. */
  function Total(items: seq<BoqLine>): real {
    if items == [] then 0.0 else Total(items[..|items| - 1]) + Amount(items[|items| - 1])
  }

  /** Lines without a rate add nothing to the total. */
  lemma {:induction false} UnpricedLinesAddNothing(items: seq<BoqLine>)
    requires forall i | 0 <= i < |items| :: items[i].rate.None?
    ensures Total(items) == 0.0
  {
    if items != [] {
      UnpricedLinesAddNothing(items[..|items| - 1]);
    }
  }

  /** Lines with non-negative quantities and rates give a non-negative total. */
  lemma {:induction false} TotalNonNegative(items: seq<BoqLine>)
    requires forall i | 0 <= i < |items| :: items[i].quantity.GetOr(1.0) >= 0.0 && items[i].rate.GetOr(0.0) >= 0.0
    ensures Total(items) >= 0.0
  {
    if items != [] {
      TotalNonNegative(items[..|items| - 1]);
      var last := items[|items| - 1];
      assert Amount(last) >= 0.0;
    }
  }

  /** The total of two lists of lines is the sum of their totals. */
  lemma {:induction false} TotalAppend(a: seq<BoqLine>, b: seq<BoqLine>)
    ensures Total(a + b) == Total(a) + Total(b)
    decreases |b|
  {
    if b == [] {
      assert a + b == a;
    } else {
      assert (a + b)[..|a + b| - 1] == a + b[..|b| - 1];
      assert (a + b)[|a + b| - 1] == b[|b| - 1];
      TotalAppend(a, b[..|b| - 1]);
    }
  }

  datatype Cell = Int(n: int) | Num(x: real) | Text(s: string)

  const Headers: seq<string> := ["S.No", "Description", "Unit", "Quantity", "Rate (₹)", "Amount (₹)"]
  const HeaderRowIndex := 6

  datatype TenderData = TenderData(tenderId: Option<string>, title: Option<string>, organization: Option<string>)

  type Sheet = map<(int, int), Cell>

  /*
   * The expected sheet is built by the same sequence of writes as
   * `generate_boq` performs, one function per stage; the lemmas below state
   * where each stage leaves its values.
   */

  /** Rows 1 to 4 of column A: title, tender, organisation and date. */
  function TitleCells(t: TenderData, today: string): Sheet {
    map[][(1, 1) := Text("Bill of Quantities - " + t.tenderId.GetOr("BOQ"))]
         [(2, 1) := Text("Tender: " + t.title.GetOr(""))]
         [(3, 1) := Text("Organization: " + t.organization.GetOr(""))]
         [(4, 1) := Text("Date: " + today)]
  }

  /** `m` with the first `col` headers written on row 6. */
  function WithHeaders(m: Sheet, col: nat): Sheet
    requires col <= |Headers|
  {
    if col == 0 then m else WithHeaders(m, col - 1)[(HeaderRowIndex, col) := Text(Headers[col - 1])]
  }

  /** `m` with the six cells of item `k` (1-based) written on row `6 + k`. */
  function WithItemRow(m: Sheet, k: int, item: BoqLine): Sheet {
    var r := HeaderRowIndex + k;
    m[(r, 1) := Int(k)]
     [(r, 2) := Text(item.description.GetOr(""))]
     [(r, 3) := Text(item.unit.GetOr("Nos"))]
     [(r, 4) := Num(item.quantity.GetOr(1.0))]
     [(r, 5) := Num(item.rate.GetOr(0.0))]
     [(r, 6) := Num(Amount(item))]
  }

  /** `m` with every item row written, in order. */
  function WithItems(m: Sheet, items: seq<BoqLine>): Sheet {
    if items == [] then m else WithItemRow(WithItems(m, items[..|items| - 1]), |items|, items[|items| - 1])
  }

  /** `m` with the three closing rows after `n` items: total, GST at 18 % of it, and their sum. */
  function WithTotals(m: Sheet, n: int, total: real): Sheet {
    var r := HeaderRowIndex + 1 + n;
    m[(r, 5) := Text("Total:")]
     [(r, 6) := Num(total)]
     [(r + 1, 5) := Text("GST @ 18%:")]
     [(r + 1, 6) := Num(total * GstRate)]
     [(r + 2, 5) := Text("Grand Total:")]
     [(r + 2, 6) := Num(total + total * GstRate)]
  }

  /** Rows 1 to 6: the title block, then the header row. */
  function HeadSheet(t: TenderData, today: string): Sheet {
    WithHeaders(TitleCells(t, today), |Headers|)
  }

  /** Every cell `generate_boq` writes: the head, the item rows, the closing rows. */
  function BoqSheet(t: TenderData, items: seq<BoqLine>, today: string): Sheet {
    WithTotals(WithItems(HeadSheet(t, today), items), |items|, Total(items))
  }

  /** `sheet` has `v` at `key`. */
  predicate CellIs(sheet: Sheet, key: (int, int), v: Cell) {
    key in sheet && sheet[key] == v
  }

  /** `a` and `b` agree at `key`: both lack it, or both hold the same value. */
  predicate AgreeAt(a: Sheet, b: Sheet, key: (int, int)) {
    (key in a <==> key in b) && (key in a ==> a[key] == b[key])
  }

  /** Row `7 + i` of `sheet` holds item `i` (0-based): serial `i + 1`, its texts, values and amount. */
  predicate HasItemRow(sheet: Sheet, i: int, item: BoqLine) {
    var r := HeaderRowIndex + 1 + i;
    CellIs(sheet, (r, 1), Int(i + 1)) &&
    CellIs(sheet, (r, 2), Text(item.description.GetOr(""))) &&
    CellIs(sheet, (r, 3), Text(item.unit.GetOr("Nos"))) &&
    CellIs(sheet, (r, 4), Num(item.quantity.GetOr(1.0))) &&
    CellIs(sheet, (r, 5), Num(item.rate.GetOr(0.0))) &&
    CellIs(sheet, (r, 6), Num(Amount(item)))
  }

  lemma TitleCellsExtent(t: TenderData, today: string)
    ensures forall key: (int, int) | key in TitleCells(t, today) :: 1 <= key.0 <= 4 && key.1 == 1
  {
  }

  /** The header stage writes row 6, columns 1 to `col`, and leaves every other cell alone. */
  lemma {:induction false} WithHeadersShape(m: Sheet, col: nat)
    requires col <= |Headers|
    ensures forall c | 1 <= c <= col :: CellIs(WithHeaders(m, col), (HeaderRowIndex, c), Text(Headers[c - 1]))
    ensures forall key: (int, int) | key.0 != HeaderRowIndex || !(1 <= key.1 <= col) :: AgreeAt(WithHeaders(m, col), m, key)
  {
    if col > 0 {
      WithHeadersShape(m, col - 1);
    }
  }

  /** An item row stage writes row `6 + k`, columns 1 to 6, and leaves every other cell alone. */
  lemma WithItemRowShape(m: Sheet, k: int, item: BoqLine)
    ensures HasItemRow(WithItemRow(m, k, item), k - 1, item)
    ensures forall key: (int, int) | key.0 != HeaderRowIndex + k || !(1 <= key.1 <= 6) :: AgreeAt(WithItemRow(m, k, item), m, key)
  {
  }

  /** The item stage writes rows 7 to `6 + n`, columns 1 to 6, and leaves every other cell alone. */
  lemma {:induction false} WithItemsKeepsOthers(m: Sheet, items: seq<BoqLine>)
    ensures forall key: (int, int) | !(HeaderRowIndex + 1 <= key.0 <= HeaderRowIndex + |items|) || !(1 <= key.1 <= 6) ::
      AgreeAt(WithItems(m, items), m, key)
  {
    if items != [] {
      WithItemsKeepsOthers(m, items[..|items| - 1]);
      WithItemRowShape(WithItems(m, items[..|items| - 1]), |items|, items[|items| - 1]);
    }
  }

  /** An item row stage writes the six cells of its row. */
  lemma WithItemRowHas(m: Sheet, k: int, item: BoqLine)
    ensures HasItemRow(WithItemRow(m, k, item), k - 1, item)
  {
  }

  /** An item row stage leaves every other row alone. */
  lemma WithItemRowElsewhere(m: Sheet, k: int, item: BoqLine, key: (int, int))
    requires key.0 != HeaderRowIndex + k
    ensures AgreeAt(WithItemRow(m, k, item), m, key)
  {
  }

  /** A sheet that agrees with `b` across row `7 + i` holds the same item row. */
  lemma ItemRowKept(a: Sheet, b: Sheet, i: int, item: BoqLine)
    requires forall key: (int, int) | key.0 == HeaderRowIndex + 1 + i && 1 <= key.1 <= 6 :: AgreeAt(a, b, key)
    requires HasItemRow(b, i, item)
    ensures HasItemRow(a, i, item)
  {
  }

  /** Item `k` (1-based) sits on row `6 + k` with serial number `k`. */
  lemma {:induction false} WithItemsRows(m: Sheet, items: seq<BoqLine>)
    ensures forall i | 0 <= i < |items| :: HasItemRow(WithItems(m, items), i, items[i])
  {
    if items != [] {
      var n := |items|;
      var init := items[..n - 1];
      var before := WithItems(m, init);
      assert WithItems(m, items) == WithItemRow(before, n, items[n - 1]);
      WithItemsRows(m, init);
      WithItemRowHas(before, n, items[n - 1]);
      forall i | 0 <= i < n - 1
        ensures HasItemRow(WithItems(m, items), i, items[i])
      {
        assert items[i] == init[i];
        forall key: (int, int) | key.0 == HeaderRowIndex + 1 + i && 1 <= key.1 <= 6
          ensures AgreeAt(WithItems(m, items), before, key)
        {
          WithItemRowElsewhere(before, n, items[n - 1], key);
        }
        ItemRowKept(WithItems(m, items), before, i, items[i]);
      }
    }
  }

  /** The closing stage writes the labels and amounts of rows `7 + n` to `9 + n`, columns 5 and 6. */
  lemma WithTotalsCells(m: Sheet, n: int, total: real)
    ensures var sheet := WithTotals(m, n, total);
      CellIs(sheet, (7 + n, 5), Text("Total:")) && CellIs(sheet, (7 + n, 6), Num(total)) &&
      CellIs(sheet, (8 + n, 5), Text("GST @ 18%:")) && CellIs(sheet, (8 + n, 6), Num(0.18 * total)) &&
      CellIs(sheet, (9 + n, 5), Text("Grand Total:")) && CellIs(sheet, (9 + n, 6), Num(1.18 * total))
  {
  }

  /** The closing stage leaves every cell outside rows `7 + n` to `9 + n`, columns 5 and 6, alone. */
  lemma WithTotalsKeepsOthers(m: Sheet, n: int, total: real)
    ensures forall key: (int, int) | !(7 + n <= key.0 <= 9 + n) || !(5 <= key.1 <= 6) :: AgreeAt(WithTotals(m, n, total), m, key)
  {
  }

  /**
   * Rows 1 to 6 as the title and header stages leave them: the four title
   * lines in column A, the six headers in order on row 6, nothing else.
   */
  lemma {:induction false} HeadSheetLayout(t: TenderData, today: string)
    ensures var head := HeadSheet(t, today);
      CellIs(head, (1, 1), Text("Bill of Quantities - " + t.tenderId.GetOr("BOQ"))) &&
      CellIs(head, (2, 1), Text("Tender: " + t.title.GetOr(""))) &&
      CellIs(head, (3, 1), Text("Organization: " + t.organization.GetOr(""))) &&
      CellIs(head, (4, 1), Text("Date: " + today)) &&
      (forall c | 1 <= c <= 6 :: CellIs(head, (HeaderRowIndex, c), Text(Headers[c - 1]))) &&
      (forall key: (int, int) | key in head :: 1 <= key.0 <= HeaderRowIndex && 1 <= key.1 <= 6)
  {
    var title := TitleCells(t, today);
    TitleCellsExtent(t, today);
    WithHeadersShape(title, |Headers|);
    forall key: (int, int) | key in HeadSheet(t, today)
      ensures 1 <= key.0 <= HeaderRowIndex && 1 <= key.1 <= 6
    {
      if key.0 != HeaderRowIndex || !(1 <= key.1 <= 6) {
        assert AgreeAt(HeadSheet(t, today), title, key);
      }
    }
    forall k | 1 <= k <= 4
      ensures AgreeAt(HeadSheet(t, today), title, (k, 1))
    {
    }
  }

  /**
   * The item and closing stages on top of any sheet `m`: item `k` (1-based)
   * on row `6 + k` with serial `k`, its texts, values and amount; then, in
   * columns E and F of rows `7 + n`, `8 + n` and `9 + n`, the total of the
   * amounts, GST at 18 % of it and the grand total (1.18 times the total).
   */
  lemma {:induction false} FilledLayout(m: Sheet, items: seq<BoqLine>)
    ensures var sheet, n := WithTotals(WithItems(m, items), |items|, Total(items)), |items|;
      (forall i | 0 <= i < n :: HasItemRow(sheet, i, items[i])) &&
      CellIs(sheet, (7 + n, 5), Text("Total:")) && CellIs(sheet, (7 + n, 6), Num(Total(items))) &&
      CellIs(sheet, (8 + n, 5), Text("GST @ 18%:")) && CellIs(sheet, (8 + n, 6), Num(0.18 * Total(items))) &&
      CellIs(sheet, (9 + n, 5), Text("Grand Total:")) && CellIs(sheet, (9 + n, 6), Num(1.18 * Total(items)))
  {
    var n := |items|;
    var filled := WithItems(m, items);
    WithItemsRows(m, items);
    WithTotalsCells(filled, n, Total(items));
    WithTotalsKeepsOthers(filled, n, Total(items));
    forall i | 0 <= i < n
      ensures HasItemRow(WithTotals(filled, n, Total(items)), i, items[i])
    {
      var r := HeaderRowIndex + 1 + i;
      assert HasItemRow(filled, i, items[i]);
      assert forall c :: AgreeAt(WithTotals(filled, n, Total(items)), filled, (r, c));
    }
  }

  /**
   * The item and closing stages leave every cell of `m` above row 7 as it
   * was, and write nothing outside columns A to F and rows 7 to `9 + n`.
   */
  lemma {:induction false} FilledKeepsHead(m: Sheet, items: seq<BoqLine>)
    ensures var sheet := WithTotals(WithItems(m, items), |items|, Total(items));
      (forall key: (int, int) | key.0 <= HeaderRowIndex :: AgreeAt(sheet, m, key)) &&
      (forall key: (int, int) | key in sheet && key !in m :: HeaderRowIndex + 1 <= key.0 <= 9 + |items| && 1 <= key.1 <= 6)
  {
    var filled := WithItems(m, items);
    WithItemsKeepsOthers(m, items);
    WithTotalsKeepsOthers(filled, |items|, Total(items));
  }

  lemma WithItemRowUnfold(m: Sheet, k: int, item: BoqLine)
    ensures WithItemRow(m, k, item) == m[(6 + k, 1) := Int(k)][(6 + k, 2) := Text(item.description.GetOr(""))][(6 + k, 3) := Text(item.unit.GetOr("Nos"))][(6 + k, 4) := Num(item.quantity.GetOr(1.0))][(6 + k, 5) := Num(item.rate.GetOr(0.0))][(6 + k, 6) := Num(Amount(item))]
  {
  }

  lemma WithTotalsUnfold(m: Sheet, n: int, total: real)
    ensures WithTotals(m, n, total) == m[(7 + n, 5) := Text("Total:")][(7 + n, 6) := Num(total)][(8 + n, 5) := Text("GST @ 18%:")][(8 + n, 6) := Num(total * GstRate)][(9 + n, 5) := Text("Grand Total:")][(9 + n, 6) := Num(total + total * GstRate)]
  {
  }

  /** A worksheet: the values written so far, by (row, column). */
  class Worksheet {
    var cells: Sheet

    constructor()
      ensures cells == map[]
    {
      cells := map[];
    }

    /** `ws.cell(row=…, column=…, value=…)`. */
    method Write(row: int, column: int, value: Cell)
      modifies this
      ensures cells == old(cells)[(row, column) := value]
    {
      cells := cells[(row, column) := value];
    }
  }

  /** The item loop of `generate_boq`: one row per item from row 7, returning the running total. */
  method WriteItems(ws: Worksheet, items: seq<BoqLine>) returns (totalAmount: real)
    modifies ws
    ensures ws.cells == WithItems(old(ws.cells), items)
    ensures totalAmount == Total(items)
  {
    ghost var start := ws.cells;
    var row := HeaderRowIndex + 1;
    totalAmount := 0.0;
    var idx := 0;
    while idx < |items|
      invariant 0 <= idx <= |items|
      invariant row == HeaderRowIndex + 1 + idx
      invariant totalAmount == Total(items[..idx])
      invariant ws.cells == WithItems(start, items[..idx])
    {
      var item := items[idx];
      assert items[..idx + 1][..idx] == items[..idx];
      WithItemRowUnfold(ws.cells, idx + 1, item);
      ws.Write(row, 1, Int(idx + 1));
      ws.Write(row, 2, Text(item.description.GetOr("")));
      ws.Write(row, 3, Text(item.unit.GetOr("Nos")));
      ws.Write(row, 4, Num(item.quantity.GetOr(1.0)));
      ws.Write(row, 5, Num(item.rate.GetOr(0.0)));
      var amount := item.quantity.GetOr(1.0) * item.rate.GetOr(0.0);
      assert amount == Amount(item);
      ws.Write(row, 6, Num(amount));
      totalAmount := totalAmount + amount;
      row := row + 1;
      idx := idx + 1;
    }
    assert items[..|items|] == items;
  }

  /** The closing rows of `generate_boq`, after `n` item rows. */
  method WriteTotals(ws: Worksheet, n: int, totalAmount: real)
    modifies ws
    ensures ws.cells == WithTotals(old(ws.cells), n, totalAmount)
  {
    WithTotalsUnfold(ws.cells, n, totalAmount);
    var row := HeaderRowIndex + 1 + n;
    ws.Write(row, 5, Text("Total:"));
    ws.Write(row, 6, Num(totalAmount));
    row := row + 1;
    var gstAmount := totalAmount * GstRate;
    ws.Write(row, 5, Text("GST @ 18%:"));
    ws.Write(row, 6, Num(gstAmount));
    row := row + 1;
    var grandTotal := totalAmount + gstAmount;
    ws.Write(row, 5, Text("Grand Total:"));
    ws.Write(row, 6, Num(grandTotal));
  }

  /**
   * `generate_boq`: fills a new worksheet and returns the path it is saved
   * under (`stamp` is the `%Y%m%d` date, `today` the `%d-%m-%Y` one).
   */
  method GenerateBoq(t: TenderData, items: seq<BoqLine>, today: string, stamp: string)
    returns (ws: Worksheet, path: string)
    ensures fresh(ws)
    ensures ws.cells == BoqSheet(t, items, today)
    ensures path == TemplatesDir + "/BOQ_" + t.tenderId.GetOr("document") + "_" + stamp + ".xlsx"
  {
    ws := new Worksheet();
    ws.Write(1, 1, Text("Bill of Quantities - " + t.tenderId.GetOr("BOQ")));
    ws.Write(2, 1, Text("Tender: " + t.title.GetOr("")));
    ws.Write(3, 1, Text("Organization: " + t.organization.GetOr("")));
    ws.Write(4, 1, Text("Date: " + today));
    ghost var title := ws.cells;
    assert title == TitleCells(t, today);

    var col := 1;
    while col <= |Headers|
      invariant 1 <= col <= |Headers| + 1
      invariant ws.cells == WithHeaders(title, col - 1)
    {
      ws.Write(HeaderRowIndex, col, Text(Headers[col - 1]));
      col := col + 1;
    }
    assert ws.cells == HeadSheet(t, today);

    var totalAmount := WriteItems(ws, items);
    WriteTotals(ws, |items|, totalAmount);

    path := TemplatesDir + "/BOQ_" + t.tenderId.GetOr("document") + "_" + stamp + ".xlsx";
  }
}
