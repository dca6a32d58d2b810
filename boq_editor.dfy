/**
 * The document-preparation page: the editable bill-of-quantities list, its
 * totals, and the guards in front of the three generation requests.
 */
module DocumentPreparation {
  import opened Wrappers
  import opened Ui

  /** A form value: the number the item started with, or text typed into an input. */
  datatype FieldValue = Num(n: real) | Typed(text: string)

  datatype BoqItem = BoqItem(description: string, unit: string, quantity: FieldValue, rate: FieldValue)

  datatype Field = Description | Unit | Quantity | Rate

  /** The item the list starts with and `addBOQItem` appends. */
  const BlankItem := BoqItem("", "Nos", Num(1.0), Num(0.0))

  /**
   * `parseFloat(v) || 0`.  `parse` is the browser's `parseFloat` on text
   * (`None` for NaN); NaN and 0 both become 0.
   */
  function NumberOr0(v: FieldValue, parse: string -> Option<real>): real {
    match v
    case Num(n) => n
    case Typed(t) => parse(t).GetOr(0.0)
  }

  function LineAmount(item: BoqItem, parse: string -> Option<real>): real {
    NumberOr0(item.quantity, parse) * NumberOr0(item.rate, parse)
  }

  /** `calculateBOQTotal`: the `reduce` over the items, starting from 0. */
  function Subtotal(items: seq<BoqItem>, parse: string -> Option<real>): real {
    if items == [] then 0.0
    else Subtotal(items[..|items| - 1], parse) + LineAmount(items[|items| - 1], parse)
  }

  /** The subtotal of a concatenation is the sum of the subtotals. */
  lemma {:induction false} SubtotalAppend(a: seq<BoqItem>, b: seq<BoqItem>, parse: string -> Option<real>)
    ensures Subtotal(a + b, parse) == Subtotal(a, parse) + Subtotal(b, parse)
  {
    if b == [] {
      assert a + b == a;
    } else {
      assert (a + b)[..|a + b| - 1] == a + b[..|b| - 1];
      SubtotalAppend(a, b[..|b| - 1], parse);
    }
  }

  /** Lines that are never negative give a subtotal that is not; all-zero lines give zero. */
  lemma {:induction false} SubtotalBounds(items: seq<BoqItem>, parse: string -> Option<real>)
    ensures (forall i | 0 <= i < |items| :: LineAmount(items[i], parse) >= 0.0) ==> Subtotal(items, parse) >= 0.0
    ensures (forall i | 0 <= i < |items| :: LineAmount(items[i], parse) == 0.0) ==> Subtotal(items, parse) == 0.0
  {
    if items != [] {
      var init := items[..|items| - 1];
      assert forall i | 0 <= i < |init| :: init[i] == items[i];
      SubtotalBounds(init, parse);
    }
  }

  lemma SubtotalSingle(x: BoqItem, parse: string -> Option<real>)
    ensures Subtotal([x], parse) == LineAmount(x, parse)
  {
    assert [x][..0] == [];
  }

  /** Displayed GST, 18% of the subtotal. */
  function DisplayedGst(subtotal: real): real { subtotal * 0.18 }

  /** Displayed grand total, 1.18 times the subtotal. */
  function DisplayedGrandTotal(subtotal: real): real { subtotal * 1.18 }

  lemma GrandTotalIsSubtotalPlusGst(subtotal: real)
    ensures DisplayedGrandTotal(subtotal) == subtotal + DisplayedGst(subtotal)
  {
  }

  /** `items.filter((_, i) => i !== index)`, counting positions from `offset`. */
  function WithoutIndexFrom(items: seq<BoqItem>, index: int, offset: int): seq<BoqItem>
  {
    if items == [] then []
    else (if offset != index then [items[0]] else []) + WithoutIndexFrom(items[1..], index, offset + 1)
  }

  function WithoutIndex(items: seq<BoqItem>, index: int): seq<BoqItem> {
    WithoutIndexFrom(items, index, 0)
  }

  lemma {:induction false} WithoutIndexFromMissing(items: seq<BoqItem>, index: int, offset: int)
    requires index < offset || index >= offset + |items|
    ensures WithoutIndexFrom(items, index, offset) == items
  {
    if items != [] {
      WithoutIndexFromMissing(items[1..], index, offset + 1);
    }
  }

  lemma {:induction false} WithoutIndexFromHit(items: seq<BoqItem>, index: int, offset: int)
    requires offset <= index < offset + |items|
    ensures WithoutIndexFrom(items, index, offset) == items[..index - offset] + items[index - offset + 1..]
  {
    if offset == index {
      WithoutIndexFromMissing(items[1..], index, offset + 1);
    } else {
      var k, rest := index - offset, items[1..];
      WithoutIndexFromHit(rest, index, offset + 1);
      assert WithoutIndexFrom(items, index, offset) == [items[0]] + (rest[..k - 1] + rest[k..]);
      assert rest[k..] == items[k + 1..];
      assert [items[0]] + rest[..k - 1] == items[..k];
    }
  }

  /**
   * Removing by index deletes exactly the element at `index` and keeps the
   * others in order; an index outside the list changes nothing.
   */
  lemma RemoveAtIndex(items: seq<BoqItem>, index: int)
    ensures 0 <= index < |items| ==> WithoutIndex(items, index) == items[..index] + items[index + 1..]
    ensures !(0 <= index < |items|) ==> WithoutIndex(items, index) == items
  {
    if 0 <= index < |items| {
      WithoutIndexFromHit(items, index, 0);
    } else {
      WithoutIndexFromMissing(items, index, 0);
    }
  }

  /** `updated[index][field] = value`: the input's text goes into one field. */
  function SetField(item: BoqItem, field: Field, value: string): (r: BoqItem)
    ensures field == Description ==> r.description == value
    ensures field == Unit ==> r.unit == value
    ensures field == Quantity ==> r.quantity == Typed(value)
    ensures field == Rate ==> r.rate == Typed(value)
    ensures field != Description ==> r.description == item.description
    ensures field != Unit ==> r.unit == item.unit
    ensures field != Quantity ==> r.quantity == item.quantity
    ensures field != Rate ==> r.rate == item.rate
  {
    match field
    case Description => item.(description := value)
    case Unit => item.(unit := value)
    case Quantity => item.(quantity := Typed(value))
    case Rate => item.(rate := Typed(value))
  }

  /** Appending a blank item leaves the subtotal unchanged (1 × 0). */
  lemma AddKeepsSubtotal(items: seq<BoqItem>, parse: string -> Option<real>)
    ensures Subtotal(items + [BlankItem], parse) == Subtotal(items, parse)
  {
    assert (items + [BlankItem])[..|items|] == items;
  }

  /** The subtotal around one position. */
  lemma SubtotalAround(items: seq<BoqItem>, index: int, parse: string -> Option<real>)
    requires 0 <= index < |items|
    ensures Subtotal(items, parse)
      == Subtotal(items[..index], parse) + LineAmount(items[index], parse) + Subtotal(items[index + 1..], parse)
  {
    var left, mid, right := items[..index], [items[index]], items[index + 1..];
    assert items == (left + mid) + right;
    SubtotalAppend(left + mid, right, parse);
    SubtotalAppend(left, mid, parse);
    SubtotalSingle(items[index], parse);
  }

  /** Removing an item takes exactly its amount off the subtotal. */
  lemma RemoveSubtractsAmount(items: seq<BoqItem>, index: int, parse: string -> Option<real>)
    requires 0 <= index < |items|
    ensures Subtotal(WithoutIndex(items, index), parse) == Subtotal(items, parse) - LineAmount(items[index], parse)
  {
    RemoveAtIndex(items, index);
    SubtotalAround(items, index, parse);
    SubtotalAppend(items[..index], items[index + 1..], parse);
  }

  /** Editing a description or a unit never changes the subtotal. */
  lemma TextEditKeepsSubtotal(items: seq<BoqItem>, index: int, field: Field, value: string, parse: string -> Option<real>)
    requires 0 <= index < |items| && (field == Description || field == Unit)
    ensures Subtotal(items[index := SetField(items[index], field, value)], parse) == Subtotal(items, parse)
  {
    var e := SetField(items[index], field, value);
    assert LineAmount(e, parse) == LineAmount(items[index], parse);
    var edited := items[index := e];
    assert edited[..index] == items[..index] && edited[index + 1..] == items[index + 1..];
    SubtotalAround(items, index, parse);
    SubtotalAround(edited, index, parse);
  }

  /** The request `generateBOQ` posts to `/documents/generate-boq`. */
  datatype BoqRequest = BoqRequest(tenderId: string, items: seq<BoqItem>)

  /** The query `calculateEMD` posts to `/documents/calculate-emd` (sent without a token). */
  datatype EmdRequest = EmdRequest(tenderValue: string, emdPercentage: Option<real>)

  /** The page's state. */
  class DocumentPreparationPage {
    var boqItems: seq<BoqItem>
    var selectedTender: Option<string>
    var tenderValue: string
    /** `None` stands for the NaN that `parseFloat` gives for an empty or non-numeric field. */
    var emdPercentage: Option<real>
    var emdResult: Option<string>
    var notices: seq<Notice>

    /** The list is never empty: the remove button is disabled on the last item. */
    ghost predicate Valid()
      reads this
    {
      |boqItems| >= 1
    }

    constructor ()
      ensures Valid()
      ensures boqItems == [BlankItem] && selectedTender.None? && tenderValue == ""
      ensures emdPercentage == Some(2.0) && emdResult.None? && notices == []
    {
      boqItems := [BlankItem];
      selectedTender := None;
      tenderValue := "";
      emdPercentage := Some(2.0);
      emdResult := None;
      notices := [];
    }

    method AddBoqItem()
      requires Valid()
      modifies this
      ensures Valid()
      ensures boqItems == old(boqItems) + [BlankItem]
      ensures selectedTender == old(selectedTender) && notices == old(notices)
      ensures tenderValue == old(tenderValue) && emdPercentage == old(emdPercentage) && emdResult == old(emdResult)
    {
      boqItems := boqItems + [BlankItem];
    }

    /** `removeBOQItem(index)`, invoked directly. */
    method RemoveBoqItem(index: int)
      modifies this
      ensures boqItems == WithoutIndex(old(boqItems), index)
      ensures |boqItems| == if 0 <= index < |old(boqItems)| then |old(boqItems)| - 1 else |old(boqItems)|
      ensures selectedTender == old(selectedTender) && notices == old(notices)
      ensures tenderValue == old(tenderValue) && emdPercentage == old(emdPercentage) && emdResult == old(emdResult)
    {
      RemoveAtIndex(boqItems, index);
      boqItems := WithoutIndex(boqItems, index);
    }

    /** A click on the remove button of the rendered item `index`; disabled when one item is left. */
    method ClickRemove(index: int)
      requires Valid() && 0 <= index < |boqItems|
      modifies this
      ensures Valid()
      ensures boqItems == if |old(boqItems)| == 1 then old(boqItems)
                          else old(boqItems)[..index] + old(boqItems)[index + 1..]
      ensures selectedTender == old(selectedTender) && notices == old(notices)
      ensures tenderValue == old(tenderValue) && emdPercentage == old(emdPercentage) && emdResult == old(emdResult)
    {
      if |boqItems| != 1 {
        RemoveAtIndex(boqItems, index);
        RemoveBoqItem(index);
      }
    }

    /** `updateBOQItem(index, field, value)` from an input of the rendered item `index`. */
    method UpdateBoqItem(index: int, field: Field, value: string)
      requires Valid() && 0 <= index < |boqItems|
      modifies this
      ensures Valid()
      ensures boqItems == old(boqItems)[index := SetField(old(boqItems)[index], field, value)]
      ensures selectedTender == old(selectedTender) && notices == old(notices)
      ensures tenderValue == old(tenderValue) && emdPercentage == old(emdPercentage) && emdResult == old(emdResult)
    {
      var updated := boqItems;
      updated := updated[index := SetField(updated[index], field, value)];
      boqItems := updated;
    }

    /**
     * `generateBOQ`.  `outcome` is the server's message, or `None` when the
     * request fails; `posted` is the request sent, if any.
     */
    method GenerateBoq(outcome: Option<string>) returns (posted: Option<BoqRequest>)
      modifies this
      ensures boqItems == old(boqItems) && selectedTender == old(selectedTender)
      ensures tenderValue == old(tenderValue) && emdPercentage == old(emdPercentage) && emdResult == old(emdResult)
      ensures old(selectedTender).None? ==>
        posted.None? && notices == old(notices) + [ErrorNotice("Please select a tender first")]
      ensures old(selectedTender).Some? ==>
        posted == Some(BoqRequest(old(selectedTender).value, old(boqItems))) &&
        notices == old(notices) + [if outcome.Some? then SuccessNotice(outcome.value)
                                   else ErrorNotice("Failed to generate BOQ")]
    {
      if selectedTender.None? {
        notices := notices + [ErrorNotice("Please select a tender first")];
        posted := None;
        return;
      }
      posted := Some(BoqRequest(selectedTender.value, boqItems));
      if outcome.Some? {
        notices := notices + [SuccessNotice(outcome.value)];
      } else {
        notices := notices + [ErrorNotice("Failed to generate BOQ")];
      }
    }

    /** `generateCoverLetter`; `posted` is the tender id sent with the company data. */
    method GenerateCoverLetter(outcome: Option<string>) returns (posted: Option<string>)
      modifies this
      ensures boqItems == old(boqItems) && selectedTender == old(selectedTender)
      ensures tenderValue == old(tenderValue) && emdPercentage == old(emdPercentage) && emdResult == old(emdResult)
      ensures old(selectedTender).None? ==>
        posted.None? && notices == old(notices) + [ErrorNotice("Please select a tender first")]
      ensures old(selectedTender).Some? ==>
        posted == old(selectedTender) &&
        notices == old(notices) + [if outcome.Some? then SuccessNotice(outcome.value)
                                   else ErrorNotice("Failed to generate cover letter")]
    {
      if selectedTender.None? {
        notices := notices + [ErrorNotice("Please select a tender first")];
        posted := None;
        return;
      }
      posted := selectedTender;
      if outcome.Some? {
        notices := notices + [SuccessNotice(outcome.value)];
      } else {
        notices := notices + [ErrorNotice("Failed to generate cover letter")];
      }
    }

    /** The tender-value input of the calculator. */
    method EnterTenderValue(v: string)
      modifies this
      ensures tenderValue == v && boqItems == old(boqItems) && notices == old(notices)
      ensures emdResult == old(emdResult) && emdPercentage == old(emdPercentage)
      ensures selectedTender == old(selectedTender)
    {
      tenderValue := v;
    }

    /** The EMD-percentage input: `parseFloat` of the field's text, NaN included. */
    method EnterEmdPercentage(text: string, parse: string -> Option<real>)
      modifies this
      ensures emdPercentage == parse(text)
      ensures boqItems == old(boqItems) && selectedTender == old(selectedTender) && notices == old(notices)
      ensures tenderValue == old(tenderValue) && emdResult == old(emdResult)
    {
      emdPercentage := parse(text);
    }

    /** `calculateEMD`; an empty tender value is refused before any request. */
    method CalculateEmd(outcome: Option<string>) returns (posted: Option<EmdRequest>)
      modifies this
      ensures boqItems == old(boqItems) && tenderValue == old(tenderValue)
      ensures selectedTender == old(selectedTender) && emdPercentage == old(emdPercentage)
      ensures old(tenderValue) == "" ==>
        posted.None? && emdResult == old(emdResult) &&
        notices == old(notices) + [ErrorNotice("Please enter tender value")]
      ensures old(tenderValue) != "" ==>
        posted == Some(EmdRequest(old(tenderValue), old(emdPercentage))) &&
        (outcome.Some? ==> emdResult == outcome && notices == old(notices)) &&
        (outcome.None? ==> emdResult == old(emdResult) && notices == old(notices) + [ErrorNotice("Failed to calculate EMD")])
    {
      if tenderValue == "" {
        notices := notices + [ErrorNotice("Please enter tender value")];
        posted := None;
        return;
      }
      posted := Some(EmdRequest(tenderValue, emdPercentage));
      if outcome.Some? {
        emdResult := outcome;
      } else {
        notices := notices + [ErrorNotice("Failed to calculate EMD")];
      }
    }
  }
}
