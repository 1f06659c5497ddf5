/** The job-details step of the quote wizard: labour hours and the line-item list. */
module JobDetails {
  import opened Wrappers
  import opened QuoteTypes
  import opened Constants
  import opened Estimator

  /** The row a click on "add item" appends. */
  function BlankLineItem(): (item: LineItem)
    ensures LineAmount(item) == 0.0
  {
    LineItem(description := "", quantity := 1.0, unit := "unit", unitPrice := 0.0, category := Materials)
  }

  /** `addLineItem`: one blank row at the end, every existing row kept in place. */
  function AddLineItem(items: seq<LineItem>): (r: seq<LineItem>)
    ensures |r| == |items| + 1
    ensures r[..|items|] == items
    ensures r[|items|] == BlankLineItem()
  {
    items + [BlankLineItem()]
  }

  /** `removeLineItem(index)`: the row at `index` is dropped; an index out of range drops nothing. */
  function RemoveLineItem(items: seq<LineItem>, index: int): (r: seq<LineItem>)
    ensures 0 <= index < |items| ==>
              && |r| == |items| - 1
              && (forall i :: 0 <= i < index ==> r[i] == items[i])
              && (forall i :: index <= i < |r| ==> r[i] == items[i + 1])
    ensures !(0 <= index < |items|) ==> r == items
  {
    if 0 <= index < |items| then items[..index] + items[index + 1..] else items
  }

  /** The fields an edit of one row may carry; an absent field is left as it was. */
  datatype LineItemUpdate = LineItemUpdate(
    description: Option<string>,
    quantity: Option<real>,
    unit: Option<string>,
    unitPrice: Option<real>,
    category: Option<LineItemCategory>)

  /** `{ ...item, ...updates }`. */
  function ApplyUpdate(item: LineItem, u: LineItemUpdate): (r: LineItem)
    ensures r.description == if u.description.Some? then u.description.value else item.description
    ensures r.quantity == if u.quantity.Some? then u.quantity.value else item.quantity
    ensures r.unit == if u.unit.Some? then u.unit.value else item.unit
    ensures r.unitPrice == if u.unitPrice.Some? then u.unitPrice.value else item.unitPrice
    ensures r.category == if u.category.Some? then u.category.value else item.category
  {
    LineItem(
      description := u.description.GetOr(item.description),
      quantity := u.quantity.GetOr(item.quantity),
      unit := u.unit.GetOr(item.unit),
      unitPrice := u.unitPrice.GetOr(item.unitPrice),
      category := u.category.GetOr(item.category))
  }

  /** An update with no fields changes nothing. */
  lemma EmptyUpdateKeepsItem(item: LineItem)
    ensures ApplyUpdate(item, LineItemUpdate(None, None, None, None, None)) == item
  {
  }

  /** Applying the same update twice is applying it once. */
  lemma ApplyUpdateIdempotent(item: LineItem, u: LineItemUpdate)
    ensures ApplyUpdate(ApplyUpdate(item, u), u) == ApplyUpdate(item, u)
  {
  }

  /** `updateLineItem(index, updates)`: copy the list, then overwrite the fields of one row. */
  method UpdateLineItem(items: seq<LineItem>, index: nat, u: LineItemUpdate) returns (r: seq<LineItem>)
    requires index < |items|
    ensures |r| == |items|
    ensures r[index] == ApplyUpdate(items[index], u)
    ensures forall i :: 0 <= i < |items| && i != index ==> r[i] == items[i]
  {
    var copy := new LineItem[|items|](i requires 0 <= i < |items| => items[i]);
    copy[index] := ApplyUpdate(copy[index], u);
    r := copy[..];
  }

  /** Removing the row just added gives back the list as it was. */
  lemma RemoveUndoesAdd(items: seq<LineItem>)
    ensures RemoveLineItem(AddLineItem(items), |items|) == items
  {
    assert AddLineItem(items)[..|items|] == items;
  }

  /** Adding a blank row changes no category total. */
  lemma AddKeepsCategoryTotals(items: seq<LineItem>, c: LineItemCategory)
    ensures CategoryTotal(AddLineItem(items), c) == CategoryTotal(items, c)
  {
    CategoryTotalAppend(items, [BlankLineItem()], c);
    assert CategoryTotal([BlankLineItem()], c) == 0.0 by {
      assert [BlankLineItem()][1..] == [];
    }
  }

  /** Removing a row takes its amount off its own category's total and leaves the others alone. */
  lemma RemoveCategoryTotal(items: seq<LineItem>, index: nat, c: LineItemCategory)
    requires index < |items|
    ensures CategoryTotal(items, c)
            == CategoryTotal(RemoveLineItem(items, index), c)
               + (if items[index].category == c then LineAmount(items[index]) else 0.0)
  {
    var front, row, back := items[..index], [items[index]], items[index + 1..];
    assert items == front + (row + back);
    CategoryTotalAppend(front, row + back, c);
    CategoryTotalAppend(row, back, c);
    CategoryTotalAppend(front, back, c);
    assert row[1..] == [];
  }

  /** `canProceed`: the step needs some labour. */
  predicate CanProceed(d: QuoteFormData)
  {
    d.laborHours > 0.0
  }

  /** `belowMinHours`: a positive number of hours under the billable minimum. */
  predicate BelowMinHours(cfg: Config, d: QuoteFormData)
  {
    d.laborHours > 0.0 && d.laborHours < DefaultMinimumBillableHours(cfg)
  }

  /** The hint shown on this step is exactly the engine's minimum-hours flag. */
  lemma BelowMinHoursIsEngineFlag(cfg: Config, d: QuoteFormData)
    ensures BelowMinHours(cfg, d) <==> CalculatePricing(cfg, d).minimumHoursApplied
    ensures BelowMinHours(cfg, d) ==> CalculatePricing(cfg, d).effectiveLaborHours == DefaultMinimumBillableHours(cfg)
  {
    LaborHoursRule(cfg, d);
  }

  /** Passing the step means labour is billed: at least the entered hours and at least the minimum. */
  lemma CanProceedBillsLabor(cfg: Config, d: QuoteFormData)
    ensures CanProceed(d) <==> CalculatePricing(cfg, d).effectiveLaborHours > 0.0
    ensures CanProceed(d) ==> CalculatePricing(cfg, d).effectiveLaborHours >= d.laborHours
  {
    LaborHoursRule(cfg, d);
  }
}
