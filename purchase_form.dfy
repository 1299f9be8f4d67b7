/** The new-purchase page: the state it holds, the three item-list edits,
    and the submit step that either rejects the form or builds the purchase
    to be sent. */
module PurchaseForm {
  import opened PurchaseModel
  import opened PurchaseTotals
  import opened PurchaseValidation

  /** `items.filter((_, i) => i !== index)` on the part of a list that
      starts at position `offset`. */
  function FilterOutPosition(items: seq<LineItem>, index: int, offset: int): (r: seq<LineItem>)
    ensures offset <= index < offset + |items| ==>
      r == items[..index - offset] + items[index - offset + 1..]
    ensures !(offset <= index < offset + |items|) ==> r == items
    decreases |items|
  {
    if items == [] then []
    else (if offset == index then [] else [items[0]]) + FilterOutPosition(items[1..], index, offset + 1)
  }

  /** The list with position `index` taken out; any other index removes nothing. */
  function WithoutPosition(items: seq<LineItem>, index: int): (r: seq<LineItem>)
    ensures 0 <= index < |items| ==> |r| == |items| - 1
    ensures 0 <= index < |items| ==> forall j :: 0 <= j < index ==> r[j] == items[j]
    ensures 0 <= index < |items| ==> forall j :: index <= j < |r| ==> r[j] == items[j + 1]
    ensures !(0 <= index < |items|) ==> r == items
  {
    FilterOutPosition(items, index, 0)
  }

  /** The purchase handed to the backend: the form as it stands with the
      three computed totals attached. */
  datatype PurchasePayload = PurchasePayload(form: PurchaseDocument, subtotal: real, totalGST: real, grandTotal: real)

  /** What pressing "submit" leads to. */
  datatype Submission = Rejected(error: ValidationError) | Submitted(payload: PurchasePayload)

  /** Which fields the line total depends on. */
  predicate AffectsTotals(f: Field) {
    f == QuantityField || f == PurchasePriceField || f == GstRateField || f == DiscountField
  }

  class NewPurchasePage {
    /** The form's state, replaced whole on every edit. */
    var formData: PurchaseDocument

    /** The page as it opens; the two dates are the clock's UTC dates read
        for the bill date and for the purchase date. */
    constructor (billDate: string, purchaseDate: string)
      ensures formData == InitialDocument(billDate, purchaseDate)
    {
      formData := InitialDocument(billDate, purchaseDate);
    }

    /** `addItem`: one default item at the end. */
    method AddItem()
      modifies this
      ensures formData == old(formData).(items := old(formData.items) + [DefaultItem()])
      ensures |formData.items| == |old(formData.items)| + 1
      ensures formData.items[..|old(formData.items)|] == old(formData.items)
      ensures formData.items[|old(formData.items)|] == DefaultItem()
    {
      formData := formData.(items := formData.items + [DefaultItem()]);
    }

    /** `removeItem`: takes out the item at `index`, keeping the others in order. */
    method RemoveItem(index: int)
      modifies this
      ensures formData == old(formData).(items := WithoutPosition(old(formData.items), index))
    {
      formData := formData.(items := WithoutPosition(formData.items, index));
    }

    /** `updateItem`: a copy of the list whose item at `index` has one field
        replaced. Only the rows on the page call it, with their own index. */
    method UpdateItem(index: int, u: FieldUpdate)
      requires 0 <= index < |formData.items|
      modifies this
      ensures formData == old(formData).(items := formData.items)
      ensures |formData.items| == |old(formData.items)|
      ensures forall j :: 0 <= j < |formData.items| && j != index ==> formData.items[j] == old(formData.items[j])
      ensures Get(formData.items[index], u.Target()) == u.NewValue()
      ensures forall f: Field :: f != u.Target() ==> Get(formData.items[index], f) == Get(old(formData.items[index]), f)
    {
      var newItems := formData.items;
      newItems := newItems[index := Apply(newItems[index], u)];
      formData := formData.(items := newItems);
    }

    /** `handleSubmit` up to the backend call: reject with the first failing
        check, or build the purchase with its totals. */
    method HandleSubmit() returns (s: Submission)
      ensures s.Rejected? <==> Validate(formData).Some?
      ensures s.Rejected? ==> s.error == Validate(formData).value
      ensures s.Submitted? ==> s.payload.form == formData
      ensures s.Submitted? ==> var t := CalculateTotals(formData);
        s.payload.subtotal == t.subtotal && s.payload.totalGST == t.totalGST && s.payload.grandTotal == t.grandTotal
    {
      var failure := ValidateForSubmit(formData);
      if failure.Some? {
        return Rejected(failure.value);
      }
      var totals := CalculateTotals(formData);
      return Submitted(PurchasePayload(formData, totals.subtotal, totals.totalGST, totals.grandTotal));
    }
  }

  /** Removing an item lowers the subtotal, the GST and the grand total by
      exactly that item's share; an index past either end changes nothing. */
  lemma RemoveItemTotals(doc: PurchaseDocument, index: int)
    ensures var t, t' := CalculateTotals(doc), CalculateTotals(doc.(items := WithoutPosition(doc.items, index)));
      if 0 <= index < |doc.items| then
        t'.subtotal == t.subtotal - TaxableAmount(doc.items[index]) &&
        t'.totalGST == t.totalGST - GstAmount(doc.items[index]) &&
        t'.grandTotal == t.grandTotal - ItemTotal(doc.items[index])
      else t' == t
  {
    if 0 <= index < |doc.items| {
      SumWithoutPosition(doc.items, index, TaxableAmount);
      SumWithoutPosition(doc.items, index, GstAmount);
      SumWithoutPosition(doc.items, index, ItemTotal);
    }
  }

  /** Editing a field the line total does not depend on (product, batch,
      expiry, free quantity, MRP, selling price) leaves every total alone. */
  lemma UpdateOtherFieldKeepsTotals(doc: PurchaseDocument, index: nat, u: FieldUpdate)
    requires index < |doc.items|
    requires !AffectsTotals(u.Target())
    ensures CalculateTotals(doc.(items := doc.items[index := Apply(doc.items[index], u)])) == CalculateTotals(doc)
  {
    var item := doc.items[index];
    var item' := Apply(item, u);
    ApplyKeepsPricing(item, u);
    SamePricingSameTerms(item, item');
    SumWithReplacedItem(doc.items, index, item', ItemTotal);
    SumWithReplacedItem(doc.items, index, item', GstAmount);
  }

  /** An edit to a field outside the pricing keeps quantity, price, rate and discount. */
  lemma ApplyKeepsPricing(item: LineItem, u: FieldUpdate)
    requires !AffectsTotals(u.Target())
    ensures var item' := Apply(item, u);
      item'.quantity == item.quantity && item'.purchasePrice == item.purchasePrice &&
      item'.gstRate == item.gstRate && item'.discount == item.discount
  {
  }

  /** Changing an item's discount by `x` moves the subtotal down by exactly `x`. */
  lemma UpdateDiscountShiftsSubtotal(doc: PurchaseDocument, index: nat, x: real)
    requires index < |doc.items|
    ensures var item := doc.items[index];
      CalculateTotals(doc.(items := doc.items[index := Apply(item, SetDiscount(item.discount + x))])).subtotal
        == CalculateTotals(doc).subtotal - x
  {
    var item := doc.items[index];
    SumWithReplacedItem(doc.items, index, Apply(item, SetDiscount(item.discount + x)), TaxableAmount);
  }

  /** Right after "Add Item" the form cannot be submitted: the new item has
      no product yet. */
  lemma SubmitRightAfterAddItemRejected(doc: PurchaseDocument)
    ensures Validate(doc.(items := doc.items + [DefaultItem()])).Some?
  {
    var doc' := doc.(items := doc.items + [DefaultItem()]);
    DocumentWithDefaultItemRejected(doc', |doc.items|);
  }
}
