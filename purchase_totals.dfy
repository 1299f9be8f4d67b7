/** The form's derived money values: the per-line total and the document
    totals (subtotal, total GST, grand total) that are shown on the page and
    attached to the submitted purchase. */
module PurchaseTotals {
  import opened PurchaseModel

  /** Quantity times unit price, less the line discount. Not clamped at
      zero: it is negative exactly when the discount exceeds the price of
      the quantity. */
  function TaxableAmount(item: LineItem): (r: real)
    ensures r < 0.0 <==> item.discount > item.quantity * item.purchasePrice
  {
    item.quantity * item.purchasePrice - item.discount
  }

  /** The line's GST: the taxable amount at the line's percentage rate. At
      rate 0 there is none; at a positive rate it has the taxable amount's sign. */
  function GstAmount(item: LineItem): (r: real)
    ensures item.gstRate == 0.0 ==> r == 0.0
    ensures item.gstRate > 0.0 ==> (r < 0.0 <==> TaxableAmount(item) < 0.0)
    ensures item.gstRate > 0.0 ==> (r > 0.0 <==> TaxableAmount(item) > 0.0)
  {
    TaxableAmount(item) * item.gstRate / 100.0
  }

  /** `calculateItemTotal`: the taxable amount plus its GST. */
  function ItemTotal(item: LineItem): (r: real)
    ensures r == (item.quantity * item.purchasePrice - item.discount) * (1.0 + item.gstRate / 100.0)
    ensures item.gstRate == 0.0 ==> r == item.quantity * item.purchasePrice - item.discount
  {
    TaxableAmount(item) + GstAmount(item)
  }

  /** `items.reduce((sum, item) => sum + term(item), 0)`: a left fold, so the
      last item's term is the last one added. */
  function Sum(items: seq<LineItem>, term: LineItem -> real): (r: real)
    decreases |items|
  {
    if items == [] then 0.0 else Sum(items[..|items| - 1], term) + term(items[|items| - 1])
  }

  /** Sums of several kinds used by the totals. */
  function ItemsTotal(items: seq<LineItem>): real { Sum(items, ItemTotal) }

  function TotalGst(items: seq<LineItem>): real { Sum(items, GstAmount) }

  function TaxableSum(items: seq<LineItem>): real { Sum(items, TaxableAmount) }

  /** Freight, packaging and other charges together. */
  function AdditionalCharges(doc: PurchaseDocument): real {
    doc.freightCharges + doc.packagingCharges + doc.otherCharges
  }

  datatype Totals = Totals(subtotal: real, totalGST: real, grandTotal: real)

  /** `calculateTotals`: the grand total is the items' line totals plus the
      charges less the document discount; the GST is summed on its own and
      the subtotal is what is left of the items' total once it is taken off. */
  function CalculateTotals(doc: PurchaseDocument): (t: Totals)
    ensures t.subtotal + t.totalGST == ItemsTotal(doc.items)
    ensures t.subtotal == TaxableSum(doc.items)
    ensures t.totalGST == TotalGst(doc.items)
    ensures t.grandTotal == t.subtotal + t.totalGST + AdditionalCharges(doc) - doc.discount
  {
    var itemsTotal := ItemsTotal(doc.items);
    var grandTotal := itemsTotal + AdditionalCharges(doc) - doc.discount;
    var totalGST := TotalGst(doc.items);
    ItemsTotalSplits(doc.items);
    Totals(itemsTotal - totalGST, totalGST, grandTotal)
  }

  /** A sum over two lists joined is the sum of the two sums. */
  lemma {:induction false} SumConcat(a: seq<LineItem>, b: seq<LineItem>, term: LineItem -> real)
    ensures Sum(a + b, term) == Sum(a, term) + Sum(b, term)
    decreases |b|
  {
    if b == [] {
      assert a + b == a;
    } else {
      var b' := b[..|b| - 1];
      assert (a + b)[..|a + b| - 1] == a + b';
      SumConcat(a, b', term);
    }
  }

  /** A term that is the sum of two terms sums to the sum of their sums. */
  lemma {:induction false} SumOfSumTerm(items: seq<LineItem>, f: LineItem -> real, g: LineItem -> real, h: LineItem -> real)
    requires forall x :: h(x) == f(x) + g(x)
    ensures Sum(items, h) == Sum(items, f) + Sum(items, g)
    decreases |items|
  {
    if items != [] {
      SumOfSumTerm(items[..|items| - 1], f, g, h);
    }
  }

  /** The items' total is their taxable amounts plus their GST. */
  lemma ItemsTotalSplits(items: seq<LineItem>)
    ensures ItemsTotal(items) == TaxableSum(items) + TotalGst(items)
  {
    SumOfSumTerm(items, TaxableAmount, GstAmount, ItemTotal);
  }

  /** The order of the items does not change any of their sums: two lists
      holding the same items, each as often, have the same sum. */
  lemma {:induction false} SumOrderIndependent(a: seq<LineItem>, b: seq<LineItem>, term: LineItem -> real)
    requires multiset(a) == multiset(b)
    ensures Sum(a, term) == Sum(b, term)
    decreases |a|
  {
    if a == [] {
      assert |b| == |multiset(b)| == 0;
    } else {
      var a', x := a[..|a| - 1], a[|a| - 1];
      MultisetWithoutPosition(a, |a| - 1);
      assert a[..|a| - 1] + a[|a| - 1 + 1..] == a';
      assert x in multiset(b);
      var i :| 0 <= i < |b| && b[i] == x;
      MultisetWithoutPosition(b, i);
      var b' := b[..i] + b[i + 1..];
      assert multiset(a') + multiset{x} == multiset(b') + multiset{x};
      assert multiset(a') == multiset(a') + multiset{x} - multiset{x};
      assert multiset(b') == multiset(b') + multiset{x} - multiset{x};
      SumOrderIndependent(a', b', term);
      SumWithoutPosition(b, i, term);
    }
  }

  /** A list's items are those of the list without position `i`, plus the one at `i`. */
  lemma MultisetWithoutPosition(s: seq<LineItem>, i: nat)
    requires i < |s|
    ensures multiset(s) == multiset(s[..i] + s[i + 1..]) + multiset{s[i]}
  {
    assert s == s[..i] + [s[i]] + s[i + 1..];
  }

  /** So rearranging the item list leaves every total as it was. */
  lemma TotalsIndependentOfItemOrder(doc: PurchaseDocument, items: seq<LineItem>)
    requires multiset(items) == multiset(doc.items)
    ensures CalculateTotals(doc.(items := items)) == CalculateTotals(doc)
  {
    SumOrderIndependent(items, doc.items, ItemTotal);
    SumOrderIndependent(items, doc.items, GstAmount);
  }

  /** A discount above quantity times price is kept as it is: the taxable
      amount and the line total go negative, and the GST with them whenever
      the rate is not zero. */
  lemma NegativeTaxableNotClamped(item: LineItem)
    requires item.gstRate in GstRates
    requires item.discount > item.quantity * item.purchasePrice
    ensures TaxableAmount(item) < 0.0
    ensures GstAmount(item) <= 0.0 && (item.gstRate > 0.0 ==> GstAmount(item) < 0.0)
    ensures ItemTotal(item) < 0.0
  {
    var t := TaxableAmount(item);
    assert 1.0 + item.gstRate / 100.0 > 0.0;
    assert ItemTotal(item) == t * (1.0 + item.gstRate / 100.0);
  }

  /** Raising the freight charge by `x` raises the grand total by exactly `x`
      and leaves the subtotal and the GST alone. */
  lemma FreightRaisesGrandTotal(doc: PurchaseDocument, x: real)
    ensures var t, t' := CalculateTotals(doc), CalculateTotals(doc.(freightCharges := doc.freightCharges + x));
      t'.grandTotal == t.grandTotal + x && t'.subtotal == t.subtotal && t'.totalGST == t.totalGST
  {
  }

  /** With no items the subtotal and GST are zero and the grand total is the
      charges less the discount. */
  lemma EmptyDocumentTotals(doc: PurchaseDocument)
    requires doc.items == []
    ensures CalculateTotals(doc) == Totals(0.0, 0.0, AdditionalCharges(doc) - doc.discount)
  {
  }

  /** Appending an item with no price and no discount leaves every total as it was. */
  lemma AppendUnpricedItemKeepsTotals(doc: PurchaseDocument, item: LineItem)
    requires item.purchasePrice == 0.0 && item.discount == 0.0
    ensures CalculateTotals(doc.(items := doc.items + [item])) == CalculateTotals(doc)
  {
    UnpricedItemIsZero(item);
    SumAppendZeroTerm(doc.items, item, ItemTotal);
    SumAppendZeroTerm(doc.items, item, GstAmount);
  }

  /** So the item "Add Item" appends changes no total. */
  lemma AppendDefaultItemKeepsTotals(doc: PurchaseDocument)
    ensures CalculateTotals(doc.(items := doc.items + [DefaultItem()])) == CalculateTotals(doc)
  {
    AppendUnpricedItemKeepsTotals(doc, DefaultItem());
  }

  /** An item with no price and no discount has a zero taxable amount, GST
      and line total, whatever its quantity and rate. */
  lemma UnpricedItemIsZero(item: LineItem)
    requires item.purchasePrice == 0.0 && item.discount == 0.0
    ensures TaxableAmount(item) == 0.0 && GstAmount(item) == 0.0 && ItemTotal(item) == 0.0
  {
  }

  /** Two items with the same quantity, price, rate and discount have the
      same taxable amount, GST and line total. */
  lemma SamePricingSameTerms(a: LineItem, b: LineItem)
    requires a.quantity == b.quantity && a.purchasePrice == b.purchasePrice
    requires a.gstRate == b.gstRate && a.discount == b.discount
    ensures TaxableAmount(a) == TaxableAmount(b) && GstAmount(a) == GstAmount(b) && ItemTotal(a) == ItemTotal(b)
  {
  }

  /** Appending an item whose term is zero leaves a sum unchanged. */
  lemma SumAppendZeroTerm(items: seq<LineItem>, x: LineItem, term: LineItem -> real)
    requires term(x) == 0.0
    ensures Sum(items + [x], term) == Sum(items, term)
  {
    var items' := items + [x];
    assert items'[..|items'| - 1] == items;
  }

  /** Taking out the item at `i` lowers each sum by exactly that item's term. */
  lemma SumWithoutPosition(items: seq<LineItem>, i: nat, term: LineItem -> real)
    requires i < |items|
    ensures Sum(items[..i] + items[i + 1..], term) == Sum(items, term) - term(items[i])
  {
    assert items == items[..i] + ([items[i]] + items[i + 1..]);
    SumConcat(items[..i], [items[i]] + items[i + 1..], term);
    SumConcat([items[i]], items[i + 1..], term);
    SumConcat(items[..i], items[i + 1..], term);
    assert Sum([items[i]], term) == Sum([], term) + term(items[i]);
  }

  /** A change to one item changes each sum by the change in that item's term. */
  lemma SumWithReplacedItem(items: seq<LineItem>, i: nat, item: LineItem, term: LineItem -> real)
    requires i < |items|
    ensures Sum(items[i := item], term) == Sum(items, term) - term(items[i]) + term(item)
  {
    var items' := items[i := item];
    assert items'[..i] == items[..i] && items'[i + 1..] == items[i + 1..];
    SumWithoutPosition(items, i, term);
    SumWithoutPosition(items', i, term);
  }

  /** A worked example: one item of 10 units at 50 with 12% GST. */
  lemma OneItemScenario(doc: PurchaseDocument)
    requires |doc.items| == 1
    requires doc.items[0].quantity == 10.0 && doc.items[0].purchasePrice == 50.0
    requires doc.items[0].discount == 0.0 && doc.items[0].gstRate == 12.0
    requires AdditionalCharges(doc) == 0.0 && doc.discount == 0.0
    ensures ItemTotal(doc.items[0]) == 560.0
    ensures CalculateTotals(doc) == Totals(500.0, 60.0, 560.0)
  {
    var items := doc.items;
    assert items[..0] == [];
    assert ItemTotal(items[0]) == 560.0 && GstAmount(items[0]) == 60.0;
    assert ItemsTotal(items) == Sum(items[..0], ItemTotal) + ItemTotal(items[0]);
    assert TotalGst(items) == Sum(items[..0], GstAmount) + GstAmount(items[0]);
  }

  /** A second worked example: a second item of 5 units at 20 less 10 at 5% GST,
      with 20 freight and a document discount of 5. */
  lemma TwoItemScenario(doc: PurchaseDocument)
    requires |doc.items| == 2
    requires doc.items[0].quantity == 10.0 && doc.items[0].purchasePrice == 50.0
    requires doc.items[0].discount == 0.0 && doc.items[0].gstRate == 12.0
    requires doc.items[1].quantity == 5.0 && doc.items[1].purchasePrice == 20.0
    requires doc.items[1].discount == 10.0 && doc.items[1].gstRate == 5.0
    requires doc.freightCharges == 20.0 && doc.packagingCharges == 0.0
    requires doc.otherCharges == 0.0 && doc.discount == 5.0
    ensures ItemTotal(doc.items[1]) == 94.5
    ensures ItemsTotal(doc.items) == 654.5
    ensures CalculateTotals(doc) == Totals(590.0, 64.5, 669.5)
  {
    var items := doc.items;
    assert items[..1][..0] == [];
    assert items[..|items| - 1] == items[..1];
    assert ItemTotal(items[0]) == 560.0 && GstAmount(items[0]) == 60.0;
    assert ItemTotal(items[1]) == 94.5 && GstAmount(items[1]) == 4.5;
    assert Sum(items[..1], ItemTotal) == Sum(items[..1][..0], ItemTotal) + ItemTotal(items[0]);
    assert Sum(items[..1], GstAmount) == Sum(items[..1][..0], GstAmount) + GstAmount(items[0]);
    assert ItemsTotal(items) == Sum(items[..1], ItemTotal) + ItemTotal(items[1]);
    assert TotalGst(items) == Sum(items[..1], GstAmount) + GstAmount(items[1]);
  }
}
