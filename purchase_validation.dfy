/** The checks the form runs when it is submitted, before anything is sent:
    at least one item, a supplier, and then each item in list order. Only
    the first failure is reported. */
module PurchaseValidation {
  import opened PurchaseModel

  datatype Option<T> = None | Some(value: T)

  /** The per-item checks, in the order they are tried. */
  datatype ItemCheck =
    | ProductMissing | BatchNoMissing | ExpiryDateMissing
    | QuantityNotPositive | PurchasePriceNotPositive

  /** What a rejected submission reports. `index` is the item's position
      counted from 0; the message shown to the user numbers items from 1. */
  datatype ValidationError =
    | NoItems
    | NoSupplier
    | InvalidItem(index: nat, check: ItemCheck)

  /** The place of a check in the order they are tried. */
  function Rank(c: ItemCheck): (r: nat) {
    match c
    case ProductMissing => 0
    case BatchNoMissing => 1
    case ExpiryDateMissing => 2
    case QuantityNotPositive => 3
    case PurchasePriceNotPositive => 4
  }

  /** Whether `item` fails check `c`, taken on its own. Text fields fail
      when empty (an empty string is the only falsy string). */
  predicate Fails(item: LineItem, c: ItemCheck) {
    match c
    case ProductMissing => item.product == ""
    case BatchNoMissing => item.batchNo == ""
    case ExpiryDateMissing => item.expiryDate == ""
    case QuantityNotPositive => item.quantity <= 0.0
    case PurchasePriceNotPositive => item.purchasePrice <= 0.0
  }

  /** The first check `item` fails, or None when it passes all five. */
  function CheckItem(item: LineItem): (r: Option<ItemCheck>)
    ensures r.Some? ==> Fails(item, r.value)
    ensures r == None <==> forall c: ItemCheck :: !Fails(item, c)
    ensures r.Some? ==> forall c: ItemCheck :: Rank(c) < Rank(r.value) ==> !Fails(item, c)
  {
    if item.product == "" then assert Fails(item, ProductMissing); Some(ProductMissing)
    else if item.batchNo == "" then assert Fails(item, BatchNoMissing); Some(BatchNoMissing)
    else if item.expiryDate == "" then assert Fails(item, ExpiryDateMissing); Some(ExpiryDateMissing)
    else if item.quantity <= 0.0 then assert Fails(item, QuantityNotPositive); Some(QuantityNotPositive)
    else if item.purchasePrice <= 0.0 then assert Fails(item, PurchasePriceNotPositive); Some(PurchasePriceNotPositive)
    else None
  }

  /** The first failing item at or after position `from`: always an item
      failure, at a position in range, naming that item's first failing check. */
  function FirstInvalidFrom(items: seq<LineItem>, from: nat): (r: Option<ValidationError>)
    ensures r.Some? ==> r.value.InvalidItem? && from <= r.value.index < |items|
    ensures r.Some? ==> CheckItem(items[r.value.index]) == Some(r.value.check)
    decreases |items| - from
  {
    if from >= |items| then None
    else match CheckItem(items[from])
      case Some(c) => Some(InvalidItem(from, c))
      case None => FirstInvalidFrom(items, from + 1)
  }

  /** The outcome of the submit-time checks: None when the document may be
      submitted, otherwise the one failure that is reported. It passes
      exactly when there are items, a supplier, and every item passes all
      five checks. */
  function Validate(doc: PurchaseDocument): (r: Option<ValidationError>)
    ensures r == None <==>
      |doc.items| > 0 && doc.supplier != "" &&
      forall j, c: ItemCheck :: 0 <= j < |doc.items| ==> !Fails(doc.items[j], c)
  {
    FirstInvalidFromNone(doc.items, 0);
    if |doc.items| == 0 then Some(NoItems)
    else if doc.supplier == "" then Some(NoSupplier)
    else FirstInvalidFrom(doc.items, 0)
  }

  /** The checks of `handleSubmit`, as the loop it runs: stop at the first
      failure, otherwise look at the next item. */
  method ValidateForSubmit(doc: PurchaseDocument) returns (failure: Option<ValidationError>)
    ensures failure == Validate(doc)
  {
    if |doc.items| == 0 {
      return Some(NoItems);
    }
    if doc.supplier == "" {
      return Some(NoSupplier);
    }
    for i := 0 to |doc.items|
      invariant FirstInvalidFrom(doc.items, i) == FirstInvalidFrom(doc.items, 0)
    {
      var item := doc.items[i];
      if item.product == "" {
        return Some(InvalidItem(i, ProductMissing));
      }
      if item.batchNo == "" {
        return Some(InvalidItem(i, BatchNoMissing));
      }
      if item.expiryDate == "" {
        return Some(InvalidItem(i, ExpiryDateMissing));
      }
      if item.quantity <= 0.0 {
        return Some(InvalidItem(i, QuantityNotPositive));
      }
      if item.purchasePrice <= 0.0 {
        return Some(InvalidItem(i, PurchasePriceNotPositive));
      }
    }
    return None;
  }

  /** No failure from `from` on exactly when every item from there passes. */
  lemma {:induction false} FirstInvalidFromNone(items: seq<LineItem>, from: nat)
    ensures FirstInvalidFrom(items, from) == None <==>
      forall j :: from <= j < |items| ==> CheckItem(items[j]) == None
    decreases |items| - from
  {
    if from < |items| {
      FirstInvalidFromNone(items, from + 1);
    }
  }

  /** The failure reported from `from` on is the lowest failing position,
      with that item's first failing check. */
  lemma {:induction false} FirstInvalidFromLowest(items: seq<LineItem>, from: nat, k: nat, c: ItemCheck)
    ensures FirstInvalidFrom(items, from) == Some(InvalidItem(k, c)) <==>
      from <= k < |items| && CheckItem(items[k]) == Some(c) &&
      forall j :: from <= j < k ==> CheckItem(items[j]) == None
    decreases |items| - from
  {
    if from < |items| && CheckItem(items[from]) == None {
      FirstInvalidFromLowest(items, from + 1, k, c);
    }
  }

  /** An empty item list is reported first, whatever the supplier is. */
  lemma EmptyItemsRejectedFirst(doc: PurchaseDocument)
    requires doc.items == []
    ensures Validate(doc) == Some(NoItems)
  {
  }

  /** A missing supplier is reported before any item is looked at. */
  lemma MissingSupplierRejectedBeforeItems(doc: PurchaseDocument)
    requires doc.items != [] && doc.supplier == ""
    ensures Validate(doc) == Some(NoSupplier)
  {
  }

  /** An item failure is reported for position `k` and check `c` exactly
      when items and supplier are present, every earlier item passes, and
      `c` is the first check item `k` fails. */
  lemma ValidateReportsFirstItemFailure(doc: PurchaseDocument, k: nat, c: ItemCheck)
    ensures Validate(doc) == Some(InvalidItem(k, c)) <==>
      |doc.items| > 0 && doc.supplier != "" && k < |doc.items| &&
      (forall j :: 0 <= j < k ==> CheckItem(doc.items[j]) == None) &&
      Fails(doc.items[k], c) &&
      (forall c': ItemCheck :: Rank(c') < Rank(c) ==> !Fails(doc.items[k], c'))
  {
    FirstInvalidFromLowest(doc.items, 0, k, c);
    if k < |doc.items| && Fails(doc.items[k], c) &&
       (forall c': ItemCheck :: Rank(c') < Rank(c) ==> !Fails(doc.items[k], c')) {
      var r := CheckItem(doc.items[k]);
      assert r.Some? by {
        assert !(forall c': ItemCheck :: !Fails(doc.items[k], c'));
      }
      assert Rank(r.value) >= Rank(c) && Rank(c) >= Rank(r.value);
    }
  }

  /** The items after the reported one are never looked at: appending more
      items does not change which failure is reported. */
  lemma ItemFailureIsIndependentOfLaterItems(doc: PurchaseDocument, tail: seq<LineItem>, k: nat, c: ItemCheck)
    requires Validate(doc) == Some(InvalidItem(k, c))
    ensures Validate(doc.(items := doc.items + tail)) == Some(InvalidItem(k, c))
  {
    var items' := doc.items + tail;
    FirstInvalidFromLowest(doc.items, 0, k, c);
    assert forall j :: 0 <= j <= k ==> items'[j] == doc.items[j];
    FirstInvalidFromLowest(items', 0, k, c);
  }

  /** The item "Add Item" appends has no product, so a document that still
      holds one is never accepted. */
  lemma DocumentWithDefaultItemRejected(doc: PurchaseDocument, i: nat)
    requires i < |doc.items| && doc.items[i] == DefaultItem()
    ensures Validate(doc).Some?
  {
    FirstInvalidFromNone(doc.items, 0);
    assert CheckItem(doc.items[i]) == Some(ProductMissing);
  }
}
