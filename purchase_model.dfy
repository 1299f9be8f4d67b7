/** Data model of the new-purchase form: one line item per received batch,
    and the purchase document the form assembles before it is submitted.
    Money, quantities and rates are exact reals. */
module PurchaseModel {

  /** The GST percentages the rate selector offers. */
  const GstRates: set<real> := {0.0, 5.0, 12.0, 18.0, 28.0}

  /** One purchased batch of a product. `product` is the id of a product,
      empty while none is selected; dates are the form's date strings. */
  datatype LineItem = LineItem(
    product: string,
    batchNo: string,
    expiryDate: string,
    quantity: real,
    freeQuantity: real,
    purchasePrice: real,
    mrp: real,
    sellingPrice: real,
    gstRate: real,
    discount: real)

  datatype PaymentStatus = Unpaid | Partial | Paid

  datatype PaymentMode = Cash | Credit | Bank | Upi | Cheque

  /** The form's state: header fields, the ordered item list, the
      document-level charges and discount, and the payment details. */
  datatype PurchaseDocument = PurchaseDocument(
    supplier: string,
    billNumber: string,
    billDate: string,
    purchaseDate: string,
    items: seq<LineItem>,
    freightCharges: real,
    packagingCharges: real,
    otherCharges: real,
    discount: real,
    paymentStatus: PaymentStatus,
    paymentMode: PaymentMode,
    paidAmount: real,
    notes: string)

  /** The item that "Add Item" appends. */
  function DefaultItem(): (item: LineItem)
    ensures item.product == "" && item.batchNo == "" && item.expiryDate == ""
    ensures item.quantity == 1.0 && item.gstRate == 12.0 && item.gstRate in GstRates
    ensures item.freeQuantity == 0.0 && item.purchasePrice == 0.0 && item.mrp == 0.0
    ensures item.sellingPrice == 0.0 && item.discount == 0.0
  {
    LineItem("", "", "", 1.0, 0.0, 0.0, 0.0, 0.0, 12.0, 0.0)
  }

  /** The state the page starts in. The page reads the clock once for each
      date, taking the UTC calendar date each time; `billDate` and
      `purchaseDate` are those two readings, which differ when the two reads
      fall on either side of midnight UTC. */
  function InitialDocument(billDate: string, purchaseDate: string): (doc: PurchaseDocument)
    ensures doc.items == [] && doc.supplier == "" && doc.billNumber == ""
    ensures doc.billDate == billDate && doc.purchaseDate == purchaseDate
    ensures doc.freightCharges == 0.0 && doc.packagingCharges == 0.0
    ensures doc.otherCharges == 0.0 && doc.discount == 0.0 && doc.paidAmount == 0.0
    ensures doc.paymentStatus == Unpaid && doc.paymentMode == Credit && doc.notes == ""
  {
    PurchaseDocument("", "", billDate, purchaseDate, [], 0.0, 0.0, 0.0, 0.0, Unpaid, Credit, 0.0, "")
  }

  /** The names of a line item's fields. */
  datatype Field =
    | ProductField | BatchNoField | ExpiryDateField | QuantityField
    | FreeQuantityField | PurchasePriceField | MrpField | SellingPriceField
    | GstRateField | DiscountField

  /** The value held in one field: the text fields hold strings, the others numbers. */
  datatype Value = Text(text: string) | Number(number: real)

  /** An assignment of a new value to one field, as the item inputs issue it:
      the text inputs pass their string, the numeric inputs a number. */
  datatype FieldUpdate =
    | SetProduct(product: string)
    | SetBatchNo(batchNo: string)
    | SetExpiryDate(expiryDate: string)
    | SetQuantity(quantity: real)
    | SetFreeQuantity(freeQuantity: real)
    | SetPurchasePrice(purchasePrice: real)
    | SetMrp(mrp: real)
    | SetSellingPrice(sellingPrice: real)
    | SetGstRate(gstRate: real)
    | SetDiscount(discount: real)
  {
    /** The field this update writes. */
    function Target(): Field {
      match this
      case SetProduct(_) => ProductField
      case SetBatchNo(_) => BatchNoField
      case SetExpiryDate(_) => ExpiryDateField
      case SetQuantity(_) => QuantityField
      case SetFreeQuantity(_) => FreeQuantityField
      case SetPurchasePrice(_) => PurchasePriceField
      case SetMrp(_) => MrpField
      case SetSellingPrice(_) => SellingPriceField
      case SetGstRate(_) => GstRateField
      case SetDiscount(_) => DiscountField
    }

    /** The value this update writes. */
    function NewValue(): Value {
      match this
      case SetProduct(s) => Text(s)
      case SetBatchNo(s) => Text(s)
      case SetExpiryDate(s) => Text(s)
      case SetQuantity(x) => Number(x)
      case SetFreeQuantity(x) => Number(x)
      case SetPurchasePrice(x) => Number(x)
      case SetMrp(x) => Number(x)
      case SetSellingPrice(x) => Number(x)
      case SetGstRate(x) => Number(x)
      case SetDiscount(x) => Number(x)
    }
  }

  /** The value of field `f` of `item`. */
  function Get(item: LineItem, f: Field): Value {
    match f
    case ProductField => Text(item.product)
    case BatchNoField => Text(item.batchNo)
    case ExpiryDateField => Text(item.expiryDate)
    case QuantityField => Number(item.quantity)
    case FreeQuantityField => Number(item.freeQuantity)
    case PurchasePriceField => Number(item.purchasePrice)
    case MrpField => Number(item.mrp)
    case SellingPriceField => Number(item.sellingPrice)
    case GstRateField => Number(item.gstRate)
    case DiscountField => Number(item.discount)
  }

  /** `{ ...item, [field]: value }`: the item with one field replaced. */
  function Apply(item: LineItem, u: FieldUpdate): (r: LineItem)
    ensures Get(r, u.Target()) == u.NewValue()
    ensures forall f: Field :: f != u.Target() ==> Get(r, f) == Get(item, f)
  {
    match u
    case SetProduct(s) => item.(product := s)
    case SetBatchNo(s) => item.(batchNo := s)
    case SetExpiryDate(s) => item.(expiryDate := s)
    case SetQuantity(x) => item.(quantity := x)
    case SetFreeQuantity(x) => item.(freeQuantity := x)
    case SetPurchasePrice(x) => item.(purchasePrice := x)
    case SetMrp(x) => item.(mrp := x)
    case SetSellingPrice(x) => item.(sellingPrice := x)
    case SetGstRate(x) => item.(gstRate := x)
    case SetDiscount(x) => item.(discount := x)
  }

  /** Two items are equal exactly when every field agrees, so the field
      view `Get` loses nothing about an item. */
  lemma ItemsEqualByFields(a: LineItem, b: LineItem)
    ensures (forall f: Field :: Get(a, f) == Get(b, f)) <==> a == b
  {
    if forall f: Field :: Get(a, f) == Get(b, f) {
      assert Get(a, ProductField) == Get(b, ProductField);
      assert Get(a, BatchNoField) == Get(b, BatchNoField);
      assert Get(a, ExpiryDateField) == Get(b, ExpiryDateField);
      assert Get(a, QuantityField) == Get(b, QuantityField);
      assert Get(a, FreeQuantityField) == Get(b, FreeQuantityField);
      assert Get(a, PurchasePriceField) == Get(b, PurchasePriceField);
      assert Get(a, MrpField) == Get(b, MrpField);
      assert Get(a, SellingPriceField) == Get(b, SellingPriceField);
      assert Get(a, GstRateField) == Get(b, GstRateField);
      assert Get(a, DiscountField) == Get(b, DiscountField);
    }
  }

  /** Writing a field with the value it already holds changes nothing. */
  lemma ApplyCurrentValueIsIdentity(item: LineItem, u: FieldUpdate)
    requires Get(item, u.Target()) == u.NewValue()
    ensures Apply(item, u) == item
  {
    ItemsEqualByFields(Apply(item, u), item);
  }
}
