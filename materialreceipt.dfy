/** The Material Receipt page: after a purchase-request date, a purchase type
    and a category are chosen it lists the requested items, the user types
    the received quantities, and every row with a positive quantity is saved
    as one receipt. */
module MaterialReceipt {
  import opened Wrappers
  import opened Text
  import opened Numbers
  import opened Calendar
  import opened Seqs
  import opened Responses

  /** standardizeUnit: "" stays ""; otherwise the first character upper case
      and the rest lower case. */
  function StandardizeUnit(unit: string): (r: string)
    ensures |r| == |unit|
    ensures unit != "" ==> r[0] == ToUpper(unit[0])
    ensures forall i :: 0 < i < |unit| ==> r[i] == ToLower(unit[i])
  {
    if unit == "" then "" else [ToUpper(unit[0])] + LowerStr(unit[1..])
  }

  /** Standardizing a standardized unit changes nothing. */
  lemma StandardizeUnitIdempotent(unit: string)
    ensures StandardizeUnit(StandardizeUnit(unit)) == StandardizeUnit(unit)
  {
    var r := StandardizeUnit(unit);
    var rr := StandardizeUnit(r);
    forall i | 0 <= i < |r| ensures rr[i] == r[i] {
      if i == 0 {
        assert r[0] == ToUpper(unit[0]);
      } else {
        assert r[i] == ToLower(unit[i]);
      }
    }
  }

  datatype CategoryData = CategoryData(catName: string, catCode: string)

  /** An item as the items request lists it; "" stands for a missing or
      falsy field. */
  datatype RawItem = RawItem(itemName: string, unitShort: string, dayReqQty: string)

  datatype ItemRow = ItemRow(itemName: string, unitShort: string, dayReqQty: string, receivedQty: string)

  /** What the items answer's `data` holds: an array of items or something
      else. */
  datatype ItemsData = NotArray | Items(items: seq<RawItem>)

  /** What the supplier answer's `data` holds: a bare name, an object with
      a `sup_name` ("" when absent), or an array whose first element's
      `sup_name` counts ("" when absent). */
  datatype SupplierData = Text(name: string) | Object(supName: string) | List(supNames: seq<string>)

  /** The body of one `materialReceiptApi.create`. */
  datatype Receipt = Receipt(
    matRecDate: string, dayReqDate: string, supName: string, catName: string,
    itemName: string, unitShort: string, matRecQty: string, createdBy: string)

  /** Why handleSubmit stops before saving. */
  datatype ReceiptError = NoPurchaseDate | NoPurchaseType | NoCategory | NoValidItems

  /** A fetched item as a row: the unit standardized, a missing requested
      quantity shown as "0", nothing received yet. */
  function InitialRow(item: RawItem): (row: ItemRow)
    ensures row.itemName == item.itemName && row.receivedQty == ""
    ensures row.unitShort == StandardizeUnit(item.unitShort)
    ensures row.dayReqQty == (if item.dayReqQty == "" then "0" else item.dayReqQty)
  {
    ItemRow(item.itemName, StandardizeUnit(item.unitShort),
            if item.dayReqQty == "" then "0" else item.dayReqQty, "")
  }

  /** The item rows after the items effect: none while the date, type or
      category is missing or when the request throws (`reply` None); the
      fetched items on a successful answer; the rows as they were on any
      other answer. */
  function ItemsAfter(date: Option<string>, purchaseType: string, category: string,
                      reply: Option<Answer<ItemsData>>, current: seq<ItemRow>): (rows: seq<ItemRow>)
    ensures date.None? || purchaseType == "" || category == "" || reply.None? ==> rows == []
    ensures date.Some? && purchaseType != "" && category != "" && reply.Some? ==>
      if reply.value.status == "success" && reply.value.data.Some? then
        rows == (if reply.value.data.value.Items? then Map(reply.value.data.value.items, InitialRow) else [])
      else rows == current
    ensures forall k :: 0 <= k < |rows| && rows != current ==> rows[k].receivedQty == ""
  {
    if date.None? || purchaseType == "" || category == "" || reply.None? then []
    else if reply.value.status == "success" && reply.value.data.Some? then
      match reply.value.data.value
      case Items(raw) => Map(raw, InitialRow)
      case NotArray => []
    else current
  }

  /** `categories.find(c => c.cat_name === name)?.cat_code || ""` */
  function CategoryCode(categories: seq<CategoryData>, name: string): (code: string)
    ensures Find(categories, (c: CategoryData) => c.catName == name).None? ==> code == ""
    ensures Find(categories, (c: CategoryData) => c.catName == name).Some? ==>
      code == categories[Find(categories, (c: CategoryData) => c.catName == name).value].catCode
  {
    match Find(categories, (c: CategoryData) => c.catName == name)
    case Some(i) => categories[i].catCode
    case None => ""
  }

  /** The supplier name of a successful supplier answer. */
  function SupplierOf(data: SupplierData): (name: string)
    ensures data.Text? ==> name == data.name
    ensures data.Object? ==> name == data.supName
    ensures data.List? ==> name == (if data.supNames == [] then "" else data.supNames[0])
  {
    match data
    case Text(n) => n
    case Object(n) => n
    case List(ns) => if ns == [] then "" else ns[0]
  }

  /** The supplier shown after the supplier effect: none for no category
      code, a failed or thrown request (`reply` None); the answer's name
      otherwise. */
  function SupplierAfter(catCode: string, reply: Option<Answer<SupplierData>>): (name: string)
    ensures catCode == "" || reply.None? ==> name == ""
    ensures catCode != "" && reply.Some? && reply.value.status == "success" && reply.value.data.Some? ==>
      name == SupplierOf(reply.value.data.value)
    ensures catCode != "" && reply.Some? && !(reply.value.status == "success" && reply.value.data.Some?) ==>
      name == ""
  {
    if catCode == "" || reply.None? then ""
    else if reply.value.status == "success" && reply.value.data.Some? then SupplierOf(reply.value.data.value)
    else ""
  }

  /** `item.received_qty && parseFloat(item.received_qty) > 0` */
  predicate IsValidItem(row: ItemRow) {
    row.receivedQty != "" && ParseFloat(row.receivedQty).Some? && ParseFloat(row.receivedQty).value > 0.0
  }

  /** validItems */
  function ValidItems(items: seq<ItemRow>): (valid: seq<ItemRow>)
    ensures |valid| <= |items|
  {
    Filter(items, IsValidItem)
  }

  /** The valid items are exactly the rows with a received quantity that
      reads as a positive number. */
  lemma ValidItemsMembers(items: seq<ItemRow>, row: ItemRow)
    ensures row in ValidItems(items) <==> row in items && IsValidItem(row)
  {
    if row in items && IsValidItem(row) {
      var k :| 0 <= k < |items| && items[k] == row;
      assert IsValidItem(items[k]);
    }
    if row in ValidItems(items) {
      var k :| 0 <= k < |ValidItems(items)| && ValidItems(items)[k] == row;
    }
  }

  /** A received quantity typed as digits, one of them not zero, makes its
      row valid; freshly loaded rows are never valid. */
  lemma TypedDigitsAreValid(row: ItemRow, k: nat)
    requires AllDigits(row.receivedQty) && k < |row.receivedQty| && row.receivedQty[k] != '0'
    ensures IsValidItem(row)
    ensures !IsValidItem(row.(receivedQty := ""))
  {
    ParseFloatOfDigits(row.receivedQty, k);
  }

  /** The receipt of one valid row. */
  function ReceiptFor(receiptKey: string, purchaseKey: string, supplier: string, category: string,
                      createdBy: string): (f: ItemRow -> Receipt)
    ensures forall row :: f(row) == Receipt(receiptKey, purchaseKey, supplier, category,
                                            row.itemName, row.unitShort, row.receivedQty, createdBy)
  {
    (row: ItemRow) => Receipt(receiptKey, purchaseKey, supplier, category, row.itemName, row.unitShort,
                              row.receivedQty, createdBy)
  }

  /** `user?.user_name || "system"` */
  function CreatedBy(userName: Option<string>): (who: string)
    ensures userName.Some? && userName.value != "" ==> who == userName.value
    ensures userName.None? || userName.value == "" ==> who == "system"
  {
    if userName.Some? && userName.value != "" then userName.value else "system"
  }

  /** handleSubmit's checks, in order, and the receipts it posts: one per
      valid row, in row order. `receiptKey` and `purchaseKey` are the
      "yyyy-MM-dd" texts of the receipt date and the picked purchase date. */
  function ReceiptBatch(receiptKey: string, purchaseKey: Option<string>, purchaseType: string, category: string,
                        supplier: string, items: seq<ItemRow>, userName: Option<string>): (r: Result<seq<Receipt>, ReceiptError>)
    ensures r == Err(NoPurchaseDate) <==> purchaseKey.None?
    ensures r == Err(NoPurchaseType) <==> purchaseKey.Some? && purchaseType == ""
    ensures r == Err(NoCategory) <==> purchaseKey.Some? && purchaseType != "" && category == ""
    ensures r == Err(NoValidItems) <==>
      purchaseKey.Some? && purchaseType != "" && category != "" && ValidItems(items) == []
    ensures r.Ok? ==> |r.value| == |ValidItems(items)|
    ensures r.Ok? ==> forall k :: 0 <= k < |r.value| ==>
      r.value[k] == Receipt(receiptKey, purchaseKey.value, supplier, category,
                            ValidItems(items)[k].itemName, ValidItems(items)[k].unitShort,
                            ValidItems(items)[k].receivedQty, CreatedBy(userName))
  {
    if purchaseKey.None? then Err(NoPurchaseDate)
    else if purchaseType == "" then Err(NoPurchaseType)
    else if category == "" then Err(NoCategory)
    else if ValidItems(items) == [] then Err(NoValidItems)
    else Ok(Map(ValidItems(items), ReceiptFor(receiptKey, purchaseKey.value, supplier, category, CreatedBy(userName))))
  }

  /** Every posted receipt carries a positive received quantity. */
  lemma ReceiptsArePositive(receiptKey: string, purchaseKey: Option<string>, purchaseType: string, category: string,
                            supplier: string, items: seq<ItemRow>, userName: Option<string>, k: nat)
    requires ReceiptBatch(receiptKey, purchaseKey, purchaseType, category, supplier, items, userName).Ok?
    requires k < |ReceiptBatch(receiptKey, purchaseKey, purchaseType, category, supplier, items, userName).value|
    ensures var q := ReceiptBatch(receiptKey, purchaseKey, purchaseType, category, supplier, items, userName).value[k].matRecQty;
      ParseFloat(q).Some? && ParseFloat(q).value > 0.0
  {
    var valid := ValidItems(items);
    assert valid[k] in valid;
    assert IsValidItem(valid[k]);
  }

  class ReceiptForm {
    /** The receipt date, fixed to the day the page opened, and the picked
        purchase request date, both as "yyyy-MM-dd". */
    const receiptDate: string
    var purchaseReqDate: Option<string>
    var purchaseType: string
    var selectedCategory: string
    var selectedCatCode: string
    var supplierName: string
    var categories: seq<CategoryData>
    var items: seq<ItemRow>

    constructor(today: int, categories: seq<CategoryData>)
      ensures receiptDate == IsoDate(today) && this.categories == categories
      ensures purchaseReqDate == None && purchaseType == "" && selectedCategory == ""
      ensures selectedCatCode == "" && supplierName == "" && items == []
    {
      receiptDate := IsoDate(today);
      this.categories := categories;
      purchaseReqDate := None;
      purchaseType, selectedCategory, selectedCatCode, supplierName := "", "", "", "";
      items := [];
    }

    /** Picking (or clearing) the purchase request date; a change re-runs
        the items effect with the answer `reply`. */
    method SetPurchaseReqDate(date: Option<string>, reply: Option<Answer<ItemsData>>)
      modifies this
      ensures purchaseReqDate == date
      ensures date != old(purchaseReqDate) ==>
        items == ItemsAfter(date, purchaseType, selectedCategory, reply, old(items))
      ensures date == old(purchaseReqDate) ==> items == old(items)
      ensures purchaseType == old(purchaseType) && selectedCategory == old(selectedCategory)
      ensures selectedCatCode == old(selectedCatCode) && supplierName == old(supplierName)
      ensures categories == old(categories)
    {
      if date != purchaseReqDate {
        purchaseReqDate := date;
        items := ItemsAfter(purchaseReqDate, purchaseType, selectedCategory, reply, items);
      }
    }

    /** Picking the purchase type; a change re-runs the items effect. */
    method SetPurchaseType(t: string, reply: Option<Answer<ItemsData>>)
      modifies this
      ensures purchaseType == t
      ensures t != old(purchaseType) ==>
        items == ItemsAfter(purchaseReqDate, t, selectedCategory, reply, old(items))
      ensures t == old(purchaseType) ==> items == old(items)
      ensures purchaseReqDate == old(purchaseReqDate) && selectedCategory == old(selectedCategory)
      ensures selectedCatCode == old(selectedCatCode) && supplierName == old(supplierName)
      ensures categories == old(categories)
    {
      if t != purchaseType {
        purchaseType := t;
        items := ItemsAfter(purchaseReqDate, purchaseType, selectedCategory, reply, items);
      }
    }

    /** handleCategoryChange: the category and its code are set; a change of
        category re-runs the items effect and a change of code re-runs the
        supplier effect with the answer `supplier`. */
    method ChangeCategory(name: string, reply: Option<Answer<ItemsData>>, supplier: Option<Answer<SupplierData>>)
      modifies this
      ensures selectedCategory == name && selectedCatCode == CategoryCode(categories, name)
      ensures name != old(selectedCategory) ==>
        items == ItemsAfter(purchaseReqDate, purchaseType, name, reply, old(items))
      ensures name == old(selectedCategory) ==> items == old(items)
      ensures selectedCatCode != old(selectedCatCode) ==> supplierName == SupplierAfter(selectedCatCode, supplier)
      ensures selectedCatCode == old(selectedCatCode) ==> supplierName == old(supplierName)
      ensures purchaseReqDate == old(purchaseReqDate) && purchaseType == old(purchaseType)
      ensures categories == old(categories)
    {
      var code := CategoryCode(categories, name);
      if name != selectedCategory {
        selectedCategory := name;
        items := ItemsAfter(purchaseReqDate, purchaseType, selectedCategory, reply, items);
      }
      if code != selectedCatCode {
        selectedCatCode := code;
        supplierName := SupplierAfter(selectedCatCode, supplier);
      }
    }

    /** updateReceivedQty: only row `index` changes, and only its received
        quantity. */
    method UpdateReceivedQty(index: int, value: string)
      modifies this
      ensures |items| == |old(items)|
      ensures forall k :: 0 <= k < |items| && k != index ==> items[k] == old(items)[k]
      ensures 0 <= index < |items| ==> items[index] == old(items)[index].(receivedQty := value)
      ensures purchaseReqDate == old(purchaseReqDate) && purchaseType == old(purchaseType)
      ensures selectedCategory == old(selectedCategory) && selectedCatCode == old(selectedCatCode)
      ensures supplierName == old(supplierName) && categories == old(categories)
    {
      var prev := items;
      items := seq(|prev|, k requires 0 <= k < |prev| =>
        if k == index then prev[k].(receivedQty := value) else prev[k]);
    }

    /** removeItemRow: nothing happens with one row or none; otherwise the
        row at `index` (if there is one) is removed. */
    method RemoveItemRow(index: int)
      modifies this
      ensures |old(items)| <= 1 || !(0 <= index < |old(items)|) ==> items == old(items)
      ensures |old(items)| > 1 && 0 <= index < |old(items)| ==>
        items == old(items)[..index] + old(items)[index + 1..]
      ensures purchaseReqDate == old(purchaseReqDate) && purchaseType == old(purchaseType)
      ensures selectedCategory == old(selectedCategory) && selectedCatCode == old(selectedCatCode)
      ensures supplierName == old(supplierName) && categories == old(categories)
    {
      if |items| > 1 && 0 <= index < |items| {
        items := items[..index] + items[index + 1..];
      }
    }

    /** handleSubmit. `created` is whether every create call returned
        rather than threw; after a save every field is cleared. */
    method Submit(userName: Option<string>, created: bool) returns (outcome: Result<seq<Receipt>, ReceiptError>)
      modifies this
      ensures outcome == ReceiptBatch(receiptDate, old(purchaseReqDate), old(purchaseType), old(selectedCategory),
                                      old(supplierName), old(items), userName)
      ensures outcome.Ok? && created ==>
        purchaseReqDate == None && purchaseType == "" && selectedCategory == "" &&
        selectedCatCode == "" && supplierName == "" && items == []
      ensures !(outcome.Ok? && created) ==>
        purchaseReqDate == old(purchaseReqDate) && purchaseType == old(purchaseType) &&
        selectedCategory == old(selectedCategory) && selectedCatCode == old(selectedCatCode) &&
        supplierName == old(supplierName) && items == old(items)
      ensures categories == old(categories)
    {
      outcome := ReceiptBatch(receiptDate, purchaseReqDate, purchaseType, selectedCategory, supplierName, items, userName);
      if outcome.Ok? && created {
        purchaseReqDate := None;
        purchaseType, selectedCategory, selectedCatCode, supplierName := "", "", "", "";
        items := [];
      }
    }
  }
}
