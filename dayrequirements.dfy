/** The Day Requirements page. A retail requirement scales the per-item
    quantities of one recipe by the day's multiplier and posts a header with
    one line per selected item; a bulk requirement posts one request per
    (item, day) of a date range, one at a time, under a submit lock. */
module DayRequirements {
  import opened Wrappers
  import opened Text
  import opened Seqs
  import opened Calendar
  import opened Quantities

  /** A saved day-requirement header, as the table lists it. */
  datatype ExistingRequirement = ExistingRequirement(dayReqDate: string, recipeType: string, dayTotReq: string, createdBy: string)

  /** A recipe scheduled for the chosen date. */
  datatype RecipeData = RecipeData(recipeCode: string, recipeType: string)

  /** A recipe as the dialog lists it, with its requirement. */
  datatype RecipeTypeDisplay = RecipeTypeDisplay(recipeType: string, recipeCode: string, reqQty: real)

  /** An ingredient of the chosen recipe; `reqQty` is `Number(req_qty)`,
      None when that is NaN. */
  datatype RecipeItem = RecipeItem(itemName: string, catName: string, unitShort: string, reqQty: Option<real>)

  // ----- Choosing the date -----

  /** isDateAlreadyUsed: some saved header has this day as its date part. */
  predicate IsDateAlreadyUsed(day: int, existing: seq<ExistingRequirement>) {
    exists i :: 0 <= i < |existing| && DatePart(existing[i].dayReqDate) == IsoDate(day)
  }

  /** After a retail save the table is fetched again, and the saved day is
      then refused by the date picker and by the date check. */
  lemma SavedDayIsUsed(day: int, existing: seq<ExistingRequirement>, recipeType: string, total: string, createdBy: string)
    ensures IsDateAlreadyUsed(day, existing + [ExistingRequirement(IsoDate(day) + "T00:00:00", recipeType, total, createdBy)])
  {
    var all := existing + [ExistingRequirement(IsoDate(day) + "T00:00:00", recipeType, total, createdBy)];
    DatePartOfStamp(IsoDate(day), "00:00:00");
    assert IsoDate(day) + "T00:00:00" == IsoDate(day) + "T" + "00:00:00";
    assert DatePart(all[|existing|].dayReqDate) == IsoDate(day);
  }

  /** What picking a retail date leads to: a used date is refused and the
      date is cleared (and with it the recipe choice and the item
      selection); any other date is looked up. */
  datatype DatePick = DateRefused | LookUp(day: int)

  function PickRetailDate(day: int, existing: seq<ExistingRequirement>): (r: DatePick)
    ensures r == DateRefused <==> IsDateAlreadyUsed(day, existing)
    ensures r.LookUp? ==> r.day == day
  {
    if IsDateAlreadyUsed(day, existing) then DateRefused else LookUp(day)
  }

  // ----- Recipes and the daily total -----

  /** transformedData: each recipe with the requirement at its index, 0 when
      missing or not numeric. */
  function RecipeRows(recipes: seq<RecipeData>, reqQty: seq<Option<real>>): (rows: seq<RecipeTypeDisplay>)
    ensures |rows| == |recipes|
    ensures forall i :: 0 <= i < |rows| ==>
      rows[i].recipeType == Trim(recipes[i].recipeType) && rows[i].recipeCode == recipes[i].recipeCode &&
      rows[i].reqQty == (if i < |reqQty| then OrZero(reqQty[i]) else 0.0)
  {
    seq(|recipes|, i requires 0 <= i < |recipes| =>
      RecipeTypeDisplay(Trim(recipes[i].recipeType), recipes[i].recipeCode,
                        if i < |reqQty| then OrZero(reqQty[i]) else 0.0))
  }

  /** The daily total: every entry of the requirement array, non-numeric
      entries counted as 0. */
  function DailyTotal(reqQty: seq<Option<real>>): real {
    Sum(reqQty, OrZero)
  }

  /** The daily total is the sum of the listed recipes' requirements plus
      any requirement entries beyond the recipe list; with one entry per
      recipe it is exactly the sum of the listed requirements. */
  lemma DailyTotalOfRows(recipes: seq<RecipeData>, reqQty: seq<Option<real>>)
    requires |reqQty| >= |recipes|
    ensures DailyTotal(reqQty) ==
      Sum(RecipeRows(recipes, reqQty), (r: RecipeTypeDisplay) => r.reqQty) + DailyTotal(reqQty[|recipes|..])
  {
    var n := |recipes|;
    assert reqQty == reqQty[..n] + reqQty[n..];
    SumConcat(reqQty[..n], reqQty[n..], OrZero);
    SumPointwise(reqQty[..n], OrZero, RecipeRows(recipes, reqQty), (r: RecipeTypeDisplay) => r.reqQty);
  }

  /** The multiplier after the recipe's package count is fetched: 0 without
      a recipe or when the fetch throws, unchanged when the server does not
      answer with data, and otherwise the multiplier of the total by the
      count (0 when the count is not numeric). */
  datatype TotpktReply = TotpktThrew | TotpktNoData | TotpktData(recipeTotpkt: Option<real>)

  function RetailMultiplier(hasRecipe: bool, reply: TotpktReply, total: real, previous: int): (m: int)
    ensures !hasRecipe || reply.TotpktThrew? ==> m == 0
    ensures hasRecipe && reply.TotpktNoData? ==> m == previous
    ensures hasRecipe && reply.TotpktData? && OrZero(reply.recipeTotpkt) <= 0.0 ==> m == 0
    ensures hasRecipe && reply.TotpktData? && OrZero(reply.recipeTotpkt) > 0.0 ==>
      m as real * OrZero(reply.recipeTotpkt) >= total && (m - 1) as real * OrZero(reply.recipeTotpkt) < total
  {
    if !hasRecipe then 0
    else match reply
      case TotpktThrew => 0
      case TotpktNoData => previous
      case TotpktData(t) => Multiplier(total, OrZero(t))
  }

  // ----- Item selection -----

  /** The names of the items: the selection right after they are loaded. */
  function ItemNames(items: seq<RecipeItem>): set<string> {
    if items == [] then {} else ItemNames(items[..|items| - 1]) + {items[|items| - 1].itemName}
  }

  lemma {:induction false} ItemNamesMembers(items: seq<RecipeItem>, n: string)
    ensures n in ItemNames(items) <==> exists i :: 0 <= i < |items| && items[i].itemName == n
  {
    if items != [] {
      var init := items[..|items| - 1];
      ItemNamesMembers(init, n);
      if exists i :: 0 <= i < |init| && init[i].itemName == n {
        var i :| 0 <= i < |init| && init[i].itemName == n;
        assert items[i] == init[i];
      }
      if exists i :: 0 <= i < |items| && items[i].itemName == n {
        var i :| 0 <= i < |items| && items[i].itemName == n;
        if i < |init| { assert init[i] == items[i]; }
      }
    }
  }

  predicate DistinctNames(items: seq<RecipeItem>) {
    forall i, j :: 0 <= i < j < |items| ==> items[i].itemName != items[j].itemName
  }

  /** There are as many names as items exactly when no two items share a name. */
  lemma {:induction false} ItemNamesCount(items: seq<RecipeItem>)
    ensures |ItemNames(items)| <= |items|
    ensures |ItemNames(items)| == |items| <==> DistinctNames(items)
  {
    if items != [] {
      var init := items[..|items| - 1];
      var last := items[|items| - 1];
      ItemNamesCount(init);
      ItemNamesMembers(init, last.itemName);
      if last.itemName in ItemNames(init) {
        var i :| 0 <= i < |init| && init[i].itemName == last.itemName;
        assert items[i].itemName == items[|items| - 1].itemName;
      } else {
        if DistinctNames(init) {
          forall i, j | 0 <= i < j < |items| ensures items[i].itemName != items[j].itemName {
            if j < |items| - 1 { assert items[i] == init[i] && items[j] == init[j]; }
            else { assert items[i] == init[i]; }
          }
        } else {
          var i, j :| 0 <= i < j < |init| && init[i].itemName == init[j].itemName;
          assert items[i] == init[i] && items[j] == init[j];
        }
      }
    }
  }

  /** toggleItemSelection: exactly one name changes membership. */
  function ToggleItemSelection(selected: set<string>, itemName: string): (r: set<string>)
    ensures itemName in r <==> itemName !in selected
    ensures forall n :: n != itemName ==> (n in r <==> n in selected)
  {
    if itemName in selected then selected - {itemName} else selected + {itemName}
  }

  lemma ToggleItemSelectionInvolution(selected: set<string>, itemName: string)
    ensures ToggleItemSelection(ToggleItemSelection(selected, itemName), itemName) == selected
  {
  }

  /** toggleAllItems: clear the selection when its size equals the number of
      items, otherwise select every item's name. */
  function ToggleAllItems(selected: set<string>, items: seq<RecipeItem>): set<string> {
    if |selected| == |items| then {} else ItemNames(items)
  }

  /** With distinct names, "select all" empties a full selection and fills an
      empty one. */
  lemma ToggleAllWithDistinctNames(items: seq<RecipeItem>)
    requires DistinctNames(items) && items != []
    ensures ToggleAllItems(ItemNames(items), items) == {}
    ensures ToggleAllItems({}, items) == ItemNames(items)
    ensures ToggleAllItems(ToggleAllItems(ItemNames(items), items), items) == ItemNames(items)
  {
    ItemNamesCount(items);
  }

  /** When two items share a name the full selection is smaller than the item
      list, so "select all" never clears it. */
  lemma ToggleAllWithRepeatedName(items: seq<RecipeItem>)
    requires !DistinctNames(items)
    ensures ToggleAllItems(ItemNames(items), items) == ItemNames(items)
  {
    ItemNamesCount(items);
  }

  // ----- Line quantities and the retail save -----

  /** The selected items, in list order. */
  function SelectedLines(items: seq<RecipeItem>, selected: set<string>): seq<RecipeItem> {
    Filter(items, (i: RecipeItem) => i.itemName in selected)
  }

  /** selectedItemsTotal: the sum of the selected items' line quantities. */
  function SelectedItemsTotal(items: seq<RecipeItem>, selected: set<string>, multiplier: int): real {
    Sum(SelectedLines(items, selected), (i: RecipeItem) => LineQty(i.reqQty, multiplier))
  }

  /** The selection made on loading covers every item. */
  lemma LoadedSelectionCoversAll(items: seq<RecipeItem>)
    ensures SelectedLines(items, ItemNames(items)) == items
  {
    forall k | 0 <= k < |items| ensures items[k].itemName in ItemNames(items) {
      ItemNamesMembers(items, items[k].itemName);
    }
    FilterAll(items, (i: RecipeItem) => i.itemName in ItemNames(items));
  }

  datatype HeaderRequest = HeaderRequest(dayReqDate: string, recipeType: string, recipeCode: string,
                                         dayTotReq: real, createdBy: string)

  datatype LineRequest = LineRequest(dayReqDate: string, recipeCode: string, itemName: string, catName: string,
                                     unitShort: string, dayReqQty: real, createdBy: string)

  datatype RetailPlan = RetailPlan(header: HeaderRequest, lines: seq<LineRequest>)

  /** The first listed recipe with the code. */
  function FindRecipe(rows: seq<RecipeTypeDisplay>, code: string): (r: Option<RecipeTypeDisplay>)
    ensures r.None? <==> forall i :: 0 <= i < |rows| ==> rows[i].recipeCode != code
    ensures r.Some? ==> r.value.recipeCode == code
    ensures r.Some? ==> exists i :: 0 <= i < |rows| && rows[i] == r.value &&
                                    forall k :: 0 <= k < i ==> rows[k].recipeCode != code
  {
    if rows == [] then None
    else if rows[0].recipeCode == code then Some(rows[0])
    else
      var r := FindRecipe(rows[1..], code);
      assert forall i :: 1 <= i < |rows| ==> rows[i] == rows[1..][i - 1];
      assert r.Some? ==> exists i :: 0 <= i < |rows| && rows[i] == r.value &&
                                     forall k :: 0 <= k < i ==> rows[k].recipeCode != code by {
        if r.Some? {
          var i :| 0 <= i < |rows[1..]| && rows[1..][i] == r.value &&
                   forall k :: 0 <= k < i ==> rows[1..][k].recipeCode != code;
          assert rows[i + 1] == r.value;
        }
      }
      r
  }

  const RetailValidationMessage := "Please select a date, recipe type, and at least one item"

  /** handleRetailSubmit: refuse without a date, a recipe or a selected item;
      otherwise one header with the unscaled daily total and one line per
      selected item with its scaled quantity, all dated "yyyy-MM-ddT00:00:00". */
  function RetailSubmit(date: Option<int>, recipeCode: string, rows: seq<RecipeTypeDisplay>,
                        items: seq<RecipeItem>, selected: set<string>, total: real,
                        multiplier: int, createdBy: string): (r: Result<RetailPlan, string>)
    ensures r.Ok? <==> date.Some? && recipeCode != "" && FindRecipe(rows, recipeCode).Some? && selected != {}
    ensures r.Err? ==> r.error == RetailValidationMessage
    ensures r.Ok? ==>
      r.value.header.dayReqDate == IsoDate(date.value) + "T00:00:00" &&
      r.value.header.recipeType == FindRecipe(rows, recipeCode).value.recipeType &&
      r.value.header.recipeCode == recipeCode && r.value.header.dayTotReq == total &&
      r.value.header.createdBy == createdBy &&
      |r.value.lines| == |SelectedLines(items, selected)|
    ensures r.Ok? ==>
      forall k :: 0 <= k < |r.value.lines| ==>
        var item := SelectedLines(items, selected)[k];
        r.value.lines[k].itemName in selected &&
        r.value.lines[k] == LineRequest(r.value.header.dayReqDate, recipeCode, item.itemName, item.catName,
                                        item.unitShort, LineQty(item.reqQty, multiplier), createdBy)
  {
    var recipe := FindRecipe(rows, recipeCode);
    if date.None? || recipeCode == "" || recipe.None? || selected == {} then Err(RetailValidationMessage)
    else
      var stamp := IsoDate(date.value) + "T00:00:00";
      var header := HeaderRequest(stamp, recipe.value.recipeType, recipe.value.recipeCode, total, createdBy);
      var lines := Map(SelectedLines(items, selected), (i: RecipeItem) =>
        LineRequest(stamp, recipe.value.recipeCode, i.itemName, i.catName, i.unitShort, LineQty(i.reqQty, multiplier), createdBy));
      Ok(RetailPlan(header, lines))
  }

  /** The posted lines add up to the selected total shown in the dialog. */
  lemma RetailLinesAddUp(date: Option<int>, recipeCode: string, rows: seq<RecipeTypeDisplay>,
                         items: seq<RecipeItem>, selected: set<string>, total: real,
                         multiplier: int, createdBy: string)
    requires RetailSubmit(date, recipeCode, rows, items, selected, total, multiplier, createdBy).Ok?
    ensures Sum(RetailSubmit(date, recipeCode, rows, items, selected, total, multiplier, createdBy).value.lines,
                (l: LineRequest) => l.dayReqQty)
            == SelectedItemsTotal(items, selected, multiplier)
  {
    var plan := RetailSubmit(date, recipeCode, rows, items, selected, total, multiplier, createdBy).value;
    SumPointwise(plan.lines, (l: LineRequest) => l.dayReqQty,
                 SelectedLines(items, selected), (i: RecipeItem) => LineQty(i.reqQty, multiplier));
  }

  // ----- Bulk requirements -----

  /** An item of the bulk list; `itemCode` is "" where the server sends none. */
  datatype BulkItem = BulkItem(itemName: string, itemCode: string, catName: string, unitShort: string, reqQty: real)

  datatype BulkRequest = BulkRequest(date: string, recipeCode: string, itemName: string, catName: string,
                                     unitShort: string, dayReqQty: real, purcType: string, createdBy: string)

  /** The request of an item on the date with key "yyyy-MM-dd". */
  function BulkRequestFor(item: BulkItem, key: string, createdBy: string): BulkRequest {
    BulkRequest(key, item.itemCode, item.itemName, item.catName, item.unitShort, item.reqQty, "Bulk", createdBy)
  }

  /** Every request of a bulk save, item by item and, within an item, day by day. */
  function BulkRequests(items: seq<BulkItem>, days: seq<int>, createdBy: string): seq<BulkRequest> {
    Product(items, DateKeys(days), BulkMaker(createdBy))
  }

  function BulkMaker(createdBy: string): (BulkItem, string) -> BulkRequest {
    (item: BulkItem, key: string) => BulkRequestFor(item, key, createdBy)
  }

  /** There is one request per item and day; request i * |days| + j is for
      item i on day j, with the item's code, category, unit and unscaled
      quantity, purchase type "Bulk" and the creator. */
  lemma BulkRequestsShape(items: seq<BulkItem>, days: seq<int>, createdBy: string, i: nat, j: nat)
    requires i < |items| && j < |days|
    ensures |BulkRequests(items, days, createdBy)| == |items| * |days|
    ensures i * |days| + j < |items| * |days|
    ensures var r := BulkRequests(items, days, createdBy)[i * |days| + j];
      r.itemName == items[i].itemName && r.date == IsoDate(days[j]) &&
      r.dayReqQty == items[i].reqQty && r.purcType == "Bulk" && r.createdBy == createdBy &&
      r.recipeCode == items[i].itemCode && r.catName == items[i].catName && r.unitShort == items[i].unitShort
  {
    ProductAt(items, DateKeys(days), BulkMaker(createdBy), i, j);
  }

  /** bulkTotalDays: the calendar days from one date to the other, counting
      both ends; 0 until both are chosen. */
  function BulkTotalDays(from: Option<int>, to: Option<int>): int {
    if from.Some? && to.Some? then to.value - from.value + 1 else 0
  }

  /** For ordered dates the day count shown is the number of days expanded,
      and the save issues that many requests per item. */
  lemma BulkTotalDaysCounts(from: int, to: int, items: seq<BulkItem>, createdBy: string)
    requires from <= to
    ensures BulkTotalDays(Some(from), Some(to)) == |Range(from, to)|
    ensures |BulkRequests(items, Range(from, to), createdBy)| == |items| * BulkTotalDays(Some(from), Some(to))
  {
    ProductLength(items, DateKeys(Range(from, to)), BulkMaker(createdBy));
  }

  /** The inner send loop: one request per date (given by its "yyyy-MM-dd"
      key) for one item, appended to the requests already issued, stopping
      after the request at position `failAt` throws. */
  method IssueRow(item: BulkItem, keys: seq<string>, createdBy: string, before: seq<BulkRequest>, failAt: Option<nat>)
    returns (issued: seq<BulkRequest>, failed: bool)
    requires failAt.None? || failAt.value >= |before|
    ensures var whole := before + Row(item, keys, BulkMaker(createdBy));
      |issued| <= |whole| && issued == whole[..|issued|] &&
      (!failed ==> issued == whole && (failAt.None? || failAt.value >= |issued|)) &&
      (failed ==> failAt == Some(|issued| - 1))
  {
    ghost var whole := before + Row(item, keys, BulkMaker(createdBy));
    issued, failed := before, false;
    var j := 0;
    while j < |keys| && !failed
      invariant 0 <= j <= |keys| && |issued| <= |whole| && issued == whole[..|issued|]
      invariant !failed ==> |issued| == |before| + j
      invariant !failed ==> failAt.None? || failAt.value >= |issued|
      invariant failed ==> failAt == Some(|issued| - 1)
    {
      var request := BulkRequestFor(item, keys[j], createdBy);
      assert whole[..|issued| + 1] == issued + [request];
      issued := issued + [request];
      if failAt == Some(|issued| - 1) {
        failed := true;
      }
      j := j + 1;
    }
    if !failed {
      assert issued == whole[..|whole|];
    }
  }

  lemma PrefixOfPrefix(a: seq<BulkRequest>, b: seq<BulkRequest>, c: seq<BulkRequest>, all: seq<BulkRequest>)
    requires |a| <= |b| && a == b[..|a|] && all == b + c
    ensures |a| <= |all| && a == all[..|a|]
  {
  }

  /** The nested send loops: each item, each date, one request, stopping
      after the request at position `failAt` throws. The requests issued are
      a prefix of the batch, the whole batch exactly when nothing failed. */
  method IssueRequests(batch: seq<BulkItem>, keys: seq<string>, createdBy: string, failAt: Option<nat>)
    returns (issued: seq<BulkRequest>, failed: bool)
    ensures var all := Product(batch, keys, BulkMaker(createdBy));
      (!failed <==> failAt.None? || failAt.value >= |all|) &&
      issued == if failed then all[..failAt.value + 1] else all
  {
    var f := BulkMaker(createdBy);
    ghost var all := Product(batch, keys, f);
    issued, failed := [], false;
    var i := 0;
    while i < |batch| && !failed
      invariant 0 <= i <= |batch|
      invariant !failed ==> issued + Product(batch[i..], keys, f) == all
      invariant !failed ==> failAt.None? || failAt.value >= |issued|
      invariant failed ==> |issued| <= |all| && issued == all[..|issued|] && failAt == Some(|issued| - 1)
      decreases |batch| - i, if failed then 0 else 1
    {
      ghost var before := issued;
      ghost var rest := Product(batch[i + 1..], keys, f);
      ProductHead(batch, keys, f, i);
      ghost var row := Row(batch[i], keys, f);
      assert all == (before + row) + rest by {
        assert all == before + (row + rest);
      }
      issued, failed := IssueRow(batch[i], keys, createdBy, issued, failAt);
      if failed {
        PrefixOfPrefix(issued, before + row, rest, all);
      } else {
        i := i + 1;
      }
    }
    if !failed {
      ProductEnd(batch, keys, f);
    }
  }

  datatype BulkStart = Busy | BulkInvalid | Started

  datatype BulkOutcome = BulkSaved | BulkFailed

  const BulkValidationMessage := "Please select dates and ensure items are loaded"

  /** The bulk part of the dialog: the dates, the loaded items, the requests
      issued so far, and the submit lock with the batch it guards. */
  class BulkDialog {
    var fromDate: Option<int>
    var toDate: Option<int>
    var items: seq<BulkItem>
    var locked: bool
    var sent: seq<BulkRequest>
    var batchItems: seq<BulkItem>
    var batchDays: seq<int>
    var batchBy: string

    /** The pickers never leave the "to" date before the "from" date. */
    predicate DatesOrdered()
      reads this
    {
      fromDate.Some? && toDate.Some? ==> fromDate.value <= toDate.value
    }

    constructor()
      ensures fromDate == None && toDate == None && items == [] && !locked && sent == []
      ensures DatesOrdered()
    {
      fromDate, toDate, items := None, None, [];
      locked, sent := false, [];
      batchItems, batchDays, batchBy := [], [], "";
    }

    /** Picking a "from" date after the "to" date clears the "to" date. */
    method PickFrom(d: Option<int>)
      modifies this
      ensures fromDate == d
      ensures toDate == if old(toDate).Some? && d.Some? && d.value > old(toDate).value then None else old(toDate)
      ensures DatesOrdered()
      ensures items == old(items) && locked == old(locked) && sent == old(sent)
      ensures batchItems == old(batchItems) && batchDays == old(batchDays) && batchBy == old(batchBy)
    {
      fromDate := d;
      if toDate.Some? && d.Some? && d.value > toDate.value {
        toDate := None;
      }
    }

    /** The "to" picker disables every day before the "from" date. */
    method PickTo(d: Option<int>)
      requires d.None? || fromDate.None? || d.value >= fromDate.value
      modifies this
      ensures toDate == d && fromDate == old(fromDate)
      ensures DatesOrdered()
      ensures items == old(items) && locked == old(locked) && sent == old(sent)
      ensures batchItems == old(batchItems) && batchDays == old(batchDays) && batchBy == old(batchBy)
    {
      toDate := d;
    }

    /** The item fetch after a date change: no items until both dates are
      chosen; a fetch that fails or has no data keeps the list. */
    method LoadItems(reply: Option<seq<BulkItem>>)
      modifies this
      ensures items == if fromDate.None? || toDate.None? then [] else if reply.Some? then reply.value else old(items)
      ensures fromDate == old(fromDate) && toDate == old(toDate) && locked == old(locked) && sent == old(sent)
      ensures batchItems == old(batchItems) && batchDays == old(batchDays) && batchBy == old(batchBy)
    {
      if fromDate.None? || toDate.None? {
        items := [];
      } else if reply.Some? {
        items := reply.value;
      }
    }

    /** The start of handleBulkSubmit: ignored while the lock is held, refused
        without both dates or items, and otherwise takes the lock for the
        batch of every item over every day of the range. */
    method Begin(createdBy: string) returns (start: BulkStart)
      requires DatesOrdered()
      modifies this
      ensures old(locked) ==> start == Busy
      ensures !old(locked) && (fromDate.None? || toDate.None? || items == []) ==> start == BulkInvalid
      ensures !old(locked) && fromDate.Some? && toDate.Some? && items != [] ==> start == Started
      ensures start == Started ==>
        locked && batchItems == items && batchDays == Range(fromDate.value, toDate.value) && batchBy == createdBy
      ensures start != Started ==>
        locked == old(locked) && batchItems == old(batchItems) && batchDays == old(batchDays) && batchBy == old(batchBy)
      ensures fromDate == old(fromDate) && toDate == old(toDate) && items == old(items) && sent == old(sent)
    {
      if locked {
        return Busy;
      }
      if fromDate.None? || toDate.None? || items == [] {
        return BulkInvalid;
      }
      locked := true;
      batchItems := items;
      batchDays := Range(fromDate.value, toDate.value);
      batchBy := createdBy;
      start := Started;
    }

    /** The sequential sends of handleBulkSubmit: each item, each day, one
        create request awaited before the next. `failAt` is the position of
        the first request that throws, if any; the requests after it are not
        sent. The lock is released in every case, and a complete save resets
        the dialog. */
    method Run(failAt: Option<nat>) returns (outcome: BulkOutcome)
      requires locked
      modifies this
      ensures !locked
      ensures var all := BulkRequests(old(batchItems), old(batchDays), old(batchBy));
        (outcome == BulkSaved <==> failAt.None? || failAt.value >= |all|) &&
        sent == old(sent) + (if outcome == BulkSaved then all else all[..failAt.value + 1])
      ensures outcome == BulkSaved ==> fromDate == None && toDate == None && items == []
      ensures outcome == BulkFailed ==> fromDate == old(fromDate) && toDate == old(toDate) && items == old(items)
      ensures batchItems == old(batchItems) && batchDays == old(batchDays) && batchBy == old(batchBy)
    {
      var issued, failed := IssueRequests(batchItems, DateKeys(batchDays), batchBy, failAt);
      sent := sent + issued;
      if failed {
        outcome := BulkFailed;
      } else {
        outcome := BulkSaved;
        fromDate, toDate, items := None, None, [];
      }
      locked := false;
    }
  }
}
