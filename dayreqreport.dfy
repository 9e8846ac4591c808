/** The day-requirement report: the package count defaulting to 1, the
    rounded-up multiplier, the items grouped by category, categories and
    items in sorted order, and the day-first date of the header. The PDF
    drawing itself is not part of this model. */
module DayReqReport {
  import opened Wrappers
  import opened Text
  import opened Seqs
  import opened Sorting
  import opened Quantities
  import opened TextUtils
  import opened DayRequirements

  /** The package-count answer: FetchFailed is an answer whose status is not
      "success" or that carries no data; Fetched carries `recipe_totpkt`, None
      when that is not numeric. A request that throws rejects the joined
      fetch and no report is made; that case is not part of this model. */
  datatype TotpktFetch = FetchFailed | Fetched(recipeTotpkt: Option<real>)

  /** totpkt: the fetched count when it is numeric and not 0, else 1. */
  function ReportTotpkt(fetch: TotpktFetch): (t: real)
    ensures t != 0.0
    ensures fetch.Fetched? && fetch.recipeTotpkt.Some? && fetch.recipeTotpkt.value != 0.0 ==>
      t == fetch.recipeTotpkt.value
    ensures fetch.FetchFailed? || fetch.recipeTotpkt.None? || fetch.recipeTotpkt == Some(0.0) ==> t == 1.0
  {
    match fetch
    case FetchFailed => 1.0
    case Fetched(n) => OrOne(n)
  }

  /** The report's multiplier: Math.ceil(totalReq / totpkt), 0 when totpkt is
      negative; a non-numeric day_tot_req counts as 0. */
  function ReportMultiplier(dayTotReq: Option<real>, fetch: TotpktFetch): (m: int)
    ensures ReportTotpkt(fetch) < 0.0 ==> m == 0
    ensures ReportTotpkt(fetch) > 0.0 ==>
      m as real * ReportTotpkt(fetch) >= OrZero(dayTotReq) &&
      (m - 1) as real * ReportTotpkt(fetch) < OrZero(dayTotReq)
  {
    Multiplier(OrZero(dayTotReq), ReportTotpkt(fetch))
  }

  /** Without a usable package count the multiplier is the total rounded up. */
  lemma MultiplierWithoutCount(dayTotReq: Option<real>)
    ensures ReportMultiplier(dayTotReq, FetchFailed) as real >= OrZero(dayTotReq)
    ensures (ReportMultiplier(dayTotReq, FetchFailed) - 1) as real < OrZero(dayTotReq)
    ensures ReportMultiplier(dayTotReq, FetchFailed) == Ceil(OrZero(dayTotReq))
  {
    var t := OrZero(dayTotReq);
    var m := ReportMultiplier(dayTotReq, FetchFailed);
    assert m as real * 1.0 >= t && (m - 1) as real * 1.0 < t;
    MultiplierUnique(t, 1.0, Ceil(t));
  }

  /** rawDate: the date part of the stored date, or the whole text when that
      part is empty. */
  function RawDate(dayReqDate: string): (d: string)
    ensures d == DatePart(dayReqDate) || (DatePart(dayReqDate) == "" && d == dayReqDate)
    ensures d == "" ==> dayReqDate == ""
  {
    if DatePart(dayReqDate) != "" then DatePart(dayReqDate) else dayReqDate
  }

  /** A stored "yyyy-MM-ddThh:mm:ss" is shown as "dd-MM-yyyy". */
  lemma ReportDateOfStamp(y: string, m: string, d: string, time: string)
    requires '-' !in y && '-' !in m && '-' !in d
    requires 'T' !in y && 'T' !in m && 'T' !in d
    requires y != []
    ensures DayFirst(RawDate(y + "-" + m + "-" + d + "T" + time)) == d + "-" + m + "-" + y
  {
    var w := y + "-" + m + "-" + d;
    assert 'T' !in w by {
      forall i | 0 <= i < |w| ensures w[i] != 'T' {
        if i < |y| { assert w[i] == y[i]; }
        else if i > |y| && i < |y| + 1 + |m| { assert w[i] == m[i - |y| - 1]; }
        else if i > |y| + |m| + 1 { assert w[i] == d[i - |y| - |m| - 2]; }
      }
    }
    DatePartOfStamp(w, time);
    assert w[0] == y[0];
    DayFirstOfParts(y, m, d);
  }

  /** `item.cat_name || "Other"` */
  function CategoryOf(item: RecipeItem): (c: string)
    ensures c != ""
    ensures item.catName != "" ==> c == item.catName
  {
    if item.catName == "" then "Other" else item.catName
  }

  /** The categories that occur among the items. */
  function Categories(items: seq<RecipeItem>): set<string> {
    if items == [] then {}
    else Categories(items[..|items| - 1]) + {CategoryOf(items[|items| - 1])}
  }

  /** The categories are exactly those of the listed items. */
  lemma {:induction false} CategoriesMembers(items: seq<RecipeItem>, c: string)
    ensures c in Categories(items) <==> exists k :: 0 <= k < |items| && CategoryOf(items[k]) == c
  {
    if items != [] {
      var init := items[..|items| - 1];
      CategoriesMembers(init, c);
      if exists k :: 0 <= k < |init| && CategoryOf(init[k]) == c {
        var k :| 0 <= k < |init| && CategoryOf(init[k]) == c;
        assert items[k] == init[k];
      }
      if exists k :: 0 <= k < |items| && CategoryOf(items[k]) == c {
        var k :| 0 <= k < |items| && CategoryOf(items[k]) == c;
        if k < |init| { assert init[k] == items[k]; }
      }
    }
  }

  /** The items, in order, whose category is one of `cats`. */
  function Pick(items: seq<RecipeItem>, cats: set<string>): seq<RecipeItem> {
    if items == [] then []
    else
      var last := items[|items| - 1];
      Pick(items[..|items| - 1], cats) + (if CategoryOf(last) in cats then [last] else [])
  }

  /** An item is picked exactly when it is listed and its category is one of
      `cats`; so each item is in the group of its own category and in no
      other. */
  lemma {:induction false} PickMembers(items: seq<RecipeItem>, cats: set<string>, x: RecipeItem)
    ensures x in Pick(items, cats) <==> x in items && CategoryOf(x) in cats
  {
    if items != [] {
      var init := items[..|items| - 1];
      assert items == init + [items[|items| - 1]];
      PickMembers(init, cats, x);
    }
  }

  /** Picking from two disjoint category sets splits the pick. */
  lemma {:induction false} PickSplit(items: seq<RecipeItem>, a: set<string>, b: set<string>)
    requires a !! b
    ensures multiset(Pick(items, a + b)) == multiset(Pick(items, a)) + multiset(Pick(items, b))
  {
    if items != [] {
      PickSplit(items[..|items| - 1], a, b);
    }
  }

  /** Picking every category keeps every item. */
  lemma {:induction false} PickAll(items: seq<RecipeItem>, cats: set<string>)
    requires Categories(items) <= cats
    ensures Pick(items, cats) == items
  {
    if items != [] {
      var init := items[..|items| - 1];
      PickAll(init, cats);
      assert init + [items[|items| - 1]] == items;
    }
  }

  /** The grouping loop: `grouped[cat]` collects, in list order, the items of
      each category, and `categories` lists each category once, in order of
      first appearance. */
  method GroupByCategory(items: seq<RecipeItem>) returns (grouped: map<string, seq<RecipeItem>>, categories: seq<string>)
    ensures grouped.Keys == Categories(items)
    ensures forall c :: c in grouped ==> grouped[c] == Pick(items, {c})
    ensures forall c :: c in grouped <==> c in categories
    ensures forall i, j :: 0 <= i < j < |categories| ==> categories[i] != categories[j]
  {
    grouped, categories := map[], [];
    for n := 0 to |items|
      invariant GroupedAs(items[..n], grouped, categories)
    {
      var item := items[n];
      var cat := CategoryOf(item);
      ghost var before, beforeCats := grouped, categories;
      if cat !in grouped {
        grouped := grouped[cat := [item]];
        categories := categories + [cat];
      } else {
        grouped := grouped[cat := grouped[cat] + [item]];
      }
      GroupedTurn(items, n, before, beforeCats, grouped, categories);
    }
    GroupedAll(items, grouped, categories);
  }

  /** The loop's turn n: item n joins the dictionary. */
  lemma GroupedTurn(items: seq<RecipeItem>, n: nat, before: map<string, seq<RecipeItem>>, beforeCats: seq<string>,
                    grouped: map<string, seq<RecipeItem>>, categories: seq<string>)
    requires n < |items| && GroupedAs(items[..n], before, beforeCats)
    requires var cat := CategoryOf(items[n]);
      if cat in before then grouped == before[cat := before[cat] + [items[n]]] && categories == beforeCats
      else grouped == before[cat := [items[n]]] && categories == beforeCats + [cat]
    ensures GroupedAs(items[..n + 1], grouped, categories)
  {
    assert items[..n + 1] == items[..n] + [items[n]];
    GroupedStep(items[..n], items[n], before, beforeCats, grouped, categories);
  }

  /** After the last turn the dictionary groups all the items. */
  lemma GroupedAll(items: seq<RecipeItem>, grouped: map<string, seq<RecipeItem>>, categories: seq<string>)
    requires GroupedAs(items[..|items|], grouped, categories)
    ensures grouped.Keys == Categories(items)
    ensures forall c :: c in grouped ==> grouped[c] == Pick(items, {c})
    ensures forall c :: c in grouped <==> c in categories
    ensures forall i, j :: 0 <= i < j < |categories| ==> categories[i] != categories[j]
  {
    assert items[..|items|] == items;
    DistinctIndices(categories);
  }

  /** The loop's invariant: the dictionary holds each category's pick, and
      the key list holds its keys once each. */
  ghost predicate GroupedAs(items: seq<RecipeItem>, grouped: map<string, seq<RecipeItem>>, categories: seq<string>) {
    grouped.Keys == Categories(items) &&
    (forall c :: c in grouped ==> grouped[c] == Pick(items, {c})) &&
    (forall c :: c in grouped <==> c in categories) &&
    Distinct(categories)
  }

  /** One turn of the grouping loop keeps its invariant. */
  lemma GroupedStep(pre: seq<RecipeItem>, x: RecipeItem, before: map<string, seq<RecipeItem>>, beforeCats: seq<string>,
                    grouped: map<string, seq<RecipeItem>>, categories: seq<string>)
    requires GroupedAs(pre, before, beforeCats)
    requires var cat := CategoryOf(x);
      if cat in before then grouped == before[cat := before[cat] + [x]] && categories == beforeCats
      else grouped == before[cat := [x]] && categories == beforeCats + [cat]
    ensures GroupedAs(pre + [x], grouped, categories)
  {
    var cat := CategoryOf(x);
    CategoriesSnoc(pre, x);
    PicksStep(pre, x, before, grouped);
    if cat !in before {
      DistinctSnoc(beforeCats, cat);
    }
  }

  /** The dictionary still holds each category's pick after one more item. */
  lemma PicksStep(pre: seq<RecipeItem>, x: RecipeItem, before: map<string, seq<RecipeItem>>,
                  grouped: map<string, seq<RecipeItem>>)
    requires before.Keys == Categories(pre)
    requires forall c :: c in before ==> before[c] == Pick(pre, {c})
    requires var cat := CategoryOf(x);
      grouped == if cat in before then before[cat := before[cat] + [x]] else before[cat := [x]]
    ensures forall c :: c in grouped ==> grouped[c] == Pick(pre + [x], {c})
  {
    var cat := CategoryOf(x);
    forall c | c in grouped ensures grouped[c] == Pick(pre + [x], {c}) {
      PickSnoc(pre, x, c);
      if c != cat {
        assert grouped[c] == before[c];
      } else if cat !in before {
        CategoriesSnoc(pre, x);
      }
    }
  }

  /** One more item adds its category, which had no items before when it is
      new. */
  lemma CategoriesSnoc(pre: seq<RecipeItem>, x: RecipeItem)
    ensures Categories(pre + [x]) == Categories(pre) + {CategoryOf(x)}
    ensures CategoryOf(x) !in Categories(pre) ==> Pick(pre, {CategoryOf(x)}) == []
  {
    assert (pre + [x])[..|pre|] == pre;
    if CategoryOf(x) !in Categories(pre) {
      PickNone(pre, {CategoryOf(x)});
    }
  }

  /** One more item joins the pick of its own category only. */
  lemma PickSnoc(pre: seq<RecipeItem>, x: RecipeItem, c: string)
    ensures Pick(pre + [x], {c}) == Pick(pre, {c}) + if CategoryOf(x) == c then [x] else []
  {
    assert (pre + [x])[..|pre|] == pre;
  }

  /** No item of the categories, nothing picked. */
  lemma {:induction false} PickNone(items: seq<RecipeItem>, cats: set<string>)
    requires Categories(items) !! cats
    ensures Pick(items, cats) == []
  {
    if items != [] {
      PickNone(items[..|items| - 1], cats);
    }
  }

  /** The sort key of an item in the report. */
  function ItemNameKey(item: RecipeItem): string { item.itemName }

  function CategoryKey(c: string): string { c }

  /** A row of a category's table. */
  datatype ReportRow = ReportRow(itemName: string, unitShort: string, reqQty: Option<real>, totalQty: real)

  datatype Section = Section(category: string, rows: seq<ReportRow>)

  datatype Report = Report(date: string, recipeType: string, totalReq: real, multiplier: int, sections: seq<Section>)

  /** A category's table: its items sorted by name, each with the total
      column `(Number(req_qty) || 0) * multiplier`. */
  function SectionRows(catItems: seq<RecipeItem>, multiplier: int): (rows: seq<ReportRow>)
    ensures |rows| == |catItems|
  {
    var sorted := SortBy(catItems, ItemNameKey);
    seq(|sorted|, k requires 0 <= k < |sorted| =>
      ReportRow(sorted[k].itemName, sorted[k].unitShort, sorted[k].reqQty, LineQty(sorted[k].reqQty, multiplier)))
  }

  /** Within a category the rows are in item-name order, each with its
      item's quantity times the multiplier. */
  lemma SectionRowsSorted(catItems: seq<RecipeItem>, multiplier: int)
    ensures forall i, j :: 0 <= i < j < |catItems| ==>
      Leq(SectionRows(catItems, multiplier)[i].itemName, SectionRows(catItems, multiplier)[j].itemName)
    ensures forall k :: 0 <= k < |catItems| ==>
      SectionRows(catItems, multiplier)[k].totalQty == LineQty(SectionRows(catItems, multiplier)[k].reqQty, multiplier)
  {
    var sorted := SortBy(catItems, ItemNameKey);
    forall i, j | 0 <= i < j < |catItems|
      ensures Leq(SectionRows(catItems, multiplier)[i].itemName, SectionRows(catItems, multiplier)[j].itemName)
    {
      assert Leq(ItemNameKey(sorted[i]), ItemNameKey(sorted[j]));
    }
  }

  /** generateDayReqPdf without the drawing: the header values, then one
      section per category in sorted order. */
  method BuildReport(dayReqDate: string, recipeType: string, dayTotReq: Option<real>,
                     items: seq<RecipeItem>, fetch: TotpktFetch) returns (report: Report)
    ensures report.date == DayFirst(RawDate(dayReqDate))
    ensures report.recipeType == Trim(recipeType)
    ensures report.totalReq == OrZero(dayTotReq)
    ensures report.multiplier == ReportMultiplier(dayTotReq, fetch)
    ensures |report.sections| == |Categories(items)|
    ensures forall k :: 0 <= k < |report.sections| ==> report.sections[k].category in Categories(items)
    ensures forall c :: c in Categories(items) ==> exists k :: 0 <= k < |report.sections| && report.sections[k].category == c
    ensures forall i, j :: 0 <= i < j < |report.sections| ==>
      Leq(report.sections[i].category, report.sections[j].category) &&
      report.sections[i].category != report.sections[j].category
    ensures forall k :: 0 <= k < |report.sections| ==>
      report.sections[k].rows == SectionRows(Pick(items, {report.sections[k].category}), report.multiplier)
  {
    var multiplier := ReportMultiplier(dayTotReq, fetch);
    var sections := BuildSections(items, multiplier);
    report := Report(DayFirst(RawDate(dayReqDate)), Trim(recipeType), OrZero(dayTotReq), multiplier, sections);
  }

  /** The sections of the report: one per category, in sorted order, each
      with its category's rows. */
  method BuildSections(items: seq<RecipeItem>, multiplier: int) returns (sections: seq<Section>)
    ensures |sections| == |Categories(items)|
    ensures forall k :: 0 <= k < |sections| ==> sections[k].category in Categories(items)
    ensures forall c :: c in Categories(items) ==> exists k :: 0 <= k < |sections| && sections[k].category == c
    ensures forall i, j :: 0 <= i < j < |sections| ==>
      Leq(sections[i].category, sections[j].category) && sections[i].category != sections[j].category
    ensures forall k :: 0 <= k < |sections| ==>
      sections[k].rows == SectionRows(Pick(items, {sections[k].category}), multiplier)
  {
    var grouped, categories := GroupByCategory(items);
    var names := SortBy(categories, CategoryKey);
    SortedNames(categories, grouped.Keys, names);
    sections := SectionsOf(names, grouped, multiplier);
    SectionsOfGroups(items, grouped, names, multiplier);
  }

  /** One section per name, with the rows of the name's group. */
  function SectionsOf(names: seq<string>, grouped: map<string, seq<RecipeItem>>, multiplier: int): (sections: seq<Section>)
    requires forall k :: 0 <= k < |names| ==> names[k] in grouped
    ensures |sections| == |names|
    ensures forall k :: 0 <= k < |names| ==>
      sections[k].category == names[k] && sections[k].rows == SectionRows(grouped[names[k]], multiplier)
  {
    seq(|names|, k requires 0 <= k < |names| => Section(names[k], SectionRows(grouped[names[k]], multiplier)))
  }

  /** The sections of the sorted names of a grouping are the report's
      sections: each category once, in order, with its pick's rows. */
  lemma SectionsOfGroups(items: seq<RecipeItem>, grouped: map<string, seq<RecipeItem>>, names: seq<string>, multiplier: int)
    requires grouped.Keys == Categories(items)
    requires forall c :: c in grouped ==> grouped[c] == Pick(items, {c})
    requires forall c :: c in grouped <==> c in names
    requires forall i, j :: 0 <= i < j < |names| ==> names[i] != names[j] && Leq(names[i], names[j])
    requires |names| == |grouped.Keys|
    ensures forall k :: 0 <= k < |names| ==> names[k] in grouped
    ensures var sections := SectionsOf(names, grouped, multiplier);
      |sections| == |Categories(items)| &&
      (forall k :: 0 <= k < |sections| ==> sections[k].category in Categories(items)) &&
      (forall c :: c in Categories(items) ==> exists k :: 0 <= k < |sections| && sections[k].category == c) &&
      (forall i, j :: 0 <= i < j < |sections| ==>
        Leq(sections[i].category, sections[j].category) && sections[i].category != sections[j].category) &&
      (forall k :: 0 <= k < |sections| ==>
        sections[k].rows == SectionRows(Pick(items, {sections[k].category}), multiplier))
  {
    assert forall k :: 0 <= k < |names| ==> names[k] in grouped;
    var sections := SectionsOf(names, grouped, multiplier);
    SectionsOfNames(grouped.Keys, names, sections);
    forall k | 0 <= k < |sections|
      ensures sections[k].rows == SectionRows(Pick(items, {sections[k].category}), multiplier)
    {
      assert names[k] in grouped;
    }
  }

  /** Sections named after sorted distinct names of a set: one per name of
      the set, in order. */
  lemma SectionsOfNames(cats: set<string>, names: seq<string>, sections: seq<Section>)
    requires |sections| == |names| && |names| == |cats|
    requires forall k :: 0 <= k < |names| ==> sections[k].category == names[k]
    requires forall c :: c in cats <==> c in names
    requires forall i, j :: 0 <= i < j < |names| ==> names[i] != names[j] && Leq(names[i], names[j])
    ensures forall k :: 0 <= k < |sections| ==> sections[k].category in cats
    ensures forall c :: c in cats ==> exists k :: 0 <= k < |sections| && sections[k].category == c
    ensures forall i, j :: 0 <= i < j < |sections| ==>
      Leq(sections[i].category, sections[j].category) && sections[i].category != sections[j].category
  {
    forall c | c in cats ensures exists k :: 0 <= k < |sections| && sections[k].category == c {
      var k :| 0 <= k < |names| && names[k] == c;
      assert sections[k].category == c;
    }
  }

  /** The sorted category names: the same names, each once, in order. */
  lemma SortedNames(categories: seq<string>, keys: set<string>, names: seq<string>)
    requires forall c :: c in keys <==> c in categories
    requires forall i, j :: 0 <= i < j < |categories| ==> categories[i] != categories[j]
    requires names == SortBy(categories, CategoryKey)
    ensures forall c :: c in keys <==> c in names
    ensures forall i, j :: 0 <= i < j < |names| ==> names[i] != names[j] && Leq(names[i], names[j])
    ensures |names| == |keys|
  {
    forall c ensures c in names <==> c in categories {
      assert c in names <==> c in multiset(names);
      assert c in categories <==> c in multiset(categories);
    }
    DistinctSorted(categories, names);
    DistinctCount(names, keys);
    forall i, j | 0 <= i < j < |names| ensures Leq(names[i], names[j]) {
      assert Leq(CategoryKey(names[i]), CategoryKey(names[j]));
    }
  }

  /** Sorting a list of distinct names keeps them distinct. */
  lemma DistinctSorted(s: seq<string>, t: seq<string>)
    requires forall i, j :: 0 <= i < j < |s| ==> s[i] != s[j]
    requires multiset(t) == multiset(s)
    ensures forall i, j :: 0 <= i < j < |t| ==> t[i] != t[j]
  {
    forall i, j | 0 <= i < j < |t| ensures t[i] != t[j] {
      if t[i] == t[j] {
        assert multiset(t)[t[i]] >= 2 by {
          assert t == t[..i] + [t[i]] + t[i + 1..j] + [t[j]] + t[j + 1..];
        }
        MultisetOfDistinct(s, t[i]);
        assert false;
      }
    }
  }

  lemma {:induction false} MultisetOfDistinct(s: seq<string>, x: string)
    requires forall i, j :: 0 <= i < j < |s| ==> s[i] != s[j]
    ensures multiset(s)[x] <= 1
  {
    if s != [] {
      assert s == [s[0]] + s[1..];
      MultisetOfDistinct(s[1..], x);
      if s[0] == x {
        assert x !in s[1..];
      }
    }
  }

  /** A list of distinct names has as many entries as its set of names. */
  lemma {:induction false} DistinctCount(s: seq<string>, names: set<string>)
    requires forall i, j :: 0 <= i < j < |s| ==> s[i] != s[j]
    requires forall c :: c in names <==> c in s
    ensures |names| == |s|
  {
    if s != [] {
      var rest := names - {s[0]};
      forall c ensures c in rest <==> c in s[1..] {
        if c in s[1..] {
          var k :| 0 <= k < |s[1..]| && s[1..][k] == c;
          assert s[k + 1] == c;
        }
      }
      DistinctCount(s[1..], rest);
    }
  }

  /** Every item is listed in exactly one section: the sections together hold
      the items, each as often as it occurs. */
  lemma ReportPartitionsItems(items: seq<RecipeItem>, report: Report)
    requires forall i, j :: 0 <= i < j < |report.sections| ==> report.sections[i].category != report.sections[j].category
    requires forall c :: c in Categories(items) ==> exists k :: 0 <= k < |report.sections| && report.sections[k].category == c
    requires forall k :: 0 <= k < |report.sections| ==>
      report.sections[k].rows == SectionRows(Pick(items, {report.sections[k].category}), report.multiplier)
    ensures multiset(AllRows(report.sections)) == multiset(Map(items, (x: RecipeItem) => RowOf(x, report.multiplier)))
  {
    SectionsHoldPick(items, report.sections, report.multiplier);
    var cats := SectionCategories(report.sections);
    assert Categories(items) <= cats by {
      forall c | c in Categories(items) ensures c in cats {
        var k :| 0 <= k < |report.sections| && report.sections[k].category == c;
      }
    }
    PickAll(items, cats);
  }

  /** A report row for an item, before sorting. */
  function RowOf(x: RecipeItem, multiplier: int): ReportRow {
    ReportRow(x.itemName, x.unitShort, x.reqQty, LineQty(x.reqQty, multiplier))
  }

  /** The rows of all sections, in order. */
  function AllRows(sections: seq<Section>): seq<ReportRow> {
    if sections == [] then [] else sections[0].rows + AllRows(sections[1..])
  }

  lemma {:induction false} SectionRowsMultiset(catItems: seq<RecipeItem>, multiplier: int)
    ensures multiset(SectionRows(catItems, multiplier)) ==
      multiset(Map(catItems, (x: RecipeItem) => RowOf(x, multiplier)))
  {
    var sorted := SortBy(catItems, ItemNameKey);
    MapPermutation(sorted, catItems, (x: RecipeItem) => RowOf(x, multiplier));
    assert SectionRows(catItems, multiplier) == Map(sorted, (x: RecipeItem) => RowOf(x, multiplier));
  }

  /** With distinct categories, the sections together hold exactly the items
      of those categories. */
  lemma {:induction false} SectionsHoldPick(items: seq<RecipeItem>, sections: seq<Section>, multiplier: int)
    requires forall i, j :: 0 <= i < j < |sections| ==> sections[i].category != sections[j].category
    requires forall k :: 0 <= k < |sections| ==>
      sections[k].rows == SectionRows(Pick(items, {sections[k].category}), multiplier)
    ensures multiset(AllRows(sections)) ==
      multiset(Map(Pick(items, SectionCategories(sections)), (x: RecipeItem) => RowOf(x, multiplier)))
  {
    if sections == [] {
      assert SectionCategories(sections) == {};
      PickNone(items, {});
    } else {
      var rest := sections[1..];
      SectionCategoriesCons(sections);
      SectionsHoldPick(items, rest, multiplier);
      SectionRowsMultiset(Pick(items, {sections[0].category}), multiplier);
      RowsOfTwoPicks(items, {sections[0].category}, SectionCategories(rest), multiplier);
    }
  }

  /** The categories of a list of sections. */
  function SectionCategories(sections: seq<Section>): set<string> {
    set k | 0 <= k < |sections| :: sections[k].category
  }

  /** The first section's category and the others', apart when the
      categories are distinct. */
  lemma SectionCategoriesCons(sections: seq<Section>)
    requires sections != []
    requires forall i, j :: 0 <= i < j < |sections| ==> sections[i].category != sections[j].category
    ensures SectionCategories(sections) == {sections[0].category} + SectionCategories(sections[1..])
    ensures {sections[0].category} !! SectionCategories(sections[1..])
  {
    var rest := sections[1..];
    var cats := SectionCategories(sections);
    var restCats := SectionCategories(rest);
    forall c | c in cats ensures c in {sections[0].category} + restCats {
      var k :| 0 <= k < |sections| && sections[k].category == c;
      if k > 0 { assert rest[k - 1].category == c; }
    }
    forall c | c in restCats ensures c in cats {
      var k :| 0 <= k < |rest| && rest[k].category == c;
      assert sections[k + 1].category == c;
    }
    forall k | 0 <= k < |rest| ensures rest[k].category != sections[0].category {
      assert rest[k] == sections[k + 1];
    }
  }

  /** The rows of two disjoint picks together are the rows of the pick of
      both category sets. */
  lemma RowsOfTwoPicks(items: seq<RecipeItem>, a: set<string>, b: set<string>, multiplier: int)
    requires a !! b
    ensures multiset(Map(Pick(items, a + b), (x: RecipeItem) => RowOf(x, multiplier))) ==
      multiset(Map(Pick(items, a), (x: RecipeItem) => RowOf(x, multiplier))) +
      multiset(Map(Pick(items, b), (x: RecipeItem) => RowOf(x, multiplier)))
  {
    var f := (x: RecipeItem) => RowOf(x, multiplier);
    PickSplit(items, a, b);
    MapPermutation(Pick(items, a + b), Pick(items, a) + Pick(items, b), f);
    MapConcat(Pick(items, a), Pick(items, b), f);
  }
}
