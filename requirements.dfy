/** The delivery-requirement form: mosque entries over a date range, the
    records they expand to, the check against the requirements already saved,
    and the create requests of a submission. */
module Requirements {
  import opened Wrappers
  import opened Text
  import opened Seqs
  import opened Calendar
  import opened Responses

  /** A row of the form: a mosque name and a required quantity, both as
      typed ("" when empty). */
  datatype Entry = Entry(masjidName: string, reqQty: string)

  /** The form's initial entry list: one empty row. */
  const DefaultEntries: seq<Entry> := [Entry("", "")]

  /** A mosque of the mosque list; `masjidCode` is None when the server sends
      none. */
  datatype MasjidOption = MasjidOption(masjidName: string, masjidCode: Option<int>)

  /** A saved requirement as the form keeps it: the date text and the mosque
      name in lower case; either may be missing. */
  datatype ExistingRecord = ExistingRecord(reqDate: Option<string>, masjidName: Option<string>)

  /** The saved requirements as fetched: the mosque name is lower-cased on
      loading. */
  function LoadExisting(fetched: seq<ExistingRecord>): (r: seq<ExistingRecord>)
    ensures |r| == |fetched|
    ensures forall i :: 0 <= i < |r| ==>
      (r[i].reqDate == fetched[i].reqDate &&
       (r[i].masjidName.Some? <==> fetched[i].masjidName.Some?) &&
       (r[i].masjidName.Some? ==> r[i].masjidName.value == LowerStr(fetched[i].masjidName.value)))
  {
    Map(fetched, (rec: ExistingRecord) =>
      ExistingRecord(rec.reqDate, if rec.masjidName.Some? then Some(LowerStr(rec.masjidName.value)) else None))
  }

  // ----- The preview -----

  /** dateRange: every day from `from` to `to` when both are chosen and in
      order, else none. */
  function DateRange(from: Option<int>, to: Option<int>): (r: seq<int>)
    ensures from.None? || to.None? || to.value < from.value ==> r == []
    ensures from.Some? && to.Some? && from.value <= to.value ==>
      |r| == to.value - from.value + 1 && forall i :: 0 <= i < |r| ==> r[i] == from.value + i
  {
    if from.Some? && to.Some? && to.value >= from.value then Range(from.value, to.value) else []
  }

  /** An entry with both a mosque and a quantity. */
  predicate IsComplete(e: Entry) {
    e.masjidName != "" && e.reqQty != ""
  }

  /** validEntries: the complete entries, in order. */
  function ValidEntries(entries: seq<Entry>): seq<Entry> {
    Filter(entries, IsComplete)
  }

  /** Exactly the complete entries are valid. */
  lemma ValidEntriesExactly(entries: seq<Entry>, e: Entry)
    ensures e in ValidEntries(entries) <==> e in entries && IsComplete(e)
  {
    if e in entries && IsComplete(e) {
      var i :| 0 <= i < |entries| && entries[i] == e;
    }
    if e in ValidEntries(entries) {
      var i :| 0 <= i < |ValidEntries(entries)| && ValidEntries(entries)[i] == e;
    }
  }

  /** A record of the preview table. */
  datatype Generated = Generated(day: int, masjidName: string, reqQty: string)

  function GeneratedFor(day: int, e: Entry): Generated {
    Generated(day, e.masjidName, e.reqQty)
  }

  /** generatedRecords: for each day, for each valid entry, one record. */
  function GeneratedRecords(from: Option<int>, to: Option<int>, entries: seq<Entry>): seq<Generated> {
    Product(DateRange(from, to), ValidEntries(entries), GeneratedFor)
  }

  /** The preview has one record per day and valid entry, date-major: record
      i * |valid| + j is valid entry j on day i of the range. */
  lemma GeneratedRecordsShape(from: Option<int>, to: Option<int>, entries: seq<Entry>, i: nat, j: nat)
    requires i < |DateRange(from, to)| && j < |ValidEntries(entries)|
    ensures |GeneratedRecords(from, to, entries)| == |DateRange(from, to)| * |ValidEntries(entries)|
    ensures i * |ValidEntries(entries)| + j < |GeneratedRecords(from, to, entries)|
    ensures GeneratedRecords(from, to, entries)[i * |ValidEntries(entries)| + j] ==
      Generated(from.value + i, ValidEntries(entries)[j].masjidName, ValidEntries(entries)[j].reqQty)
  {
    ProductAt(DateRange(from, to), ValidEntries(entries), GeneratedFor, i, j);
  }

  /** Without both dates, or with the dates reversed, there is no preview. */
  lemma NoRangeNoRecords(from: Option<int>, to: Option<int>, entries: seq<Entry>)
    requires from.None? || to.None? || to.value < from.value
    ensures GeneratedRecords(from, to, entries) == []
  {
  }

  // ----- Auto-populate -----

  /** The entry list is the single empty default row. */
  predicate IsDefault(entries: seq<Entry>) {
    |entries| == 1 && entries[0].masjidName == "" && entries[0].reqQty == ""
  }

  /** The auto-populate effect: once both dates are chosen and the mosque list
      is loaded, a default entry list becomes one row per mosque with an empty
      quantity; any other list is kept. */
  function AutoPopulate(from: Option<int>, to: Option<int>, masjids: seq<MasjidOption>, entries: seq<Entry>): (r: seq<Entry>)
    ensures !(from.Some? && to.Some? && masjids != [] && IsDefault(entries)) ==> r == entries
    ensures from.Some? && to.Some? && masjids != [] && IsDefault(entries) ==>
      |r| == |masjids| && forall i :: 0 <= i < |r| ==> r[i] == Entry(masjids[i].masjidName, "")
  {
    if from.Some? && to.Some? && masjids != [] && IsDefault(entries) then
      Map(masjids, (m: MasjidOption) => Entry(m.masjidName, ""))
    else entries
  }

  /** The effect may run again without changing what it produced. */
  lemma AutoPopulateIdempotent(from: Option<int>, to: Option<int>, masjids: seq<MasjidOption>, entries: seq<Entry>)
    ensures AutoPopulate(from, to, masjids, AutoPopulate(from, to, masjids, entries)) ==
      AutoPopulate(from, to, masjids, entries)
  {
    var once := AutoPopulate(from, to, masjids, entries);
    if from.Some? && to.Some? && masjids != [] && IsDefault(entries) && IsDefault(once) {
      assert |masjids| == 1 && masjids[0].masjidName == "";
      assert once == [Entry("", "")];
    }
  }

  // ----- The mosque choices of a row -----

  /** The names chosen in the other rows. */
  predicate UsedElsewhere(entries: seq<Entry>, index: nat, name: string) {
    exists i :: 0 <= i < |entries| && i != index && entries[i].masjidName != "" && entries[i].masjidName == name
  }

  /** A row's mosque options: the mosques not chosen in another row, plus the
      row's own choice. */
  function MosqueOptions(masjids: seq<MasjidOption>, entries: seq<Entry>, index: nat): (r: seq<MasjidOption>)
    requires index < |entries|
    ensures |r| <= |masjids|
    ensures forall m :: m in r <==>
      (m in masjids && (!UsedElsewhere(entries, index, m.masjidName) || m.masjidName == entries[index].masjidName))
  {
    var r := Filter(masjids, (m: MasjidOption) =>
      !UsedElsewhere(entries, index, m.masjidName) || m.masjidName == entries[index].masjidName);
    forall m | m in masjids && (!UsedElsewhere(entries, index, m.masjidName) || m.masjidName == entries[index].masjidName)
      ensures m in r
    {
      var i :| 0 <= i < |masjids| && masjids[i] == m;
    }
    forall m | m in r ensures m in masjids {
      var i :| 0 <= i < |r| && r[i] == m;
    }
    r
  }

  /** The row's own mosque always stays among its options, and a mosque chosen
      in another row is never offered. */
  lemma OwnChoiceOffered(masjids: seq<MasjidOption>, entries: seq<Entry>, index: nat, m: MasjidOption)
    requires index < |entries| && m in masjids
    ensures m.masjidName == entries[index].masjidName ==> m in MosqueOptions(masjids, entries, index)
    ensures m.masjidName != entries[index].masjidName && UsedElsewhere(entries, index, m.masjidName) ==>
      m !in MosqueOptions(masjids, entries, index)
  {
  }

  // ----- Duplicates and the submission -----

  /** date-fns 3 `eachDayOfInterval({ start, end })`: every day from `start`
      to `end`, one day apart; an interval whose end comes before its start
      is not refused but counted down. */
  function EachDay(start: int, end: int): (r: seq<int>)
    ensures |r| == (if start <= end then end - start else start - end) + 1
    ensures r[0] == start && r[|r| - 1] == end
  {
    if start <= end then Range(start, end)
    else seq(start - end + 1, i requires 0 <= i < start - end + 1 => start - i)
  }

  /** The days are one apart: the i-th is i days after the start, or i days
      before it when the interval is reversed. */
  lemma EachDayAt(start: int, end: int, i: nat)
    requires i < |EachDay(start, end)|
    ensures EachDay(start, end)[i] == if start <= end then start + i else start - i
    ensures i + 1 < |EachDay(start, end)| ==>
      EachDay(start, end)[i + 1] == EachDay(start, end)[i] + (if start <= end then 1 else -1)
  {
  }

  /** A reversed interval lists the days of the ordered one backwards. */
  lemma EachDayReversed(start: int, end: int)
    ensures |EachDay(start, end)| == |EachDay(end, start)|
    ensures forall i :: 0 <= i < |EachDay(start, end)| ==>
      EachDay(start, end)[i] == EachDay(end, start)[|EachDay(end, start)| - 1 - i]
  {
  }

  /** An entry is already saved on a date, given as its "yyyy-MM-dd" key: a
      saved record has the entry's mosque in lower case and a date text
      starting with the key. */
  predicate IsDuplicate(existing: seq<ExistingRecord>, key: string, e: Entry) {
    exists k :: 0 <= k < |existing| &&
      existing[k].masjidName == Some(LowerStr(e.masjidName)) &&
      existing[k].reqDate.Some? && StartsWith(existing[k].reqDate.value, key)
  }

  /** The duplicate (date key, entry) pairs, date-major, in the order of the
      check. */
  function Duplicates(existing: seq<ExistingRecord>, keys: seq<string>, entries: seq<Entry>): (r: seq<(string, Entry)>)
    ensures forall q :: q in r ==> q.0 in keys && q.1 in entries && IsDuplicate(existing, q.0, q.1)
  {
    Pairs(keys, entries, (k: string, e: Entry) => IsDuplicate(existing, k, e))
  }

  /** There is a duplicate pair exactly when some date and some entry are
      already saved. */
  lemma DuplicatesEmptyIff(existing: seq<ExistingRecord>, keys: seq<string>, entries: seq<Entry>)
    ensures Duplicates(existing, keys, entries) == [] <==>
      forall i, j :: 0 <= i < |keys| && 0 <= j < |entries| ==> !IsDuplicate(existing, keys[i], entries[j])
  {
    PairsEmptyIff(keys, entries, (k: string, e: Entry) => IsDuplicate(existing, k, e));
  }

  /** A create request of a submission. */
  datatype CreateRequest = CreateRequest(reqDate: string, masjidName: string, masjidCode: string,
                                         reqQty: string, createdBy: string)

  /** The first mosque of the list with the name. */
  function FindMasjid(masjids: seq<MasjidOption>, name: string): (r: Option<MasjidOption>)
    ensures r.None? <==> forall i :: 0 <= i < |masjids| ==> masjids[i].masjidName != name
    ensures r.Some? ==> r.value.masjidName == name
    ensures r.Some? ==> exists i :: (0 <= i < |masjids| && masjids[i] == r.value &&
      forall k :: 0 <= k < i ==> masjids[k].masjidName != name)
  {
    if masjids == [] then None
    else if masjids[0].masjidName == name then Some(masjids[0])
    else
      var r := FindMasjid(masjids[1..], name);
      assert forall i :: 1 <= i < |masjids| ==> masjids[i] == masjids[1..][i - 1];
      r
  }

  /** `String(selectedMasjid?.masjid_code || "")`: "" for an unknown mosque,
      a missing code or the code 0. */
  function MasjidCode(masjids: seq<MasjidOption>, name: string): (code: string)
    ensures FindMasjid(masjids, name).None? ==> code == ""
    ensures FindMasjid(masjids, name).Some? ==>
      var c := FindMasjid(masjids, name).value.masjidCode;
      (c.None? || c.value == 0 <==> code == "")
  {
    var m := FindMasjid(masjids, name);
    if m.None? || m.value.masjidCode.None? || m.value.masjidCode.value == 0 then ""
    else
      var n := m.value.masjidCode.value;
      assert Padded(n, 0) != "" by {
        if n >= 0 { assert |Digits(n)| >= 1; }
      }
      Padded(n, 0)
  }

  /** The create request of an entry on a date with key "yyyy-MM-dd": dated
      "yyyy-MM-ddT00:00:00", with the mosque's code from the mosque list. */
  function RequestFor(masjids: seq<MasjidOption>, createdBy: string): (string, Entry) -> CreateRequest {
    (key: string, e: Entry) =>
      CreateRequest(key + "T00:00:00", e.masjidName, MasjidCode(masjids, e.masjidName), e.reqQty, createdBy)
  }

  /** What a submission leads to. */
  datatype SubmitPlan =
    | SchemaInvalid                      // a date is missing, no entry, or an incomplete entry
    | NotLoggedIn
    | NoCompleteEntries
    | DuplicateFound(date: string, masjidName: string)   // the first duplicate, by its "yyyy-MM-dd" key and mosque
    | Create(requests: seq<CreateRequest>)

  /** The form schema: both dates, at least one entry, every entry with a
      mosque and a quantity. */
  predicate SchemaValid(from: Option<int>, to: Option<int>, entries: seq<Entry>) {
    from.Some? && to.Some? && |entries| >= 1 && forall i :: 0 <= i < |entries| ==> IsComplete(entries[i])
  }

  /** onSubmit after the schema check: signed in, at least one complete
      entry, no duplicate pair; then one create per day and entry, date-major. */
  function PlanSubmit(user: Option<string>, from: Option<int>, to: Option<int>, entries: seq<Entry>,
                      existing: seq<ExistingRecord>, masjids: seq<MasjidOption>): (r: SubmitPlan)
    ensures r == SchemaInvalid <==> !SchemaValid(from, to, entries)
    ensures SchemaValid(from, to, entries) && user.None? ==> r == NotLoggedIn
    ensures r.Create? || r.DuplicateFound? ==> SchemaValid(from, to, entries) && user.Some?
  {
    if !SchemaValid(from, to, entries) then SchemaInvalid
    else if user.None? then NotLoggedIn
    else
      var keys := DateKeys(EachDay(from.value, to.value));
      var valid := ValidEntries(entries);
      if valid == [] then NoCompleteEntries
      else
        var dups := Duplicates(existing, keys, valid);
        if dups != [] then DuplicateFound(dups[0].0, dups[0].1.masjidName)
        else Create(Product(keys, valid, RequestFor(masjids, user.value)))
  }

  /** Once the schema holds every entry is complete, so the "no complete
      entry" refusal cannot happen. */
  lemma NoCompleteEntriesUnreachable(user: Option<string>, from: Option<int>, to: Option<int>, entries: seq<Entry>,
                                     existing: seq<ExistingRecord>, masjids: seq<MasjidOption>)
    ensures PlanSubmit(user, from, to, entries, existing, masjids) != NoCompleteEntries
  {
    if SchemaValid(from, to, entries) {
      FilterAll(entries, IsComplete);
    }
  }

  /** Any saved (day, entry) pair aborts the whole submission: nothing is
      created, and the message names a duplicate pair. */
  lemma DuplicateAbortsAll(user: Option<string>, from: Option<int>, to: Option<int>, entries: seq<Entry>,
                           existing: seq<ExistingRecord>, masjids: seq<MasjidOption>, keys: seq<string>, i: nat, j: nat)
    requires SchemaValid(from, to, entries) && user.Some? && keys == DateKeys(EachDay(from.value, to.value))
    requires i < |keys| && j < |entries|
    requires IsDuplicate(existing, keys[i], entries[j])
    ensures PlanSubmit(user, from, to, entries, existing, masjids).DuplicateFound?
    ensures var r := PlanSubmit(user, from, to, entries, existing, masjids);
      exists k, e :: k in keys && e in entries && e.masjidName == r.masjidName && k == r.date &&
        IsDuplicate(existing, k, e)
  {
    FilterAll(entries, IsComplete);
    FirstDuplicate(existing, keys, entries, i, j);
    var dups := Duplicates(existing, keys, entries);
    assert PlanSubmit(user, from, to, entries, existing, masjids) == DuplicateFound(dups[0].0, dups[0].1.masjidName);
  }

  lemma FirstDuplicate(existing: seq<ExistingRecord>, keys: seq<string>, entries: seq<Entry>, i: nat, j: nat)
    requires i < |keys| && j < |entries| && IsDuplicate(existing, keys[i], entries[j])
    ensures Duplicates(existing, keys, entries) != []
    ensures var p := Duplicates(existing, keys, entries)[0];
      p.0 in keys && p.1 in entries && IsDuplicate(existing, p.0, p.1)
  {
    PairsFirst(keys, entries, (k: string, e: Entry) => IsDuplicate(existing, k, e), i, j);
  }

  /** The requests of a creating submission (see CreatePlanShape): there is
      one per date and entry, date-major; the one for date i and entry j is
      at position i * |entries| + j; and none of them is already saved. */
  lemma CreatedRequests(existing: seq<ExistingRecord>, masjids: seq<MasjidOption>, who: string,
                        keys: seq<string>, entries: seq<Entry>, reqs: seq<CreateRequest>, i: nat, j: nat)
    requires reqs == Product(keys, entries, RequestFor(masjids, who))
    requires Duplicates(existing, keys, entries) == []
    requires i < |keys| && j < |entries|
    ensures |reqs| == |keys| * |entries|
    ensures i * |entries| + j < |reqs|
    ensures reqs[i * |entries| + j] == RequestFor(masjids, who)(keys[i], entries[j])
    ensures !IsDuplicate(existing, keys[i], entries[j])
  {
    NotDuplicate(existing, keys, entries, i, j);
    ProductAt(keys, entries, RequestFor(masjids, who), i, j);
  }

  lemma NotDuplicate(existing: seq<ExistingRecord>, keys: seq<string>, entries: seq<Entry>, i: nat, j: nat)
    requires Duplicates(existing, keys, entries) == []
    requires i < |keys| && j < |entries|
    ensures !IsDuplicate(existing, keys[i], entries[j])
  {
    DuplicatesEmptyIff(existing, keys, entries);
  }

  /** A submission creates exactly when the schema holds, someone is signed
      in and no (date, entry) pair is saved; its requests are then the
      product of the dates and the entries. */
  lemma CreatePlanShape(user: Option<string>, from: Option<int>, to: Option<int>, entries: seq<Entry>,
                        existing: seq<ExistingRecord>, masjids: seq<MasjidOption>)
    ensures PlanSubmit(user, from, to, entries, existing, masjids).Create? <==>
      SchemaValid(from, to, entries) && user.Some? &&
      Duplicates(existing, DateKeys(EachDay(from.value, to.value)), entries) == []
    ensures PlanSubmit(user, from, to, entries, existing, masjids).Create? ==>
      PlanSubmit(user, from, to, entries, existing, masjids).requests ==
      Product(DateKeys(EachDay(from.value, to.value)), entries, RequestFor(masjids, user.value))
  {
    if SchemaValid(from, to, entries) {
      FilterAll(entries, IsComplete);
    }
  }

  /** A creating submission always sends something: one request per day of
      the interval and entry, and the interval has at least one day. */
  lemma CreateNeverEmpty(user: Option<string>, from: Option<int>, to: Option<int>, entries: seq<Entry>,
                         existing: seq<ExistingRecord>, masjids: seq<MasjidOption>)
    requires PlanSubmit(user, from, to, entries, existing, masjids).Create?
    ensures |PlanSubmit(user, from, to, entries, existing, masjids).requests| ==
      |EachDay(from.value, to.value)| * |entries| >= 1
  {
    CreatePlanShape(user, from, to, entries, existing, masjids);
    var keys := DateKeys(EachDay(from.value, to.value));
    ProductLength(keys, entries, RequestFor(masjids, user.value));
    assert |keys| * |entries| >= 1 * |entries|;
  }



  /** A created request, once saved and fetched again, makes its pair a
      duplicate: the same submission is refused the next time. */
  lemma SavedPairIsDuplicate(existing: seq<ExistingRecord>, key: string, e: Entry, masjids: seq<MasjidOption>, createdBy: string)
    ensures var req := RequestFor(masjids, createdBy)(key, e);
      IsDuplicate(LoadExisting(existing + [ExistingRecord(Some(req.reqDate), Some(req.masjidName))]), key, e)
  {
    var req := RequestFor(masjids, createdBy)(key, e);
    var all := LoadExisting(existing + [ExistingRecord(Some(req.reqDate), Some(req.masjidName))]);
    var k := |existing|;
    assert all[k].masjidName == Some(LowerStr(e.masjidName));
    assert (key + "T00:00:00")[..|key|] == key;
  }

  /** The form after the creates: reset to the default entry when every
      answer is a success, kept otherwise (a thrown call included). */
  function EntriesAfterCreate(entries: seq<Entry>, statuses: Option<seq<string>>): (r: seq<Entry>)
    ensures statuses.Some? && AllSucceeded(statuses.value) ==> r == DefaultEntries
    ensures statuses.None? || !AllSucceeded(statuses.value) ==> r == entries
  {
    if statuses.Some? && AllSucceeded(statuses.value) then DefaultEntries else entries
  }

  /** The form's values: the two dates and the entry list. */
  class RequirementForm {
    var dateFrom: Option<int>
    var dateTo: Option<int>
    var entries: seq<Entry>

    constructor()
      ensures dateFrom == None && dateTo == None && entries == DefaultEntries
    {
      dateFrom, dateTo := None, None;
      entries := DefaultEntries;
    }

    /** Picking (or, with None, clearing) the start date, followed by the
        auto-populate effect the change triggers. The start calendar has no
        disabled days, so a start after the end can be picked. */
    method PickFrom(day: Option<int>, masjids: seq<MasjidOption>)
      modifies this
      ensures dateFrom == day && dateTo == old(dateTo)
      ensures entries == AutoPopulate(day, old(dateTo), masjids, old(entries))
    {
      dateFrom := day;
      Populate(masjids);
    }

    /** Picking (or clearing) the end date: the end calendar disables every
        day before the start, and the auto-populate effect follows. */
    method PickTo(day: Option<int>, masjids: seq<MasjidOption>)
      requires day.None? || dateFrom.None? || dateFrom.value <= day.value
      modifies this
      ensures dateTo == day && dateFrom == old(dateFrom)
      ensures entries == AutoPopulate(old(dateFrom), day, masjids, old(entries))
    {
      dateTo := day;
      Populate(masjids);
    }

    /** The auto-populate effect over the form's own dates (it also runs when
        the mosque list arrives). */
    method Populate(masjids: seq<MasjidOption>)
      modifies this
      ensures dateFrom == old(dateFrom) && dateTo == old(dateTo)
      ensures entries == AutoPopulate(dateFrom, dateTo, masjids, old(entries))
    {
      if dateFrom.Some? && dateTo.Some? && |masjids| > 0 {
        var isDefault := |entries| == 1 && entries[0].masjidName == "" && entries[0].reqQty == "";
        if isDefault {
          entries := Map(masjids, (m: MasjidOption) => Entry(m.masjidName, ""));
        }
      }
    }

    /** A submission: the plan over the form's values, and, when every create
        succeeds, `form.reset({ entries: [default] })`, which replaces all the
        values, so both dates are cleared too and a resubmission fails the
        schema until new dates are picked. `statuses` is None when a create
        call throws. */
    method Submit(user: Option<string>, existing: seq<ExistingRecord>,
                  masjids: seq<MasjidOption>, statuses: Option<seq<string>>) returns (plan: SubmitPlan)
      modifies this
      ensures plan == PlanSubmit(user, old(dateFrom), old(dateTo), old(entries), existing, masjids)
      ensures plan.Create? ==> entries == EntriesAfterCreate(old(entries), statuses)
      ensures plan.Create? && statuses.Some? && AllSucceeded(statuses.value) ==>
        dateFrom == None && dateTo == None && PlanSubmit(user, dateFrom, dateTo, entries, existing, masjids) == SchemaInvalid
      ensures !(plan.Create? && statuses.Some? && AllSucceeded(statuses.value)) ==>
        dateFrom == old(dateFrom) && dateTo == old(dateTo)
      ensures !plan.Create? ==> entries == old(entries)
    {
      plan := PlanSubmit(user, dateFrom, dateTo, entries, existing, masjids);
      if plan.Create? {
        if statuses.Some? && AllSucceeded(statuses.value) {
          dateFrom, dateTo := None, None;
        }
        entries := EntriesAfterCreate(entries, statuses);
      }
    }
  }
}
