/** The batch item form: a list of editable rows (each with a unique id) that
    is checked as a whole and saved as one item per complete row, refusing
    names that already exist or that repeat within the batch. */
module ItemForm {
  import opened Wrappers
  import opened Text
  import opened Seqs
  import opened TextUtils
  import opened Responses

  /** A row of the form. The id stands for `crypto.randomUUID()`. */
  datatype ItemRow = ItemRow(id: nat, itemName: string, catName: string, brand: string,
                             unitShort: string, itemRate: string, remark: string)

  /** The fields a user edits. */
  datatype Field = ItemName | CatName | Brand | UnitShort | ItemRate | Remark

  /** The body of one `itemApi.create`. */
  datatype ItemPayload = ItemPayload(itemName: string, catName: string, brand: string, unitShort: string,
                                     itemRate: string, remark: string, createdBy: string)

  /** Why handleSubmit stops before saving. `AlreadyExists` lists the
      trimmed names that are already stored. */
  datatype ItemError = NoCompleteRow | AlreadyExists(names: seq<string>) | DuplicateInBatch

  /** createEmptyRow */
  function EmptyRow(id: nat): (r: ItemRow)
    ensures r.id == id
    ensures r.itemName == "" && r.catName == "" && r.brand == "" && r.unitShort == ""
    ensures r.itemRate == "" && r.remark == ""
  {
    ItemRow(id, "", "", "", "", "", "")
  }

  /** `{ ...r, [field]: value }` */
  function WithField(r: ItemRow, field: Field, value: string): (s: ItemRow)
    ensures s.id == r.id
    ensures s.itemName == (if field == ItemName then value else r.itemName)
    ensures s.catName == (if field == CatName then value else r.catName)
    ensures s.brand == (if field == Brand then value else r.brand)
    ensures s.unitShort == (if field == UnitShort then value else r.unitShort)
    ensures s.itemRate == (if field == ItemRate then value else r.itemRate)
    ensures s.remark == (if field == Remark then value else r.remark)
  {
    match field
    case ItemName => r.(itemName := value)
    case CatName => r.(catName := value)
    case Brand => r.(brand := value)
    case UnitShort => r.(unitShort := value)
    case ItemRate => r.(itemRate := value)
    case Remark => r.(remark := value)
  }

  /** A complete row: a name that is not blank, a category and a unit. */
  predicate IsComplete(r: ItemRow) {
    Trim(r.itemName) != "" && r.catName != "" && r.unitShort != ""
  }

  /** The name as compared against stored names. */
  function NameKey(r: ItemRow): string {
    LowerStr(Trim(r.itemName))
  }

  /** `names.indexOf(x)` for a name that occurs. */
  function IndexOf(names: seq<string>, x: string): (k: nat)
    requires x in names
    ensures k < |names| && names[k] == x
    ensures forall j :: 0 <= j < k ==> names[j] != x
  {
    if names[0] == x then 0 else 1 + IndexOf(names[1..], x)
  }

  /** `names.filter((name, i) => names.indexOf(name) !== i)`, as the
      positions it keeps. */
  function LaterRepeats(names: seq<string>): (r: seq<int>)
    ensures forall k :: 0 <= k < |r| ==> 0 <= r[k] < |names|
  {
    Filter(Range(0, |names| - 1), (i: int) => 0 <= i < |names| && IndexOf(names, names[i]) != i)
  }

  /** The batch check finds nothing exactly when every name is different. */
  lemma LaterRepeatsEmptyIff(names: seq<string>)
    ensures LaterRepeats(names) == [] <==> forall i, j :: 0 <= i < j < |names| ==> names[i] != names[j]
  {
    var idx := Range(0, |names| - 1);
    var p := (i: int) => 0 <= i < |names| && IndexOf(names, names[i]) != i;
    FilterEmptyIff(idx, p);
    if forall i, j :: 0 <= i < j < |names| ==> names[i] != names[j] {
      forall k | 0 <= k < |idx| ensures !p(idx[k]) {
        var i := idx[k];
        assert names[IndexOf(names, names[i])] == names[i];
      }
    } else {
      var i, j :| 0 <= i < j < |names| && names[i] == names[j];
      assert IndexOf(names, names[j]) <= i;
      assert idx[j] == j && p(idx[j]);
    }
  }

  /** The payload of a complete row: the name trimmed and proper-cased,
      the free-text fields trimmed. */
  function PayloadOf(userName: Option<string>): (f: ItemRow -> ItemPayload)
    ensures forall r :: f(r) == ItemPayload(ToProperCase(Trim(r.itemName)), r.catName, Trim(r.brand),
                                            r.unitShort, Trim(r.itemRate), Trim(r.remark), userName.GetOr(""))
  {
    (r: ItemRow) => ItemPayload(ToProperCase(Trim(r.itemName)), r.catName, Trim(r.brand), r.unitShort,
                                Trim(r.itemRate), Trim(r.remark), userName.GetOr(""))
  }

  /** handleSubmit's checks, in order, and the items it posts. */
  function CheckBatch(rows: seq<ItemRow>, existing: set<string>, userName: Option<string>): (r: Result<seq<ItemPayload>, ItemError>)
    ensures r == Err(NoCompleteRow) <==> Filter(rows, IsComplete) == []
    ensures r.Ok? ==> r.value == Map(Filter(rows, IsComplete), PayloadOf(userName))
  {
    var valid := Filter(rows, IsComplete);
    var duplicates := Filter(valid, (v: ItemRow) => NameKey(v) in existing);
    if valid == [] then Err(NoCompleteRow)
    else if duplicates != [] then Err(AlreadyExists(Map(duplicates, (d: ItemRow) => Trim(d.itemName))))
    else if LaterRepeats(Map(valid, NameKey)) != [] then Err(DuplicateInBatch)
    else Ok(Map(valid, PayloadOf(userName)))
  }

  /** The batch is refused as already existing exactly when it has a
      complete row whose name is stored. */
  lemma CheckBatchAlreadyExists(rows: seq<ItemRow>, existing: set<string>, userName: Option<string>)
    ensures var r := CheckBatch(rows, existing, userName);
      r.Err? && r.error.AlreadyExists? <==>
      Filter(rows, IsComplete) != [] && exists k :: 0 <= k < |rows| && IsComplete(rows[k]) && NameKey(rows[k]) in existing
  {
    var valid := Filter(rows, IsComplete);
    var p := (v: ItemRow) => NameKey(v) in existing;
    assert CheckBatch(rows, existing, userName).Err? && CheckBatch(rows, existing, userName).error.AlreadyExists? <==>
      valid != [] && Filter(valid, p) != [];
    FilterEmptyIff(valid, p);
    FilterExists(rows, IsComplete, p);
  }

  /** The batch is refused as repeating a name exactly when it has a
      complete row, none of its names is stored, and two complete rows
      share a name. */
  lemma CheckBatchDuplicate(rows: seq<ItemRow>, existing: set<string>, userName: Option<string>)
    ensures CheckBatch(rows, existing, userName) == Err(DuplicateInBatch) <==>
      Filter(rows, IsComplete) != [] &&
      (forall k :: 0 <= k < |rows| && IsComplete(rows[k]) ==> NameKey(rows[k]) !in existing) &&
      !Distinct(Map(Filter(rows, IsComplete), NameKey))
  {
    var valid := Filter(rows, IsComplete);
    var names := Map(valid, NameKey);
    CheckBatchAlreadyExists(rows, existing, userName);
    LaterRepeatsEmptyIff(names);
    DistinctIndices(names);
  }

  /** The names a saved batch adds to the stored names. */
  function SavedNames(rows: seq<ItemRow>): set<string> {
    set r | r in Filter(rows, IsComplete) :: NameKey(r)
  }

  /** Once a batch is saved, submitting the same rows again is refused as
      already existing. */
  lemma ResubmitRejected(rows: seq<ItemRow>, existing: set<string>, userName: Option<string>)
    requires CheckBatch(rows, existing, userName).Ok?
    ensures var again := CheckBatch(rows, existing + SavedNames(rows), userName);
      again.Err? && again.error.AlreadyExists?
  {
    var valid := Filter(rows, IsComplete);
    FilterMembers(rows, IsComplete);
    var r := valid[0];
    assert r in valid;
    var k :| 0 <= k < |rows| && rows[k] == r;
    assert NameKey(rows[k]) in existing + SavedNames(rows);
  }

  /** The stored names of the items answer: `item_name` lower-cased. */
  function ExistingNames(names: seq<string>): (s: set<string>)
    ensures forall n :: n in s <==> exists k :: 0 <= k < |names| && LowerStr(names[k]) == n
  {
    set k | 0 <= k < |names| :: LowerStr(names[k])
  }

  /** `r => r.id !== id` */
  function Other(id: nat): (p: ItemRow -> bool)
    ensures forall r :: p(r) <==> r.id != id
  {
    (r: ItemRow) => r.id != id
  }

  /** Two rows with different ids. */
  predicate DifferentIds(a: ItemRow, b: ItemRow) {
    a.id != b.id
  }

  class ItemBatchForm {
    var rows: seq<ItemRow>
    var existingNames: set<string>
    /** The next fresh row id. */
    var nextId: nat

    /** Every row id is fresh-drawn: below nextId and never repeated. */
    ghost predicate Valid()
      reads this
    {
      (forall k :: 0 <= k < |rows| ==> rows[k].id < nextId) &&
      forall i, j :: 0 <= i < j < |rows| ==> DifferentIds(rows[i], rows[j])
    }

    /** Three empty rows and no stored names. */
    constructor()
      ensures rows == [EmptyRow(0), EmptyRow(1), EmptyRow(2)] && nextId == 3
      ensures existingNames == {}
      ensures Valid()
    {
      rows := [EmptyRow(0), EmptyRow(1), EmptyRow(2)];
      nextId := 3;
      existingNames := {};
    }

    /** The mount effect: stored names from a successful items answer
        (`reply` None when the request throws). */
    method LoadExistingNames(reply: Option<Answer<seq<string>>>)
      modifies this
      ensures reply.Some? && Succeeded(reply.value.status) ==>
        existingNames == ExistingNames(reply.value.data.GetOr([]))
      ensures !(reply.Some? && Succeeded(reply.value.status)) ==> existingNames == old(existingNames)
      ensures rows == old(rows) && nextId == old(nextId)
    {
      if reply.Some? && Succeeded(reply.value.status) {
        existingNames := ExistingNames(reply.value.data.GetOr([]));
      }
    }

    /** addRow: one empty row at the end. */
    method AddRow()
      requires Valid()
      modifies this
      ensures rows == old(rows) + [EmptyRow(old(nextId))]
      ensures existingNames == old(existingNames)
      ensures Valid()
    {
      rows := rows + [EmptyRow(nextId)];
      nextId := nextId + 1;
    }

    /** removeRow: nothing happens with one row or none; otherwise the row
        with that id goes and every other row stays, in order. */
    method RemoveRow(id: nat)
      requires Valid()
      modifies this
      ensures |old(rows)| <= 1 ==> rows == old(rows)
      ensures |old(rows)| > 1 ==> rows == Filter(old(rows), Other(id))
      ensures existingNames == old(existingNames) && nextId == old(nextId)
      ensures Valid()
    {
      if |rows| > 1 {
        var prev := rows;
        rows := Filter(prev, Other(id));
        forall k | 0 <= k < |rows| ensures rows[k].id < nextId {
          var a :| 0 <= a < |prev| && prev[a] == rows[k];
        }
        FilterPairwise(prev, Other(id), DifferentIds);
      }
    }

    /** updateRow: only the row with that id changes, and only that field. */
    method UpdateRow(id: nat, field: Field, value: string)
      requires Valid()
      modifies this
      ensures |rows| == |old(rows)|
      ensures forall k :: 0 <= k < |rows| ==>
        rows[k] == if old(rows)[k].id == id then WithField(old(rows)[k], field, value) else old(rows)[k]
      ensures existingNames == old(existingNames) && nextId == old(nextId)
      ensures Valid()
    {
      var prev := rows;
      rows := Map(prev, (r: ItemRow) => if r.id == id then WithField(r, field, value) else r);
    }

    /** handleSubmit. `statuses` are the create answers, None when a call
        throws. Only when every answer succeeds are the names stored and
        the rows reset to three fresh empty rows. */
    method Submit(userName: Option<string>, statuses: Option<seq<string>>) returns (outcome: Result<seq<ItemPayload>, ItemError>)
      requires Valid()
      modifies this
      ensures outcome == CheckBatch(old(rows), old(existingNames), userName)
      ensures outcome.Ok? && statuses.Some? && AllSucceeded(statuses.value) ==>
        existingNames == old(existingNames) + SavedNames(old(rows)) &&
        rows == [EmptyRow(old(nextId)), EmptyRow(old(nextId) + 1), EmptyRow(old(nextId) + 2)]
      ensures !(outcome.Ok? && statuses.Some? && AllSucceeded(statuses.value)) ==>
        existingNames == old(existingNames) && rows == old(rows)
      ensures Valid()
    {
      outcome := CheckBatch(rows, existingNames, userName);
      if outcome.Ok? && statuses.Some? && AllSucceeded(statuses.value) {
        Saved();
      }
    }

    /** After a saved batch: its names are stored and the form starts over
        with three fresh empty rows. */
    method Saved()
      requires Valid()
      modifies this
      ensures existingNames == old(existingNames) + SavedNames(old(rows))
      ensures rows == [EmptyRow(old(nextId)), EmptyRow(old(nextId) + 1), EmptyRow(old(nextId) + 2)]
      ensures nextId == old(nextId) + 3
      ensures Valid()
    {
      existingNames := existingNames + SavedNames(rows);
      rows := [EmptyRow(nextId), EmptyRow(nextId + 1), EmptyRow(nextId + 2)];
      nextId := nextId + 3;
    }
  }
}
