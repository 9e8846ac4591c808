/** The delivery-schedule form: a set of picked days kept as an ascending
    list, one recipe type, and a check against the stored schedules that
    refuses a (day, recipe type) pair already scheduled. Days are day
    numbers of the local calendar; "yyyy-MM-dd" of two picks is equal
    exactly when they are the same day. */
module Schedule {
  import opened Wrappers
  import opened Text
  import opened Seqs
  import opened Calendar
  import opened Responses

  /** A stored schedule as the list answer gives it. */
  datatype ExistingSchedule = ExistingSchedule(schdDate: string, recipeType: string)

  /** An option of the recipe-type list. */
  datatype RecipeTypeOption = RecipeTypeOption(recipeType: string, recipeCode: Option<int>)

  /** The body of one `deliveryScheduleApi.create`. */
  datatype ScheduleRequest = ScheduleRequest(schdDate: string, recipeType: string, recipeCode: string, createdBy: string)

  /** Strictly ascending: sorted, and no day twice. */
  predicate Ascending(days: seq<int>) {
    forall i, j :: 0 <= i < j < |days| ==> days[i] < days[j]
  }

  predicate Less(a: int, b: int) {
    a < b
  }

  /** `prev.filter(d => format(d, "yyyy-MM-dd") !== dateStr)` */
  function Without(days: seq<int>, day: int): (r: seq<int>)
    ensures forall d :: d in r <==> d in days && d != day
    ensures Ascending(days) ==> Ascending(r)
  {
    var p := (d: int) => d != day;
    FilterMembers(days, p);
    assert Ascending(days) ==> Ascending(Filter(days, p)) by {
      if Ascending(days) {
        FilterPairwise(days, p, Less);
      }
    }
    Filter(days, p)
  }

  /** `[...prev, date].sort((a, b) => a.getTime() - b.getTime())` on an
      ascending `prev`: the new day goes in its place. */
  function SortedInsert(days: seq<int>, day: int): (r: seq<int>)
    ensures multiset(r) == multiset(days + [day])
  {
    if days == [] then [day]
    else if day <= days[0] then
      assert days + [day] == [days[0]] + (days[1..] + [day]);
      [day] + days
    else
      assert days + [day] == [days[0]] + (days[1..] + [day]);
      [days[0]] + SortedInsert(days[1..], day)
  }

  /** The insertion keeps a list ascending when the day is new to it. */
  lemma {:induction false} SortedInsertAscending(days: seq<int>, day: int)
    requires Ascending(days) && day !in days
    ensures Ascending(SortedInsert(days, day))
  {
    if days != [] && day > days[0] {
      var t := SortedInsert(days[1..], day);
      SortedInsertAscending(days[1..], day);
      forall j | 0 <= j < |t| ensures days[0] < t[j] {
        assert t[j] in multiset(days[1..] + [day]);
        if t[j] != day {
          assert t[j] in days[1..];
        }
      }
    }
  }

  /** handleDateSelect on a picked day: a selected day is removed, any other
      is inserted in order. */
  function Toggled(days: seq<int>, day: int): (r: seq<int>)
    ensures forall d :: d in r <==> if d == day then day !in days else d in days
    ensures Ascending(days) ==> Ascending(r)
  {
    if day in days then Without(days, day)
    else
      var r := SortedInsert(days, day);
      assert forall d :: d in r <==> d in multiset(days + [day]);
      assert Ascending(days) ==> Ascending(r) by {
        if Ascending(days) { SortedInsertAscending(days, day); }
      }
      r
  }

  /** An ascending list is fixed by the days it holds. */
  lemma {:induction false} AscendingUnique(a: seq<int>, b: seq<int>)
    requires Ascending(a) && Ascending(b)
    requires forall d :: d in a <==> d in b
    ensures a == b
    decreases |a|
  {
    if b != [] {
      assert b[0] in b;
    }
    if a != [] {
      assert a[0] in a;
      assert b != [];
      assert b[0] in a;
      assert a[0] == b[0];
      forall d ensures d in a[1..] <==> d in b[1..] {
        if d in a[1..] { assert d in a && d != a[0]; }
        if d in b[1..] { assert d in b && d != b[0]; }
      }
      AscendingUnique(a[1..], b[1..]);
      assert a == [a[0]] + a[1..] && b == [b[0]] + b[1..];
    }
  }

  /** Picking the same day twice gives back the list it started from. */
  lemma ToggledTwice(days: seq<int>, day: int)
    requires Ascending(days)
    ensures Toggled(Toggled(days, day), day) == days
  {
    AscendingUnique(Toggled(Toggled(days, day), day), days);
  }

  /** A stored schedule on that day whose recipe type is the same up to
      surrounding blanks and letter case. */
  predicate SameSlot(s: ExistingSchedule, day: int, recipeType: string) {
    DatePart(s.schdDate) == IsoDate(day) && LowerStr(Trim(s.recipeType)) == LowerStr(Trim(recipeType))
  }

  /** checkDuplicate */
  function CheckDuplicate(existing: seq<ExistingSchedule>, day: int, recipeType: string): (b: bool)
    ensures b <==> exists k :: 0 <= k < |existing| && SameSlot(existing[k], day, recipeType)
  {
    Find(existing, (s: ExistingSchedule) => SameSlot(s, day, recipeType)).Some?
  }

  /** `String(selectedRecipe?.recipe_code || "")`: "" for an unknown type,
      a missing code or the code 0, the code's decimal text otherwise. */
  function RecipeCode(options: seq<RecipeTypeOption>, recipeType: string): (code: string)
    ensures code == "" <==>
      match Find(options, (o: RecipeTypeOption) => o.recipeType == recipeType)
      case None => true
      case Some(i) => options[i].recipeCode.None? || options[i].recipeCode.value == 0
  {
    match Find(options, (o: RecipeTypeOption) => o.recipeType == recipeType)
    case None => ""
    case Some(i) =>
      var c := options[i].recipeCode;
      if c.None? || c.value == 0 then ""
      else
        assert Padded(c.value, 0) != "" by {
          if c.value >= 0 { assert |Digits(c.value)| >= 1; }
        }
        Padded(c.value, 0)
  }

  /** What a submission leads to. */
  datatype ScheduleOutcome =
    | NotLoggedIn
    | MissingInput                 // no day picked or no recipe type
    | AlreadyScheduled(day: int)   // the first picked day that is a duplicate
    | Create(requests: seq<ScheduleRequest>)

  /** The create request for a day: dated "yyyy-MM-ddT00:00:00". */
  function RequestFor(recipeType: string, code: string, userName: string): int -> ScheduleRequest {
    (day: int) => ScheduleRequest(IsoDate(day) + "T00:00:00", recipeType, code, userName)
  }

  /** days[i] is the first picked day that is already scheduled. */
  predicate FirstDuplicateAt(existing: seq<ExistingSchedule>, days: seq<int>, recipeType: string, i: int) {
    0 <= i < |days| && CheckDuplicate(existing, days[i], recipeType) &&
    forall k :: 0 <= k < i ==> !CheckDuplicate(existing, days[k], recipeType)
  }

  /** onSubmit's checks, in order, and the creates it sends. */
  function PlanSchedule(user: Option<string>, days: seq<int>, recipeType: string,
                        existing: seq<ExistingSchedule>, options: seq<RecipeTypeOption>): (r: ScheduleOutcome)
    ensures r == NotLoggedIn <==> user.None?
    ensures r == MissingInput <==> user.Some? && (days == [] || recipeType == "")
    ensures r.AlreadyScheduled? ==> exists i :: FirstDuplicateAt(existing, days, recipeType, i) && days[i] == r.day
    ensures r.Create? <==> (user.Some? && days != [] && recipeType != "" &&
      forall k :: 0 <= k < |days| ==> !CheckDuplicate(existing, days[k], recipeType))
    ensures r.Create? ==> |r.requests| == |days|
    ensures r.Create? ==> forall k :: 0 <= k < |days| ==>
      r.requests[k] == ScheduleRequest(IsoDate(days[k]) + "T00:00:00", recipeType,
                                       RecipeCode(options, recipeType), user.value)
  {
    if user.None? then NotLoggedIn
    else if days == [] || recipeType == "" then MissingInput
    else
      match Find(days, (d: int) => CheckDuplicate(existing, d, recipeType))
      case Some(i) => AlreadyScheduled(days[i])
      case None => Create(Map(days, RequestFor(recipeType, RecipeCode(options, recipeType), user.value)))
  }

  /** The stored schedules after every create succeeded: one per picked day,
      appended in order. */
  function AppendCreated(existing: seq<ExistingSchedule>, days: seq<int>, recipeType: string): (r: seq<ExistingSchedule>)
    ensures |r| == |existing| + |days| && r[..|existing|] == existing
    ensures forall k :: 0 <= k < |days| ==>
      r[|existing| + k] == ExistingSchedule(IsoDate(days[k]) + "T00:00:00", recipeType)
  {
    existing + Map(days, (d: int) => ExistingSchedule(IsoDate(d) + "T00:00:00", recipeType))
  }

  /** Once saved, each picked day is a duplicate for that recipe type. */
  lemma CreatedAreDuplicates(existing: seq<ExistingSchedule>, days: seq<int>, recipeType: string, k: nat)
    requires k < |days|
    ensures CheckDuplicate(AppendCreated(existing, days, recipeType), days[k], recipeType)
  {
    var all := AppendCreated(existing, days, recipeType);
    var key := IsoDate(days[k]);
    DatePartOfStamp(key, "00:00:00");
    assert key + "T00:00:00" == key + "T" + "00:00:00";
    assert SameSlot(all[|existing| + k], days[k], recipeType);
  }

  /** Submitting the same days and recipe type again is refused. */
  lemma ResubmitRefused(user: Option<string>, days: seq<int>, recipeType: string,
                        existing: seq<ExistingSchedule>, options: seq<RecipeTypeOption>)
    requires PlanSchedule(user, days, recipeType, existing, options).Create?
    ensures PlanSchedule(user, days, recipeType, AppendCreated(existing, days, recipeType), options).AlreadyScheduled?
  {
    CreatedAreDuplicates(existing, days, recipeType, 0);
  }

  /** The form's state. */
  class ScheduleForm {
    var recipeTypes: seq<RecipeTypeOption>
    var existingSchedules: seq<ExistingSchedule>
    var selectedDates: seq<int>
    var recipeType: string

    /** The picked days are ascending and never repeat. */
    ghost predicate Valid()
      reads this
    {
      Ascending(selectedDates)
    }

    constructor()
      ensures recipeTypes == [] && existingSchedules == [] && selectedDates == [] && recipeType == ""
      ensures Valid()
    {
      recipeTypes := [];
      existingSchedules := [];
      selectedDates := [];
      recipeType := "";
    }

    /** The mount effect: both lists are requested together (`reply` None
        when either call throws); each is taken only from a "success"
        answer that has data. */
    method Load(reply: Option<(Answer<seq<RecipeTypeOption>>, Answer<seq<ExistingSchedule>>)>)
      modifies this
      ensures reply.Some? && reply.value.0.status == "success" && reply.value.0.data.Some? ==>
        recipeTypes == reply.value.0.data.value
      ensures !(reply.Some? && reply.value.0.status == "success" && reply.value.0.data.Some?) ==>
        recipeTypes == old(recipeTypes)
      ensures reply.Some? && reply.value.1.status == "success" && reply.value.1.data.Some? ==>
        existingSchedules == reply.value.1.data.value
      ensures !(reply.Some? && reply.value.1.status == "success" && reply.value.1.data.Some?) ==>
        existingSchedules == old(existingSchedules)
      ensures selectedDates == old(selectedDates) && recipeType == old(recipeType)
    {
      if reply.Some? {
        var (recipes, schedules) := reply.value;
        if recipes.status == "success" && recipes.data.Some? {
          recipeTypes := recipes.data.value;
        }
        if schedules.status == "success" && schedules.data.Some? {
          existingSchedules := schedules.data.value;
        }
      }
    }

    /** handleDateSelect: no day leaves the list as it is. */
    method SelectDate(date: Option<int>)
      requires Valid()
      modifies this
      ensures date.None? ==> selectedDates == old(selectedDates)
      ensures date.Some? ==> selectedDates == Toggled(old(selectedDates), date.value)
      ensures recipeTypes == old(recipeTypes) && existingSchedules == old(existingSchedules)
      ensures recipeType == old(recipeType)
      ensures Valid()
    {
      if date.Some? {
        if date.value in selectedDates {
          selectedDates := Without(selectedDates, date.value);
        } else {
          selectedDates := SortedInsert(selectedDates, date.value);
        }
      }
    }

    /** toggleDate: the chip's remove button. */
    method ToggleDate(day: int)
      requires Valid()
      modifies this
      ensures selectedDates == Without(old(selectedDates), day)
      ensures recipeTypes == old(recipeTypes) && existingSchedules == old(existingSchedules)
      ensures recipeType == old(recipeType)
      ensures Valid()
    {
      selectedDates := Without(selectedDates, day);
    }

    method SetRecipeType(value: string)
      modifies this
      ensures recipeType == value
      ensures selectedDates == old(selectedDates)
      ensures recipeTypes == old(recipeTypes) && existingSchedules == old(existingSchedules)
    {
      recipeType := value;
    }

    /** onSubmit. `statuses` are the create answers, None when a call
        throws. Only when every answer succeeds are the created schedules
        stored and the selection cleared. */
    method Submit(user: Option<string>, statuses: Option<seq<string>>) returns (outcome: ScheduleOutcome)
      requires Valid()
      modifies this
      ensures outcome == PlanSchedule(user, old(selectedDates), old(recipeType), old(existingSchedules), old(recipeTypes))
      ensures outcome.Create? && statuses.Some? && AllSucceeded(statuses.value) ==>
        existingSchedules == AppendCreated(old(existingSchedules), old(selectedDates), old(recipeType)) &&
        selectedDates == [] && recipeType == ""
      ensures !(outcome.Create? && statuses.Some? && AllSucceeded(statuses.value)) ==>
        existingSchedules == old(existingSchedules) && selectedDates == old(selectedDates) &&
        recipeType == old(recipeType)
      ensures recipeTypes == old(recipeTypes)
      ensures Valid()
    {
      outcome := PlanSchedule(user, selectedDates, recipeType, existingSchedules, recipeTypes);
      if outcome.Create? && statuses.Some? && AllSucceeded(statuses.value) {
        existingSchedules := AppendCreated(existingSchedules, selectedDates, recipeType);
        selectedDates := [];
        recipeType := "";
      }
    }
  }
}
