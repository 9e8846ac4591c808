/** The Food Allocation page: for a chosen date it loads the recipes, the
    per-mosque requirements and the available quantity, shows the balance
    left after the quantity being typed, and saves one allocation at a time,
    carrying the balance over to the next one. */
module FoodAllocation {
  import opened Wrappers
  import opened Numbers
  import opened Quantities
  import opened Calendar
  import opened Seqs
  import opened Responses

  datatype RecipeInfo = RecipeInfo(recipeType: string, recipeCode: string)

  /** A recipe as the schedule answer lists it: a bare name, or an object. */
  datatype RecipeEntry = Named(name: string) | Described(info: RecipeInfo)

  /** A mosque's requirement with its quantity already read as a number. */
  datatype MasjidRequirement = MasjidRequirement(masjidName: string, reqQty: real)

  /** A requirement as the schedule answer lists it, quantity as text. */
  datatype RequirementEntry = RequirementEntry(masjidName: string, reqQty: string)

  /** The `data` of a successful schedule answer (`recipes` and
      `requirements`, each [] when absent). */
  datatype ScheduleData = ScheduleData(recipes: seq<RecipeEntry>, requirements: seq<RequirementEntry>)

  /** The `data` of the available-quantity answer: an object with the fields
      `avbl_qty` and `available_qty` ("" where absent or falsy), or a bare
      value. */
  datatype AvailData = Fields(avblQty: string, availableQty: string) | Bare(text: string)

  /** The read-only "Required Qty" field: empty, or the number it shows. */
  datatype ReqField = Blank | Shown(qty: real)

  /** The body of `allocationApi.create`. */
  datatype Allocation = Allocation(
    allocDate: string, masjidName: string, reqQty: ReqField, avblQty: real,
    allocQty: string, createdBy: string, recipeType: string, recipeCode: string)

  /** `Number(allocQty) || 0` */
  function AllocNumber(s: string): real {
    OrZero(ToNumber(s))
  }

  /** `typeof r === "string" ? { recipe_type: r, recipe_code: r } : r` */
  function RecipeOf(r: RecipeEntry): (info: RecipeInfo)
    ensures r.Named? ==> info.recipeType == r.name && info.recipeCode == r.name
    ensures r.Described? ==> info == r.info
  {
    match r
    case Named(n) => RecipeInfo(n, n)
    case Described(i) => i
  }

  /** A requirement with its quantity read by `Number(r.req_qty) || 0`. */
  function RequirementOf(r: RequirementEntry): (m: MasjidRequirement)
    ensures m.masjidName == r.masjidName
    ensures ToNumber(r.reqQty).Some? ==> m.reqQty == ToNumber(r.reqQty).value
    ensures ToNumber(r.reqQty).None? ==> m.reqQty == 0.0
  {
    MasjidRequirement(r.masjidName, OrZero(ToNumber(r.reqQty)))
  }

  /** `Number(data.avbl_qty || data.available_qty || data) || 0`; an object
      with neither field reads as NaN, so as 0. */
  function AvailableOf(d: AvailData): (qty: real)
    ensures d.Fields? && d.avblQty != "" ==> qty == AllocNumber(d.avblQty)
    ensures d.Fields? && d.avblQty == "" && d.availableQty != "" ==> qty == AllocNumber(d.availableQty)
    ensures d.Fields? && d.avblQty == "" && d.availableQty == "" ==> qty == 0.0
    ensures d.Bare? ==> qty == AllocNumber(d.text)
  {
    match d
    case Fields(a, b) => if a != "" then AllocNumber(a) else if b != "" then AllocNumber(b) else 0.0
    case Bare(t) => AllocNumber(t)
  }

  /** `masjidRequirements.find(m => m.masjid_name === name)`, as an index. */
  function FindRequirement(reqs: seq<MasjidRequirement>, name: string): (r: Option<nat>)
    ensures r.Some? ==> r.value < |reqs| && reqs[r.value].masjidName == name
    ensures r.Some? ==> forall k :: 0 <= k < r.value ==> reqs[k].masjidName != name
    ensures r.None? <==> forall k :: 0 <= k < |reqs| ==> reqs[k].masjidName != name
  {
    Find(reqs, (m: MasjidRequirement) => m.masjidName == name)
  }

  /** The required quantity shown for a mosque: blank with no mosque, the
      quantity of the first requirement of that name, 0 when there is none. */
  function ReqQtyFor(masjid: string, reqs: seq<MasjidRequirement>): (r: ReqField)
    ensures r.Blank? <==> masjid == ""
    ensures masjid != "" && FindRequirement(reqs, masjid).Some? ==>
      r == Shown(reqs[FindRequirement(reqs, masjid).value].reqQty)
    ensures masjid != "" && FindRequirement(reqs, masjid).None? ==> r == Shown(0.0)
  {
    if masjid == "" then Blank
    else
      match FindRequirement(reqs, masjid)
      case Some(i) => Shown(reqs[i].reqQty)
      case None => Shown(0.0)
  }

  /** A mosque that is listed gets the quantity of its first listing. */
  lemma ReqQtyOfListed(masjid: string, reqs: seq<MasjidRequirement>, i: nat)
    requires masjid != "" && i < |reqs| && reqs[i].masjidName == masjid
    requires forall k :: 0 <= k < i ==> reqs[k].masjidName != masjid
    ensures ReqQtyFor(masjid, reqs) == Shown(reqs[i].reqQty)
  {
    var f := FindRequirement(reqs, masjid);
    assert f.Some?;
    assert !(f.value < i) && !(i < f.value);
  }

  /** The allocation handleSubmit would post, or None when the date, the
      mosque or the quantity to allocate is missing. */
  function AllocationFor(date: Option<int>, masjid: string, reqQty: ReqField, balance: real,
                         allocQty: string, recipes: seq<RecipeInfo>, userName: Option<string>): (a: Option<Allocation>)
    ensures a.Some? <==> date.Some? && masjid != "" && allocQty != ""
    ensures a.Some? ==>
      a.value.allocDate == IsoDate(date.value) + "T00:00:00" &&
      a.value.masjidName == masjid && a.value.reqQty == reqQty &&
      a.value.avblQty == balance && a.value.allocQty == allocQty &&
      a.value.createdBy == userName.GetOr("") &&
      (recipes == [] ==> a.value.recipeType == "" && a.value.recipeCode == "") &&
      (recipes != [] ==> a.value.recipeType == recipes[0].recipeType && a.value.recipeCode == recipes[0].recipeCode)
  {
    if date.None? || masjid == "" || allocQty == "" then None
    else
      var recipe := if recipes != [] then recipes[0] else RecipeInfo("", "");
      Some(Allocation(IsoDate(date.value) + "T00:00:00", masjid, reqQty, balance, allocQty,
                      userName.GetOr(""), recipe.recipeType, recipe.recipeCode))
  }

  /** The balance never decides whether an allocation is posted: a negative
      balance is shown in red but does not block the save. */
  lemma BalanceDoesNotBlock(date: Option<int>, masjid: string, reqQty: ReqField, b1: real, b2: real,
                            allocQty: string, recipes: seq<RecipeInfo>, userName: Option<string>)
    requires b1 < 0.0 <= b2
    ensures AllocationFor(date, masjid, reqQty, b1, allocQty, recipes, userName).Some? <==>
            AllocationFor(date, masjid, reqQty, b2, allocQty, recipes, userName).Some?
  {
  }

  /** The available quantity after one save of `alloc`. */
  function Saved(available: real, alloc: string): real {
    available - AllocNumber(alloc)
  }

  /** The available quantity after saving each of `allocs` in turn. */
  function Carry(start: real, allocs: seq<string>): real
    decreases |allocs|
  {
    if allocs == [] then start else Carry(Saved(start, allocs[0]), allocs[1..])
  }

  /** After k saves the available quantity is the start less the sum of
      what was allocated. */
  lemma {:induction false} CarryIsStartLessSum(start: real, allocs: seq<string>)
    ensures Carry(start, allocs) == start - Sum(allocs, AllocNumber)
    decreases |allocs|
  {
    if allocs != [] {
      CarryIsStartLessSum(Saved(start, allocs[0]), allocs[1..]);
    }
  }

  /** Both requests returned and the schedule answer succeeded with data. */
  predicate ScheduleApplies(schedule: Option<Answer<ScheduleData>>, avail: Option<Answer<AvailData>>) {
    schedule.Some? && avail.Some? && schedule.value.status == "success" && schedule.value.data.Some?
  }

  /** Both requests returned and the available-quantity answer succeeded
      with data. */
  predicate AvailApplies(schedule: Option<Answer<ScheduleData>>, avail: Option<Answer<AvailData>>) {
    schedule.Some? && avail.Some? && avail.value.status == "success" && avail.value.data.Some?
  }

  /** The page's state. The effects that follow a state change (the
      required quantity follows the mosque and the requirements; the
      balance follows the typed quantity and the available quantity) are
      folded into the methods that cause them. */
  class AllocationForm {
    var selectedDate: Option<int>
    var recipes: seq<RecipeInfo>
    var masjidRequirements: seq<MasjidRequirement>
    var availableQty: real
    var currentAvailableQty: real
    var selectedMasjid: string
    var reqQty: ReqField
    var allocQty: string

    /** The shown balance is the available quantity less the typed one. */
    predicate Balanced()
      reads this
    {
      currentAvailableQty == availableQty - AllocNumber(allocQty)
    }

    /** The required quantity shown belongs to the selected mosque. */
    predicate ShowsRequirement()
      reads this
    {
      reqQty == ReqQtyFor(selectedMasjid, masjidRequirements)
    }

    constructor()
      ensures selectedDate == None && recipes == [] && masjidRequirements == []
      ensures availableQty == 0.0 && currentAvailableQty == 0.0
      ensures selectedMasjid == "" && reqQty == Blank && allocQty == ""
      ensures Balanced() && ShowsRequirement()
    {
      selectedDate := None;
      recipes := [];
      masjidRequirements := [];
      availableQty := 0.0;
      currentAvailableQty := 0.0;
      selectedMasjid := "";
      reqQty := Blank;
      allocQty := "";
    }

    /** Picking a date (or clearing it, None). `schedule` and `avail` are the
        two answers for the date, None when the joint request throws, in
        which case neither is applied. A clearing resets everything. A
        successful available-quantity answer sets both quantities; the
        balance effect then re-runs only if the available quantity changed. */
    method SelectDate(date: Option<int>, schedule: Option<Answer<ScheduleData>>, avail: Option<Answer<AvailData>>)
      modifies this
      ensures selectedDate == date
      ensures date.None? ==>
        recipes == [] && masjidRequirements == [] && availableQty == 0.0 &&
        currentAvailableQty == 0.0 && selectedMasjid == "" && reqQty == Blank && allocQty == ""
      ensures date.Some? ==> selectedMasjid == old(selectedMasjid) && allocQty == old(allocQty)
      ensures date.Some? && ScheduleApplies(schedule, avail) ==>
        recipes == Map(schedule.value.data.value.recipes, RecipeOf) &&
        masjidRequirements == Map(schedule.value.data.value.requirements, RequirementOf)
      ensures date.Some? && !ScheduleApplies(schedule, avail) ==>
        recipes == old(recipes) && masjidRequirements == old(masjidRequirements)
      ensures date.Some? && AvailApplies(schedule, avail) ==>
        var qty := AvailableOf(avail.value.data.value);
        availableQty == qty &&
        currentAvailableQty == (if qty != old(availableQty) then qty - AllocNumber(allocQty) else qty)
      ensures date.Some? && !AvailApplies(schedule, avail) ==>
        availableQty == old(availableQty) && currentAvailableQty == old(currentAvailableQty)
      ensures old(ShowsRequirement()) ==> ShowsRequirement()
    {
      selectedDate := date;
      if date.None? {
        recipes, masjidRequirements := [], [];
        availableQty, currentAvailableQty := 0.0, 0.0;
        selectedMasjid, reqQty, allocQty := "", Blank, "";
        return;
      }
      if schedule.None? || avail.None? {
        return;
      }
      if schedule.value.status == "success" && schedule.value.data.Some? {
        var data := schedule.value.data.value;
        recipes := Map(data.recipes, RecipeOf);
        masjidRequirements := Map(data.requirements, RequirementOf);
        reqQty := ReqQtyFor(selectedMasjid, masjidRequirements);
      }
      if avail.value.status == "success" && avail.value.data.Some? {
        var qty := AvailableOf(avail.value.data.value);
        var changed := qty != availableQty;
        availableQty, currentAvailableQty := qty, qty;
        if changed {
          currentAvailableQty := availableQty - AllocNumber(allocQty);
        }
      }
    }

    /** Choosing a mosque from the list fills in its required quantity. */
    method SelectMasjid(name: string)
      modifies this
      ensures selectedMasjid == name && reqQty == ReqQtyFor(name, masjidRequirements)
      ensures ShowsRequirement()
      ensures selectedDate == old(selectedDate) && recipes == old(recipes)
      ensures masjidRequirements == old(masjidRequirements) && allocQty == old(allocQty)
      ensures availableQty == old(availableQty) && currentAvailableQty == old(currentAvailableQty)
    {
      selectedMasjid := name;
      reqQty := ReqQtyFor(name, masjidRequirements);
    }

    /** Typing the quantity to allocate recomputes the balance. */
    method SetAllocQty(v: string)
      modifies this
      ensures allocQty == v && currentAvailableQty == availableQty - AllocNumber(v)
      ensures Balanced()
      ensures availableQty == old(availableQty) && selectedDate == old(selectedDate)
      ensures recipes == old(recipes) && masjidRequirements == old(masjidRequirements)
      ensures selectedMasjid == old(selectedMasjid) && reqQty == old(reqQty)
    {
      allocQty := v;
      currentAvailableQty := availableQty - AllocNumber(v);
    }

    /** handleSubmit. `userName` is the signed-in user's name, `created`
        whether the create call returned rather than threw (its answer is
        not inspected). On a save the balance becomes the available
        quantity and the form fields are cleared. */
    method Submit(userName: Option<string>, created: bool) returns (sent: Option<Allocation>)
      modifies this
      ensures sent == AllocationFor(old(selectedDate), old(selectedMasjid), old(reqQty),
                                    old(currentAvailableQty), old(allocQty), old(recipes), userName)
      ensures sent.Some? && created ==>
        availableQty == old(currentAvailableQty) && currentAvailableQty == old(currentAvailableQty) &&
        selectedMasjid == "" && reqQty == Blank && allocQty == ""
      ensures sent.Some? && created && old(Balanced()) ==>
        availableQty == Saved(old(availableQty), old(allocQty)) && Balanced()
      ensures !(sent.Some? && created) ==>
        availableQty == old(availableQty) && currentAvailableQty == old(currentAvailableQty) &&
        selectedMasjid == old(selectedMasjid) && reqQty == old(reqQty) && allocQty == old(allocQty)
      ensures selectedDate == old(selectedDate) && recipes == old(recipes)
      ensures masjidRequirements == old(masjidRequirements)
      ensures old(ShowsRequirement()) ==> ShowsRequirement()
    {
      sent := AllocationFor(selectedDate, selectedMasjid, reqQty, currentAvailableQty, allocQty, recipes, userName);
      if sent.Some? && created {
        availableQty := currentAvailableQty;
        selectedMasjid, reqQty, allocQty := "", Blank, "";
        currentAvailableQty := availableQty - AllocNumber(allocQty);
      }
    }
  }

  /** One more save extends the carry by one step: the available quantity
      Submit leaves is the carry of every quantity saved so far. */
  lemma {:induction false} CarrySnoc(start: real, allocs: seq<string>, a: string)
    ensures Carry(start, allocs + [a]) == Saved(Carry(start, allocs), a)
    decreases |allocs|
  {
    if allocs != [] {
      assert (allocs + [a])[1..] == allocs[1..] + [a];
      CarrySnoc(Saved(start, allocs[0]), allocs[1..], a);
    }
  }
}
