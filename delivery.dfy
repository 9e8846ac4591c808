/** The Delivery page: for a chosen date it lists the scheduled mosques that
    have not yet had a delivery on that date, prefills the allocated quantity
    of the mosque picked, records one delivery at a time, and shows the
    delivery records sorted by date and optionally narrowed to one date. */
module Delivery {
  import opened Wrappers
  import opened Text
  import opened Numbers
  import opened Quantities
  import opened Seqs
  import opened Sorting
  import opened Responses

  /** A stored delivery. `deliveryDate` is "" where the record has none. */
  datatype DeliveryRecord = DeliveryRecord(location: string, deliveryDate: string, deliveryQty: string, deliveryBy: string)

  /** A requirement as the schedule answer lists it, quantities as text. */
  datatype RequirementEntry = RequirementEntry(masjidName: string, reqQty: string, allocQty: string)

  /** A scheduled mosque with its quantities read as numbers. */
  datatype MasjidInfo = MasjidInfo(masjidName: string, reqQty: real, allocQty: real)

  /** The body of `deliveryApi.create`. */
  datatype DeliveryPayload = DeliveryPayload(location: string, deliveryDate: string, deliveryQty: string, deliveryBy: string)

  /** What the list request's `data` holds: nothing, something that is not
      an array, or an array of records. */
  datatype RecordsData = NoData | NotArray | Listed(records: seq<DeliveryRecord>)

  /** `Number(v) || 0` */
  function NumberOrZero(s: string): real {
    OrZero(ToNumber(s))
  }

  /** A requirement with `req_qty` and `alloc_qty` read by `Number(v) || 0`. */
  function InfoOf(r: RequirementEntry): (m: MasjidInfo)
    ensures m.masjidName == r.masjidName
    ensures ToNumber(r.reqQty).Some? ==> m.reqQty == ToNumber(r.reqQty).value
    ensures ToNumber(r.reqQty).None? ==> m.reqQty == 0.0
    ensures ToNumber(r.allocQty).Some? ==> m.allocQty == ToNumber(r.allocQty).value
    ensures ToNumber(r.allocQty).None? ==> m.allocQty == 0.0
  {
    MasjidInfo(r.masjidName, NumberOrZero(r.reqQty), NumberOrZero(r.allocQty))
  }

  /** The locations with a delivery whose date part is `key`. */
  function DeliveredOn(deliveries: seq<DeliveryRecord>, key: string): set<string> {
    set r | r in deliveries && DatePart(r.deliveryDate) == key :: r.location
  }

  /** The mosques still waiting for a delivery on the day `key`, in the
      order of the schedule. */
  function PendingMosques(requirements: seq<RequirementEntry>, deliveries: seq<DeliveryRecord>, key: string): (r: seq<MasjidInfo>)
    ensures |r| <= |requirements|
  {
    var delivered := DeliveredOn(deliveries, key);
    Filter(Map(requirements, InfoOf), (m: MasjidInfo) => m.masjidName !in delivered)
  }

  /** A mosque is pending exactly when it is scheduled and no delivery to
      it is recorded on that day. */
  lemma PendingMosquesMembers(requirements: seq<RequirementEntry>, deliveries: seq<DeliveryRecord>, key: string, m: MasjidInfo)
    ensures m in PendingMosques(requirements, deliveries, key) <==>
      (exists i :: 0 <= i < |requirements| && InfoOf(requirements[i]) == m) &&
      forall j :: 0 <= j < |deliveries| ==>
        !(deliveries[j].location == m.masjidName && DatePart(deliveries[j].deliveryDate) == key)
  {
    var infos := Map(requirements, InfoOf);
    var delivered := DeliveredOn(deliveries, key);
    var p := (x: MasjidInfo) => x.masjidName !in delivered;
    if m in PendingMosques(requirements, deliveries, key) {
      var k :| 0 <= k < |infos| && infos[k] == m;
    }
    if (exists i :: 0 <= i < |requirements| && InfoOf(requirements[i]) == m) &&
       forall j :: 0 <= j < |deliveries| ==>
         !(deliveries[j].location == m.masjidName && DatePart(deliveries[j].deliveryDate) == key)
    {
      var i :| 0 <= i < |requirements| && InfoOf(requirements[i]) == m;
      assert infos[i] == m;
    }
  }

  /** `masjidList.find(m => m.masjid_name === name)` */
  function FindMasjid(list: seq<MasjidInfo>, name: string): (r: Option<nat>)
    ensures r.Some? ==> r.value < |list| && list[r.value].masjidName == name
    ensures r.Some? ==> forall k :: 0 <= k < r.value ==> list[k].masjidName != name
    ensures r.None? <==> forall k :: 0 <= k < |list| ==> list[k].masjidName != name
  {
    Find(list, (m: MasjidInfo) => m.masjidName == name)
  }

  /** The list entry that a pick from the search list resolves to: the
      first whose name equals the picked value ignoring case. */
  function FindPicked(list: seq<MasjidInfo>, value: string): (r: Option<nat>)
    ensures r.Some? ==> r.value < |list| && LowerStr(list[r.value].masjidName) == LowerStr(value)
    ensures r.Some? ==> forall k :: 0 <= k < r.value ==> LowerStr(list[k].masjidName) != LowerStr(value)
    ensures r.None? <==> forall k :: 0 <= k < |list| ==> LowerStr(list[k].masjidName) != LowerStr(value)
  {
    Find(list, (m: MasjidInfo) => LowerStr(m.masjidName) == LowerStr(value))
  }

  /** What the selection effect sets: the delivery time, the allocated
      quantity and the prefilled delivery quantity. `now` is the clock's
      "HH:mm:ss" and `show` is JavaScript's String(n). */
  datatype Prefilled = Prefilled(deliveryTime: string, allocatedQty: real, deliveryQty: string)

  function Prefill(masjid: string, list: seq<MasjidInfo>, now: string, show: real -> string): (p: Prefilled)
    ensures masjid == "" ==> p == Prefilled("", 0.0, "")
    ensures masjid != "" ==> p.deliveryTime == now
    ensures masjid != "" && FindMasjid(list, masjid).Some? ==>
      p.allocatedQty == list[FindMasjid(list, masjid).value].allocQty
    ensures masjid != "" && FindMasjid(list, masjid).None? ==> p.allocatedQty == 0.0
    ensures p.allocatedQty > 0.0 ==> p.deliveryQty == show(p.allocatedQty)
    ensures p.allocatedQty <= 0.0 ==> p.deliveryQty == ""
  {
    if masjid == "" then Prefilled("", 0.0, "")
    else
      var found := FindMasjid(list, masjid);
      var qty := if found.Some? then list[found.value].allocQty else 0.0;
      Prefilled(now, qty, if qty > 0.0 then show(qty) else "")
  }

  /** The delivery handleSubmit would post, or None when the date, the
      mosque, the quantity or the person is missing. `date` is the
      "yyyy-MM-dd" of the picked day. */
  function DeliveryFor(date: Option<string>, masjid: string, qty: string, person: string): (d: Option<DeliveryPayload>)
    ensures d.Some? <==> date.Some? && masjid != "" && qty != "" && person != ""
    ensures d.Some? ==> d.value == DeliveryPayload(masjid, date.value + "T00:00:00", qty, person)
  {
    if date.None? || masjid == "" || qty == "" || person == "" then None
    else Some(DeliveryPayload(masjid, date.value + "T00:00:00", qty, person))
  }

  /** The ordering key of a record (its date-time text; for stamps of one
      format the text order is the time order). */
  function DateOf(r: DeliveryRecord): string {
    r.deliveryDate
  }

  /** The records shown: with a filter date, exactly those whose date part
      is that date, in the order of the list. */
  function FilterByDate(records: seq<DeliveryRecord>, filterKey: Option<string>): (r: seq<DeliveryRecord>)
    ensures filterKey.None? ==> r == records
  {
    if filterKey.None? then records
    else Filter(records, (d: DeliveryRecord) => DatePart(d.deliveryDate) == filterKey.value)
  }

  /** The date filter keeps exactly the records of that date, and a sorted
      list stays sorted. */
  lemma FilterByDateFacts(records: seq<DeliveryRecord>, key: string, d: DeliveryRecord)
    ensures d in FilterByDate(records, Some(key)) <==> d in records && DatePart(d.deliveryDate) == key
    ensures SortedBy(records, DateOf) ==> SortedBy(FilterByDate(records, Some(key)), DateOf)
  {
    var p := (x: DeliveryRecord) => DatePart(x.deliveryDate) == key;
    if d in records && DatePart(d.deliveryDate) == key {
      var k :| 0 <= k < |records| && records[k] == d;
      assert p(records[k]);
    }
    if d in FilterByDate(records, Some(key)) {
      var k :| 0 <= k < |Filter(records, p)| && Filter(records, p)[k] == d;
    }
    if SortedBy(records, DateOf) {
      FilterSorted(records, DateOf, p);
    }
  }

  class DeliveryPage {
    /** The records as last fetched, sorted by date. */
    var records: seq<DeliveryRecord>
    /** The picked day, as its "yyyy-MM-dd". */
    var selectedDate: Option<string>
    var masjidList: seq<MasjidInfo>
    var selectedMasjid: string
    var allocatedQty: real
    var deliveryTime: string
    var deliveryBy: string
    var deliveryQty: string
    /** Whether the user has typed or picked anything since the last reset. */
    var interacted: bool

    /** The records are kept in date order. */
    predicate Valid()
      reads this
    {
      SortedBy(records, DateOf)
    }

    constructor()
      ensures records == [] && selectedDate == None && masjidList == []
      ensures selectedMasjid == "" && allocatedQty == 0.0
      ensures deliveryTime == "" && deliveryBy == "" && deliveryQty == "" && !interacted
      ensures Valid()
    {
      records := [];
      selectedDate := None;
      masjidList := [];
      selectedMasjid, allocatedQty, deliveryTime, deliveryBy, deliveryQty := "", 0.0, "", "", "";
      interacted := false;
    }

    /** fetchRecords: `reply` is None when the request throws. An array is
        sorted by date; a `data` that is not an array empties the list; no
        `data` leaves it as it was. */
    method FetchRecords(reply: Option<RecordsData>)
      requires Valid()
      modifies this
      ensures Valid()
      ensures reply.Some? && reply.value.Listed? ==> records == SortBy(reply.value.records, DateOf)
      ensures reply.Some? && reply.value.NotArray? ==> records == []
      ensures reply.None? || reply.value.NoData? ==> records == old(records)
      ensures selectedDate == old(selectedDate) && masjidList == old(masjidList)
      ensures selectedMasjid == old(selectedMasjid) && allocatedQty == old(allocatedQty)
      ensures deliveryTime == old(deliveryTime) && deliveryBy == old(deliveryBy)
      ensures deliveryQty == old(deliveryQty) && interacted == old(interacted)
    {
      if reply.Some? {
        match reply.value
        case Listed(raw) => records := SortBy(raw, DateOf);
        case NotArray => records := [];
        case NoData =>
      }
    }

    /** resetFormFields */
    method ResetFormFields()
      modifies this
      ensures selectedMasjid == "" && allocatedQty == 0.0 && deliveryTime == ""
      ensures deliveryBy == "" && deliveryQty == "" && !interacted
      ensures records == old(records) && selectedDate == old(selectedDate) && masjidList == old(masjidList)
    {
      selectedMasjid, allocatedQty, deliveryTime, deliveryBy, deliveryQty := "", 0.0, "", "", "";
      interacted := false;
    }

    /** Clearing the date empties the mosque list and resets the form. */
    method ClearDate()
      modifies this
      ensures selectedDate == None && masjidList == [] && records == old(records)
      ensures selectedMasjid == "" && allocatedQty == 0.0 && deliveryTime == ""
      ensures deliveryBy == "" && deliveryQty == "" && !interacted
    {
      selectedDate := None;
      masjidList := [];
      ResetFormFields();
    }

    /** Picking the day whose "yyyy-MM-dd" is `date`. `schedule` and `all` are the two answers for
        it, None when the joint request throws, in which case nothing else
        changes. The pick itself marks the form as touched. A new mosque
        list re-runs the selection effect at time `now`. */
    method SelectDate(date: string, schedule: Option<Answer<seq<RequirementEntry>>>,
                      all: Option<RecordsData>, now: string, show: real -> string)
      modifies this
      ensures selectedDate == Some(date) && records == old(records)
      ensures schedule.None? || all.None? ==>
        masjidList == old(masjidList) && allocatedQty == old(allocatedQty) &&
        deliveryTime == old(deliveryTime) && deliveryQty == old(deliveryQty)
      ensures schedule.Some? && all.Some? ==>
        masjidList == ScheduledList(schedule.value, all.value, date) &&
        Prefilled(deliveryTime, allocatedQty, deliveryQty) == Prefill(selectedMasjid, masjidList, now, show)
      ensures selectedMasjid == old(selectedMasjid) && deliveryBy == old(deliveryBy) && interacted
    {
      selectedDate := Some(date);
      interacted := true;
      if schedule.Some? && all.Some? {
        ShowList(ScheduledList(schedule.value, all.value, date), now, show);
      }
    }

    /** A new mosque list, and the selection effect it re-runs. */
    method ShowList(list: seq<MasjidInfo>, now: string, show: real -> string)
      modifies this
      ensures masjidList == list
      ensures Prefilled(deliveryTime, allocatedQty, deliveryQty) == Prefill(selectedMasjid, list, now, show)
      ensures records == old(records) && selectedDate == old(selectedDate)
      ensures selectedMasjid == old(selectedMasjid) && deliveryBy == old(deliveryBy) && interacted == old(interacted)
    {
      masjidList := list;
      var p := Prefill(selectedMasjid, list, now, show);
      deliveryTime, allocatedQty, deliveryQty := p.deliveryTime, p.allocatedQty, p.deliveryQty;
    }

    /** Picking `value` from the mosque search list: it resolves to the list
        entry of that name ignoring case, if any. A change of mosque re-runs
        the selection effect at time `now`; picking the mosque already
        selected changes nothing. */
    method PickMasjid(value: string, now: string, show: real -> string)
      modifies this
      ensures FindPicked(old(masjidList), value).None? ==>
        selectedMasjid == old(selectedMasjid) && interacted == old(interacted) &&
        allocatedQty == old(allocatedQty) && deliveryTime == old(deliveryTime) && deliveryQty == old(deliveryQty)
      ensures FindPicked(old(masjidList), value).Some? ==>
        selectedMasjid == old(masjidList)[FindPicked(old(masjidList), value).value].masjidName && interacted
      ensures FindPicked(old(masjidList), value).Some? && selectedMasjid != old(selectedMasjid) ==>
        Prefilled(deliveryTime, allocatedQty, deliveryQty) == Prefill(selectedMasjid, masjidList, now, show)
      ensures selectedMasjid == old(selectedMasjid) ==>
        allocatedQty == old(allocatedQty) && deliveryTime == old(deliveryTime) && deliveryQty == old(deliveryQty)
      ensures records == old(records) && selectedDate == old(selectedDate) && masjidList == old(masjidList)
      ensures deliveryBy == old(deliveryBy)
    {
      var found := FindPicked(masjidList, value);
      if found.Some? {
        var name := masjidList[found.value].masjidName;
        var changed := name != selectedMasjid;
        selectedMasjid := name;
        interacted := true;
        if changed {
          var p := Prefill(selectedMasjid, masjidList, now, show);
          deliveryTime, allocatedQty, deliveryQty := p.deliveryTime, p.allocatedQty, p.deliveryQty;
        }
      }
    }

    method SetDeliveryBy(v: string)
      modifies this
      ensures deliveryBy == v && interacted
      ensures records == old(records) && selectedDate == old(selectedDate) && masjidList == old(masjidList)
      ensures selectedMasjid == old(selectedMasjid) && allocatedQty == old(allocatedQty)
      ensures deliveryTime == old(deliveryTime) && deliveryQty == old(deliveryQty)
    {
      deliveryBy := v;
      interacted := true;
    }

    method SetDeliveryQty(v: string)
      modifies this
      ensures deliveryQty == v && interacted
      ensures records == old(records) && selectedDate == old(selectedDate) && masjidList == old(masjidList)
      ensures selectedMasjid == old(selectedMasjid) && allocatedQty == old(allocatedQty)
      ensures deliveryTime == old(deliveryTime) && deliveryBy == old(deliveryBy)
    {
      deliveryQty := v;
      interacted := true;
    }

    /** handleSubmit. `created` is whether the create call returned rather
        than threw (its answer is not inspected); on a save the form is
        reset. */
    method Submit(created: bool) returns (sent: Option<DeliveryPayload>)
      modifies this
      ensures sent == DeliveryFor(old(selectedDate), old(selectedMasjid), old(deliveryQty), old(deliveryBy))
      ensures sent.Some? && created ==>
        selectedMasjid == "" && allocatedQty == 0.0 && deliveryTime == "" &&
        deliveryBy == "" && deliveryQty == "" && !interacted
      ensures !(sent.Some? && created) ==>
        selectedMasjid == old(selectedMasjid) && allocatedQty == old(allocatedQty) &&
        deliveryTime == old(deliveryTime) && deliveryBy == old(deliveryBy) &&
        deliveryQty == old(deliveryQty) && interacted == old(interacted)
      ensures records == old(records) && selectedDate == old(selectedDate) && masjidList == old(masjidList)
    {
      sent := DeliveryFor(selectedDate, selectedMasjid, deliveryQty, deliveryBy);
      if sent.Some? && created {
        ResetFormFields();
      }
    }
  }

  /** The mosque list for the day `key`: the pending mosques of a
      successful schedule answer, none otherwise. */
  function ScheduledList(schedule: Answer<seq<RequirementEntry>>, all: RecordsData, key: string): (list: seq<MasjidInfo>)
    ensures schedule.status == "success" && schedule.data.Some? ==>
      list == PendingMosques(schedule.data.value, DeliveriesOf(all), key)
    ensures !(schedule.status == "success" && schedule.data.Some?) ==> list == []
  {
    if schedule.status == "success" && schedule.data.Some? then
      PendingMosques(schedule.data.value, DeliveriesOf(all), key)
    else []
  }

  /** The deliveries the pending filter consults: the list when it is an
      array, none otherwise. */
  function DeliveriesOf(data: RecordsData): seq<DeliveryRecord> {
    if data.Listed? then data.records else []
  }
}
