/** The supplier form: the field rules of its schema, the refusal of a name
    already stored (ignoring surrounding blanks and letter case), the
    proper-cased request, and the stored-name set that grows with every
    saved supplier. */
module Supplier {
  import opened Wrappers
  import opened Text
  import opened Seqs
  import opened Calendar
  import opened TextUtils
  import opened Responses

  /** The form fields, as typed. */
  datatype SupplierData = SupplierData(supName: string, supAdd: string, supCity: string,
                                       supMobile: string, catCode: string)

  const Blank := SupplierData("", "", "", "", "")

  datatype SupplierField = SupName | SupAdd | SupCity | SupMobile | CatCode

  /** A category option; its code is a number. */
  datatype CategoryOption = CategoryOption(catCode: int, catName: string)

  /** The category answer's `data`: an array of options, or something else. */
  datatype CategoryData = NotArray | Categories(options: seq<CategoryOption>)

  /** The body of `supplierApi.create`. */
  datatype SupplierPayload = SupplierPayload(supName: string, supAdd: string, supCity: string, supMobile: string,
                                             catCode: string, catName: string, createdBy: string)

  /** `/^\d+$/`: one digit or more and nothing else. */
  function IsDigits(s: string): (b: bool)
    ensures b <==> s != [] && AllDigits(s)
  {
    s != [] && Find(s, (c: char) => !IsDigit(c)).None?
  }

  /** The fields the schema refuses. */
  function InvalidFields(d: SupplierData): (fs: set<SupplierField>)
    ensures SupName in fs <==> !(1 <= |d.supName| <= 100)
    ensures SupAdd in fs <==> !(1 <= |d.supAdd| <= 200)
    ensures SupCity in fs <==> !(1 <= |d.supCity| <= 50)
    ensures SupMobile in fs <==> !(10 <= |d.supMobile| <= 15 && AllDigits(d.supMobile))
    ensures CatCode in fs <==> d.catCode == ""
  {
    (if 1 <= |d.supName| <= 100 then {} else {SupName}) +
    (if 1 <= |d.supAdd| <= 200 then {} else {SupAdd}) +
    (if 1 <= |d.supCity| <= 50 then {} else {SupCity}) +
    (if 10 <= |d.supMobile| <= 15 && IsDigits(d.supMobile) then {} else {SupMobile}) +
    (if |d.catCode| >= 1 then {} else {CatCode})
  }

  /** The stored-name key of a name. */
  function NameKey(name: string): string {
    LowerStr(Trim(name))
  }

  /** A category's code as the select writes it, `String(cat_code)`. */
  function CodeText(c: CategoryOption): string {
    Padded(c.catCode, 0)
  }

  /** The name of the first category whose code, as text, is `code`; "" when none has it. */
  function CategoryName(options: seq<CategoryOption>, code: string): (name: string)
    ensures (forall i :: 0 <= i < |options| ==> CodeText(options[i]) != code) ==> name == ""
    ensures forall i :: 0 <= i < |options| && CodeText(options[i]) == code &&
                        (forall k :: 0 <= k < i ==> CodeText(options[k]) != code) ==>
                        name == options[i].catName
  {
    match Find(options, (c: CategoryOption) => CodeText(c) == code)
    case None => ""
    case Some(i) => options[i].catName
  }

  /** The create request: name, address and city trimmed and proper-cased. */
  function PayloadFor(d: SupplierData, options: seq<CategoryOption>, userName: Option<string>): (p: SupplierPayload)
    ensures p.supName == ToProperCase(Trim(d.supName))
    ensures p.supAdd == ToProperCase(Trim(d.supAdd)) && p.supCity == ToProperCase(Trim(d.supCity))
    ensures p.supMobile == d.supMobile && p.catCode == d.catCode
    ensures p.catName == CategoryName(options, d.catCode) && p.createdBy == userName.GetOr("")
  {
    SupplierPayload(ToProperCase(Trim(d.supName)), ToProperCase(Trim(d.supAdd)), ToProperCase(Trim(d.supCity)),
                    d.supMobile, d.catCode, CategoryName(options, d.catCode), userName.GetOr(""))
  }

  /** What a submission leads to before any answer. */
  datatype SupplierPlan =
    | Invalid(fields: set<SupplierField>)
    | AlreadyExists(message: string)
    | Send(payload: SupplierPayload)

  /** The schema first, then the stored-name check, then the request. */
  function PlanSupplier(d: SupplierData, existing: set<string>, options: seq<CategoryOption>,
                        userName: Option<string>): (r: SupplierPlan)
    ensures r.Invalid? <==> InvalidFields(d) != {}
    ensures r.Invalid? ==> r.fields == InvalidFields(d)
    ensures r.AlreadyExists? <==> InvalidFields(d) == {} && NameKey(d.supName) in existing
    ensures r.AlreadyExists? ==> r.message == "Supplier \"" + Trim(d.supName) + "\" already exists"
    ensures r.Send? ==> r.payload == PayloadFor(d, options, userName)
  {
    var fs := InvalidFields(d);
    if fs != {} then Invalid(fs)
    else if NameKey(d.supName) in existing then AlreadyExists("Supplier \"" + Trim(d.supName) + "\" already exists")
    else Send(PayloadFor(d, options, userName))
  }

  /** A supplier once saved is refused when the same form is sent again. */
  lemma ResubmitRefused(d: SupplierData, existing: set<string>, options: seq<CategoryOption>, userName: Option<string>)
    requires PlanSupplier(d, existing, options, userName).Send?
    ensures PlanSupplier(d, existing + {NameKey(d.supName)}, options, userName).AlreadyExists?
  {
  }

  /** The stored names of the supplier answer: each present `sup_name`
      lower-cased. */
  function StoredNames(names: seq<Option<string>>): (s: set<string>)
    ensures forall n :: n in s <==> exists k :: 0 <= k < |names| && names[k].Some? && LowerStr(names[k].value) == n
  {
    set k | 0 <= k < |names| && names[k].Some? :: LowerStr(names[k].value)
  }

  class SupplierForm {
    var values: SupplierData
    var existingNames: set<string>
    var categories: seq<CategoryOption>
    /** The message shown above the form. */
    var error: Option<string>

    constructor()
      ensures values == Blank && existingNames == {} && categories == [] && error == None
    {
      values, existingNames, categories, error := Blank, {}, [], None;
    }

    /** The mount effect: suppliers and categories requested together
        (`reply` None when either throws). */
    method Load(reply: Option<(Answer<seq<Option<string>>>, Answer<CategoryData>)>)
      modifies this
      ensures reply.Some? && Succeeded(reply.value.0.status) ==>
        existingNames == StoredNames(reply.value.0.data.GetOr([]))
      ensures !(reply.Some? && Succeeded(reply.value.0.status)) ==> existingNames == old(existingNames)
      ensures reply.Some? && Succeeded(reply.value.1.status) && reply.value.1.data.Some? ==>
        categories == (match reply.value.1.data.value case NotArray => [] case Categories(cs) => cs)
      ensures !(reply.Some? && Succeeded(reply.value.1.status) && reply.value.1.data.Some?) ==>
        categories == old(categories)
      ensures values == old(values) && error == old(error)
    {
      if reply.Some? {
        var (suppliers, cats) := reply.value;
        if Succeeded(suppliers.status) {
          existingNames := StoredNames(suppliers.data.GetOr([]));
        }
        if Succeeded(cats.status) && cats.data.Some? {
          categories := match cats.data.value case NotArray => [] case Categories(cs) => cs;
        }
      }
    }

    method Edit(d: SupplierData)
      modifies this
      ensures values == d
      ensures existingNames == old(existingNames) && categories == old(categories) && error == old(error)
    {
      values := d;
    }

    /** The submit button. `reply` is the create answer, used only when the
        request is sent. On success the name is stored and the form reset. */
    method Submit(userName: Option<string>, reply: Reply) returns (plan: SupplierPlan)
      modifies this
      ensures plan == PlanSupplier(old(values), old(existingNames), old(categories), userName)
      ensures categories == old(categories)
      ensures plan.Invalid? ==> values == old(values) && existingNames == old(existingNames) && error == old(error)
      ensures plan.AlreadyExists? ==>
        values == old(values) && existingNames == old(existingNames) && error == Some(plan.message)
      ensures plan.Send? && reply.Replied? && Succeeded(reply.status) ==>
        existingNames == old(existingNames) + {NameKey(old(values).supName)} && values == Blank && error == None
      ensures plan.Send? && reply.Replied? && !Succeeded(reply.status) ==>
        existingNames == old(existingNames) && values == old(values) &&
        error == Some(MessageOr(reply.message, "Failed to create"))
      ensures plan.Send? && reply.Threw? ==>
        existingNames == old(existingNames) && values == old(values) && error == Some("Unable to connect to server")
    {
      plan := PlanSupplier(values, existingNames, categories, userName);
      match plan
      case Invalid(_) =>
      case AlreadyExists(message) =>
        error := Some(message);
      case Send(_) =>
        error := None;
        match reply
        case Replied(status, message) =>
          if Succeeded(status) {
            existingNames := existingNames + {NameKey(values.supName)};
            values := Blank;
          } else {
            error := Some(MessageOr(message, "Failed to create"));
          }
        case Threw =>
          error := Some("Unable to connect to server");
    }
  }
}
