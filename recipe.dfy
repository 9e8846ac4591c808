/** The recipe form: every text field required and bounded in length, the
    required quantity a decimal numeral, and what the page shows for the
    create answer. */
module Recipe {
  import opened Wrappers
  import opened Text
  import opened Responses

  /** The form fields, as typed. */
  datatype RecipeData = RecipeData(recipeName: string, recipeCode: string, recipeType: string, itemName: string,
                                   itemCode: string, catCode: string, unitShort: string, reqQty: string)

  const Blank := RecipeData("", "", "", "", "", "", "", "")

  datatype RecipeField = RecipeName | RecipeCode | RecipeType | ItemName | ItemCode | CatCode | UnitShort | ReqQty

  /** The body of `recipeApi.create`: the fields as typed, and the user. */
  datatype RecipePayload = RecipePayload(data: RecipeData, createdBy: string)

  /** The text of a field. */
  function Value(d: RecipeData, f: RecipeField): string {
    match f
    case RecipeName => d.recipeName
    case RecipeCode => d.recipeCode
    case RecipeType => d.recipeType
    case ItemName => d.itemName
    case ItemCode => d.itemCode
    case CatCode => d.catCode
    case UnitShort => d.unitShort
    case ReqQty => d.reqQty
  }

  /** The `max` of each text field; the quantity has none. */
  function MaxLength(f: RecipeField): Option<nat> {
    match f
    case RecipeName => Some(100)
    case RecipeCode => Some(20)
    case RecipeType => Some(50)
    case ItemName => Some(100)
    case ItemCode => Some(20)
    case CatCode => Some(20)
    case UnitShort => Some(10)
    case ReqQty => None
  }

  /** `/^\d+(\.\d+)?$/`, stated on the shape of the text: digits, or digits,
      a point and digits. */
  predicate IsQuantityText(s: string) {
    (s != [] && AllDigits(s)) ||
    exists i :: 0 < i < |s| - 1 && s[i] == '.' && AllDigits(s[..i]) && AllDigits(s[i + 1..])
  }

  /** How many digits the text starts with. */
  function LeadingDigits(s: string): (n: nat)
    ensures n <= |s| && AllDigits(s[..n])
    ensures n < |s| ==> !IsDigit(s[n])
  {
    if s == [] || !IsDigit(s[0]) then 0
    else
      var n := 1 + LeadingDigits(s[1..]);
      assert s[..n] == [s[0]] + s[1..][..n - 1];
      n
  }

  /** The regular expression as a left-to-right match: the leading digits,
      then either the end or a point followed by digits to the end. */
  function MatchesQuantity(s: string): (b: bool) {
    var n := LeadingDigits(s);
    n >= 1 && (n == |s| || (s[n] == '.' && n + 1 < |s| && AllDigits(s[n + 1..])))
  }

  /** The match accepts exactly the decimal numerals. */
  lemma MatchesQuantityIff(s: string)
    ensures MatchesQuantity(s) <==> IsQuantityText(s)
  {
    var n := LeadingDigits(s);
    if n == |s| {
      assert s[..n] == s;
    }
    if MatchesQuantity(s) && n < |s| {
      assert 0 < n < |s| - 1 && s[n] == '.' && AllDigits(s[..n]) && AllDigits(s[n + 1..]);
    }
    if IsQuantityText(s) && !(s != [] && AllDigits(s)) {
      var i :| 0 < i < |s| - 1 && s[i] == '.' && AllDigits(s[..i]) && AllDigits(s[i + 1..]);
      forall k | 0 <= k < i ensures IsDigit(s[k]) { assert s[k] == s[..i][k]; }
      forall k | 0 <= k < n ensures IsDigit(s[k]) { assert s[k] == s[..n][k]; }
      assert !IsDigit(s[i]);
      assert n == i;
    }
  }

  /** The examples the rule is meant for: "1." and ".5" and "-1" are
      refused, "12.5" and "7" accepted. */
  lemma QuantityExamples()
    ensures !MatchesQuantity("1.") && !MatchesQuantity(".5") && !MatchesQuantity("-1")
    ensures MatchesQuantity("12.5") && MatchesQuantity("7")
  {
    assert LeadingDigits("1.") == 1 by { assert LeadingDigits("1."[1..]) == 0; }
    assert LeadingDigits(".5") == 0;
    assert LeadingDigits("-1") == 0;
    assert LeadingDigits("12.5") == 2 by {
      assert "12.5"[1..] == "2.5" && "2.5"[1..] == ".5";
      assert LeadingDigits(".5") == 0;
    }
    assert "12.5"[3..] == "5";
    assert LeadingDigits("7") == 1 by { assert "7"[1..] == ""; }
  }

  /** A field passes when it is filled in, within its maximum, and for the
      quantity a decimal numeral. */
  predicate FieldValid(d: RecipeData, f: RecipeField) {
    var v := Value(d, f);
    |v| >= 1 &&
    (MaxLength(f).Some? ==> |v| <= MaxLength(f).value) &&
    (f == ReqQty ==> IsQuantityText(v))
  }

  /** The fields the schema refuses. */
  function InvalidFields(d: RecipeData): (fs: set<RecipeField>)
    ensures forall f :: f in fs <==> !FieldValid(d, f)
  {
    MatchesQuantityIff(d.reqQty);
    set f: RecipeField | f in {RecipeName, RecipeCode, RecipeType, ItemName, ItemCode, CatCode, UnitShort, ReqQty} &&
      !(|Value(d, f)| >= 1 && (MaxLength(f).Some? ==> |Value(d, f)| <= MaxLength(f).value) &&
        (f == ReqQty ==> MatchesQuantity(Value(d, f))))
  }

  /** The request onSubmit sends, or the refused fields. */
  function PlanRecipe(d: RecipeData, userName: Option<string>): (r: Result<RecipePayload, set<RecipeField>>)
    ensures r.Ok? <==> forall f :: FieldValid(d, f)
    ensures r.Ok? ==> r.value == RecipePayload(d, userName.GetOr(""))
    ensures r.Err? ==> r.error == InvalidFields(d) && r.error != {}
  {
    var fs := InvalidFields(d);
    if fs == {} then Ok(RecipePayload(d, userName.GetOr(""))) else Err(fs)
  }

  /** What the page shows for the create answer. */
  datatype RecipeOutcome = Created | ErrorShown(message: string)

  function RecipeResult(reply: Reply): (o: RecipeOutcome)
    ensures o == Created <==> reply.Replied? && Succeeded(reply.status)
    ensures reply.Threw? ==> o == ErrorShown("Unable to connect to server")
    ensures reply.Replied? && !Succeeded(reply.status) ==> o == ErrorShown(MessageOr(reply.message, "Failed to create"))
  {
    match reply
    case Threw => ErrorShown("Unable to connect to server")
    case Replied(status, message) =>
      if Succeeded(status) then Created else ErrorShown(MessageOr(message, "Failed to create"))
  }

  /** The form after the answer: reset on success, kept for correction
      otherwise. */
  function FormAfter(d: RecipeData, o: RecipeOutcome): (e: RecipeData)
    ensures o == Created ==> e == Blank
    ensures o != Created ==> e == d
  {
    if o == Created then Blank else d
  }
}
