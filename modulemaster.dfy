/** The module-master page: the character filter on its two name inputs,
    the submit check and trimmed request, and the dialog state it resets. */
module ModuleMaster {
  import opened Wrappers
  import opened Text
  import opened Seqs
  import opened Responses

  /** A row of the module list. */
  datatype ModuleRow = ModuleRow(modName: string, subModName: string)

  /** The body of `moduleApi.create`. */
  datatype ModulePayload = ModulePayload(modName: string, subModName: string, createdBy: string)

  /** What the page tells the user. */
  datatype Notice = Validation(message: string) | Success(message: string) | Error(message: string)

  /** The characters `/[^a-zA-Z_ ]/g` does not remove. */
  predicate Allowed(c: char) {
    IsLetter(c) || c == '_' || c == ' '
  }

  predicate Clean(s: string) {
    forall i :: 0 <= i < |s| ==> Allowed(s[i])
  }

  /** handleAlphaOnly: every other character deleted. */
  function AlphaFilter(s: string): (r: string)
    ensures Clean(r) && |r| <= |s|
  {
    Filter(s, Allowed)
  }

  /** A character survives exactly when it was in the input and is allowed. */
  lemma AlphaFilterMembers(s: string)
    ensures forall c :: c in AlphaFilter(s) <==> c in s && Allowed(c)
  {
    FilterMembers(s, Allowed);
  }

  /** A clean string is left as it is. */
  lemma AlphaFilterKeepsClean(s: string)
    requires Clean(s)
    ensures AlphaFilter(s) == s
  {
    FilterAll(s, Allowed);
  }

  lemma AlphaFilterIdempotent(s: string)
    ensures AlphaFilter(AlphaFilter(s)) == AlphaFilter(s)
  {
    AlphaFilterKeepsClean(AlphaFilter(s));
  }

  /** The filter works character by character, so it keeps the order of
      what it keeps: filtering a concatenation filters each part. */
  lemma AlphaFilterConcat(s: string, t: string)
    ensures AlphaFilter(s + t) == AlphaFilter(s) + AlphaFilter(t)
  {
    FilterConcat(s, t, Allowed);
  }

  /** The submit check: both names non-blank once trimmed, then the trimmed
      request. */
  function PlanModule(modName: string, subModName: string, userName: Option<string>): (p: Option<ModulePayload>)
    ensures p.None? <==> Trim(modName) == "" || Trim(subModName) == ""
    ensures p.Some? ==> p.value == ModulePayload(Trim(modName), Trim(subModName), userName.GetOr(""))
  {
    if Trim(modName) == "" || Trim(subModName) == "" then None
    else Some(ModulePayload(Trim(modName), Trim(subModName), userName.GetOr("")))
  }

  /** Only blank names are refused: a name with one non-space character
      passes. */
  lemma BlankRefused(modName: string, subModName: string, userName: Option<string>)
    ensures PlanModule(modName, subModName, userName).None? <==>
      (forall i :: 0 <= i < |modName| ==> IsSpace(modName[i])) ||
      (forall i :: 0 <= i < |subModName| ==> IsSpace(subModName[i]))
  {
    TrimEmptyIff(modName);
    TrimEmptyIff(subModName);
  }

  class ModuleMasterPage {
    var modules: seq<ModuleRow>
    var loading: bool
    var dialogOpen: bool
    var modName: string
    var subModName: string

    /** The inputs hold only allowed characters, at most 50 of them. */
    ghost predicate Valid()
      reads this
    {
      Clean(modName) && Clean(subModName) && |modName| <= 50 && |subModName| <= 50
    }

    constructor()
      ensures Valid()
      ensures modules == [] && loading && !dialogOpen && modName == "" && subModName == ""
    {
      modules, loading, dialogOpen, modName, subModName := [], true, false, "", "";
    }

    /** fetchModules: `reply` None when the call throws. The list is replaced
        only when the answer has data. */
    method Load(reply: Option<Answer<seq<ModuleRow>>>) returns (notice: Option<Notice>)
      modifies this
      ensures !loading
      ensures reply.Some? && reply.value.data.Some? ==> modules == reply.value.data.value
      ensures !(reply.Some? && reply.value.data.Some?) ==> modules == old(modules)
      ensures notice.Some? <==> reply.None?
      ensures notice.Some? ==> notice.value == Error("Failed to load modules.")
      ensures dialogOpen == old(dialogOpen) && modName == old(modName) && subModName == old(subModName)
    {
      notice := None;
      match reply {
        case Some(answer) =>
          if answer.data.Some? {
            modules := answer.data.value;
          }
        case None =>
          notice := Some(Error("Failed to load modules."));
      }
      loading := false;
    }

    method OpenDialog()
      modifies this
      ensures dialogOpen
      ensures modules == old(modules) && loading == old(loading)
      ensures modName == old(modName) && subModName == old(subModName)
    {
      dialogOpen := true;
    }

    /** Typing in the module-name input; its maxLength of 50 keeps the
        typed value to 50 characters. */
    method TypeModName(typed: string)
      requires Valid() && |typed| <= 50
      modifies this
      ensures Valid()
      ensures modName == AlphaFilter(typed)
      ensures modules == old(modules) && loading == old(loading) && dialogOpen == old(dialogOpen)
      ensures subModName == old(subModName)
    {
      modName := AlphaFilter(typed);
    }

    /** Typing in the sub-module-name input, under the same limit. */
    method TypeSubModName(typed: string)
      requires Valid() && |typed| <= 50
      modifies this
      ensures Valid()
      ensures subModName == AlphaFilter(typed)
      ensures modules == old(modules) && loading == old(loading) && dialogOpen == old(dialogOpen)
      ensures modName == old(modName)
    {
      subModName := AlphaFilter(typed);
    }

    /** handleSubmit. `reply` is the create answer and `refreshed` the answer
        of the list reload that follows a success; each is used only when
        that call is made. `sent` is the create request, `reloadNotice` what
        the reload reports. */
    method Submit(userName: Option<string>, reply: Reply, refreshed: Option<Answer<seq<ModuleRow>>>)
      returns (sent: Option<ModulePayload>, notice: Notice, reloadNotice: Option<Notice>)
      requires Valid()
      modifies this
      ensures Valid()
      ensures sent == PlanModule(old(modName), old(subModName), userName)
      ensures PlanModule(old(modName), old(subModName), userName).None? ==>
        notice == Validation("Both fields are required.") && reloadNotice.None? &&
        modules == old(modules) && loading == old(loading) && dialogOpen == old(dialogOpen) &&
        modName == old(modName) && subModName == old(subModName)
      ensures PlanModule(old(modName), old(subModName), userName).Some? && reply.Replied? && Succeeded(reply.status) ==>
        notice == Success("Module added successfully.") &&
        modName == "" && subModName == "" && !dialogOpen && !loading &&
        (refreshed.Some? && refreshed.value.data.Some? ==> modules == refreshed.value.data.value) &&
        (!(refreshed.Some? && refreshed.value.data.Some?) ==> modules == old(modules)) &&
        (reloadNotice.Some? <==> refreshed.None?)
      ensures PlanModule(old(modName), old(subModName), userName).Some? && reply.Replied? && !Succeeded(reply.status) ==>
        notice == Error(MessageOr(reply.message, "Failed to add module.")) && reloadNotice.None? &&
        modules == old(modules) && loading == old(loading) && dialogOpen == old(dialogOpen) &&
        modName == old(modName) && subModName == old(subModName)
      ensures PlanModule(old(modName), old(subModName), userName).Some? && reply.Threw? ==>
        notice == Error("Failed to save module.") && reloadNotice.None? &&
        modules == old(modules) && loading == old(loading) && dialogOpen == old(dialogOpen) &&
        modName == old(modName) && subModName == old(subModName)
    {
      reloadNotice := None;
      sent := PlanModule(modName, subModName, userName);
      if sent.None? {
        notice := Validation("Both fields are required.");
        return;
      }
      match reply
      case Replied(status, message) =>
        if Succeeded(status) {
          notice := Success("Module added successfully.");
          modName, subModName, dialogOpen := "", "", false;
          reloadNotice := Load(refreshed);
        } else {
          notice := Error(MessageOr(message, "Failed to add module."));
        }
      case Threw =>
        notice := Error("Failed to save module.");
    }
  }
}
