/** The user-registration page: the field rules of the registration schema,
    with the first message each field shows, and what the page makes of the
    register answer. */
module UserRights {
  import opened Wrappers
  import opened Text
  import opened Seqs
  import opened Responses

  /** The three form fields. */
  datatype Registration = Registration(userName: string, userPwd: string, confirmPwd: string)

  /** The body of `authApi.register`. */
  datatype RegisterRequest = RegisterRequest(userName: string, userCode: string, userPwd: string, roleSelection: string)

  /** The message shown under each field, None when the field passes. */
  datatype FieldErrors = FieldErrors(userName: Option<string>, userPwd: Option<string>, confirmPwd: Option<string>)

  predicate HasDigit(s: string) {
    exists i :: 0 <= i < |s| && IsDigit(s[i])
  }

  predicate IsSpecial(c: char) {
    !IsAlphaNumeric(c)
  }

  predicate HasSpecial(s: string) {
    exists i :: 0 <= i < |s| && IsSpecial(s[i])
  }

  /** `z.string().min(1, ...).max(50, ...)`: the first failing rule's message. */
  function UserNameError(name: string): (e: Option<string>)
    ensures e.None? <==> 1 <= |name| <= 50
    ensures e == Some("Username is required") <==> name == ""
    ensures e == Some("Username too long") <==> |name| > 50
  {
    if |name| < 1 then Some("Username is required")
    else if |name| > 50 then Some("Username too long")
    else None
  }

  /** `/[0-9]/` and `/[^a-zA-Z0-9]/` find a character anywhere. */
  function Matches(s: string, p: char -> bool): (b: bool)
    ensures b <==> exists i :: 0 <= i < |s| && p(s[i])
  {
    Find(s, p).Some?
  }

  /** The password rules in schema order: at least 8 characters, a digit, a
      character that is neither letter nor digit, at most 100 characters. */
  function PasswordError(pwd: string): (e: Option<string>)
    ensures e.None? <==> 8 <= |pwd| <= 100 && HasDigit(pwd) && HasSpecial(pwd)
    ensures e == Some("Password must be at least 8 characters") <==> |pwd| < 8
    ensures e == Some("Password must contain at least 1 number") <==> |pwd| >= 8 && !HasDigit(pwd)
    ensures e == Some("Password must contain at least 1 special character") <==>
      |pwd| >= 8 && HasDigit(pwd) && !HasSpecial(pwd)
    ensures e == Some("Password too long") <==> |pwd| > 100 && HasDigit(pwd) && HasSpecial(pwd)
  {
    if |pwd| < 8 then Some("Password must be at least 8 characters")
    else if !Matches(pwd, IsDigit) then Some("Password must contain at least 1 number")
    else if !Matches(pwd, IsSpecial) then Some("Password must contain at least 1 special character")
    else if |pwd| > 100 then Some("Password too long")
    else None
  }

  /** confirm_pwd must be filled in, and the object-level check that the two
      passwords agree reports its error on confirm_pwd. */
  function ConfirmError(pwd: string, confirm: string): (e: Option<string>)
    ensures e.None? <==> confirm != "" && confirm == pwd
    ensures e == Some("Please confirm your password") <==> confirm == ""
    ensures e == Some("Passwords don't match") <==> confirm != "" && confirm != pwd
  {
    if |confirm| < 1 then Some("Please confirm your password")
    else if pwd != confirm then Some("Passwords don't match")
    else None
  }

  /** The schema check: the request handleRegister sends, or the errors. */
  function Validate(data: Registration): (r: Result<RegisterRequest, FieldErrors>)
    ensures r.Ok? <==> 1 <= |data.userName| <= 50 && 8 <= |data.userPwd| <= 100 &&
                       HasDigit(data.userPwd) && HasSpecial(data.userPwd) && data.confirmPwd == data.userPwd
    ensures r.Ok? ==> r.value == RegisterRequest(data.userName, "", data.userPwd, "")
    ensures r.Err? ==> r.error == FieldErrors(UserNameError(data.userName), PasswordError(data.userPwd),
                                              ConfirmError(data.userPwd, data.confirmPwd))
  {
    var errors := FieldErrors(UserNameError(data.userName), PasswordError(data.userPwd),
                              ConfirmError(data.userPwd, data.confirmPwd));
    if errors.userName.None? && errors.userPwd.None? && errors.confirmPwd.None? then
      Ok(RegisterRequest(data.userName, "", data.userPwd, ""))
    else Err(errors)
  }

  /** What the page does with the register answer. */
  datatype RegisterOutcome =
    | Registered                       // success toast, form reset
    | UserExists                       // "User already exists" under user_name
    | Failed(description: string)      // "Registration failed" toast
    | ConnectionFailed                 // "Unable to connect to server." toast

  /** `message?.toLowerCase().includes(...)` for either phrase. */
  predicate ReportsDuplicate(message: Option<string>) {
    message.Some? &&
    (Contains(LowerStr(message.value), "already exists") || Contains(LowerStr(message.value), "duplicate"))
  }

  function Classify(reply: Reply): (o: RegisterOutcome)
    ensures o == ConnectionFailed <==> reply.Threw?
    ensures o == Registered <==> reply.Replied? && Succeeded(reply.status)
    ensures o == UserExists <==> reply.Replied? && !Succeeded(reply.status) && ReportsDuplicate(reply.message)
    ensures o.Failed? <==> reply.Replied? && !Succeeded(reply.status) && !ReportsDuplicate(reply.message)
    ensures o.Failed? && reply.message.Some? && reply.message.value != "" ==> o.description == reply.message.value
    ensures o.Failed? && (reply.message.None? || reply.message.value == "") ==> o.description == "Unable to register."
  {
    match reply
    case Threw => ConnectionFailed
    case Replied(status, message) =>
      if Succeeded(status) then Registered
      else if ReportsDuplicate(message) then UserExists
      else Failed(MessageOr(message, "Unable to register."))
  }

  /** A message that says "already exists" in any letter case, anywhere in
      it, is a name clash when the status is not a success. */
  lemma ExistsInAnyCase(status: string, pre: string, phrase: string, post: string)
    requires !Succeeded(status) && LowerStr(phrase) == "already exists"
    ensures Classify(Replied(status, Some(pre + phrase + post))) == UserExists
  {
    var m := pre + phrase + post;
    assert LowerStr(m) == LowerStr(pre) + "already exists" + LowerStr(post);
    ContainsInside(LowerStr(pre), "already exists", LowerStr(post));
  }

  /** The form after the answer: cleared on success, kept otherwise. */
  function FormAfter(data: Registration, o: RegisterOutcome): (f: Registration)
    ensures o == Registered ==> f == Registration("", "", "")
    ensures o != Registered ==> f == data
  {
    if o == Registered then Registration("", "", "") else data
  }

  /** The user_name message after the answer. */
  function NameErrorAfter(o: RegisterOutcome): (e: Option<string>)
    ensures e.Some? <==> o == UserExists
    ensures e.Some? ==> e.value == "User already exists"
  {
    if o == UserExists then Some("User already exists") else None
  }
}
