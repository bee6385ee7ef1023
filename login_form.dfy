/** The sign-in form: the checks of its schema and the two values it passes to
    `login`. The email format check of the schema library is a parameter
    `isEmail`. */
module LoginForm {
  import opened Base
  import opened Validation
  import Records
  import Replies
  import Accounts

  /** What the form holds when it is submitted; the remember-me box is optional. */
  datatype Values = Values(email: string, password: string, rememberMe: Option<bool>)

  datatype Field = Email | Password | RememberMe

  const InvalidEmail: string := "Please enter a valid email address"
  const PasswordTooShort: string := "Password must be at least 6 characters"

  /** The schema's issues, in the order it lists the fields. The remember-me box
      has no check of its own. */
  function Issues(v: Values, isEmail: string -> bool): (issues: seq<Issue<Field>>)
    ensures issues == [] <==> isEmail(v.email) && MinLength(v.password, 6)
    ensures Issue(Email, InvalidEmail) in issues <==> !isEmail(v.email)
    ensures Issue(Password, PasswordTooShort) in issues <==> |v.password| < 6
    ensures forall i :: 0 <= i < |issues| ==> issues[i].path != RememberMe
  {
    (if isEmail(v.email) then [] else [Issue(Email, InvalidEmail)])
    + (if MinLength(v.password, 6) then [] else [Issue(Password, PasswordTooShort)])
  }

  /** The remember-me box, ticked, unticked or absent, never changes the issues. */
  lemma RememberMeNeverChecked(v: Values, rememberMe: Option<bool>, isEmail: string -> bool)
    ensures Issues(v.(rememberMe := rememberMe), isEmail) == Issues(v, isEmail)
  {
  }

  /** Submitting: `login(email, password)` is called only when the schema
      reports nothing, and with those two values only. */
  function Submit(v: Values, isEmail: string -> bool): (r: Option<(string, string)>)
    ensures r.Some? <==> isEmail(v.email) && |v.password| >= 6
    ensures r.Some? ==> r.value.0 == v.email && r.value.1 == v.password
  {
    if Issues(v, isEmail) == [] then Some((v.email, v.password)) else None
  }

  /** What is passed to `login` does not depend on the remember-me box. */
  lemma SubmitIgnoresRememberMe(v: Values, rememberMe: Option<bool>, isEmail: string -> bool)
    ensures Submit(v.(rememberMe := rememberMe), isEmail) == Submit(v, isEmail)
  {
  }

  /** When the email format rejects the empty string, a submitted form is never
      refused by the server for a missing email or password. */
  lemma SubmittedLoginNotMissing(v: Values, isEmail: string -> bool, found: Option<Records.User>)
    requires !isEmail("")
    requires Submit(v, isEmail).Some?
    ensures var (email, password) := Submit(v, isEmail).value;
            Accounts.LoginRefusal(found, email, password) != Some(Replies.Fail(400, "Email and password are required"))
  {
    var (email, password) := Submit(v, isEmail).value;
    assert email != "" && password != "";
  }
}
