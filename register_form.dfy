/** The sign-up form: the checks of its schema, the message shown under each
    field, and the payload the form hands to `register` once every check passes.
    The email format check of the schema library is a parameter `isEmail`. */
module RegisterForm {
  import opened Base
  import opened Validation
  import Records
  import Accounts

  /** What the form holds when it is submitted; an untouched optional referral
      code is `None`. */
  datatype Values = Values(
    fullName: string,
    username: string,
    email: string,
    password: string,
    confirmPassword: string,
    referralCode: Option<string>,
    terms: bool)

  /** The fields of the form, as the paths issues are reported on. */
  datatype Field = FullName | Username | Email | Password | ConfirmPassword | ReferralCode | Terms

  const FullNameTooShort: string := "Full name must be at least 2 characters"
  const UsernameTooShort: string := "Username must be at least 3 characters"
  const InvalidEmail: string := "Please enter a valid email address"
  const PasswordTooShort: string := "Password must be at least 6 characters"
  const TermsRequired: string := "You must agree to the terms and privacy policy"
  const PasswordsDiffer: string := "Passwords don't match"

  /** Every check of the schema holds. The referral code is not checked. */
  predicate Acceptable(v: Values, isEmail: string -> bool)
  {
    MinLength(v.fullName, 2) && MinLength(v.username, 3) && isEmail(v.email)
    && MinLength(v.password, 6) && MinLength(v.confirmPassword, 6) && v.terms
    && v.password == v.confirmPassword
  }

  /** The issues of one field check: one issue when it fails, none otherwise. */
  function Check(ok: bool, path: Field, message: string): (issues: seq<Issue<Field>>)
  {
    if ok then [] else [Issue(path, message)]
  }

  /** The field checks in the order the schema lists the fields. */
  function FieldIssues(v: Values, isEmail: string -> bool): seq<Issue<Field>>
  {
    Check(MinLength(v.fullName, 2), FullName, FullNameTooShort)
    + Check(MinLength(v.username, 3), Username, UsernameTooShort)
    + Check(isEmail(v.email), Email, InvalidEmail)
    + Check(MinLength(v.password, 6), Password, PasswordTooShort)
    + Check(MinLength(v.confirmPassword, 6), ConfirmPassword, PasswordTooShort)
    + Check(v.terms, Terms, TermsRequired)
  }

  /** The schema's issues: the field checks, then the object-level refinement,
      which still runs when a field check has failed and reports a password
      mismatch on the `confirmPassword` path. */
  function Issues(v: Values, isEmail: string -> bool): (issues: seq<Issue<Field>>)
    ensures issues == [] <==> Acceptable(v, isEmail)
  {
    FieldIssues(v, isEmail) + Check(v.password == v.confirmPassword, ConfirmPassword, PasswordsDiffer)
  }

  /** The rules of the schema, field by field: which message a field gets when
      which of its rules is broken. */
  predicate Broken(v: Values, isEmail: string -> bool, f: Field, message: string)
  {
    match f
    case FullName => message == FullNameTooShort && |v.fullName| < 2
    case Username => message == UsernameTooShort && |v.username| < 3
    case Email => message == InvalidEmail && !isEmail(v.email)
    case Password => message == PasswordTooShort && |v.password| < 6
    case ConfirmPassword =>
      (message == PasswordTooShort && |v.confirmPassword| < 6)
      || (message == PasswordsDiffer && v.password != v.confirmPassword)
    case ReferralCode => false
    case Terms => message == TermsRequired && !v.terms
  }

  /** The schema reports an issue exactly for each broken rule. */
  lemma IssuesAreBrokenRules(v: Values, isEmail: string -> bool, f: Field, message: string)
    ensures Issue(f, message) in Issues(v, isEmail) <==> Broken(v, isEmail, f, message)
  {
  }

  /** A referral code, present, empty or absent, never decides whether the form
      passes or what it reports. */
  lemma ReferralCodeNeverChecked(v: Values, code: Option<string>, isEmail: string -> bool)
    ensures Issues(v.(referralCode := code), isEmail) == Issues(v, isEmail)
  {
  }

  /** A confirmation that is both too short and different shows the length
      message: the field check comes before the refinement. */
  lemma {:induction false} ShortConfirmationShowsLength(v: Values, isEmail: string -> bool)
    requires |v.confirmPassword| < 6
    ensures FirstMessage(Issues(v, isEmail), ConfirmPassword) == Some(PasswordTooShort)
  {
    var before := Check(MinLength(v.fullName, 2), FullName, FullNameTooShort)
                  + Check(MinLength(v.username, 3), Username, UsernameTooShort)
                  + Check(isEmail(v.email), Email, InvalidEmail)
                  + Check(MinLength(v.password, 6), Password, PasswordTooShort);
    var after := Check(v.terms, Terms, TermsRequired)
                 + Check(v.password == v.confirmPassword, ConfirmPassword, PasswordsDiffer);
    assert Issues(v, isEmail) == before + ([Issue(ConfirmPassword, PasswordTooShort)] + after);
    assert forall i :: 0 <= i < |before| ==> before[i].path != ConfirmPassword;
    assert ([Issue(ConfirmPassword, PasswordTooShort)] + after)[0] == Issue(ConfirmPassword, PasswordTooShort);
    FirstMessageSkips(before, [Issue(ConfirmPassword, PasswordTooShort)] + after, ConfirmPassword);
  }

  /** What `onSubmit` passes to `register`: the form's values without the
      confirmation and the terms box, plus `referredBy`, the referral code or
      undefined when the code is empty. */
  datatype Payload = Payload(
    fullName: string,
    username: string,
    email: string,
    password: string,
    referralCode: Option<string>,
    referredBy: Option<string>)

  function ToPayload(v: Values): (p: Payload)
    ensures p.referredBy.None? <==> v.referralCode.None? || v.referralCode.value == ""
    ensures p.referredBy.Some? ==> p.referredBy == v.referralCode
    ensures p.referralCode == v.referralCode
    ensures p.fullName == v.fullName && p.username == v.username && p.email == v.email && p.password == v.password
  {
    var referredBy := if v.referralCode.Some? && v.referralCode.value != "" then v.referralCode else None;
    Payload(v.fullName, v.username, v.email, v.password, v.referralCode, referredBy)
  }

  /** The payload does not depend on the confirmation or the terms box. */
  lemma PayloadDropsConfirmationAndTerms(v: Values, confirmPassword: string, terms: bool)
    ensures ToPayload(v.(confirmPassword := confirmPassword, terms := terms)) == ToPayload(v)
  {
  }

  /** Submitting: the payload goes out only when the schema reports nothing. */
  function Submit(v: Values, isEmail: string -> bool): (r: Option<Payload>)
    ensures r.Some? <==> Acceptable(v, isEmail)
    ensures r.Some? ==> r.value == ToPayload(v)
  {
    if Issues(v, isEmail) == [] then Some(ToPayload(v)) else None
  }

  /** The registration the server receives from a payload. */
  function AsNewUser(p: Payload): (u: Accounts.NewUser)
    ensures u.email == p.email && u.password == p.password && u.referredBy == p.referredBy
  {
    Accounts.NewUser(p.email, p.username, p.password, p.fullName, p.referredBy)
  }

  /** A submitted form never sends an empty referral code, sends a password the
      server does not treat as missing, and, when the code field was left
      empty, is never refused for its referral code. */
  lemma SubmittedRegistration(v: Values, isEmail: string -> bool, users: map<int, Records.User>,
                              settings: map<string, string>)
    requires Submit(v, isEmail).Some?
    ensures Submit(v, isEmail).value.referredBy != Some("")
    ensures |Submit(v, isEmail).value.password| >= 6 && Submit(v, isEmail).value.password == v.confirmPassword
    ensures v.referralCode.None? || v.referralCode == Some("")
            ==> Accounts.ReferralAccepted(users, settings, AsNewUser(Submit(v, isEmail).value).referredBy)
  {
  }
}
