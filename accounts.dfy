/** The decisions of the account routes, as functions of what the route has read:
    who may register (unique email and username, a referral code that is the
    ADMIN_CODE setting or some user's code), who may sign in (the simulated
    `hashed_` credential and the ban flag), and who may submit KYC documents
    (one record per user). */
module Accounts {
  import opened Base
  import opened Text
  import opened Records
  import opened Replies

  /** The fields of a registration that the routes act on. */
  datatype NewUser = NewUser(
    email: string,
    username: string,
    password: string,
    fullName: string,
    referredBy: Option<string>)

  predicate EmailTaken(users: map<int, User>, email: string)
  {
    exists id :: id in users && users[id].email == email
  }

  predicate UsernameTaken(users: map<int, User>, username: string)
  {
    exists id :: id in users && users[id].username == username
  }

  predicate ReferralCodeKnown(users: map<int, User>, code: string)
  {
    exists id :: id in users && users[id].referralCode == code
  }

  /** The stored form of a password: "hashed_" followed by it. */
  function Hashed(password: string): (h: string)
    ensures StartsWith(h, "hashed_") && h[7..] == password
  {
    "hashed_" + password
  }

  /** Two passwords are stored alike exactly when they are the same. */
  lemma HashedInjective(p: string, q: string)
    ensures Hashed(p) == Hashed(q) <==> p == q
  {
    if Hashed(p) == Hashed(q) {
      assert p == Hashed(p)[7..] == Hashed(q)[7..] == q;
    }
  }

  /** A referral code is accepted when it equals the ADMIN_CODE setting or some
      user's own code; an empty or absent code is not checked at all. */
  predicate ReferralAccepted(users: map<int, User>, settings: map<string, string>, referredBy: Option<string>)
  {
    referredBy.None? || referredBy.value == ""
    || Lookup(settings, "ADMIN_CODE") == Some(referredBy.value)
    || ReferralCodeKnown(users, referredBy.value)
  }

  /** The checks of POST /auth/register in the order the route makes them. */
  function RegisterRefusal(users: map<int, User>, settings: map<string, string>, input: NewUser): (r: Option<Refusal>)
    ensures r.None? <==> !EmailTaken(users, input.email) && !UsernameTaken(users, input.username)
                         && ReferralAccepted(users, settings, input.referredBy)
    ensures EmailTaken(users, input.email) ==> r == Some(Fail(400, "Email already in use"))
    ensures !EmailTaken(users, input.email) && UsernameTaken(users, input.username)
            ==> r == Some(Fail(400, "Username already taken"))
    ensures r == Some(Fail(400, "Invalid referral code"))
            <==> !EmailTaken(users, input.email) && !UsernameTaken(users, input.username)
                 && input.referredBy.Some? && input.referredBy.value != ""
                 && Lookup(settings, "ADMIN_CODE") != Some(input.referredBy.value)
                 && !ReferralCodeKnown(users, input.referredBy.value)
  {
    if EmailTaken(users, input.email) then Some(Fail(400, "Email already in use"))
    else if UsernameTaken(users, input.username) then Some(Fail(400, "Username already taken"))
    else if !ReferralAccepted(users, settings, input.referredBy) then Some(Fail(400, "Invalid referral code"))
    else None
  }

  /** The row `createUser` writes for a registration: the stored credential, an
      empty balance, no referrals yet, KYC "none", neither admin nor banned. The
      referral code is the one the storage generates for the user. */
  function NewUserRow(id: int, input: NewUser, referralCode: string): (u: User)
    ensures u.id == id && u.email == input.email && u.username == input.username
    ensures u.password == Hashed(input.password) && u.referredBy == input.referredBy
    ensures u.balance == 0 && u.referralCount == 0 && u.kycStatus == "none" && !u.isAdmin && !u.isBanned
  {
    User(id, input.email, input.username, Hashed(input.password), input.fullName, 0,
         referralCode, input.referredBy, 0, "none", false, false)
  }

  const InvalidCredentials: Refusal := Fail(401, "Invalid credentials")

  /** The checks of POST /auth/login, given the user stored under the email (if
      any). An empty email or password counts as missing. */
  function LoginRefusal(found: Option<User>, email: string, password: string): (r: Option<Refusal>)
    ensures r.None? <==> email != "" && password != "" && found.Some?
                         && found.value.password == Hashed(password) && !found.value.isBanned
    ensures email == "" || password == "" ==> r == Some(Fail(400, "Email and password are required"))
    ensures email != "" && password != "" && (found.None? || found.value.password != Hashed(password))
            ==> r == Some(InvalidCredentials)
    ensures r == Some(Fail(403, "Account has been banned"))
            <==> email != "" && password != "" && found.Some?
                 && found.value.password == Hashed(password) && found.value.isBanned
  {
    if email == "" || password == "" then Some(Fail(400, "Email and password are required"))
    else if found.None? then Some(InvalidCredentials)
    else if found.value.password != Hashed(password) then Some(InvalidCredentials)
    else if found.value.isBanned then Some(Fail(403, "Account has been banned"))
    else None
  }

  /** A user just registered with a password signs in with it, unless banned since. */
  lemma RegisteredUserSignsIn(id: int, input: NewUser, referralCode: string)
    requires input.email != "" && input.password != ""
    ensures LoginRefusal(Some(NewUserRow(id, input, referralCode)), input.email, input.password) == None
  {
  }

  /** A password other than the registered one is refused as invalid credentials. */
  lemma WrongPasswordRefused(u: User, email: string, password: string, wrong: string)
    requires email != "" && wrong != "" && u.password == Hashed(password) && wrong != password
    ensures LoginRefusal(Some(u), email, wrong) == Some(InvalidCredentials)
  {
    HashedInjective(password, wrong);
  }

  predicate HasKyc(kycs: map<int, Kyc>, userId: int)
  {
    exists id :: id in kycs && kycs[id].userId == userId
  }

  /** The checks of POST /kyc, given the caller's existing KYC record (if any):
      a second submission is refused and reports the status of the first. */
  function KycRefusal(user: Option<User>, existing: Option<Kyc>): (r: Option<Refusal>)
    ensures r.None? <==> user.Some? && existing.None?
    ensures user.None? ==> r == Some(Fail(404, "User not found"))
    ensures user.Some? && existing.Some?
            ==> r == Some(Refusal(400, map["message" := JStr("KYC already submitted"),
                                           "status" := JStr(existing.value.status)]))
  {
    if user.None? then Some(Fail(404, "User not found"))
    else if existing.Some? then
      Some(Refusal(400, map["message" := JStr("KYC already submitted"), "status" := JStr(existing.value.status)]))
    else None
  }
}
