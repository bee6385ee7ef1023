/** What a route answers: a success status with a value, or an error status with
    the JSON body the route sends; and who is calling, as the session middleware
    (`authenticate`, `requireAdmin`) sees it. */
module Replies {
  import opened Base

  /** An error reply: the HTTP status and the JSON body. */
  datatype Refusal = Refusal(code: int, body: map<string, Json>)

  /** `res.status(code).json({ message })`. */
  function Fail(code: int, message: string): (r: Refusal)
    ensures r.code == code && r.body.Keys == {"message"} && r.body["message"] == JStr(message)
  {
    Refusal(code, map["message" := JStr(message)])
  }

  datatype Reply<T> = Ok(code: int, value: T) | Err(refusal: Refusal)

  /** The authenticated user's id and the admin flag of the session, or no session. */
  datatype Session = Anonymous | SignedIn(userId: int, isAdmin: bool)

  const Unauthenticated: Refusal := Fail(401, "Authentication required")
  const AdminRequired: Refusal := Fail(403, "Admin privileges required")
  /** What `handleErrors` answers when a handler throws. */
  const InternalError: Refusal := Fail(500, "Internal server error")

  /** `authenticate` then `requireAdmin`: only a signed-in admin gets through. */
  function AdminGate(s: Session): (r: Option<Refusal>)
    ensures r.None? <==> s.SignedIn? && s.isAdmin
    ensures s.Anonymous? ==> r == Some(Unauthenticated)
    ensures s.SignedIn? && !s.isAdmin ==> r == Some(AdminRequired)
  {
    match s
    case Anonymous => Some(Unauthenticated)
    case SignedIn(_, isAdmin) => if isAdmin then None else Some(AdminRequired)
  }
}
