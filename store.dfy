/** The server routes that change state, as methods of the store they read and
    write. Each method is one request handled start to finish: it makes the
    route's checks in the route's order, and either answers with an error and
    changes nothing, or writes what the route writes and answers with what the
    route sends back. */
module Routes {
  import opened Base
  import opened Text
  import opened Decimal
  import opened Records
  import opened Replies
  import opened Allowlist
  import opened Settlement
  import opened Accounts
  import opened SettingsUpdate
  import opened ChatResponder

  /** Everything the store holds, as one value. */
  datatype Db = Db(
    users: map<int, User>,
    phoneNumbers: map<int, PhoneNumber>,
    orders: map<int, Order>,
    payments: map<int, Payment>,
    kycs: map<int, Kyc>,
    products: map<int, Product>,
    services: map<int, Service>,
    countries: map<int, Country>,
    settings: map<string, string>,
    activities: seq<Activity>,
    chats: seq<AiChat>,
    nextUserId: int,
    nextOrderId: int,
    nextPaymentId: int,
    nextKycId: int)

  /** The reply of POST /orders: the new order and the WhatsApp hand-off. */
  datatype OrderCreated = OrderCreated(order: Order, whatsappRedirect: WhatsappRedirect)

  const NoValidFields: Refusal := Fail(400, "No valid fields to update")
  const StatusRequired: Refusal := Fail(400, "Status field is required")
  const MessageRequired: Refusal := Refusal(400, map["error" := JStr("Message is required")])

  // Every row is stored under its own id; serial ids stay below the next one to hand out.

  predicate UsersKeyed(m: map<int, User>, next: int)
  {
    0 < next && forall id :: id in m ==> 0 < id < next && m[id].id == id
  }
  predicate OrdersKeyed(m: map<int, Order>, next: int)
  {
    0 < next && forall id :: id in m ==> 0 < id < next && m[id].id == id
  }
  predicate PaymentsKeyed(m: map<int, Payment>, next: int)
  {
    0 < next && forall id :: id in m ==> 0 < id < next && m[id].id == id
  }
  predicate KycsKeyed(m: map<int, Kyc>, next: int)
  {
    0 < next && forall id :: id in m ==> 0 < id < next && m[id].id == id
  }
  predicate PhoneNumbersKeyed(m: map<int, PhoneNumber>)
  {
    forall id :: id in m ==> m[id].id == id
  }
  predicate ProductsKeyed(m: map<int, Product>)
  {
    forall id :: id in m ==> m[id].id == id
  }
  predicate ServicesKeyed(m: map<int, Service>)
  {
    forall id :: id in m ==> m[id].id == id
  }
  predicate CountriesKeyed(m: map<int, Country>)
  {
    forall id :: id in m ==> m[id].id == id
  }

  /** Emails and usernames are unique among users. */
  predicate UniqueLogins(users: map<int, User>)
  {
    forall a, b :: a in users && b in users && a != b
      ==> users[a].email != users[b].email && users[a].username != users[b].username
  }

  /** A user has at most one KYC record. */
  predicate OneKycPerUser(kycs: map<int, Kyc>)
  {
    forall a, b :: a in kycs && b in kycs && a != b ==> kycs[a].userId != kycs[b].userId
  }

  /** `getUserByEmail`: the user with that email, if any. */
  ghost function UserWithEmail(users: map<int, User>, email: string): (r: Option<User>)
    ensures r.Some? <==> EmailTaken(users, email)
    ensures r.Some? ==> r.value in users.Values && r.value.email == email
  {
    if EmailTaken(users, email) then
      var id :| id in users && users[id].email == email;
      Some(users[id])
    else None
  }

  /** `getUserKyc`: the KYC record of the user, if any. */
  ghost function KycOf(kycs: map<int, Kyc>, userId: int): (r: Option<Kyc>)
    ensures r.Some? <==> HasKyc(kycs, userId)
    ensures r.Some? ==> r.value in kycs.Values && r.value.userId == userId
  {
    if HasKyc(kycs, userId) then
      var id :| id in kycs && kycs[id].userId == userId;
      Some(kycs[id])
    else None
  }

  /** Writing back a user's row with the same id, email and username keeps the
      table keyed and the logins unique. */
  lemma SameAccount(users: map<int, User>, uid: int, u: User)
    requires uid in users && u.id == users[uid].id
    requires u.email == users[uid].email && u.username == users[uid].username
    ensures forall next :: UsersKeyed(users, next) ==> UsersKeyed(users[uid := u], next)
    ensures UniqueLogins(users) ==> UniqueLogins(users[uid := u])
  {
  }

  /** The invariant of the store: every table keyed by its rows' ids, serial ids
      below the next one to hand out, unique logins, one KYC record per user. */
  ghost predicate Consistent(d: Db)
  {
    UsersKeyed(d.users, d.nextUserId) && OrdersKeyed(d.orders, d.nextOrderId)
    && PaymentsKeyed(d.payments, d.nextPaymentId) && KycsKeyed(d.kycs, d.nextKycId)
    && PhoneNumbersKeyed(d.phoneNumbers) && ProductsKeyed(d.products)
    && ServicesKeyed(d.services) && CountriesKeyed(d.countries)
    && UniqueLogins(d.users) && OneKycPerUser(d.kycs)
  }

  /** The store behind the routes: one map per table, the settings, the activity
      and chat logs, and the serial counters of the tables the routes insert into. */
  class Store {
    var users: map<int, User>
    var phoneNumbers: map<int, PhoneNumber>
    var orders: map<int, Order>
    var payments: map<int, Payment>
    var kycs: map<int, Kyc>
    var products: map<int, Product>
    var services: map<int, Service>
    var countries: map<int, Country>
    var settings: map<string, string>
    var activities: seq<Activity>
    var chats: seq<AiChat>
    var nextUserId: int
    var nextOrderId: int
    var nextPaymentId: int
    var nextKycId: int

    ghost function Snapshot(): Db
      reads this
    {
      Db(users, phoneNumbers, orders, payments, kycs, products, services, countries, settings,
         activities, chats, nextUserId, nextOrderId, nextPaymentId, nextKycId)
    }

    ghost predicate Valid()
      reads this
    {
      Consistent(Snapshot())
    }

    /** An empty store with the given settings. */
    constructor (initialSettings: map<string, string>)
      ensures Valid()
      ensures Snapshot() == Db(map[], map[], map[], map[], map[], map[], map[], map[], initialSettings,
                               [], [], 1, 1, 1, 1)
    {
      users := map[];
      phoneNumbers := map[];
      orders := map[];
      payments := map[];
      kycs := map[];
      products := map[];
      services := map[];
      countries := map[];
      settings := initialSettings;
      activities := [];
      chats := [];
      nextUserId := 1;
      nextOrderId := 1;
      nextPaymentId := 1;
      nextKycId := 1;
    }

    /** `createActivity`: append one entry to the audit trail. */
    method Log(userId: int, action: string, status: string)
      modifies this
      ensures old(Valid()) ==> Valid()
      ensures Snapshot() == old(Snapshot()).(activities := old(activities) + [Activity(userId, action, status)])
    {
      activities := activities + [Activity(userId, action, status)];
    }

    /** `storage.updateUser` with a row that keeps its id, email and username. */
    method WriteUser(u: User)
      requires Valid() && u.id in users
      requires u.email == users[u.id].email && u.username == users[u.id].username
      modifies this
      ensures Valid()
      ensures Snapshot() == old(Snapshot()).(users := old(users)[u.id := u])
    {
      SameAccount(users, u.id, u);
      users := users[u.id := u];
    }

    /** `storage.updatePayment` with a row that keeps its id. */
    method WritePayment(p: Payment)
      requires Valid() && p.id in payments
      modifies this
      ensures Valid()
      ensures Snapshot() == old(Snapshot()).(payments := old(payments)[p.id := p])
    {
      payments := payments[p.id := p];
    }

    /** `storage.createUser`: a new account, with an unused email and username,
        stored under the next user id. */
    method InsertUser(u: User)
      requires Valid() && u.id == nextUserId
      requires !EmailTaken(users, u.email) && !UsernameTaken(users, u.username)
      modifies this
      ensures Valid()
      ensures Snapshot() == old(Snapshot()).(users := old(users)[u.id := u], nextUserId := u.id + 1)
    {
      users := users[u.id := u];
      nextUserId := nextUserId + 1;
    }

    /** `storage.createPayment`: the payment is stored under the next payment id. */
    method InsertPayment(p: Payment)
      requires Valid() && p.id == nextPaymentId
      modifies this
      ensures Valid()
      ensures Snapshot() == old(Snapshot()).(payments := old(payments)[p.id := p], nextPaymentId := p.id + 1)
    {
      payments := payments[p.id := p];
      nextPaymentId := nextPaymentId + 1;
    }

    /** `storage.createKyc`: the first record of its user, stored under the next
        KYC id. */
    method InsertKyc(k: Kyc)
      requires Valid() && k.id == nextKycId && !HasKyc(kycs, k.userId)
      modifies this
      ensures Valid()
      ensures Snapshot() == old(Snapshot()).(kycs := old(kycs)[k.id := k], nextKycId := k.id + 1)
    {
      kycs := kycs[k.id := k];
      nextKycId := nextKycId + 1;
    }

    /** `storage.updateKyc` with a record that keeps its id and its user. */
    method WriteKyc(k: Kyc)
      requires Valid() && k.id in kycs && k.userId == kycs[k.id].userId
      modifies this
      ensures Valid()
      ensures Snapshot() == old(Snapshot()).(kycs := old(kycs)[k.id := k])
    {
      kycs := kycs[k.id := k];
    }

    /** `storage.updateOrder` with a row that keeps its id. */
    method WriteOrder(o: Order)
      requires Valid() && o.id in orders
      modifies this
      ensures Valid()
      ensures Snapshot() == old(Snapshot()).(orders := old(orders)[o.id := o])
    {
      orders := orders[o.id := o];
    }

    /** `storage.updatePhoneNumber` with a row that keeps its id. */
    method WritePhoneNumber(p: PhoneNumber)
      requires Valid()
      modifies this
      ensures Valid()
      ensures Snapshot() == old(Snapshot()).(phoneNumbers := old(phoneNumbers)[p.id := p])
    {
      phoneNumbers := phoneNumbers[p.id := p];
    }

    /** `storage.updateProduct` with a row that keeps its id. */
    method WriteProduct(p: Product)
      requires Valid()
      modifies this
      ensures Valid()
      ensures Snapshot() == old(Snapshot()).(products := old(products)[p.id := p])
    {
      products := products[p.id := p];
    }

    /** `storage.createOrder`: the order is stored under the next order id. */
    method InsertOrder(order: Order)
      requires Valid() && order.id == nextOrderId
      modifies this
      ensures Valid()
      ensures Snapshot() == old(Snapshot()).(orders := old(orders)[order.id := order], nextOrderId := order.id + 1)
    {
      orders := orders[order.id := order];
      nextOrderId := nextOrderId + 1;
    }

    /** POST /auth/register. The new user's referral code is the one the storage
        generates; the referrer's count is not changed here. */
    method Register(input: NewUser, referralCode: string) returns (r: Reply<PublicUser>)
      requires Valid()
      modifies this
      ensures Valid()
      ensures r.Err? ==> Snapshot() == old(Snapshot())
      ensures var refusal := RegisterRefusal(old(users), old(settings), input);
              refusal.Some? ==> r == Err(refusal.value)
      ensures var u := NewUserRow(old(nextUserId), input, referralCode);
              RegisterRefusal(old(users), old(settings), input).None?
              ==> r == Ok(201, WithoutPassword(u))
                  && Snapshot() == old(Snapshot()).(users := old(users)[u.id := u], nextUserId := u.id + 1,
                                                    activities := old(activities) + [Activity(u.id, "User registration", "Completed")])
    {
      var refusal := RegisterRefusal(users, settings, input);
      if refusal.Some? {
        return Err(refusal.value);
      }
      var u := NewUserRow(nextUserId, input, referralCode);
      InsertUser(u);
      Log(u.id, "User registration", "Completed");
      r := Ok(201, WithoutPassword(u));
    }

    /** POST /auth/login; an empty email or password counts as missing. */
    method Login(email: string, password: string) returns (r: Reply<PublicUser>)
      requires Valid()
      modifies this
      ensures Valid()
      ensures r.Err? ==> Snapshot() == old(Snapshot())
      ensures var refusal := LoginRefusal(UserWithEmail(old(users), email), email, password);
              refusal.Some? ==> r == Err(refusal.value)
      ensures var found := UserWithEmail(old(users), email);
              LoginRefusal(found, email, password).None?
              ==> r == Ok(200, WithoutPassword(found.value))
                  && Snapshot() == old(Snapshot()).(activities := old(activities) + [Activity(found.value.id, "User login", "Completed")])
    {
      var found: Option<User> := None;
      if email != "" && password != "" && exists id :: id in users && users[id].email == email {
        var id :| id in users && users[id].email == email;
        found := Some(users[id]);
        ghost var w := UserWithEmail(users, email).value;
        ghost var other :| other in users && users[other] == w;
        assert other == id;
      }
      var refusal := LoginRefusal(found, email, password);
      if refusal.Some? {
        return Err(refusal.value);
      }
      Log(found.value.id, "User login", "Completed");
      r := Ok(200, WithoutPassword(found.value));
    }

    /** POST /orders for the signed-in caller. Neither branch marks the number as
        sold: `isAvailable` is left as it was. */
    method CreateOrder(session: Session, phoneNumberId: int, isReferralReward: bool, now: int)
      returns (r: Reply<OrderCreated>)
      requires Valid()
      modifies this
      ensures Valid()
      ensures r.Err? ==> Snapshot() == old(Snapshot())
      ensures session.Anonymous? ==> r == Err(Unauthenticated)
      ensures session.SignedIn? ==>
              var uid := session.userId;
              var v := JudgeOrder(Lookup(old(users), uid), Lookup(old(phoneNumbers), phoneNumberId),
                                  isReferralReward, old(settings));
              (v.Reject? ==> r == Err(v.refusal))
              && (v.Accept? ==>
                  var order := Order(old(nextOrderId), uid, phoneNumberId, v.totalAmount, isReferralReward,
                                     "pending", None, Some(now));
                  r == Ok(201, OrderCreated(order, RedirectFor(old(phoneNumbers)[phoneNumberId].number, order.id)))
                  && Snapshot() == old(Snapshot()).(users := old(users)[uid := v.buyer],
                                                    orders := old(orders)[order.id := order],
                                                    nextOrderId := order.id + 1,
                                                    activities := old(activities)
                                                                  + [Activity(uid, OrderActivity(isReferralReward), "Completed")]))
    {
      if session.Anonymous? {
        return Err(Unauthenticated);
      }
      var uid := session.userId;
      var v := JudgeOrder(Lookup(users, uid), Lookup(phoneNumbers, phoneNumberId), isReferralReward, settings);
      if v.Reject? {
        return Err(v.refusal);
      }
      var number := phoneNumbers[phoneNumberId].number;
      WriteUser(v.buyer);
      var order := Order(nextOrderId, uid, phoneNumberId, v.totalAmount, isReferralReward, "pending", None, Some(now));
      InsertOrder(order);
      Log(uid, OrderActivity(isReferralReward), "Completed");
      r := Ok(201, OrderCreated(order, RedirectFor(number, order.id)));
    }

    /** POST /payments for the signed-in caller; `suffix` stands for the eight
        random characters of the reference. */
    method CreatePayment(session: Session, orderId: Option<int>, amount: int, suffix: string, now: int)
      returns (r: Reply<Payment>)
      requires Valid()
      requires |suffix| == 8
      modifies this
      ensures Valid()
      ensures r.Err? ==> Snapshot() == old(Snapshot())
      ensures session.Anonymous? ==> r == Err(Unauthenticated)
      ensures session.SignedIn? ==>
              var uid := session.userId;
              var refusal := PaymentRefusal(uid, old(users), old(orders), orderId);
              (refusal.Some? ==> r == Err(refusal.value))
              && (refusal.None? ==>
                  var payment := Payment(old(nextPaymentId), uid, orderId, amount, PaymentReference(suffix),
                                         "pending", Some(now));
                  r == Ok(201, payment)
                  && Snapshot() == old(Snapshot()).(payments := old(payments)[payment.id := payment],
                                                    nextPaymentId := payment.id + 1,
                                                    activities := old(activities)
                                                                  + [Activity(uid, PaymentActivity(orderId), "Pending")]))
    {
      if session.Anonymous? {
        return Err(Unauthenticated);
      }
      var uid := session.userId;
      var refusal := PaymentRefusal(uid, users, orders, orderId);
      if refusal.Some? {
        return Err(refusal.value);
      }
      var payment := Payment(nextPaymentId, uid, orderId, amount, PaymentReference(suffix), "pending", Some(now));
      InsertPayment(payment);
      Log(uid, PaymentActivity(orderId), "Pending");
      r := Ok(201, payment);
    }

    /** POST /kyc for the signed-in caller: stores the documents and marks the
        user's KYC as pending. */
    method SubmitKyc(session: Session, documents: map<string, string>, now: int) returns (r: Reply<Kyc>)
      requires Valid()
      modifies this
      ensures Valid()
      ensures r.Err? ==> Snapshot() == old(Snapshot())
      ensures session.Anonymous? ==> r == Err(Unauthenticated)
      ensures session.SignedIn? ==>
              var uid := session.userId;
              var refusal := KycRefusal(Lookup(old(users), uid), KycOf(old(kycs), uid));
              (refusal.Some? ==> r == Err(refusal.value))
              && (refusal.None? ==>
                  var kyc := Kyc(old(nextKycId), uid, "pending", documents, Some(now));
                  r == Ok(201, kyc)
                  && Snapshot() == old(Snapshot()).(kycs := old(kycs)[kyc.id := kyc], nextKycId := kyc.id + 1,
                                                    users := old(users)[uid := old(users)[uid].(kycStatus := "pending")],
                                                    activities := old(activities)
                                                                  + [Activity(uid, "Submitted KYC documents", "Pending")]))
    {
      if session.Anonymous? {
        return Err(Unauthenticated);
      }
      var uid := session.userId;
      var existing: Option<Kyc> := None;
      if exists id :: id in kycs && kycs[id].userId == uid {
        var id :| id in kycs && kycs[id].userId == uid;
        existing := Some(kycs[id]);
        ghost var w := KycOf(kycs, uid).value;
        ghost var other :| other in kycs && kycs[other] == w;
        assert other == id;
      }
      var refusal := KycRefusal(Lookup(users, uid), existing);
      if refusal.Some? {
        return Err(refusal.value);
      }
      var kyc := Kyc(nextKycId, uid, "pending", documents, Some(now));
      InsertKyc(kyc);
      WriteUser(users[uid].(kycStatus := "pending"));
      Log(uid, "Submitted KYC documents", "Pending");
      r := Ok(201, kyc);
    }
  
    /** PATCH /admin/users/:id: an admin sets the allow-listed fields of another user. */
    method AdminUpdateUser(session: Session, id: int, body: map<string, Json>) returns (r: Reply<PublicUser>)
      requires Valid()
      modifies this
      ensures Valid()
      ensures r.Err? ==> Snapshot() == old(Snapshot())
      ensures AdminGate(session).Some? ==> r == Err(AdminGate(session).value)
      ensures AdminGate(session).None? && id !in old(users) ==> r == Err(Fail(404, "User not found"))
      ensures AdminGate(session).None? && id in old(users) && id == session.userId
              ==> r == Err(Fail(400, "Cannot modify own account through this endpoint"))
      ensures AdminGate(session).None? && id in old(users) && id != session.userId ==>
              var upd := Restrict(body, UserFields);
              var patched := PatchUser(old(users)[id], upd);
              (upd == map[] ==> r == Err(NoValidFields))
              && (upd != map[] && patched.None? ==> r == Err(InternalError))
              && (upd != map[] && patched.Some? ==>
                  r == Ok(200, WithoutPassword(patched.value))
                  && Snapshot() == old(Snapshot()).(users := old(users)[id := patched.value],
                                                    activities := old(activities)
                                                                  + [Activity(session.userId, "Admin updated user " + IntToString(id), "Completed")]))
    {
      var gate := AdminGate(session);
      if gate.Some? {
        return Err(gate.value);
      }
      if id !in users {
        return Err(Fail(404, "User not found"));
      }
      if id == session.userId {
        return Err(Fail(400, "Cannot modify own account through this endpoint"));
      }
      var upd := PickAllowed(UserFields, body);
      if upd == map[] {
        return Err(NoValidFields);
      }
      var patched := PatchUser(users[id], upd);
      if patched.None? {
        return Err(InternalError);
      }
      WriteUser(patched.value);
      Log(session.userId, "Admin updated user " + IntToString(id), "Completed");
      r := Ok(200, WithoutPassword(patched.value));
    }

    /** PATCH /admin/phone-numbers/:id. */
    method AdminUpdatePhoneNumber(session: Session, id: int, body: map<string, Json>) returns (r: Reply<PhoneNumber>)
      requires Valid()
      modifies this
      ensures Valid()
      ensures r.Err? ==> Snapshot() == old(Snapshot())
      ensures AdminGate(session).Some? ==> r == Err(AdminGate(session).value)
      ensures AdminGate(session).None? && id !in old(phoneNumbers) ==> r == Err(Fail(404, "Phone number not found"))
      ensures AdminGate(session).None? && id in old(phoneNumbers) ==>
              var upd := Restrict(body, PhoneNumberFields);
              var patched := PatchPhoneNumber(old(phoneNumbers)[id], upd);
              (upd == map[] ==> r == Err(NoValidFields))
              && (upd != map[] && patched.None? ==> r == Err(InternalError))
              && (upd != map[] && patched.Some? ==>
                  r == Ok(200, patched.value)
                  && Snapshot() == old(Snapshot()).(phoneNumbers := old(phoneNumbers)[id := patched.value],
                                                    activities := old(activities)
                                                                  + [Activity(session.userId, "Updated phone number: " + patched.value.number, "Completed")]))
    {
      var gate := AdminGate(session);
      if gate.Some? {
        return Err(gate.value);
      }
      if id !in phoneNumbers {
        return Err(Fail(404, "Phone number not found"));
      }
      var upd := PickAllowed(PhoneNumberFields, body);
      if upd == map[] {
        return Err(NoValidFields);
      }
      var patched := PatchPhoneNumber(phoneNumbers[id], upd);
      if patched.None? {
        return Err(InternalError);
      }
      WritePhoneNumber(patched.value);
      Log(session.userId, "Updated phone number: " + patched.value.number, "Completed");
      r := Ok(200, patched.value);
    }

    /** PATCH /admin/orders/:id. Setting the status to "completed" also logs the
        purchase for the order's owner, if the owner still exists. */
    method AdminUpdateOrder(session: Session, id: int, body: map<string, Json>) returns (r: Reply<Order>)
      requires Valid()
      modifies this
      ensures Valid()
      ensures r.Err? ==> Snapshot() == old(Snapshot())
      ensures AdminGate(session).Some? ==> r == Err(AdminGate(session).value)
      ensures AdminGate(session).None? && id !in old(orders) ==> r == Err(Fail(404, "Order not found"))
      ensures AdminGate(session).None? && id in old(orders) ==>
              var order := old(orders)[id];
              var upd := Restrict(body, OrderFields);
              var patched := PatchOrder(order, upd);
              (upd == map[] ==> r == Err(NoValidFields))
              && (upd != map[] && patched.None? ==> r == Err(InternalError))
              && (upd != map[] && patched.Some? ==>
                  var ownerLog := if Lookup(upd, "status") == Some(JStr("completed")) && order.userId in old(users)
                                  then [Activity(order.userId, OrderActivity(order.isReferralReward), "Completed")]
                                  else [];
                  var adminLog := Activity(session.userId, "Updated order " + IntToString(id) + " status to "
                                                           + Rendered(Lookup(upd, "status")), "Completed");
                  r == Ok(200, patched.value)
                  && Snapshot() == old(Snapshot()).(orders := old(orders)[id := patched.value],
                                                    activities := old(activities) + ownerLog + [adminLog]))
    {
      var gate := AdminGate(session);
      if gate.Some? {
        return Err(gate.value);
      }
      if id !in orders {
        return Err(Fail(404, "Order not found"));
      }
      var order := orders[id];
      var upd := PickAllowed(OrderFields, body);
      if upd == map[] {
        return Err(NoValidFields);
      }
      var patched := PatchOrder(order, upd);
      if patched.None? {
        return Err(InternalError);
      }
      WriteOrder(patched.value);
      if Lookup(upd, "status") == Some(JStr("completed")) && order.userId in users {
        Log(order.userId, OrderActivity(order.isReferralReward), "Completed");
      }
      Log(session.userId, "Updated order " + IntToString(id) + " status to " + Rendered(Lookup(upd, "status")), "Completed");
      r := Ok(200, patched.value);
    }

    /** PATCH /admin/payments/:id: sets the status. Completing a top-up (a payment
        with no truthy `orderId`) adds its amount to the owner's balance, every
        time it is completed. */
    method AdminUpdatePayment(session: Session, id: int, body: map<string, Json>) returns (r: Reply<Payment>)
      requires Valid()
      modifies this
      ensures Valid()
      ensures r.Err? ==> Snapshot() == old(Snapshot())
      ensures AdminGate(session).Some? ==> r == Err(AdminGate(session).value)
      ensures AdminGate(session).None? && id !in old(payments) ==> r == Err(Fail(404, "Payment not found"))
      ensures AdminGate(session).None? && id in old(payments) && "status" !in body ==> r == Err(StatusRequired)
      ensures AdminGate(session).None? && id in old(payments) && "status" in body && !body["status"].JStr?
              ==> r == Err(InternalError)
      ensures AdminGate(session).None? && id in old(payments) && "status" in body && body["status"].JStr? ==>
              var payment := old(payments)[id];
              var status := body["status"].s;
              var credited := CreditsBalance(payment, body["status"]) && payment.userId in old(users);
              var owner := payment.userId;
              r == Ok(200, payment.(status := status))
              && Snapshot() == old(Snapshot()).(
                   payments := old(payments)[id := payment.(status := status)],
                   users := if credited
                            then old(users)[owner := old(users)[owner].(balance := old(users)[owner].balance + payment.amount)]
                            else old(users),
                   activities := old(activities)
                                 + (if credited then [Activity(owner, "Added funds to account", "Completed")] else [])
                                 + [Activity(session.userId, "Updated payment " + IntToString(id) + " status to " + status, "Completed")])
    {
      var gate := AdminGate(session);
      if gate.Some? {
        return Err(gate.value);
      }
      if id !in payments {
        return Err(Fail(404, "Payment not found"));
      }
      if "status" !in body {
        return Err(StatusRequired);
      }
      var status := body["status"];
      if !status.JStr? {
        return Err(InternalError);
      }
      var payment := payments[id];
      WritePayment(payment.(status := status.s));
      if CreditsBalance(payment, status) && payment.userId in users {
        var owner := users[payment.userId];
        WriteUser(owner.(balance := owner.balance + payment.amount));
        Log(payment.userId, "Added funds to account", "Completed");
      }
      Log(session.userId, "Updated payment " + IntToString(id) + " status to " + status.s, "Completed");
      r := Ok(200, payment.(status := status.s));
    }

    /** PATCH /admin/kyc/:id: sets the record's status and logs the decision for
        the admin and for the user. The user's own `kycStatus` is not written. */
    method AdminUpdateKyc(session: Session, id: int, body: map<string, Json>) returns (r: Reply<Kyc>)
      requires Valid()
      modifies this
      ensures Valid()
      ensures r.Err? ==> Snapshot() == old(Snapshot())
      ensures AdminGate(session).Some? ==> r == Err(AdminGate(session).value)
      ensures AdminGate(session).None? && id !in old(kycs) ==> r == Err(Fail(404, "KYC record not found"))
      ensures AdminGate(session).None? && id in old(kycs) && "status" !in body ==> r == Err(StatusRequired)
      ensures AdminGate(session).None? && id in old(kycs) && "status" in body && !body["status"].JStr?
              ==> r == Err(InternalError)
      ensures AdminGate(session).None? && id in old(kycs) && "status" in body && body["status"].JStr? ==>
              var kyc := old(kycs)[id];
              var status := body["status"].s;
              r == Ok(200, kyc.(status := status))
              && Snapshot() == old(Snapshot()).(
                   kycs := old(kycs)[id := kyc.(status := status)],
                   activities := old(activities)
                                 + [Activity(session.userId, "Updated KYC " + IntToString(id) + " status to " + status, "Completed"),
                                    Activity(kyc.userId, "KYC verification", if status == "approved" then "Approved" else "Rejected")])
    {
      var gate := AdminGate(session);
      if gate.Some? {
        return Err(gate.value);
      }
      if id !in kycs {
        return Err(Fail(404, "KYC record not found"));
      }
      if "status" !in body {
        return Err(StatusRequired);
      }
      var status := body["status"];
      if !status.JStr? {
        return Err(InternalError);
      }
      var kyc := kycs[id];
      WriteKyc(kyc.(status := status.s));
      Log(session.userId, "Updated KYC " + IntToString(id) + " status to " + status.s, "Completed");
      Log(kyc.userId, "KYC verification", if status.s == "approved" then "Approved" else "Rejected");
      r := Ok(200, kyc.(status := status.s));
    }

    /** PATCH /admin/settings: writes each string-valued entry of the body, in
        the order `Object.entries` lists them, skipping the others, and answers
        with all the settings. */
    method AdminUpdateSettings(session: Session, body: seq<(string, Json)>) returns (r: Reply<map<string, string>>)
      requires Valid()
      modifies this
      ensures Valid()
      ensures r.Err? ==> Snapshot() == old(Snapshot())
      ensures AdminGate(session).Some? ==> r == Err(AdminGate(session).value)
      ensures AdminGate(session).None? && body == [] ==> r == Err(Fail(400, "No settings to update"))
      ensures AdminGate(session).None? && body != [] && StringKeys(body) == []
              ==> r == Err(Fail(400, "No valid settings to update"))
      ensures AdminGate(session).None? && StringKeys(body) != [] ==>
              var written := ApplyEntries(old(settings), body);
              r == Ok(200, written)
              && Snapshot() == old(Snapshot()).(
                   settings := written,
                   activities := old(activities)
                                 + [Activity(session.userId, "Updated system settings: " + Join(StringKeys(body), ", "), "Completed")])
    {
      var gate := AdminGate(session);
      if gate.Some? {
        return Err(gate.value);
      }
      if body == [] {
        return Err(Fail(400, "No settings to update"));
      }
      var updated: seq<string> := [];
      var i := 0;
      while i < |body|
        invariant 0 <= i <= |body|
        invariant settings == ApplyEntries(old(settings), body[..i])
        invariant updated == StringKeys(body[..i])
        invariant Snapshot() == old(Snapshot()).(settings := settings)
      {
        var (key, value) := body[i];
        if value.JStr? {
          settings := settings[key := value.s];
          updated := updated + [key];
        }
        assert body[..i + 1][..i] == body[..i];
        i := i + 1;
      }
      assert body[..i] == body;
      if updated == [] {
        NoStringsNoChange(old(settings), body);
        assert settings == old(settings);
        return Err(Fail(400, "No valid settings to update"));
      }
      Log(session.userId, "Updated system settings: " + Join(updated, ", "), "Completed");
      r := Ok(200, settings);
    }

    /** PATCH /admin/products/:id; the owner is told whether the product was
        approved or only updated, after what the body's `isAdminApproved` says. */
    method AdminUpdateProduct(session: Session, id: int, body: map<string, Json>) returns (r: Reply<Product>)
      requires Valid()
      modifies this
      ensures Valid()
      ensures r.Err? ==> Snapshot() == old(Snapshot())
      ensures AdminGate(session).Some? ==> r == Err(AdminGate(session).value)
      ensures AdminGate(session).None? && id !in old(products) ==> r == Err(Fail(404, "Product not found"))
      ensures AdminGate(session).None? && id in old(products) ==>
              var product := old(products)[id];
              var upd := Restrict(body, ProductFields);
              var patched := PatchProduct(product, upd);
              (upd == map[] ==> r == Err(NoValidFields))
              && (upd != map[] && patched.None? ==> r == Err(InternalError))
              && (upd != map[] && patched.Some? ==>
                  var verb := if Truthy(Lookup(body, "isAdminApproved")) then "approved" else "updated";
                  r == Ok(200, patched.value)
                  && Snapshot() == old(Snapshot()).(products := old(products)[id := patched.value],
                                                    activities := old(activities)
                                                                  + [Activity(product.userId, "Admin " + verb + " your marketplace product", "Completed")]))
    {
      var gate := AdminGate(session);
      if gate.Some? {
        return Err(gate.value);
      }
      if id !in products {
        return Err(Fail(404, "Product not found"));
      }
      var product := products[id];
      var upd := PickAllowed(ProductFields, body);
      if upd == map[] {
        return Err(NoValidFields);
      }
      var patched := PatchProduct(product, upd);
      if patched.None? {
        return Err(InternalError);
      }
      WriteProduct(patched.value);
      var verb := if Truthy(Lookup(body, "isAdminApproved")) then "approved" else "updated";
      Log(product.userId, "Admin " + verb + " your marketplace product", "Completed");
      r := Ok(200, patched.value);
    }

    /** PATCH /admin/services/:id; no activity is logged. */
    method AdminUpdateService(session: Session, id: int, body: map<string, Json>) returns (r: Reply<Service>)
      requires Valid()
      modifies this
      ensures Valid()
      ensures r.Err? ==> Snapshot() == old(Snapshot())
      ensures AdminGate(session).Some? ==> r == Err(AdminGate(session).value)
      ensures AdminGate(session).None? && id !in old(services) ==> r == Err(Fail(404, "Service not found"))
      ensures AdminGate(session).None? && id in old(services) ==>
              var upd := Restrict(body, ServiceFields);
              var patched := PatchService(old(services)[id], upd);
              (upd == map[] ==> r == Err(NoValidFields))
              && (upd != map[] && patched.None? ==> r == Err(InternalError))
              && (upd != map[] && patched.Some? ==>
                  r == Ok(200, patched.value)
                  && Snapshot() == old(Snapshot()).(services := old(services)[id := patched.value]))
    {
      var gate := AdminGate(session);
      if gate.Some? {
        return Err(gate.value);
      }
      if id !in services {
        return Err(Fail(404, "Service not found"));
      }
      var upd := PickAllowed(ServiceFields, body);
      if upd == map[] {
        return Err(NoValidFields);
      }
      var patched := PatchService(services[id], upd);
      if patched.None? {
        return Err(InternalError);
      }
      services := services[id := patched.value];
      r := Ok(200, patched.value);
    }

    /** PATCH /admin/countries/:id; no activity is logged. */
    method AdminUpdateCountry(session: Session, id: int, body: map<string, Json>) returns (r: Reply<Country>)
      requires Valid()
      modifies this
      ensures Valid()
      ensures r.Err? ==> Snapshot() == old(Snapshot())
      ensures AdminGate(session).Some? ==> r == Err(AdminGate(session).value)
      ensures AdminGate(session).None? && id !in old(countries) ==> r == Err(Fail(404, "Country not found"))
      ensures AdminGate(session).None? && id in old(countries) ==>
              var upd := Restrict(body, CountryFields);
              var patched := PatchCountry(old(countries)[id], upd);
              (upd == map[] ==> r == Err(NoValidFields))
              && (upd != map[] && patched.None? ==> r == Err(InternalError))
              && (upd != map[] && patched.Some? ==>
                  r == Ok(200, patched.value)
                  && Snapshot() == old(Snapshot()).(countries := old(countries)[id := patched.value]))
    {
      var gate := AdminGate(session);
      if gate.Some? {
        return Err(gate.value);
      }
      if id !in countries {
        return Err(Fail(404, "Country not found"));
      }
      var upd := PickAllowed(CountryFields, body);
      if upd == map[] {
        return Err(NoValidFields);
      }
      var patched := PatchCountry(countries[id], upd);
      if patched.None? {
        return Err(InternalError);
      }
      countries := countries[id := patched.value];
      r := Ok(200, patched.value);
    }

    /** POST /ai-chat: stores the message with the responder's reply. A message
        that is not a string cannot be lower-cased, which ends in a 500. */
    method AiChat(session: Session, message: Option<Json>) returns (r: Reply<AiChat>)
      requires Valid()
      modifies this
      ensures Valid()
      ensures r.Err? ==> Snapshot() == old(Snapshot())
      ensures session.Anonymous? ==> r == Err(Unauthenticated)
      ensures session.SignedIn? && !Truthy(message) ==> r == Err(MessageRequired)
      ensures session.SignedIn? && Truthy(message) && session.userId !in old(users)
              ==> r == Err(Fail(404, "User not found"))
      ensures session.SignedIn? && Truthy(message) && session.userId in old(users) && !message.value.JStr?
              ==> r == Err(InternalError)
      ensures session.SignedIn? && Truthy(message) && session.userId in old(users) && message.value.JStr? ==>
              var chat := Records.AiChat(session.userId, message.value.s, ReplyText(Respond(message.value.s)));
              r == Ok(201, chat) && Snapshot() == old(Snapshot()).(chats := old(chats) + [chat])
    {
      if session.Anonymous? {
        return Err(Unauthenticated);
      }
      if !Truthy(message) {
        return Err(MessageRequired);
      }
      if session.userId !in users {
        return Err(Fail(404, "User not found"));
      }
      if !message.value.JStr? {
        return Err(InternalError);
      }
      var text := message.value.s;
      var chat := Records.AiChat(session.userId, text, ReplyText(Respond(text)));
      chats := chats + [chat];
      r := Ok(201, chat);
    }
  }
}
