/** Sequences of requests against the store, each showing a behaviour of the
    routes that only appears across calls. */
module Scenarios {
  import opened Base
  import opened Records
  import opened Replies
  import opened Settlement
  import opened Accounts
  import opened Routes

  /** Someone who has just registered signs in with the same email and password. */
  method RegisterThenSignIn(store: Store, input: NewUser, referralCode: string)
    returns (registered: Reply<PublicUser>, signedIn: Reply<PublicUser>)
    requires store.Valid()
    requires input.email != "" && input.password != ""
    requires RegisterRefusal(store.users, store.settings, input).None?
    modifies store
    ensures store.Valid()
    ensures registered.Ok? && signedIn.Ok? && signedIn.value == registered.value
  {
    registered := store.Register(input, referralCode);
    ghost var u := NewUserRow(old(store.nextUserId), input, referralCode);
    assert store.users[u.id] == u;
    ghost var found := UserWithEmail(store.users, input.email);
    assert found.Some? by {
      assert store.users[u.id].email == input.email;
    }
    ghost var other :| other in store.users && store.users[other] == found.value;
    assert other == u.id;
    signedIn := store.Login(input.email, input.password);
  }

  /** Buying a number does not take it off sale: a second buyer with enough
      balance gets the same number too. */
  method SameNumberSoldTwice(store: Store, first: int, second: int, numberId: int, now: int)
    returns (a: Reply<OrderCreated>, b: Reply<OrderCreated>)
    requires store.Valid()
    requires first != second && first in store.users && second in store.users
    requires numberId in store.phoneNumbers && store.phoneNumbers[numberId].isAvailable
    requires store.users[first].balance >= store.phoneNumbers[numberId].price
    requires store.users[second].balance >= store.phoneNumbers[numberId].price
    modifies store
    ensures store.Valid()
    ensures a.Ok? && b.Ok? && a.value.order.phoneNumberId == b.value.order.phoneNumberId == numberId
    ensures a.value.order.id != b.value.order.id
  {
    a := store.CreateOrder(SignedIn(first, false), numberId, false, now);
    b := store.CreateOrder(SignedIn(second, false), numberId, false, now);
  }

  /** Completing the same top-up twice credits its amount twice. */
  method TopUpCompletedTwice(store: Store, admin: Session, paymentId: int)
    returns (a: Reply<Payment>, b: Reply<Payment>)
    requires store.Valid()
    requires AdminGate(admin).None?
    requires paymentId in store.payments && !TruthyId(store.payments[paymentId].orderId)
    requires store.payments[paymentId].userId in store.users
    modifies store
    ensures store.Valid()
    ensures a.Ok? && b.Ok?
    ensures var owner := old(store.payments[paymentId].userId);
            owner in store.users
            && store.users[owner].balance == old(store.users[owner].balance) + 2 * old(store.payments[paymentId].amount)
  {
    var body := map["status" := JStr("completed")];
    a := store.AdminUpdatePayment(admin, paymentId, body);
    b := store.AdminUpdatePayment(admin, paymentId, body);
  }

  /** Approving a KYC record leaves the user's own `kycStatus` at "pending", so a
      referral reward that needs KYC stays out of reach. */
  method ApprovalLeavesUserPending(store: Store, uid: int, admin: Session, documents: map<string, string>, now: int)
    returns (submitted: Reply<Kyc>, approved: Reply<Kyc>)
    requires store.Valid()
    requires uid in store.users && !HasKyc(store.kycs, uid)
    requires AdminGate(admin).None?
    modifies store
    ensures store.Valid()
    ensures submitted.Ok? && approved.Ok? && approved.value.status == "approved"
    ensures uid in store.users && store.users[uid].kycStatus == "pending"
    ensures KycRequired(store.settings) ==> JudgeReward(store.users[uid], store.settings).Reject?
  {
    submitted := store.SubmitKyc(SignedIn(uid, false), documents, now);
    approved := store.AdminUpdateKyc(admin, submitted.value.id, map["status" := JStr("approved")]);
  }
}
