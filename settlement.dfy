/** The decisions of the settlement routes, as functions of what the route has
    read: whether an order may be placed and what it costs (balance or
    referrals, KYC gating, the REFERRALS_NEEDED and KYC_REQUIRED_FOR_REFERRAL
    settings), whether a payment may be submitted, when completing a payment
    credits the balance, and the WhatsApp hand-off message of a new order. */
module Settlement {
  import opened Base
  import opened Text
  import opened Decimal
  import opened Records
  import opened Replies

  /** `(await storage.getSetting(key)) || fallback`: a missing or empty setting falls back. */
  function SettingOr(settings: map<string, string>, key: string, fallback: string): (r: string)
    ensures key in settings && settings[key] != "" ==> r == settings[key]
    ensures key !in settings || settings[key] == "" ==> r == fallback
  {
    if key in settings && settings[key] != "" then settings[key] else fallback
  }

  /** `parseInt(REFERRALS_NEEDED || "20")`; `None` is NaN. */
  function ReferralsNeeded(settings: map<string, string>): (r: Option<int>)
    ensures "REFERRALS_NEEDED" !in settings || settings["REFERRALS_NEEDED"] == "" ==> r == Some(20)
    ensures "REFERRALS_NEEDED" in settings && settings["REFERRALS_NEEDED"] != ""
            && AllDigits(settings["REFERRALS_NEEDED"])
            ==> r == Some(DigitsValue(settings["REFERRALS_NEEDED"]))
  {
    assert DigitsValue("20") == 20 by {
      assert "20"[..1] == "2";
    }
    ParseInt(SettingOr(settings, "REFERRALS_NEEDED", "20"))
  }

  /** `(KYC_REQUIRED_FOR_REFERRAL || "true") === "true"`. */
  function KycRequired(settings: map<string, string>): (r: bool)
    ensures r <==> "KYC_REQUIRED_FOR_REFERRAL" !in settings
                   || settings["KYC_REQUIRED_FOR_REFERRAL"] in {"", "true"}
  {
    SettingOr(settings, "KYC_REQUIRED_FOR_REFERRAL", "true") == "true"
  }

  /** The 400 reply when the referral count is below the threshold. */
  function TooFewReferrals(current: int, needed: int): Refusal
  {
    Refusal(400, map[
      "message" := JStr("Not enough referrals. Need " + IntToString(needed) + " referrals to claim a free number."),
      "current" := JNum(current),
      "needed" := JNum(needed)])
  }

  /** The 400 reply when the balance does not cover the price. */
  function InsufficientBalance(balance: int, required: int): Refusal
  {
    Refusal(400, map[
      "message" := JStr("Insufficient balance"),
      "balance" := JNum(balance),
      "required" := JNum(required)])
  }

  const KycForReward: Refusal := Fail(400, "KYC verification required to claim referral rewards")

  /** The outcome of the checks of POST /orders: a refusal, or the buyer's row as
      it is to be written back together with the order's total amount. */
  datatype OrderVerdict = Reject(refusal: Refusal) | Accept(buyer: User, totalAmount: int)

  /** The user and the phone number exist and the number is on sale. */
  predicate Orderable(user: Option<User>, phone: Option<PhoneNumber>)
  {
    user.Some? && phone.Some? && phone.value.isAvailable
  }

  /** A referral-reward claim: the count must reach the threshold, then the KYC
      gate applies; the threshold is consumed. A threshold that is NaN passes the
      comparison and cannot be written back to the integer column, which the
      storage refuses (a 500 reply). */
  function JudgeReward(u: User, settings: map<string, string>): OrderVerdict
  {
    var needed := ReferralsNeeded(settings);
    if needed.Some? && u.referralCount < needed.value then
      Reject(TooFewReferrals(u.referralCount, needed.value))
    else if KycRequired(settings) && u.kycStatus != "approved" then
      Reject(KycForReward)
    else if needed.None? then
      Reject(InternalError)
    else
      Accept(u.(referralCount := u.referralCount - needed.value), 0)
  }

  /** A paid order: the balance must cover the price, which is then deducted. */
  function JudgePurchase(u: User, p: PhoneNumber): OrderVerdict
  {
    if u.balance < p.price then Reject(InsufficientBalance(u.balance, p.price))
    else Accept(u.(balance := u.balance - p.price), p.price)
  }

  /** The checks of POST /orders in the order the route makes them. An accepted
      order writes back the buyer's own row: only the balance or the referral
      count differs. */
  function JudgeOrder(user: Option<User>, phone: Option<PhoneNumber>, isReward: bool,
                      settings: map<string, string>): (v: OrderVerdict)
    ensures v.Accept? ==> Orderable(user, phone)
                          && v.buyer.(balance := user.value.balance, referralCount := user.value.referralCount)
                             == user.value
  {
    if user.None? then Reject(Fail(404, "User not found"))
    else if phone.None? then Reject(Fail(404, "Phone number not found"))
    else if !phone.value.isAvailable then Reject(Fail(400, "Phone number is not available"))
    else if isReward then JudgeReward(user.value, settings)
    else JudgePurchase(user.value, phone.value)
  }

  /** The verdict of POST /orders, case by case. */
  lemma JudgeOrderCases(user: Option<User>, phone: Option<PhoneNumber>, isReward: bool,
                        settings: map<string, string>)
    // missing rows and unavailable numbers are refused before anything else
    ensures var v := JudgeOrder(user, phone, isReward, settings);
            (user.None? ==> v == Reject(Fail(404, "User not found")))
            && (user.Some? && phone.None? ==> v == Reject(Fail(404, "Phone number not found")))
            && (user.Some? && phone.Some? && !phone.value.isAvailable
                ==> v == Reject(Fail(400, "Phone number is not available")))
    // paid order: accepted exactly when the balance covers the price
    ensures var v := JudgeOrder(user, phone, isReward, settings);
            Orderable(user, phone) && !isReward
            ==> (v.Accept? <==> user.value.balance >= phone.value.price)
                && (v.Reject? ==> v.refusal == InsufficientBalance(user.value.balance, phone.value.price))
                && (v.Accept? ==> v.buyer == user.value.(balance := user.value.balance - phone.value.price)
                                  && v.totalAmount == phone.value.price
                                  && v.buyer.balance >= 0)
    // referral reward: accepted exactly when the count reaches the threshold and the KYC gate passes
    ensures var v := JudgeOrder(user, phone, isReward, settings);
            var needed := ReferralsNeeded(settings);
            Orderable(user, phone) && isReward && needed.Some?
            ==> (v.Accept? <==> user.value.referralCount >= needed.value
                                && (!KycRequired(settings) || user.value.kycStatus == "approved"))
                && (user.value.referralCount < needed.value
                    ==> v.refusal == TooFewReferrals(user.value.referralCount, needed.value))
                && (user.value.referralCount >= needed.value && KycRequired(settings) && user.value.kycStatus != "approved"
                    ==> v.refusal == KycForReward)
    ensures var v := JudgeOrder(user, phone, isReward, settings);
            var needed := ReferralsNeeded(settings);
            v.Accept? && isReward
            ==> needed.Some?
                && v.buyer == user.value.(referralCount := user.value.referralCount - needed.value)
                && v.totalAmount == 0
                && v.buyer.referralCount >= 0
  {
  }

  /** A user with 1000 on the balance buys a number priced 500: the order costs 500
      and 500 remain. */
  lemma PurchaseScenario(u: User, p: PhoneNumber, settings: map<string, string>)
    requires u.balance == 1000 && p.price == 500 && p.isAvailable
    ensures JudgeOrder(Some(u), Some(p), false, settings) == Accept(u.(balance := 500), 500)
  {
  }

  /** With REFERRALS_NEEDED "20", 19 referrals are not enough, and the reply says so. */
  lemma NineteenReferralsScenario(u: User, p: PhoneNumber, settings: map<string, string>)
    requires u.referralCount == 19 && p.isAvailable
    requires "REFERRALS_NEEDED" in settings && settings["REFERRALS_NEEDED"] == "20"
    ensures JudgeOrder(Some(u), Some(p), true, settings) == Reject(TooFewReferrals(19, 20))
  {
    assert AllDigits("20") && DigitsValue("20") == 20 by {
      assert "20"[..1] == "2";
    }
  }

  /** The activity written for a new order. */
  function OrderActivity(isReward: bool): string
  {
    if isReward then "Claimed free number with referrals" else "Purchased WhatsApp number"
  }

  /** The checks of POST /payments: the caller must exist, and a payment for an
      order (a truthy `orderId`) needs an existing order of the caller's that is
      still pending. */
  function PaymentRefusal(uid: int, users: map<int, User>, orders: map<int, Order>,
                          orderId: Option<int>): (r: Option<Refusal>)
    ensures r.None? <==> uid in users
                         && (TruthyId(orderId) ==> orderId.value in orders
                                                   && orders[orderId.value].userId == uid
                                                   && orders[orderId.value].status == "pending")
    ensures uid !in users ==> r == Some(Fail(404, "User not found"))
    ensures uid in users && TruthyId(orderId) && orderId.value !in orders
            ==> r == Some(Fail(404, "Order not found"))
    ensures uid in users && TruthyId(orderId) && orderId.value in orders
            && orders[orderId.value].userId != uid
            ==> r == Some(Fail(403, "Order doesn't belong to user"))
    ensures uid in users && TruthyId(orderId) && orderId.value in orders
            && orders[orderId.value].userId == uid && orders[orderId.value].status != "pending"
            ==> r == Some(Fail(400, "Order is not pending payment"))
  {
    if uid !in users then Some(Fail(404, "User not found"))
    else if !TruthyId(orderId) then None
    else if orderId.value !in orders then Some(Fail(404, "Order not found"))
    else if orders[orderId.value].userId != uid then Some(Fail(403, "Order doesn't belong to user"))
    else if orders[orderId.value].status != "pending" then Some(Fail(400, "Order is not pending payment"))
    else None
  }

  /** `PAY-${nanoid(8)}`, the eight random characters given as `suffix`. */
  function PaymentReference(suffix: string): (r: string)
    requires |suffix| == 8
    ensures StartsWith(r, "PAY-") && |r| == 12 && r[4..] == suffix
  {
    "PAY-" + suffix
  }

  /** The activity written for a new payment. */
  function PaymentActivity(orderId: Option<int>): string
  {
    if TruthyId(orderId) then "Payment submitted for order" else "Added funds to account"
  }

  /** Setting a payment's status credits its owner's balance when the new status is
      "completed" and the payment is a top-up (no truthy `orderId`), whatever the
      payment's previous status was. */
  predicate CreditsBalance(p: Payment, status: Json)
  {
    status == JStr("completed") && !TruthyId(p.orderId)
  }

  // The WhatsApp hand-off returned with a new order.

  /** The support number, and its digits as the wa.me link carries them. */
  const SupportDigits: string := "2347088501777"
  const SupportWhatsapp: string := "+" + SupportDigits

  /** `s.replace(/\+/g, '')`. */
  function RemovePlus(s: string): (r: string)
    ensures forall i :: 0 <= i < |r| ==> r[i] != '+'
    ensures |r| <= |s|
  {
    if s == [] then [] else (if s[0] == '+' then [] else [s[0]]) + RemovePlus(s[1..])
  }

  /** `s.replace(/\s+/g, '')`; the `\s` class is the white space `parseInt` skips. */
  function RemoveSpace(s: string): (r: string)
    ensures forall i :: 0 <= i < |r| ==> !IsSpace(r[i])
    ensures |r| <= |s|
  {
    if s == [] then [] else (if IsSpace(s[0]) then [] else [s[0]]) + RemoveSpace(s[1..])
  }

  /** Removing characters that do not occur changes nothing. */
  lemma {:induction false} NothingToRemove(s: string)
    requires forall i :: 0 <= i < |s| ==> s[i] != '+' && !IsSpace(s[i])
    ensures RemovePlus(s) == s && RemoveSpace(s) == s
  {
    if s != [] {
      NothingToRemove(s[1..]);
      assert s == [s[0]] + s[1..];
    }
  }

  /** The redirect of a new order: the support number, the message naming the
      number bought and the order id, and the wa.me link up to its `text=`
      parameter (the link ends with the URI-encoded message). */
  datatype WhatsappRedirect = WhatsappRedirect(linkPrefix: string, number: string, message: string)

  const MessageLead: string := "Hello, I just purchased a virtual number "
  const MessageMiddle: string := " from ETHERDOXSHEFZYSMS. Please process my order. My order ID is "

  function OrderMessage(phoneNumber: string, orderId: int): string
  {
    MessageLead + phoneNumber + MessageMiddle + IntToString(orderId) + "."
  }

  function RedirectFor(phoneNumber: string, orderId: int): (r: WhatsappRedirect)
    ensures r.number == SupportWhatsapp
    ensures r.message == OrderMessage(phoneNumber, orderId)
  {
    WhatsappRedirect("https://wa.me/" + SupportDigits + "?text=", SupportWhatsapp, OrderMessage(phoneNumber, orderId))
  }

  /** The redirect's link is the wa.me link of the support number: the '+' and
      any white space are dropped from it. */
  lemma RedirectLinkOfSupport(phoneNumber: string, orderId: int)
    ensures RedirectFor(phoneNumber, orderId).linkPrefix == WaLink(SupportWhatsapp)
  {
    LinkOfPlusNumber(SupportDigits);
  }

  /** `https://wa.me/${number.replace(/\+/g, '').replace(/\s+/g, '')}?text=`. */
  function WaLink(number: string): string
  {
    "https://wa.me/" + RemoveSpace(RemovePlus(number)) + "?text="
  }

  /** The link of a number written as '+' and digits carries exactly those digits. */
  lemma {:induction false} LinkOfPlusNumber(digits: string)
    requires forall i :: 0 <= i < |digits| ==> IsDigit(digits[i])
    ensures WaLink("+" + digits) == "https://wa.me/" + digits + "?text="
  {
    NothingToRemove(digits);
    var number := "+" + digits;
    assert number[0] == '+' && number[1..] == digits;
    assert RemovePlus(number) == RemovePlus(digits);
  }
}
