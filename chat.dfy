/** The keyword responder of POST /ai-chat: the message is lower-cased and the
    first rule, in a fixed order, one of whose keywords occurs in it (anywhere,
    also inside a longer word) gives the reply; with no such rule the assistant
    answers with its greeting. */
module ChatResponder {
  import opened Base
  import opened Text

  /** A rule of the responder: the keywords that trigger it and the answer it gives. */
  datatype Rule = Rule(keywords: seq<string>, answer: Answer)

  /** The answers the assistant can give: one per rule, and the greeting. */
  datatype Answer =
    | AboutReferrals | AboutPayment | AboutNumbers | AboutKyc | AboutSupport | AboutPrices
    | AboutWallet | AboutCountries | Hello | Thanks | Greeting

  /** The text of an answer. */
  function ReplyText(a: Answer): string
  {
    match a
    case AboutReferrals =>
      "Our referral program is simple! You earn \U{20A6}100 for each new user you refer. Just share your unique referral link from your dashboard. The earnings go directly to your referral wallet which you can withdraw at any time!"
    case AboutPayment =>
      "We accept multiple payment methods: Bank transfer to account 8121320468 (Opay, Keno Darlington Avwunudiogba), wallet balance, and direct Opay transfers. After payment, your order will be processed immediately!"
    case AboutNumbers =>
      "Our WhatsApp numbers are sourced from trusted providers and delivered instantly after payment confirmation. After purchase, you'll receive the number and activation code. Numbers can be used for WhatsApp, Telegram, Signal, WeChat and other messaging apps!"
    case AboutKyc =>
      "KYC verification is required to unlock all platform features. Go to the KYC page from your dashboard, upload your ID (front and back) and a selfie. Our team reviews submissions within 24 hours. Approved users can access referral rewards and higher purchasing limits!"
    case AboutSupport =>
      "I'm sorry you're experiencing issues! For technical support, please describe your problem in detail. For payment issues, contact us at support@etherdoxshefzysms.com or message our admin on WhatsApp at +234 708 850 1777."
    case AboutPrices =>
      "Our number prices vary based on country and service type. Nigerian numbers start at \U{20A6}1,500, while US and UK numbers start at \U{20A6}3,500. Bulk discounts are available for purchases of 5 or more numbers. Check our store for current pricing and special offers!"
    case AboutWallet =>
      "You have two wallet types: your main balance for purchases and your referral wallet for referral earnings. You can withdraw from your referral wallet once you reach \U{20A6}1,000. Withdrawals are processed within 24 hours to your specified bank account."
    case AboutCountries =>
      "We offer numbers from multiple countries including Nigeria, Indonesia, United States, United Kingdom, Canada, Australia, Germany, France, Brazil, India, and China. Each country has different pricing and availability. Check our store for current inventory!"
    case Hello =>
      "Hello! Welcome to ETHERDOXSHEFZYSMS. I'm ETHERVOX AI, your personal assistant. How may I help you today? Feel free to ask about our services, payment methods, or referral program!"
    case Thanks =>
      "You're welcome! I'm glad I could help. If you have any other questions, feel free to ask. We appreciate your business and trust in ETHERDOXSHEFZYSMS!"
    case Greeting =>
      "I'm ETHERVOX AI, your virtual assistant. How can I help you today?"
  }

  /** The rules in the order the route tries them. */
  const Rules: seq<Rule> := [
    Rule(["referral", "refer"], AboutReferrals),
    Rule(["payment", "pay", "transfer"], AboutPayment),
    Rule(["whatsapp", "number"], AboutNumbers),
    Rule(["kyc", "verify", "verification"], AboutKyc),
    Rule(["problem", "issue", "help"], AboutSupport),
    Rule(["price", "cost", "expensive"], AboutPrices),
    Rule(["wallet", "balance", "withdraw"], AboutWallet),
    Rule(["country", "nigeria", "international"], AboutCountries),
    Rule(["hello", "hi", "hey"], Hello),
    Rule(["thank"], Thanks)
  ]

  /** Some keyword of `rule` occurs in `text`. */
  predicate Mentions(rule: Rule, text: string)
  {
    exists k :: k in rule.keywords && Contains(text, k)
  }

  /** The index of the first rule that `text` mentions, if any. */
  function FirstMatch(rules: seq<Rule>, text: string): (r: Option<nat>)
    ensures r.Some? ==> r.value < |rules| && Mentions(rules[r.value], text)
    ensures r.Some? ==> forall j :: 0 <= j < r.value ==> !Mentions(rules[j], text)
    ensures r.None? <==> forall j :: 0 <= j < |rules| ==> !Mentions(rules[j], text)
  {
    if rules == [] then None
    else if Mentions(rules[0], text) then Some(0)
    else
      var rest := FirstMatch(rules[1..], text);
      if rest.None? then None else Some(rest.value + 1)
  }

  /** The answer to a chat message. */
  function Respond(message: string): Answer
  {
    var m := FirstMatch(Rules, ToLower(message));
    if m.Some? then Rules[m.value].answer else Greeting
  }

  /** The first rule the lower-cased message mentions gives the reply, whatever
      later rules it also mentions. */
  lemma RespondFirstMention(message: string, i: int)
    requires 0 <= i < |Rules| && Mentions(Rules[i], ToLower(message))
    requires forall j :: 0 <= j < i ==> !Mentions(Rules[j], ToLower(message))
    ensures Respond(message) == Rules[i].answer
  {
  }

  /** A message that mentions no rule is answered with the greeting. */
  lemma RespondGreets(message: string)
    requires forall j :: 0 <= j < |Rules| ==> !Mentions(Rules[j], ToLower(message))
    ensures Respond(message) == Greeting
  {
  }

  /** The reply does not depend on the case of the ASCII letters of the message. */
  lemma RespondIgnoresCase(message: string)
    ensures Respond(ToLower(message)) == Respond(message)
  {
    ToLowerIdempotent(message);
  }

  /** Keywords match inside longer words: a message containing "this" mentions
      "hi", so unless an earlier rule applies it gets the hello reply, even when
      it also says "thank". */
  lemma {:induction false} ThisCountsAsHello(message: string)
    requires Contains(ToLower(message), "this")
    requires forall j :: 0 <= j < 8 ==> !Mentions(Rules[j], ToLower(message))
    ensures Respond(message) == Hello
  {
    var text := ToLower(message);
    ContainsAt(text, "this");
    var i :| 0 <= i <= |text| && StartsWith(text[i..], "this");
    assert text[i + 1..][..2] == "hi" by {
      assert text[i..][..4] == "this";
      assert text[i + 1] == text[i..][..4][1] == 'h';
      assert text[i + 2] == text[i..][..4][2] == 'i';
    }
    assert StartsWith(text[i + 1..], "hi");
    ContainsAt(text, "hi");
    assert "hi" in Rules[8].keywords;
  }
}
