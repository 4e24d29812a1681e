/** The chat and booking widget: the conversation list, the canned bot replies chosen by
    keyword, and the value a consultation type reports when it is picked. */
module Chat {
  import opened Wrappers
  import opened Text

  datatype Sender = User | Bot | Agent

  /** A chat message; its id, timestamp and display type are not modelled. */
  datatype ChatMessage = ChatMessage(text: string, sender: Sender)

  const Greeting: string := "Hi! I'm Isaac's AI assistant. How can I help you today?"

  /** The bot's canned replies: the default and one per keyword. */
  datatype Reply = DefaultReply | AiImplementationReply | PricingReply | ConsultationReply | ScheduleReply | ResourcesReply

  function ReplyText(reply: Reply): string {
    match reply
    case DefaultReply =>
      "Thanks for your message! Isaac typically responds within a few hours. For immediate assistance, you can schedule a consultation or download our resources."
    case AiImplementationReply =>
      "AI implementation typically involves assessment, pilot projects, and gradual rollout. Isaac specializes in banking AI, voice agents, and risk management systems. Would you like to schedule a discovery call?"
    case PricingReply =>
      "Isaac offers various consultation packages starting with a free 30-minute discovery call. For detailed pricing on implementation projects, I'd recommend scheduling a technical consultation."
    case ConsultationReply =>
      "Great! Isaac offers three types of consultations: Discovery Call (Free, 30 min), Technical Deep Dive (£300, 60 min), and Strategy Session (£500, 90 min). Which interests you?"
    case ScheduleReply =>
      "I can help you schedule a meeting with Isaac. What type of consultation would you prefer?"
    case ResourcesReply =>
      "We have excellent resources including AI Banking Transformation Guide, Voice Agents Playbook, and Risk Management Framework. Would you like me to share the download links?"
  }

  /** The keyword table, in its declaration order, which is the order it is scanned in. */
  const BotResponses: seq<(string, Reply)> := [
    ("ai implementation", AiImplementationReply),
    ("pricing", PricingReply),
    ("consultation", ConsultationReply),
    ("schedule", ScheduleReply),
    ("resources", ResourcesReply)
  ]

  /** The reply after the scan has looked at the first `n` keywords of the table: each
      keyword the text contains replaces the reply chosen so far. */
  function ReplyAfter(text: string, n: nat): Reply
    requires n <= |BotResponses|
  {
    if n == 0 then DefaultReply
    else if Contains(text, BotResponses[n - 1].0) then BotResponses[n - 1].1
    else ReplyAfter(text, n - 1)
  }

  /** The reply to a message: the scan over the whole table of the lower-cased text. */
  function ReplyFor(message: string): Reply {
    ReplyAfter(ToLower(message), |BotResponses|)
  }

  /** The reply is the default when no keyword occurs, and otherwise the reply of the last
      keyword in table order that occurs. */
  lemma {:induction false} ReplyAfterIsLastMatch(text: string, n: nat)
    requires n <= |BotResponses|
    ensures (forall j :: 0 <= j < n ==> !Contains(text, BotResponses[j].0)) ==> ReplyAfter(text, n) == DefaultReply
    ensures forall j :: 0 <= j < n && Contains(text, BotResponses[j].0)
                        && (forall k :: j < k < n ==> !Contains(text, BotResponses[k].0))
                        ==> ReplyAfter(text, n) == BotResponses[j].1
  {
    if n > 0 {
      ReplyAfterIsLastMatch(text, n - 1);
    }
  }

  /** `Object.entries(botResponses).forEach(...)`: the reply chosen by scanning the table
      in order and keeping the last keyword the lower-cased message contains. */
  method SelectResponse(message: string) returns (response: string)
    ensures response == ReplyText(ReplyFor(message))
  {
    var messageText := ToLower(message);
    var chosen := DefaultReply;
    for i := 0 to |BotResponses|
      invariant chosen == ReplyAfter(messageText, i)
    {
      var (key, reply) := BotResponses[i];
      if Contains(messageText, key) {
        chosen := reply;
      }
    }
    response := ReplyText(chosen);
  }

  /** 'schedule' comes after 'ai implementation', 'pricing' and 'consultation' in the
      table, so a message naming it and not 'resources' gets the scheduling reply whatever
      else it says ("Can I schedule a consultation about pricing?"). */
  lemma ScheduleOutranksEarlierKeywords(message: string)
    requires Contains(ToLower(message), "schedule") && !Contains(ToLower(message), "resources")
    ensures ReplyFor(message) == ScheduleReply
  {
    ReplyAfterIsLastMatch(ToLower(message), |BotResponses|);
    assert BotResponses[3].0 == "schedule" && BotResponses[4].0 == "resources";
  }

  /** A message naming none of the keywords, in any letter case, gets the default reply. */
  lemma NoKeywordGetsDefault(message: string)
    requires forall j :: 0 <= j < |BotResponses| ==> !Contains(ToLower(message), BotResponses[j].0)
    ensures ReplyFor(message) == DefaultReply
  {
    ReplyAfterIsLastMatch(ToLower(message), |BotResponses|);
  }

  /** A message without the letters of any keyword's first character, such as "Hello",
      cannot contain a keyword. */
  lemma HelloGetsDefault()
    ensures ReplyFor("Hello") == DefaultReply
  {
    var text := ToLower("Hello");
    assert text == "hello" by {
      assert |text| == 5 && text[0] == 'h' && text[1] == 'e' && text[2] == 'l' && text[3] == 'l' && text[4] == 'o';
    }
    forall j | 0 <= j < |BotResponses|
      ensures !Contains(text, BotResponses[j].0)
    {
      NotContainsMissingChar(text, BotResponses[j].0, 0);
    }
    NoKeywordGetsDefault("Hello");
  }

  /** A consultation type; its description, icon and booking link are not modelled. */
  datatype Consultation = Consultation(id: string, title: string, duration: string, price: string)

  const ConsultationTypes: seq<Consultation> := [
    Consultation("discovery-call", "Discovery Call", "30 minutes", "Free"),
    Consultation("technical-consultation", "Technical Deep Dive", "60 minutes", "£300"),
    Consultation("strategy-session", "Strategy Session", "90 minutes", "£500")
  ]

  /** `price === "Free" ? 0 : parseInt(price.replace(/[^0-9]/g, ''))`; a price without
      digits gives NaN, which is `None`. */
  function BookingValue(price: string): (r: Option<int>)
    ensures price == "Free" ==> r == Some(0)
    ensures price != "Free" ==> (r.None? <==> KeepDigits(price) == "")
    ensures price != "Free" ==> (r.None? <==> forall i :: 0 <= i < |price| ==> !IsDigit(price[i]))
    ensures price != "Free" && KeepDigits(price) != "" ==>
              r == Some(DigitsValue(KeepDigits(price), 0, |KeepDigits(price)|))
    ensures r.Some? ==> r.value >= 0
  {
    if price == "Free" then Some(0)
    else
      var digits := KeepDigits(price);
      if digits == "" then ParseInt(digits)
      else ParseIntDigits(digits); ParseInt(digits)
  }

  /** A pound sign followed by digits reports the number the digits denote. */
  lemma PoundDigitsValue(digits: string)
    requires digits != "" && AllDigits(digits)
    ensures BookingValue("£" + digits) == Some(DigitsValue(digits, 0, |digits|))
  {
    var price := "£" + digits;
    assert price != "Free" by {
      assert price[0] != "Free"[0];
    }
    assert KeepDigits(price) == digits by {
      assert price[1..] == digits;
      KeepDigitsOfDigits(digits);
    }
  }

  /** A pound price built from a number reports that number. */
  lemma PoundPriceValue(n: nat)
    ensures BookingValue("£" + IntToString(n)) == Some(n)
  {
    PoundDigitsValue(NatToDigits(n));
    DigitsValueOfNat(n);
  }

  /** The Technical Deep Dive's price reports 300. */
  lemma TechnicalDeepDiveValue()
    ensures BookingValue("£300") == Some(300)
  {
    PoundDigitsValue("300");
    assert "£300" == "£" + "300";
    assert DigitsValue("300", 0, 3) == 300;
  }

  /** The Strategy Session's price reports 500. */
  lemma StrategySessionValue()
    ensures BookingValue("£500") == Some(500)
  {
    PoundDigitsValue("500");
    assert "£500" == "£" + "500";
    assert DigitsValue("500", 0, 3) == 500;
  }

  /** The three consultation types report 0, 300 and 500. */
  lemma ConsultationValues()
    ensures BookingValue(ConsultationTypes[0].price) == Some(0)
    ensures BookingValue(ConsultationTypes[1].price) == Some(300)
    ensures BookingValue(ConsultationTypes[2].price) == Some(500)
  {
    TechnicalDeepDiveValue();
    StrategySessionValue();
  }

  /** The widget's conversation and booking state. */
  class ChatWidget {
    var messages: seq<ChatMessage>
    var newMessage: string
    var isTyping: bool
    var selectedConsultation: Option<Consultation>
    var showCalendly: bool

    /** The conversation always opens with the bot's greeting. */
    predicate Valid()
      reads this
    {
      |messages| >= 1 && messages[0] == ChatMessage(Greeting, Bot)
    }

    constructor ()
      ensures Valid() && messages == [ChatMessage(Greeting, Bot)]
      ensures newMessage == "" && !isTyping && selectedConsultation.None? && !showCalendly
    {
      messages := [ChatMessage(Greeting, Bot)];
      newMessage := "";
      isTyping := false;
      selectedConsultation := None;
      showCalendly := false;
    }

    /** `handleSendMessage` up to the timer: a blank input is ignored; otherwise the input
        is appended as the visitor's message, cleared, and the typing indicator shown. The
        text the timer will answer is returned. */
    method HandleSendMessage() returns (pending: Option<string>)
      requires Valid()
      modifies this
      ensures Valid()
      ensures IsBlank(old(newMessage)) ==>
                pending.None? && messages == old(messages) && newMessage == old(newMessage) && isTyping == old(isTyping)
      ensures !IsBlank(old(newMessage)) ==>
                pending == Some(old(newMessage)) && messages == old(messages) + [ChatMessage(old(newMessage), User)]
                && newMessage == "" && isTyping
      ensures selectedConsultation == old(selectedConsultation) && showCalendly == old(showCalendly)
    {
      if IsBlank(newMessage) {
        return None;
      }
      var sent := newMessage;
      messages := messages + [ChatMessage(sent, User)];
      newMessage := "";
      isTyping := true;
      pending := Some(sent);
    }

    /** The timer callback: the reply to the sent text is appended and the typing
        indicator hidden. */
    method DeliverReply(sent: string)
      requires Valid()
      modifies this
      ensures Valid()
      ensures messages == old(messages) + [ChatMessage(ReplyText(ReplyFor(sent)), Bot)] && !isTyping
      ensures newMessage == old(newMessage)
      ensures selectedConsultation == old(selectedConsultation) && showCalendly == old(showCalendly)
    {
      var response := SelectResponse(sent);
      messages := messages + [ChatMessage(response, Bot)];
      isTyping := false;
    }

    /** `handleBookingSelect`: the chosen type is kept and the calendar shown; the value it
        reports is returned. */
    method BookingSelect(consultation: Consultation) returns (value: Option<int>)
      modifies this
      ensures selectedConsultation == Some(consultation) && showCalendly
      ensures value == BookingValue(consultation.price)
      ensures messages == old(messages) && newMessage == old(newMessage) && isTyping == old(isTyping)
    {
      selectedConsultation := Some(consultation);
      showCalendly := true;
      value := BookingValue(consultation.price);
    }
  }
}
