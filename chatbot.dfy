/** The site's chat assistant: a message list that starts with a greeting
    and grows by a user message and a canned reply, the reply chosen by the
    first keyword phrase found in the lower-cased message. */
module Chat {
  import opened Text

  datatype Sender = User | Bot

  datatype Message = Message(id: int, text: string, sender: Sender)

  const GreetingText := "Hello! I'm your virtual assistant for Infinite Mobile Carwash & Detailing. How can I help you today?"

  const Greeting := Message(1, GreetingText, Bot)

  const QuickReplies: seq<string> := [
    "What services do you offer?",
    "How much does a full valet cost?",
    "Do you come to my location?",
    "How do I book a service?",
    "What areas do you cover?"
  ]

  const ServicesAnswer := "We offer a comprehensive range of services including Car Wash (£7-£14), Mini Valet (£14-£20), Full Valet (£45-£70), Interior Detailing (£120), Exterior Detailing (£200), Full Detailing (£300), and Stage 1 & 2 Polishing (£400-£550). All services use our scratch-free, non-contact cleaning process."
  const FullValetAnswer := "Our Full Valet service costs £45 for small cars, £55 for medium cars, £65 for large cars, and £70 for vans. This includes complete exterior wash, interior deep clean, leather/fabric conditioning, and wheel arch cleaning."
  const LocationAnswer := "Yes! We're a mobile service that comes directly to your location - whether that's your home, office, or anywhere convenient for you in Derby and surrounding areas. You can also visit our unit if you prefer."
  const BookingAnswer := "You can book through our website booking system, call us at 07403139086, or send us an email at infinitemobilecarwashdetailing@gmail.com. Our booking system prevents double bookings and you can track your service in real-time."
  const AreasAnswer := "We proudly serve Derby and its surrounding areas. If you're unsure whether we cover your specific location, please give us a call at 07403139086 and we'll confirm availability."
  const DefaultAnswer := "I'd be happy to help! For specific questions about our services, pricing, or booking, please call us at 07403139086 or email infinitemobilecarwashdetailing@gmail.com. You can also browse our Services and Pricing pages for detailed information."

  /** `botResponses` as its entries come out of `Object.entries`, in
      declaration order, the "default" entry last. */
  const BotResponses: seq<(string, string)> := [
    ("what services do you offer", ServicesAnswer),
    ("how much does a full valet cost", FullValetAnswer),
    ("do you come to my location", LocationAnswer),
    ("how do i book a service", BookingAnswer),
    ("what areas do you cover", AreasAnswer),
    ("default", DefaultAnswer)
  ]

  /** The reply of the first entry of `entries`, skipping "default", whose
      key occurs in `lower`. */
  function FirstMatch(entries: seq<(string, string)>, lower: string): Option<string>
  {
    if entries == [] then None
    else if entries[0].0 != "default" && Contains(lower, entries[0].0) then Some(entries[0].1)
    else FirstMatch(entries[1..], lower)
  }

  /** The entry at `i` matches `lower` and no entry before it does. */
  predicate FirstMatchAt(entries: seq<(string, string)>, lower: string, i: int)
  {
    0 <= i < |entries| && entries[i].0 != "default" && Contains(lower, entries[i].0) &&
    forall j :: 0 <= j < i ==> !(entries[j].0 != "default" && Contains(lower, entries[j].0))
  }

  /** `FirstMatch` finds the earliest matching entry, and finds nothing only
      when no entry matches. */
  lemma {:induction false} FirstMatchSpec(entries: seq<(string, string)>, lower: string)
    ensures FirstMatch(entries, lower).Some? ==>
      exists i :: FirstMatchAt(entries, lower, i) && entries[i].1 == FirstMatch(entries, lower).value
    ensures FirstMatch(entries, lower).None? <==>
      forall j :: 0 <= j < |entries| ==> !(entries[j].0 != "default" && Contains(lower, entries[j].0))
  {
    if entries != [] {
      FirstMatchSpec(entries[1..], lower);
      if !(entries[0].0 != "default" && Contains(lower, entries[0].0)) {
        if FirstMatch(entries, lower).Some? {
          var i :| FirstMatchAt(entries[1..], lower, i) && entries[1..][i].1 == FirstMatch(entries, lower).value;
          assert FirstMatchAt(entries, lower, i + 1);
        }
        assert forall j :: 1 <= j < |entries| ==> entries[j] == entries[1..][j - 1];
      } else {
        assert FirstMatchAt(entries, lower, 0);
      }
    }
  }

  /** The reply to a message: the first matching entry's reply, else the
      default one. */
  function ReplyFor(messageText: string): string
  {
    match FirstMatch(BotResponses, Lower(messageText))
    case Some(r) => r
    case None => DefaultAnswer
  }

  /** The matching loop of `handleSendMessage`, stopping at the first match. */
  method FindResponse(messageText: string) returns (response: string)
    ensures response == ReplyFor(messageText)
  {
    var lowerMessage := Lower(messageText);
    response := DefaultAnswer;
    var i := 0;
    while i < |BotResponses|
      invariant 0 <= i <= |BotResponses|
      invariant FirstMatch(BotResponses, lowerMessage) == FirstMatch(BotResponses[i..], lowerMessage)
      invariant response == DefaultAnswer
    {
      var (key, value) := BotResponses[i];
      assert BotResponses[i..][1..] == BotResponses[i + 1..];
      if key != "default" && Contains(lowerMessage, key) {
        response := value;
        break;
      }
      i := i + 1;
    }
  }

  /** Each quick reply, sent as is, gets its own specific answer. */
  lemma QuickReplyAnswers()
    ensures ReplyFor(QuickReplies[0]) == ServicesAnswer
    ensures ReplyFor(QuickReplies[1]) == FullValetAnswer
    ensures ReplyFor(QuickReplies[2]) == LocationAnswer
    ensures ReplyFor(QuickReplies[3]) == BookingAnswer
    ensures ReplyFor(QuickReplies[4]) == AreasAnswer
  {
    ServicesReply();
    FullValetReply();
    LocationReply();
    BookingReply();
    AreasReply();
  }

  /** Entries whose keys are all missing from the message are passed over. */
  lemma {:induction false} SkipEntries(entries: seq<(string, string)>, lower: string, n: nat)
    requires n <= |entries|
    requires forall k :: 0 <= k < n ==> !Contains(lower, entries[k].0)
    ensures FirstMatch(entries, lower) == FirstMatch(entries[n..], lower)
  {
    if n > 0 {
      SkipEntries(entries[1..], lower, n - 1);
      assert entries[1..][n - 1..] == entries[n..];
    }
  }

  /** A first entry whose key starts the message answers it. */
  lemma HitEntry(entries: seq<(string, string)>, lower: string)
    requires entries != [] && entries[0].0 != "default" && OccursAt(lower, entries[0].0, 0)
    ensures FirstMatch(entries, lower) == Some(entries[0].1)
  {
  }

  lemma ServicesMatch()
    ensures FirstMatch(BotResponses, "what services do you offer?") == Some(ServicesAnswer)
  {
    HitEntry(BotResponses[0..], "what services do you offer?");
  }

  lemma ServicesReply()
    ensures ReplyFor(QuickReplies[0]) == ServicesAnswer
  {
    assert Lower(QuickReplies[0]) == "what services do you offer?";
    ServicesMatch();
  }

  lemma FullValetNoEarlierKey()
    ensures !Contains("how much does a full valet cost?", "what services do you offer")
  {
    MissingCharNotContained("how much does a full valet cost?", "what services do you offer", 'r');
  }

  lemma FullValetMatch()
    ensures FirstMatch(BotResponses, "how much does a full valet cost?") == Some(FullValetAnswer)
  {
    FullValetNoEarlierKey();
    SkipEntries(BotResponses, "how much does a full valet cost?", 1);
    HitEntry(BotResponses[1..], "how much does a full valet cost?");
  }

  lemma FullValetReply()
    ensures ReplyFor(QuickReplies[1]) == FullValetAnswer
  {
    assert Lower(QuickReplies[1]) == "how much does a full valet cost?";
    FullValetMatch();
  }

  lemma LocationNoEarlierKey()
    ensures !Contains("do you come to my location?", "what services do you offer")
    ensures !Contains("do you come to my location?", "how much does a full valet cost")
  {
    MissingCharNotContained("do you come to my location?", "what services do you offer", 'r');
    MissingCharNotContained("do you come to my location?", "how much does a full valet cost", 'h');
  }

  lemma LocationMatch()
    ensures FirstMatch(BotResponses, "do you come to my location?") == Some(LocationAnswer)
  {
    LocationNoEarlierKey();
    SkipEntries(BotResponses, "do you come to my location?", 2);
    HitEntry(BotResponses[2..], "do you come to my location?");
  }

  lemma LocationReply()
    ensures ReplyFor(QuickReplies[2]) == LocationAnswer
  {
    assert Lower(QuickReplies[2]) == "do you come to my location?";
    LocationMatch();
  }

  lemma BookingNoEarlierKey()
    ensures !Contains("how do i book a service?", "what services do you offer")
    ensures !Contains("how do i book a service?", "how much does a full valet cost")
    ensures !Contains("how do i book a service?", "do you come to my location")
  {
    MissingCharNotContained("how do i book a service?", "what services do you offer", 'f');
    MissingCharNotContained("how do i book a service?", "how much does a full valet cost", 'f');
    MissingCharNotContained("how do i book a service?", "do you come to my location", 'y');
  }

  lemma BookingMatch()
    ensures FirstMatch(BotResponses, "how do i book a service?") == Some(BookingAnswer)
  {
    BookingNoEarlierKey();
    SkipEntries(BotResponses, "how do i book a service?", 3);
    HitEntry(BotResponses[3..], "how do i book a service?");
  }

  lemma BookingReply()
    ensures ReplyFor(QuickReplies[3]) == BookingAnswer
  {
    assert Lower(QuickReplies[3]) == "how do i book a service?";
    BookingMatch();
  }

  lemma AreasNoEarlierKey()
    ensures !Contains("what areas do you cover?", "what services do you offer")
    ensures !Contains("what areas do you cover?", "how much does a full valet cost")
    ensures !Contains("what areas do you cover?", "do you come to my location")
    ensures !Contains("what areas do you cover?", "how do i book a service")
  {
    MissingCharNotContained("what areas do you cover?", "what services do you offer", 'i');
    MissingCharNotContained("what areas do you cover?", "how much does a full valet cost", 'l');
    MissingCharNotContained("what areas do you cover?", "do you come to my location", 'l');
    MissingCharNotContained("what areas do you cover?", "how do i book a service", 'i');
  }

  lemma AreasMatch()
    ensures FirstMatch(BotResponses, "what areas do you cover?") == Some(AreasAnswer)
  {
    AreasNoEarlierKey();
    SkipEntries(BotResponses, "what areas do you cover?", 4);
    HitEntry(BotResponses[4..], "what areas do you cover?");
  }

  lemma AreasReply()
    ensures ReplyFor(QuickReplies[4]) == AreasAnswer
  {
    assert Lower(QuickReplies[4]) == "what areas do you cover?";
    AreasMatch();
  }

  class ChatBot {
    var messages: seq<Message>
    var inputMessage: string

    /** The greeting comes first and every message's id is its position
        plus one. */
    ghost predicate Valid()
      reads this
    {
      |messages| >= 1 && messages[0] == Greeting &&
      forall i :: 0 <= i < |messages| ==> messages[i].id == i + 1
    }

    constructor ()
      ensures Valid() && messages == [Greeting] && inputMessage == ""
    {
      messages := [Greeting];
      inputMessage := "";
    }

    method TypeInput(text: string)
      modifies this`inputMessage
      ensures inputMessage == text
    {
      inputMessage := text;
    }

    /** `handleSendMessage`, with the delayed reply taken as part of the
        same step: a blank message changes nothing; otherwise the user's
        message and the reply are appended with the next two ids and the
        input is cleared. */
    method SendMessage(messageText: string)
      requires Valid()
      modifies this
      ensures Valid()
      ensures old(messages) <= messages
      ensures AllSpace(messageText) ==> messages == old(messages) && inputMessage == old(inputMessage)
      ensures !AllSpace(messageText) ==>
        messages == old(messages) + [Message(|old(messages)| + 1, messageText, User),
                                     Message(|old(messages)| + 2, ReplyFor(messageText), Bot)]
        && inputMessage == ""
      ensures !AllSpace(messageText) ==> VisibleQuickReplies() == []
      ensures old(VisibleQuickReplies()) == [] ==> VisibleQuickReplies() == []
    {
      TrimEmptyIff(messageText);
      if Trim(messageText) == "" {
        return;
      }
      var n := |messages|;
      messages := messages + [Message(n + 1, messageText, User)];
      inputMessage := "";
      var response := FindResponse(messageText);
      messages := messages + [Message(n + 2, response, Bot)];
    }

    /** The send button and the Enter key send what is typed. */
    method SendInput()
      requires Valid()
      modifies this
      ensures Valid()
      ensures old(messages) <= messages
      ensures AllSpace(old(inputMessage)) ==> messages == old(messages) && inputMessage == old(inputMessage)
      ensures !AllSpace(old(inputMessage)) ==>
        messages == old(messages) + [Message(|old(messages)| + 1, old(inputMessage), User),
                                     Message(|old(messages)| + 2, ReplyFor(old(inputMessage)), Bot)]
        && inputMessage == ""
      ensures !AllSpace(old(inputMessage)) ==> VisibleQuickReplies() == []
      ensures old(VisibleQuickReplies()) == [] ==> VisibleQuickReplies() == []
    {
      SendMessage(inputMessage);
    }

    /** The quick-reply buttons: the first three, only before anything has
        been sent. */
    function VisibleQuickReplies(): (r: seq<string>)
      reads this
      ensures |messages| == 1 ==> r == QuickReplies[..3]
      ensures |messages| != 1 ==> r == []
    {
      if |messages| == 1 then QuickReplies[..3] else []
    }
  }

}
