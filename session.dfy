/**
  The conversation agent (`LLMAgent`, app/llm.py:12-701): the conversation
  history, the booking it fills turn by turn, the vehicle and body tables it
  matches against, and the end-of-call test.

  The chat-completion service is outside the model: its reply to a turn is a
  parameter (`None` when the call fails), and so are the truck and body names
  the database returns.
 */
module Session {
  import opened Wrappers
  import opened Text
  import opened Booking
  import opened SpokenDigits
  import opened Keywords
  import opened Extraction
  import opened Confirmation

  datatype Role = System | User | Assistant

  datatype Message = Message(role: Role, content: string)

  // ---------------------------------------------------------------------
  // The context window (app/llm.py:269-284)

  /** The system messages, in order. */
  function Systems(h: seq<Message>): (r: seq<Message>)
    ensures forall k :: 0 <= k < |r| ==> r[k].role == System
  {
    if h == [] then []
    else (if h[0].role == System then [h[0]] else []) + Systems(h[1..])
  }

  /** The user and assistant messages, in order. */
  function Others(h: seq<Message>): (r: seq<Message>)
    ensures forall k :: 0 <= k < |r| ==> r[k].role != System
  {
    if h == [] then []
    else (if h[0].role != System then [h[0]] else []) + Others(h[1..])
  }

  /** `s[start:]` for any integer `start`: a negative start counts from the end. */
  function SliceFrom<T>(s: seq<T>, start: int): seq<T> {
    if start >= |s| then []
    else if start >= 0 then s[start..]
    else if -start >= |s| then s
    else s[|s| + start..]
  }

  /** `_get_recent_messages(max_exchanges)` */
  function RecentMessages(h: seq<Message>, maxExchanges: int): seq<Message> {
    Systems(h) + SliceFrom(Others(h), -(2 * maxExchanges))
  }

  function Min(a: int, b: int): int {
    if a <= b then a else b
  }

  /** A negative start `-n` keeps the last `n` elements, or all of them when
      there are fewer. */
  lemma SliceFromEnd<T>(s: seq<T>, n: int)
    requires n >= 1
    ensures SliceFrom(s, -n) == s[|s| - Min(n, |s|)..]
    ensures |SliceFrom(s, -n)| <= n
  {
    if n >= |s| {
      assert s[0..] == s;
    }
  }

  /** The window keeps every system message and, for a positive bound, the
      last 2 * bound other messages (all of them when there are fewer); a
      bound of 0 keeps everything, because `-0` slices from the start. */
  lemma RecentMessagesSpec(h: seq<Message>, maxExchanges: int)
    ensures maxExchanges >= 1 ==>
      RecentMessages(h, maxExchanges) ==
        Systems(h) + Others(h)[|Others(h)| - Min(2 * maxExchanges, |Others(h)|)..]
    ensures maxExchanges >= 1 ==> |RecentMessages(h, maxExchanges)| <= |Systems(h)| + 2 * maxExchanges
    ensures maxExchanges == 0 ==> RecentMessages(h, maxExchanges) == Systems(h) + Others(h)
  {
    var o := Others(h);
    if maxExchanges >= 1 {
      SliceFromEnd(o, 2 * maxExchanges);
    } else if maxExchanges == 0 {
      assert o[0..] == o;
    }
  }

  /** Splitting by role loses and invents no message. */
  lemma {:induction false} SystemsOthersPartition(h: seq<Message>)
    ensures multiset(Systems(h)) + multiset(Others(h)) == multiset(h)
    decreases |h|
  {
    if h != [] {
      SystemsOthersPartition(h[1..]);
      assert h == [h[0]] + h[1..];
    }
  }

  // ---------------------------------------------------------------------
  // End of call (app/llm.py:201-234)

  const ClosingPhrases := ["have a great day", "have a good day", "thank you for your time", "goodbye",
                           "bye", "our sales person will contact you soon", "you can contact droptruck anytime"]

  /** Whether an assistant message ends the call: non-empty, and, lower-cased,
      holding the marker or a closing phrase. */
  predicate ClosesCall(content: string) {
    var lower := Lower(content);
    lower != "" && (Contains(lower, "booking_confirmed") || AnyContained(ClosingPhrases, lower))
  }

  /** The content of the last assistant message, if any. */
  function LastAssistant(h: seq<Message>): Option<string>
    decreases |h|
  {
    if h == [] then None
    else if h[|h| - 1].role == Assistant then Some(h[|h| - 1].content)
    else LastAssistant(h[..|h| - 1])
  }

  predicate CallComplete(h: seq<Message>) {
    LastAssistant(h).Some? && ClosesCall(LastAssistant(h).value)
  }

  /** `LastAssistant` finds the assistant message with no assistant message after it. */
  lemma {:induction false} LastAssistantSpec(h: seq<Message>)
    ensures LastAssistant(h).None? <==> forall k :: 0 <= k < |h| ==> h[k].role != Assistant
    ensures LastAssistant(h).Some? ==>
      exists j :: 0 <= j < |h| && h[j] == Message(Assistant, LastAssistant(h).value)
        && forall k :: j < k < |h| ==> h[k].role != Assistant
    decreases |h|
  {
    if h != [] && h[|h| - 1].role != Assistant {
      var front := h[..|h| - 1];
      LastAssistantSpec(front);
      assert forall k :: 0 <= k < |front| ==> front[k] == h[k];
      if LastAssistant(front).Some? {
        var j :| 0 <= j < |front| && front[j] == Message(Assistant, LastAssistant(front).value)
          && forall k :: j < k < |front| ==> front[k].role != Assistant;
        assert h[j] == front[j];
      }
    }
  }

  /** A reply carrying the submission marker ends the call. */
  lemma MarkerClosesCall(content: string)
    requires HasMarker(content)
    ensures ClosesCall(content)
  {
    ContainsLower(content, "BOOKING_CONFIRMED");
    assert Lower("BOOKING_CONFIRMED") == "booking_confirmed";
  }

  // ---------------------------------------------------------------------
  // One turn (app/llm.py:129-199)

  const RepeatPrompt := "I didn't catch that. Could you please repeat?"
  const EchoPrefix := "[Echo Mode] You said: "
  const TroublePrompt := "I'm having trouble processing that right now. Could you try again?"
  const MaxExchanges := 10

  /** The booking after the customer's words: extraction, then keyword detection. */
  function UserTurn(r: Record, text: string, env: Env): Record {
    var r1 := ExtractBookingInfo(r, text, env);
    r1.(confirmationStatus := DetectConfirmation(r1.confirmationStatus, text))
  }

  /** The booking after the assistant's reply: extraction, the confirmation
      echo, then the marker. */
  function ReplyTurn(r: Record, reply: string, env: Env): Record {
    var r1 := ExtractFromConfirmation(ExtractBookingInfo(r, reply, env), reply, env.search);
    r1.(confirmationStatus := AfterMarker(r1.confirmationStatus, reply))
  }

  /** Whether the turn gets past the blank-input test. */
  predicate Heard(userText: string) {
    Strip(userText) != ""
  }

  /** The booking after a whole turn. The two extraction passes each query the
      database and the clock afresh, so each has its own inputs. */
  function TurnRecord(r: Record, userText: string, reply: Option<string>, userEnv: Env, replyEnv: Env, online: bool): Record {
    if !Heard(userText) then r
    else if online && reply.Some? then ReplyTurn(UserTurn(r, userText, userEnv), reply.value, replyEnv)
    else UserTurn(r, userText, userEnv)
  }

  /** What the turn answers. */
  function TurnResponse(userText: string, reply: Option<string>, online: bool): string {
    if !Heard(userText) then RepeatPrompt
    else if !online then EchoPrefix + userText
    else reply.GetOr(TroublePrompt)
  }

  /** The history after a turn. */
  function TurnHistory(h: seq<Message>, userText: string, reply: Option<string>, online: bool): seq<Message> {
    if !Heard(userText) || !online then h
    else if reply.Some? then h + [Message(User, userText), Message(Assistant, reply.value)]
    else h + [Message(User, userText)]
  }

  /** A turn only appends to the history: at most the customer's words and the
      reply, and the reply only when there is one to record. */
  lemma TurnHistoryAppends(h: seq<Message>, userText: string, reply: Option<string>, online: bool)
    ensures |h| <= |TurnHistory(h, userText, reply, online)| <= |h| + 2
    ensures TurnHistory(h, userText, reply, online)[..|h|] == h
    ensures LastAssistant(TurnHistory(h, userText, reply, online)) ==
      if Heard(userText) && online && reply.Some? then reply else LastAssistant(h)
  {
    var h' := TurnHistory(h, userText, reply, online);
    assert h'[..|h|] == h;
    if Heard(userText) && online && reply.None? {
      assert h'[..|h'| - 1] == h;
    }
  }

  /** Over a whole turn: a decided status is never undone, and only a reply
      carrying the marker can turn it into `confirmed`; the filled write-once fields keep their
      values, and a complete booking stays complete. */
  lemma TurnPreserves(r: Record, userText: string, reply: Option<string>, userEnv: Env, replyEnv: Env, online: bool)
    ensures var r' := TurnRecord(r, userText, reply, userEnv, replyEnv, online);
      r.confirmationStatus != Pending ==> r'.confirmationStatus == r.confirmationStatus || r'.confirmationStatus == Confirmed
    ensures var r' := TurnRecord(r, userText, reply, userEnv, replyEnv, online);
      r.confirmationStatus != Pending && r'.confirmationStatus != r.confirmationStatus ==>
        online && reply.Some? && HasMarker(reply.value)
    ensures r.confirmationStatus == Confirmed ==> TurnRecord(r, userText, reply, userEnv, replyEnv, online).confirmationStatus == Confirmed
    ensures var r' := TurnRecord(r, userText, reply, userEnv, replyEnv, online);
      && (Truthy(r.customerName) ==> r'.customerName == r.customerName)
      && (Truthy(r.contact) ==> r'.contact == r.contact)
      && (Truthy(r.goodsType) ==> r'.goodsType == r.goodsType)
      && (Truthy(r.tripDate) ==> r'.tripDate == r.tripDate)
      && (r.bodyType.Some? ==> r'.bodyType == r.bodyType)
      && r'.leadSource == r.leadSource
    ensures Complete(r) ==> Complete(TurnRecord(r, userText, reply, userEnv, replyEnv, online))
  {
    if Heard(userText) {
      var r1 := UserTurn(r, userText, userEnv);
      DetectConfirmationSpec(ExtractBookingInfo(r, userText, userEnv).confirmationStatus, userText);
      if Complete(r) {
        CompleteIsStable(r, userText, userEnv);
      }
      if online && reply.Some? {
        if Complete(r1) {
          CompleteIsStable(r1, reply.value, replyEnv);
        }
      }
    }
  }

  /** A reply carrying the submission marker leaves the booking `confirmed`,
      whatever the status was, `not_interested` included. */
  lemma MarkerConfirms(r: Record, userText: string, t: string, userEnv: Env, replyEnv: Env)
    requires Heard(userText) && HasMarker(t)
    ensures TurnRecord(r, userText, Some(t), userEnv, replyEnv, true).confirmationStatus == Confirmed
  {
  }

  /** One extraction pass never makes a complete booking incomplete: every
      overwrite of a required field writes a non-empty value. */
  lemma CompleteIsStable(r: Record, text: string, env: Env)
    requires Complete(r)
    ensures Complete(ExtractBookingInfo(r, text, env))
  {
  }

  // ---------------------------------------------------------------------
  // The agent

  class LLMAgent {
    /** Whether an API key was configured; without one the agent echoes. */
    var online: bool
    var history: seq<Message>
    var booking: BookingData
    var vehicleKeywords: Table
    var bodyTypes: Table

    /** The inputs of one extraction pass: the per-call body table is the
        default pair plus the names the database returns on that call. */
    function EnvOf(search: Search, ratio: Scorer, dbBodies: seq<string>, today: Day): Env
      reads this
    {
      Env(search, ratio, vehicleKeywords, SeededBodies(DefaultBodyTypes, dbBodies), today)
    }

    constructor (apiKey: string, systemPrompt: string, dbTrucks: seq<string>, dbBodies: seq<string>)
      ensures online == (apiKey != "")
      ensures history == if apiKey != "" then [Message(System, systemPrompt)] else []
      ensures fresh(booking) && booking.Snapshot() == Fresh()
      ensures vehicleKeywords == SeededVehicles(DefaultVehicleKeywords, dbTrucks)
      ensures bodyTypes == SeededBodies(DefaultBodyTypes, dbBodies)
    {
      online := apiKey != "";
      booking := new BookingData();
      var trucks := SeedVehicleKeywords(DefaultVehicleKeywords, dbTrucks);
      var bodies := SeedBodyTypes(DefaultBodyTypes, dbBodies);
      vehicleKeywords, bodyTypes := trucks, bodies;
      history := if apiKey != "" then [Message(System, systemPrompt)] else [];
    }

    /** `_extract_booking_info(text)`: updates the booking in place. */
    method ExtractBookingInfo(text: string, search: Search, ratio: Scorer, dbBodies: seq<string>, today: Day)
      modifies booking
      ensures booking.Snapshot() == Extraction.ExtractBookingInfo(old(booking.Snapshot()), text, EnvOf(search, ratio, dbBodies, today))
    {
      var after := RunPass(booking.Snapshot(), text, EnvOf(search, ratio, dbBodies, today), dbBodies);
      booking.Store(after);
    }

    /** `_extract_from_confirmation(text)` */
    method ExtractFromConfirmation(text: string, search: Search)
      modifies booking
      ensures booking.Snapshot() == Extraction.ExtractFromConfirmation(old(booking.Snapshot()), text, search)
    {
      var lower := Lower(text);
      booking.customerName := ExtractEchoName(booking.customerName, lower, search);
      booking.contact := ExtractEchoContact(booking.contact, lower, search);
    }

    /** `_detect_confirmation(text)` */
    method DetectConfirmation(text: string)
      modifies booking
      ensures booking.Snapshot() ==
        old(booking.Snapshot()).(confirmationStatus := Confirmation.DetectConfirmation(old(booking.confirmationStatus), text))
    {
      booking.confirmationStatus := Confirmation.DetectConfirmation(booking.confirmationStatus, text);
    }

    /** The booking updates of a turn made from the customer's words. */
    method HearUser(userText: string, search: Search, ratio: Scorer, dbBodies: seq<string>, today: Day)
      modifies booking
      ensures booking.Snapshot() == UserTurn(old(booking.Snapshot()), userText, EnvOf(search, ratio, dbBodies, today))
    {
      ExtractBookingInfo(userText, search, ratio, dbBodies, today);
      DetectConfirmation(userText);
    }

    /** The booking updates of a turn made from the service's reply. */
    method HearReply(text: string, search: Search, ratio: Scorer, dbBodies: seq<string>, today: Day)
      modifies booking
      ensures booking.Snapshot() == ReplyTurn(old(booking.Snapshot()), text, EnvOf(search, ratio, dbBodies, today))
    {
      ExtractBookingInfo(text, search, ratio, dbBodies, today);
      ExtractFromConfirmation(text, search);
      if HasMarker(text) {
        booking.confirmationStatus := Confirmed;
      }
    }

    /** `generate_response(user_text)`, with the service's reply to the turn
        given as `reply`; `sent` is the window of messages sent to the service.
        The extraction pass over the customer's words and the one over the reply
        each get the body names and the date read at that pass. */
    method GenerateResponse(userText: string, reply: Option<string>, search: Search, ratio: Scorer,
                            userBodies: seq<string>, userToday: Day, replyBodies: seq<string>, replyToday: Day)
      returns (response: string, sent: seq<Message>)
      modifies this, booking
      ensures booking == old(booking) && online == old(online)
      ensures vehicleKeywords == old(vehicleKeywords) && bodyTypes == old(bodyTypes)
      ensures booking.Snapshot() ==
        TurnRecord(old(booking.Snapshot()), userText, reply, EnvOf(search, ratio, userBodies, userToday),
                   EnvOf(search, ratio, replyBodies, replyToday), online)
      ensures response == TurnResponse(userText, reply, online)
      ensures history == TurnHistory(old(history), userText, reply, online)
      ensures sent == if Heard(userText) && online then RecentMessages(old(history) + [Message(User, userText)], MaxExchanges) else []
    {
      sent := [];
      if Strip(userText) == "" {
        response := RepeatPrompt;
        return;
      }
      HearUser(userText, search, ratio, userBodies, userToday);
      if !online {
        response := EchoPrefix + userText;
        return;
      }
      history := history + [Message(User, userText)];
      sent := RecentMessages(history, MaxExchanges);
      if reply.None? {
        response := TroublePrompt;
        return;
      }
      var text := reply.value;
      HearReply(text, search, ratio, replyBodies, replyToday);
      history := history + [Message(Assistant, text)];
      response := text;
    }

    /** `is_call_complete()`: scans the history backwards for the last
        assistant message. */
    method IsCallComplete() returns (done: bool)
      ensures done == CallComplete(history)
    {
      var i := |history|;
      assert history[..i] == history;
      while i > 0
        invariant 0 <= i <= |history|
        invariant LastAssistant(history) == LastAssistant(history[..i])
        decreases i
      {
        assert history[..i][..i - 1] == history[..i - 1];
        if history[i - 1].role == Assistant {
          return ClosesCall(history[i - 1].content);
        }
        i := i - 1;
      }
      return false;
    }

    /** `is_booking_complete()` */
    function IsBookingComplete(): (r: bool)
      reads this, booking
      ensures r <==> forall i :: 0 <= i < |RequiredFields| ==> Truthy(Get(booking.Snapshot(), RequiredFields[i].0))
      ensures r ==> MissingLabels(booking.Snapshot(), RequiredFields) == []
    {
      booking.IsComplete()
    }
  }
}
