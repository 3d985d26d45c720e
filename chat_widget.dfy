/**
 * The chat widget's conversation controller (src/components/chat/ChatWidget.tsx)
 * as one state machine. Its events are Open, Close, the 25 s nudge timer
 * firing (Tick), a scroll report (Scroll), a send from the composer, a chip or
 * the demo button (BeginSend, ChipClick, DemoClick) and the arrival of the
 * gateway's answer (CompleteSend). A send is split at its first `await`:
 * BeginSend runs the guard and issues the request, CompleteSend is given what
 * `sendChatMessage` and, if it is called, `submitLead` did. The second
 * `await` (`submitLead`) is taken inside CompleteSend.
 */
module Widget {
  import opened MarketingChat
  import opened JsText
  import opened ConversationState
  import opened SessionStore

  const OpeningMessage := "Hi. I can help you figure out if Cattlytx is a fit for your operation. Are you running a feedlot?"
  const OpeningChips := ["Yes, large operation (20k+ head)", "Yes, smaller operation", "Not an operator"]
  const DemoRequestText := "I'd like to connect with Andrew."
  const FallbackText := "I'm having trouble connecting. Please try again or email us at contact@cattlytx.com."

  const InitialHints := UiHints(true, OpeningChips, false, None)
  const OpeningTranscript := [ChatMessage(Assistant, OpeningMessage)]
  const Fallback := ChatMessage(Assistant, FallbackText)

  /** The analytics events the widget reports, named as on the wire:
      `opened_chat`, `sent_message`, `chips_clicked`, `demo_clicked`,
      `demo_offered`, `lead_submitted`. */
  datatype EventName = OpenedChat | SentMessage | ChipsClicked | DemoClicked | DemoOffered | LeadSubmitted

  /** One `track(name, properties)` call. */
  datatype AnalyticsEvent = Event(name: EventName, properties: seq<(string, string)>)

  /** The number of events with the given name. */
  function Count(events: seq<AnalyticsEvent>, name: EventName): nat {
    if events == [] then 0
    else Count(events[..|events| - 1], name) + (if events[|events| - 1].name == name then 1 else 0)
  }

  lemma CountSnoc(events: seq<AnalyticsEvent>, e: AnalyticsEvent, name: EventName)
    ensures Count(events + [e], name) == Count(events, name) + (if e.name == name then 1 else 0)
  {
    assert (events + [e])[..|events|] == events;
  }

  // ----- the engagement trigger

  /** `(scrollY + innerHeight) / scrollHeight >= 0.5` with JavaScript's
      division: a zero height gives +Infinity for a positive numerator and NaN
      (never `>=`) for zero. */
  function ReachedHalfway(scrollY: real, innerHeight: real, scrollHeight: real): (b: bool)
    ensures scrollHeight > 0.0 ==> (b <==> 2.0 * (scrollY + innerHeight) >= scrollHeight)
    ensures scrollHeight == 0.0 ==> (b <==> (scrollY + innerHeight) > 0.0)
  {
    var scrolled := scrollY + innerHeight;
    if scrollHeight == 0.0 then scrolled > 0.0
    else
      assert scrollHeight > 0.0 ==> (scrolled / scrollHeight >= 0.5 <==> 2.0 * scrolled >= scrollHeight) by {
        if scrollHeight > 0.0 {
          assert scrolled / scrollHeight * scrollHeight == scrolled;
        }
      }
      scrolled / scrollHeight >= 0.5
  }

  /** The launcher's nudge bubble (`nudgeVisible && !open`). */
  function NudgeShown(nudgeVisible: bool, open: bool): (shown: bool)
    ensures shown ==> !open
    ensures !nudgeVisible ==> !shown
    ensures nudgeVisible && !open ==> shown
  {
    nudgeVisible && !open
  }

  // ----- lead submission

  /** A truthy email (`response.state_updates.lead_email || state.lead_email`). */
  predicate EmailPresent(f: Field<string>): (present: bool)
    ensures present <==> f.Val? && |f.value| > 0
  {
    f.Val? && Truthy(f.value)
  }

  /** The condition for calling `submitLead`, given the response's hints and
      updates and the state and flag the send was made in. */
  predicate LeadDue(hints: UiHints, leadSubmitted: bool, updates: ChatState, prior: ChatState): (due: bool)
    ensures leadSubmitted || hints.lead_captured != Some(true) ==> !due
    ensures hints.lead_captured == Some(true) && !leadSubmitted && EmailPresent(updates.lead_email) ==> due
    ensures hints.lead_captured == Some(true) && !leadSubmitted && EmailPresent(prior.lead_email) ==> due
    ensures due && !EmailPresent(updates.lead_email) ==> EmailPresent(prior.lead_email)
  {
    hints.lead_captured == Some(true) && !leadSubmitted
    && (EmailPresent(updates.lead_email) || EmailPresent(prior.lead_email))
  }

  /** The lead payload: built from the plain spread `{ ...state, ...updates }`
      (not from the pain-point merge), with name and email defaulting to
      `''` and the phone to `undefined`. Each contact field is the incoming
      value when the update has that key and the stored one otherwise. */
  function LeadSnapshot(sessionId: string, prior: ChatState, updates: ChatState,
                        transcript: seq<ChatMessage>): (p: LeadPayload)
    ensures p.session_id == sessionId && p.transcript == transcript
    ensures p.captured_state == ShallowMerge(prior, updates)
    ensures p.email == Override(prior.lead_email, updates.lead_email).OrElse("")
    ensures p.name == Override(prior.lead_name, updates.lead_name).OrElse("")
    ensures p.phone == if Override(prior.lead_phone, updates.lead_phone).Val?
                       then Some(Override(prior.lead_phone, updates.lead_phone).value) else None
  {
    var merged := ShallowMerge(prior, updates);
    assert merged.lead_email == Override(prior.lead_email, updates.lead_email) by {
      assert Get(merged, LeadEmail) == TextField(Override(prior.lead_email, updates.lead_email));
    }
    assert merged.lead_name == Override(prior.lead_name, updates.lead_name) by {
      assert Get(merged, LeadName) == TextField(Override(prior.lead_name, updates.lead_name));
    }
    assert merged.lead_phone == Override(prior.lead_phone, updates.lead_phone) by {
      assert Get(merged, LeadPhone) == TextField(Override(prior.lead_phone, updates.lead_phone));
    }
    LeadPayload(
      sessionId,
      merged.lead_name.OrElse(""),
      merged.lead_email.OrElse(""),
      if merged.lead_phone.Val? then Some(merged.lead_phone.value) else None,
      merged,
      transcript)
  }

  /** When the response itself carries a truthy email, that is the email
      submitted. */
  lemma LeadCarriesIncomingEmail(sessionId: string, prior: ChatState, updates: ChatState,
                                 transcript: seq<ChatMessage>)
    requires EmailPresent(updates.lead_email)
    ensures LeadSnapshot(sessionId, prior, updates, transcript).email == updates.lead_email.value
    ensures Truthy(LeadSnapshot(sessionId, prior, updates, transcript).email)
  {
  }

  /** The email test and the payload disagree: an update that clears the
      email (`lead_email: null`) still lets a stored email satisfy the test,
      and the payload then carries the empty string. */
  lemma LeadMayCarryEmptyEmail(sessionId: string, prior: ChatState, updates: ChatState,
                               transcript: seq<ChatMessage>)
    requires EmailPresent(prior.lead_email) && updates.lead_email.Null?
    ensures LeadDue(UiHints(false, [], false, Some(true)), false, updates, prior)
    ensures LeadSnapshot(sessionId, prior, updates, transcript).email == ""
  {
  }

  /** The payload's `captured_state` is the plain spread, so it can hold
      fewer pain points than the widget's merged state. */
  lemma LeadSnapshotSkipsPainPointMerge()
    ensures var prior := EmptyState.(pain_points := Val(["Feed costs"]));
            var updates := EmptyState.(pain_points := Val(["Death loss"]));
            && MergeState(prior, updates).pain_points == Val(["Feed costs", "Death loss"])
            && LeadSnapshot("s_1", prior, updates, []).captured_state.pain_points == Val(["Death loss"])
  {
    var prior := EmptyState.(pain_points := Val(["Feed costs"]));
    var updates := EmptyState.(pain_points := Val(["Death loss"]));
    var both := ["Feed costs"] + ["Death loss"];
    assert ["Feed costs"] + ["Death loss"] == ["Feed costs", "Death loss"];
    assert "Feed costs" != "Death loss";
    DedupOfDistinct(both);
    assert Get(ShallowMerge(prior, updates), PainPoints) == Val(TextList(["Death loss"]));
  }

  /** The qualification state after a response: merged only when
      `state_updates` is an object with keys. */
  function StateAfterResponse(prior: ChatState, updates: Option<ChatState>): (s: ChatState)
    ensures updates.None? || !HasKeys(updates.value) ==> s == prior
    ensures updates.Some? && HasKeys(updates.value) ==> s == MergeState(prior, updates.value)
    ensures PainPointsInvariant(prior.pain_points) ==> PainPointsInvariant(s.pain_points)
  {
    if updates.Some? && HasKeys(updates.value) then
      MergeStatePreservesInvariant(prior, updates.value);
      MergeState(prior, updates.value)
    else prior
  }

  /** The guard on the state merge is redundant: an update object without
      keys would have merged to the same state. */
  lemma MergeGuardRedundant(prior: ChatState, updates: ChatState)
    ensures StateAfterResponse(prior, Some(updates)) == MergeState(prior, updates)
  {
    if !HasKeys(updates) {
      MergeStateEmpty(prior);
    }
  }

  /** What a send leaves between its two halves: the transcript as the
      handler saw it and the user message it appended. */
  datatype InFlight = InFlight(prior: seq<ChatMessage>, userMessage: ChatMessage)

  /** The widget's fields after the second half of a send, and the payload
      `submitLead` was called with, if it was. */
  datatype Completion = Completion(
    messages: seq<ChatMessage>,
    state: ChatState,
    uiHints: UiHints,
    leadSubmitted: bool,
    tracked: seq<AnalyticsEvent>,
    leadRequest: Option<LeadPayload>)

  /** The `demo_offered` event an answer tracks, if any. */
  function DemoTracked(sessionId: string, hints: UiHints): seq<AnalyticsEvent> {
    if hints.show_demo_cta then [Event(EventName.DemoOffered, [("session_id", sessionId)])] else []
  }

  /** An answered send throws after the reply exactly when the lead is
      reported captured and none was submitted yet, and then either reading
      `lead_email` of a missing `state_updates` throws or `submitLead` is
      called and throws. */
  predicate ThrowsAfterReply(state: ChatState, leadSubmitted: bool, response: ChatResponse, lead: LeadOutcome) {
    && response.ui_hints.lead_captured == Some(true) && !leadSubmitted
    && (response.state_updates.None?
        || (LeadDue(response.ui_hints, leadSubmitted, response.state_updates.value, state) && lead.LeadThrew?))
  }

  /** What the lead step of an answered send leaves: whether it appended the
      fallback message, the lead flag, what it tracked and the payload
      `submitLead` was called with, if it was. */
  datatype LeadStepResult = LeadStepResult(
    fallback: bool,
    leadSubmitted: bool,
    tracked: seq<AnalyticsEvent>,
    leadRequest: Option<LeadPayload>)

  /** The lead step: skipped unless the answer reports the lead captured and
      none was submitted yet; reading `lead_email` of a missing
      `state_updates` throws; without an email nothing is sent; otherwise
      `submitLead` is called and either returns (flag set, `lead_submitted`
      tracked) or throws (fallback appended). */
  function LeadStep(sessionId: string, prior: ChatState, leadSubmitted: bool, response: ChatResponse,
                    transcript: seq<ChatMessage>, lead: LeadOutcome): (r: LeadStepResult)
    ensures leadSubmitted ==> r == LeadStepResult(false, true, [], None)
    ensures r.leadSubmitted == (leadSubmitted || (r.leadRequest.Some? && lead.LeadReturned?))
    ensures r.fallback <==> ThrowsAfterReply(prior, leadSubmitted, response, lead)
    ensures r.fallback ==> !r.leadSubmitted && r.tracked == []
  {
    if !(response.ui_hints.lead_captured == Some(true) && !leadSubmitted) then
      LeadStepResult(false, leadSubmitted, [], None)
    else
      match response.state_updates
      case None => LeadStepResult(true, leadSubmitted, [], None)
      case Some(updates) =>
        if !(EmailPresent(updates.lead_email) || EmailPresent(prior.lead_email)) then
          LeadStepResult(false, leadSubmitted, [], None)
        else
          var payload := LeadSnapshot(sessionId, prior, updates, transcript);
          match lead
          case LeadReturned =>
            LeadStepResult(false, true, [Event(LeadSubmitted, [("session_id", sessionId)])], Some(payload))
          case LeadThrew => LeadStepResult(true, leadSubmitted, [], Some(payload))
  }

  /** What the rest of `handleSend` does, from the gateway call to the
      `finally`, starting from the widget's transcript, state, hints and
      lead flag. A throw anywhere in the `try` lands in the `catch`, which
      appends one fallback message: the gateway failing, `submitLead`
      failing, or reading `lead_email` of a missing `state_updates`. */
  function Respond(sessionId: string, messages: seq<ChatMessage>, state: ChatState, uiHints: UiHints,
                   leadSubmitted: bool, pending: InFlight, chat: ChatOutcome, lead: LeadOutcome): (r: Completion)
    ensures |messages| < |r.messages| <= |messages| + 2
    ensures r.messages[..|messages|] == messages
  {
    match chat
    case ChatThrew => Completion(messages + [Fallback], state, uiHints, leadSubmitted, [], None)
    case ChatReturned(response) =>
      var reply := ChatMessage(Assistant, response.reply);
      var demo := DemoTracked(sessionId, response.ui_hints);
      var step := LeadStep(sessionId, state, leadSubmitted, response, pending.prior + [pending.userMessage, reply], lead);
      Completion(messages + [reply] + (if step.fallback then [Fallback] else []),
                 StateAfterResponse(state, response.state_updates),
                 response.ui_hints, step.leadSubmitted, demo + step.tracked, step.leadRequest)
  }

  /** A failed gateway call appends exactly one fallback message and leaves
      state, hints, the lead flag and the analytics log alone. */
  lemma RespondFailure(sessionId: string, messages: seq<ChatMessage>, state: ChatState, uiHints: UiHints,
                       leadSubmitted: bool, pending: InFlight, lead: LeadOutcome)
    ensures var o := Respond(sessionId, messages, state, uiHints, leadSubmitted, pending, ChatThrew, lead);
            && o.messages == messages + [Fallback]
            && o.state == state && o.uiHints == uiHints && o.leadSubmitted == leadSubmitted
            && o.tracked == [] && o.leadRequest == None
  {
  }

  /** A gateway answer appends the reply, replaces the hints wholesale,
      merges the state and tracks `demo_offered` exactly when the demo
      button is to be shown; one fallback follows the reply exactly when
      something after the reply throws. */
  lemma RespondSuccess(sessionId: string, messages: seq<ChatMessage>, state: ChatState, uiHints: UiHints,
                       leadSubmitted: bool, pending: InFlight, response: ChatResponse, lead: LeadOutcome)
    ensures var o := Respond(sessionId, messages, state, uiHints, leadSubmitted, pending, ChatReturned(response), lead);
            && o.uiHints == response.ui_hints
            && o.state == StateAfterResponse(state, response.state_updates)
            && o.messages == messages + [ChatMessage(Assistant, response.reply)]
                             + (if ThrowsAfterReply(state, leadSubmitted, response, lead) then [Fallback] else [])
            && (response.ui_hints.show_demo_cta <==> Count(o.tracked, EventName.DemoOffered) == 1)
            && (!response.ui_hints.show_demo_cta <==> Count(o.tracked, EventName.DemoOffered) == 0)
  {
    var o := Respond(sessionId, messages, state, uiHints, leadSubmitted, pending, ChatReturned(response), lead);
    var e := Event(EventName.DemoOffered, [("session_id", sessionId)]);
    var l := Event(LeadSubmitted, [("session_id", sessionId)]);
    assert Count([e], EventName.DemoOffered) == 1 by { CountSnoc([], e, EventName.DemoOffered); }
    assert Count([e, l], EventName.DemoOffered) == 1 by { CountSnoc([e], l, EventName.DemoOffered); assert [e] + [l] == [e, l]; }
    assert Count([l], EventName.DemoOffered) == 0 by { CountSnoc([], l, EventName.DemoOffered); }
    assert (messages + [ChatMessage(Assistant, response.reply)]) + [Fallback]
        == messages + [ChatMessage(Assistant, response.reply), Fallback];
  }

  /** `submitLead` is called exactly when the answer reports the lead
      captured, no lead was submitted yet and an email is present in the
      updates or the prior state; it gets the snapshot of the spread state
      and the transcript as it will stand with the user message and the
      reply. */
  lemma RespondLeadGate(sessionId: string, messages: seq<ChatMessage>, state: ChatState, uiHints: UiHints,
                        leadSubmitted: bool, pending: InFlight, chat: ChatOutcome, lead: LeadOutcome)
    ensures var o := Respond(sessionId, messages, state, uiHints, leadSubmitted, pending, chat, lead);
            && (o.leadRequest.Some? <==>
                  chat.ChatReturned? && chat.response.state_updates.Some?
                  && LeadDue(chat.response.ui_hints, leadSubmitted, chat.response.state_updates.value, state))
            && (o.leadRequest.Some? ==>
                  o.leadRequest.value
                  == LeadSnapshot(sessionId, state, chat.response.state_updates.value,
                                  pending.prior + [pending.userMessage, ChatMessage(Assistant, chat.response.reply)]))
  {
  }

  /** The lead flag is set only by a `submitLead` call that returned, and
      once set nothing calls `submitLead` again. If the call throws, the
      reply and the merged state stay and the flag stays false. */
  lemma RespondLeadAtMostOnce(sessionId: string, messages: seq<ChatMessage>, state: ChatState, uiHints: UiHints,
                              leadSubmitted: bool, pending: InFlight, chat: ChatOutcome, lead: LeadOutcome)
    ensures var o := Respond(sessionId, messages, state, uiHints, leadSubmitted, pending, chat, lead);
            && o.leadSubmitted == (leadSubmitted || (o.leadRequest.Some? && lead.LeadReturned?))
            && (leadSubmitted ==> o.leadRequest == None)
            && (o.leadRequest.Some? && lead.LeadThrew? ==>
                  && !o.leadSubmitted
                  && o.messages == messages + [ChatMessage(Assistant, chat.response.reply), Fallback]
                  && o.state == StateAfterResponse(state, chat.response.state_updates)
                  && o.uiHints == chat.response.ui_hints)
  {
    if chat.ChatReturned? {
      assert (messages + [ChatMessage(Assistant, chat.response.reply)]) + [Fallback]
          == messages + [ChatMessage(Assistant, chat.response.reply), Fallback];
    }
  }

  /** The analytics a completion adds: never `opened_chat`, and one
      `lead_submitted` exactly when the lead flag goes from false to true. */
  lemma RespondTrackedCounts(sessionId: string, messages: seq<ChatMessage>, state: ChatState, uiHints: UiHints,
                             leadSubmitted: bool, pending: InFlight, chat: ChatOutcome, lead: LeadOutcome)
    ensures var o := Respond(sessionId, messages, state, uiHints, leadSubmitted, pending, chat, lead);
            && Count(o.tracked, OpenedChat) == 0
            && Count(o.tracked, LeadSubmitted) == (if o.leadSubmitted && !leadSubmitted then 1 else 0)
  {
    var e := Event(EventName.DemoOffered, [("session_id", sessionId)]);
    var l := Event(LeadSubmitted, [("session_id", sessionId)]);
    CountSnoc([], e, OpenedChat);
    CountSnoc([], e, LeadSubmitted);
    CountSnoc([], l, OpenedChat);
    CountSnoc([], l, LeadSubmitted);
    CountSnoc([e], l, OpenedChat);
    CountSnoc([e], l, LeadSubmitted);
    assert [e] + [l] == [e, l];
    assert [] + [l] == [l];
  }

  class ChatWidget {
    var open: bool
    var nudgeVisible: bool
    var messages: seq<ChatMessage>
    var state: ChatState
    var uiHints: UiHints
    var loading: bool
    var leadSubmitted: bool
    var hasOpenedOnce: bool
    const sessionId: string
    var inFlight: Option<InFlight>
    /** Every `track` call, in order. */
    ghost var events: seq<AnalyticsEvent>

    ghost predicate Valid()
      reads this
    {
      && Truthy(sessionId)
      && (loading <==> inFlight.Some?)
      && PainPointsInvariant(state.pain_points)
      && (open ==> hasOpenedOnce)
      && Count(events, OpenedChat) == (if hasOpenedOnce then 1 else 0)
      && Count(events, LeadSubmitted) == (if leadSubmitted then 1 else 0)
    }

    /** Mounting the widget: the session id is read from (or written to)
        durable storage once; everything else starts empty. */
    constructor (store: DurableStorage, stamp: string)
      modifies store
      ensures Valid()
      ensures !open && !nudgeVisible && messages == [] && state == EmptyState
      ensures uiHints == InitialHints && !loading && !leadSubmitted && !hasOpenedOnce
      ensures inFlight == None && events == []
      ensures HoldsSession(store.items, sessionId)
      ensures HasSession(old(store.items)) ==>
                sessionId == old(store.items)[SessionKey] && store.items == old(store.items)
      ensures !HasSession(old(store.items)) ==>
                sessionId == NewSessionId(stamp) && store.items == old(store.items)[SessionKey := sessionId]
    {
      var id := GetOrCreateSession(store, stamp);
      sessionId := id;
      open, nudgeVisible := false, false;
      messages, state, uiHints := [], EmptyState, InitialHints;
      loading, leadSubmitted, hasOpenedOnce := false, false, false;
      inFlight := None;
      events := [];
    }

    /** The 25 s timer fires: it raises the nudge only while closed. */
    method Tick()
      requires Valid()
      modifies this`nudgeVisible
      ensures Valid()
      ensures nudgeVisible == (old(nudgeVisible) || !open)
    {
      if !open {
        nudgeVisible := true;
      }
    }

    /** A scroll report: past half the page while closed raises the nudge. */
    method Scroll(scrollY: real, innerHeight: real, scrollHeight: real)
      requires Valid()
      modifies this`nudgeVisible
      ensures Valid()
      ensures nudgeVisible == (old(nudgeVisible) || (ReachedHalfway(scrollY, innerHeight, scrollHeight) && !open))
    {
      if ReachedHalfway(scrollY, innerHeight, scrollHeight) && !open {
        nudgeVisible := true;
      }
    }

    method Open()
      requires Valid()
      modifies this`open, this`nudgeVisible, this`hasOpenedOnce, this`messages, this`events
      ensures Valid()
      ensures open && !nudgeVisible && hasOpenedOnce
      ensures !old(hasOpenedOnce) ==>
                messages == OpeningTranscript && events == old(events) + [Event(OpenedChat, [])]
      ensures old(hasOpenedOnce) ==> messages == old(messages) && events == old(events)
    {
      open := true;
      nudgeVisible := false;
      if !hasOpenedOnce {
        hasOpenedOnce := true;
        CountSnoc(events, Event(OpenedChat, []), OpenedChat);
        CountSnoc(events, Event(OpenedChat, []), LeadSubmitted);
        events := events + [Event(OpenedChat, [])];
        messages := OpeningTranscript;
      }
    }

    method Close()
      requires Valid()
      modifies this`open
      ensures Valid()
      ensures !open
    {
      open := false;
    }

    /** Appends one `track` call that is neither `opened_chat` nor
        `lead_submitted`. */
    method Track(e: AnalyticsEvent)
      requires Valid()
      requires e.name != OpenedChat && e.name != LeadSubmitted
      modifies this`events
      ensures Valid()
      ensures events == old(events) + [e]
    {
      CountSnoc(events, e, OpenedChat);
      CountSnoc(events, e, LeadSubmitted);
      events := events + [e];
    }

    /** The first half of `handleSend`: the guard, the user message, the
        in-flight flag and the request to the gateway (`None` when the
        handler returns early). */
    method BeginSend(text: string) returns (request: Option<ChatRequest>)
      requires Valid()
      requires open
      modifies this`messages, this`loading, this`inFlight, this`events
      ensures Valid()
      ensures Trim(text) == [] || old(loading) ==>
                && request == None && messages == old(messages) && loading == old(loading)
                && inFlight == old(inFlight) && events == old(events)
      ensures Trim(text) != [] && !old(loading) ==>
                && request == Some(ChatRequest(sessionId, Trim(text), HistoryWindow(old(messages)), state))
                && messages == old(messages) + [ChatMessage(User, Trim(text))]
                && loading
                && inFlight == Some(InFlight(old(messages), ChatMessage(User, Trim(text))))
                && events == old(events) + [Event(SentMessage, [("session_id", sessionId)])]
    {
      var trimmed := Trim(text);
      if !Truthy(trimmed) || loading {
        return None;
      }
      var userMessage := ChatMessage(User, trimmed);
      var prior := messages;
      messages := messages + [userMessage];
      loading := true;
      inFlight := Some(InFlight(prior, userMessage));
      Track(Event(SentMessage, [("session_id", sessionId)]));
      request := Some(ChatRequest(sessionId, trimmed, HistoryWindow(prior), state));
    }

    /** `handleChipClick`: track the click, then send the chip's label. */
    method ChipClick(chip: string) returns (request: Option<ChatRequest>)
      requires Valid()
      requires open
      modifies this`messages, this`loading, this`inFlight, this`events
      ensures Valid()
      ensures Trim(chip) == [] || old(loading) ==>
                && request == None && messages == old(messages) && loading == old(loading)
                && inFlight == old(inFlight)
                && events == old(events) + [Event(ChipsClicked, [("chip", chip), ("session_id", sessionId)])]
      ensures Trim(chip) != [] && !old(loading) ==>
                && request == Some(ChatRequest(sessionId, Trim(chip), HistoryWindow(old(messages)), state))
                && messages == old(messages) + [ChatMessage(User, Trim(chip))]
                && loading
                && inFlight == Some(InFlight(old(messages), ChatMessage(User, Trim(chip))))
                && events == old(events) + [Event(ChipsClicked, [("chip", chip), ("session_id", sessionId)]),
                                            Event(SentMessage, [("session_id", sessionId)])]
    {
      Track(Event(ChipsClicked, [("chip", chip), ("session_id", sessionId)]));
      request := BeginSend(chip);
    }

    /** `handleDemoClick`: track the click, then send the canned request. */
    method DemoClick() returns (request: Option<ChatRequest>)
      requires Valid()
      requires open
      modifies this`messages, this`loading, this`inFlight, this`events
      ensures Valid()
      ensures old(loading) ==>
                && request == None && messages == old(messages) && loading
                && inFlight == old(inFlight)
                && events == old(events) + [Event(DemoClicked, [("session_id", sessionId)])]
      ensures !old(loading) ==>
                && request == Some(ChatRequest(sessionId, DemoRequestText, HistoryWindow(old(messages)), state))
                && messages == old(messages) + [ChatMessage(User, DemoRequestText)]
                && loading
                && inFlight == Some(InFlight(old(messages), ChatMessage(User, DemoRequestText)))
                && events == old(events) + [Event(DemoClicked, [("session_id", sessionId)]),
                                            Event(SentMessage, [("session_id", sessionId)])]
    {
      Track(Event(DemoClicked, [("session_id", sessionId)]));
      assert Trim(DemoRequestText) == DemoRequestText by {
        TrimIdentity(DemoRequestText);
      }
      request := BeginSend(DemoRequestText);
    }

    /** `await submitLead(...)` settles: a return sets the flag and tracks
        `lead_submitted`; a throw lands in the `catch`, which appends the
        fallback message. */
    method LeadCallSettled(lead: LeadOutcome)
      requires Valid() && loading && !leadSubmitted
      modifies this`messages, this`leadSubmitted, this`events
      ensures Valid()
      ensures lead.LeadReturned? ==>
                && leadSubmitted && messages == old(messages)
                && events == old(events) + [Event(LeadSubmitted, [("session_id", sessionId)])]
      ensures lead.LeadThrew? ==>
                && !leadSubmitted && messages == old(messages) + [Fallback] && events == old(events)
    {
      match lead {
      case LeadReturned =>
        var e := Event(LeadSubmitted, [("session_id", sessionId)]);
        CountSnoc(events, e, OpenedChat);
        CountSnoc(events, e, LeadSubmitted);
        leadSubmitted := true;
        events := events + [e];
      case LeadThrew =>
        messages := messages + [Fallback];
      }
    }

    /** The lead step of a send that got an answer: `prior` is the state the
        send was made in and `transcript` the prior messages with the user
        message and the reply. */
    method SubmitLeadIfDue(prior: ChatState, response: ChatResponse, transcript: seq<ChatMessage>,
                           lead: LeadOutcome)
      returns (leadRequest: Option<LeadPayload>)
      requires Valid() && loading
      modifies this`messages, this`leadSubmitted, this`events
      ensures Valid()
      ensures var r := LeadStep(sessionId, prior, old(leadSubmitted), response, transcript, lead);
              && messages == old(messages) + (if r.fallback then [Fallback] else [])
              && leadSubmitted == r.leadSubmitted && events == old(events) + r.tracked
              && leadRequest == r.leadRequest
    {
      leadRequest := None;
      if response.ui_hints.lead_captured == Some(true) && !leadSubmitted {
        match response.state_updates {
        case None =>
          // reading `lead_email` of the missing object throws
          messages := messages + [Fallback];
        case Some(updates) =>
          if EmailPresent(updates.lead_email) || EmailPresent(prior.lead_email) {
            leadRequest := Some(LeadSnapshot(sessionId, prior, updates, transcript));
            LeadCallSettled(lead);
          }
        }
      }
    }

    /** The answer half of a send that got a response: append the reply,
        merge the state, take the hints and track `demo_offered` when the
        demo button is to be shown. */
    method TakeAnswer(response: ChatResponse)
      requires Valid() && loading
      modifies this`messages, this`state, this`uiHints, this`events
      ensures Valid()
      ensures messages == old(messages) + [ChatMessage(Assistant, response.reply)]
      ensures state == StateAfterResponse(old(state), response.state_updates)
      ensures uiHints == response.ui_hints
      ensures events == old(events) + DemoTracked(sessionId, response.ui_hints)
    {
      messages := messages + [ChatMessage(Assistant, response.reply)];
      state := StateAfterResponse(state, response.state_updates);
      uiHints := response.ui_hints;
      if response.ui_hints.show_demo_cta {
        Track(Event(EventName.DemoOffered, [("session_id", sessionId)]));
      }
    }

    /** The `catch` of `handleSend` after the gateway threw: one fallback
        message; nothing else changes. */
    method AnswerFailed()
      requires Valid() && loading
      modifies this`messages
      ensures Valid()
      ensures var o := Respond(sessionId, old(messages), state, uiHints, leadSubmitted,
                               inFlight.value, ChatThrew, LeadThrew);
              && messages == o.messages && o.tracked == [] && o.leadRequest == None
    {
      messages := messages + [Fallback];
    }

    /** The `try` of `handleSend` after the gateway answered. */
    method Answered(response: ChatResponse, lead: LeadOutcome) returns (leadRequest: Option<LeadPayload>)
      requires Valid() && loading
      modifies this`messages, this`state, this`uiHints, this`leadSubmitted, this`events
      ensures Valid()
      ensures var o := Respond(sessionId, old(messages), old(state), old(uiHints), old(leadSubmitted),
                               inFlight.value, ChatReturned(response), lead);
              && messages == o.messages && state == o.state && uiHints == o.uiHints
              && leadSubmitted == o.leadSubmitted && events == old(events) + o.tracked
              && leadRequest == o.leadRequest
    {
      var pending := inFlight.value;
      var prior := state;
      TakeAnswer(response);
      var transcript := pending.prior + [pending.userMessage, ChatMessage(Assistant, response.reply)];
      ghost var step := LeadStep(sessionId, prior, leadSubmitted, response, transcript, lead);
      leadRequest := SubmitLeadIfDue(prior, response, transcript, lead);
      assert events == old(events) + (DemoTracked(sessionId, response.ui_hints) + step.tracked);
    }

    /** The second half of `handleSend`, from the awaited gateway call to the
        `finally`. `chat` is what `sendChatMessage` did; `lead` is what
        `submitLead` does if it is called. Returns the payload `submitLead`
        was called with, if it was. */
    method CompleteSend(chat: ChatOutcome, lead: LeadOutcome) returns (leadRequest: Option<LeadPayload>)
      requires Valid() && loading
      modifies this`messages, this`state, this`uiHints, this`loading, this`leadSubmitted,
               this`inFlight, this`events
      ensures Valid() && !loading && inFlight == None
      ensures var o := Respond(sessionId, old(messages), old(state), old(uiHints), old(leadSubmitted),
                               old(inFlight).value, chat, lead);
              && messages == o.messages && state == o.state && uiHints == o.uiHints
              && leadSubmitted == o.leadSubmitted && events == old(events) + o.tracked
              && leadRequest == o.leadRequest
    {
      match chat {
      case ChatThrew =>
        AnswerFailed();
        leadRequest := None;
      case ChatReturned(response) =>
        leadRequest := Answered(response, lead);
      }
      loading := false;
      inFlight := None;
    }
  }
}
