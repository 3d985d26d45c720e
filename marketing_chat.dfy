/**
 * The wire types of the chat gateway (src/lib/marketingChat.ts) and the
 * outcomes of its two calls. The HTTP bodies are not modelled: each call
 * either returns its value or throws, and the caller is handed which.
 */
module MarketingChat {

  datatype Option<+T> = None | Some(value: T)

  /** A property of a JSON object as JavaScript sees it: the key is missing,
      present with value null, or present with a value. `{ ...a, ...b }`
      copies every key PRESENT in b, `Null` included. */
  datatype Field<+T> = Absent | Null | Val(value: T) {
    /** `x ?? d` */
    function OrElse(d: T): T {
      if Val? then value else d
    }
  }

  datatype Role = User | Assistant

  datatype ChatMessage = ChatMessage(role: Role, content: string)

  /** `ChatState`. Every property is optional, so `Partial<ChatState>` (the
      type of `state_updates`) is this same type. */
  datatype ChatState = ChatState(
    visitor_type: Field<string>,
    operation_type: Field<string>,
    headcount_range: Field<string>,
    pain_points: Field<seq<string>>,
    current_tools: Field<string>,
    buyer_type: Field<string>,
    interest_level: Field<string>,
    demo_offered: Field<bool>,
    lead_name: Field<string>,
    lead_email: Field<string>,
    lead_phone: Field<string>)

  /** `{}` */
  const EmptyState := ChatState(Absent, Absent, Absent, Absent, Absent, Absent,
                                Absent, Absent, Absent, Absent, Absent)

  datatype UiHints = UiHints(
    show_suggestion_chips: bool,
    chips: seq<string>,
    show_demo_cta: bool,
    lead_captured: Option<bool>)

  /** The body of `sendChatMessage`'s request. */
  datatype ChatRequest = ChatRequest(
    session_id: string,
    message: string,
    history: seq<ChatMessage>,
    state: ChatState)

  /** `ChatResponse`. `state_updates` is `None` when the service sends no
      object there, a case the widget tests for before merging. */
  datatype ChatResponse = ChatResponse(
    reply: string,
    state_updates: Option<ChatState>,
    ui_hints: UiHints)

  /** `LeadPayload`; `phone` is `None` for `undefined`. */
  datatype LeadPayload = LeadPayload(
    session_id: string,
    name: string,
    email: string,
    phone: Option<string>,
    captured_state: ChatState,
    transcript: seq<ChatMessage>)

  /** What `await sendChatMessage(...)` does: return the parsed response,
      or throw (non-ok status or transport failure). */
  datatype ChatOutcome = ChatReturned(response: ChatResponse) | ChatThrew

  /** What `await submitLead(...)` does. */
  datatype LeadOutcome = LeadReturned | LeadThrew
}
