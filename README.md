# Marketing-site chat widget and demo form, modelled in Dafny

The model covers the interactive core of the Cattlytx marketing site. It is a
floating chat widget that qualifies visitors through a remote assistant and
hands captured leads to a backend. The site also has a demo-request form.

- `marketing_chat.dfy` (module `MarketingChat`) holds the wire types of the chat gateway.
  - A JSON property that may be missing, `null` or set is a three-way `Field`.
  - Each gateway call either returns its value or throws.
- `js_text.dfy` (module `JsText`) models `String.prototype.trim` with the ECMAScript whitespace set, and the truthiness of strings.
- `conversation_state.dfy` (module `ConversationState`) holds the pure part of a send:
  - the `{ ...prev, ...updates }` merge, stated key by key;
  - the `pain_points` rule: union, first-occurrence dedup as a JavaScript `Set` does, first three kept;
  - the last-10 history window.
- `session_store.dfy` (module `SessionStore`) holds `localStorage` as a class and `getOrCreateSession`.
- `chat_widget.dfy` (module `Widget`) holds the widget controller as a class `ChatWidget`, with one method per event:
  - open, close, the nudge timer firing, a scroll report;
  - a send, a chip click, a demo click;
  - the gateway's answer arriving.
  - A send is split at its first `await`: `BeginSend` and `CompleteSend`. The second `await`, on `submitLead`, is taken inside `CompleteSend`.
  - The specification function `Respond` says what the half after the first `await` does. The lemmas about `Respond` state its properties.
  - A ghost log records every analytics call. The class invariant ties that log to the two one-shot flags.
- `composer.dfy` (module `ChatComposer`) holds the message composer as a class: its draft, its textarea height, submit on the button or Enter, and the height clamp.
- `chat_panel.dfy` (module `ChatPanelView`) says which affordances the open panel shows, and when they are disabled.
- `contact.dfy` (module `DemoRequestForm`) holds the demo-request form's four-state status machine (`Contact` in `src/App.tsx`) and what each status renders.

Some behaviour may look unintended but is modelled as written:
- The pain-point rule keeps the FIRST three distinct entries. Once three are held, new ones are dropped (`PainPointsFullIgnoresIncoming`); older ones are never evicted for newer ones.
- The nudge effect is re-installed whenever `open` changes. After the panel is closed, the 25 s timer and the scroll listener are live again, so `Tick` and `Scroll` may raise the nudge again.
- A failure after the reply has arrived still keeps the reply, the merged state and the new hints. Such a failure is `submitLead` throwing, or a missing `state_updates` being read for `lead_email`. The fallback message is appended after the reply (`RespondSuccess`, `ThrowsAfterReply`), and for a throwing `submitLead` the flag stays false (`RespondLeadAtMostOnce`).
- The lead payload's `captured_state` is the plain spread, not the pain-point merge the widget stores (`LeadSnapshotSkipsPainPointMerge`).
- An update that sets `lead_email` to `null` still satisfies the email test when the stored state has an email. The payload then carries the empty string (`LeadMayCarryEmptyEmail`).

## Model

| member | source | states |
|---|---|---|
| JsText.Trim | src/components/chat/ChatWidget.tsx:76-77 | the trimmed text is the infix left after removing whitespace only from both ends; it is empty exactly when the input is all whitespace, otherwise it starts and ends with non-whitespace |
| JsText.TrimIdempotent | src/components/chat/ChatWidget.tsx:76 | trimming the composer's already trimmed text again changes nothing |
| JsText.TrimIdentity | src/components/chat/ChatWidget.tsx:155-158 | a string is its own trim exactly when it is empty or has non-whitespace at both ends |
| ConversationState.HasKeysMeansSomeKeyPresent | src/components/chat/ChatWidget.tsx:98 | `Object.keys(u).length > 0` holds exactly when some property is present (a `null` counts) |
| ConversationState.HasKeys | src/components/chat/ChatWidget.tsx:98 | an update has no keys exactly when every one of its properties is missing |
| ConversationState.ShallowMerge | src/components/chat/ChatWidget.tsx:100 | each key of the spread takes the update's value when the update has that key, `null` included, and keeps the prior value otherwise |
| ConversationState.ShallowMergeEmpty | src/components/chat/ChatWidget.tsx:98-100 | spreading an object without keys leaves the state unchanged |
| ConversationState.ShallowMergeIdempotent | src/components/chat/ChatWidget.tsx:100 | applying the same updates twice equals applying them once |
| ConversationState.ShallowMergeNeverClears | src/components/chat/ChatWidget.tsx:100 | a set property never becomes missing, and it changes only to the value the update supplies |
| ConversationState.DedupInto | src/components/chat/ChatWidget.tsx:105 | adding elements to an insertion-ordered set keeps it duplicate-free, keeps the prefix, and holds exactly the old members plus the new elements |
| ConversationState.Dedup | src/components/chat/ChatWidget.tsx:105 | `[...new Set(s)]` is duplicate-free and has exactly the members of `s` |
| ConversationState.DedupIsFirstOccurrences | src/components/chat/ChatWidget.tsx:105 | the `Set` fold equals the independent first-occurrence definition |
| ConversationState.DedupOfDistinct | src/components/chat/ChatWidget.tsx:105 | a list without duplicates passes through the `Set` unchanged |
| ConversationState.DedupKeepsExistingFirst | src/components/chat/ChatWidget.tsx:103-105 | in the union of distinct existing entries and incoming ones, the existing entries come first and unchanged |
| ConversationState.Take | src/components/chat/ChatWidget.tsx:105 | `slice(0, n)` is the prefix of length min(n, length of s) |
| ConversationState.MergePainPoints | src/components/chat/ChatWidget.tsx:102-105 | the merged list has no duplicates, at most three entries, and only entries from existing or incoming |
| ConversationState.MergePainPointsIsFirstOccurrences | src/components/chat/ChatWidget.tsx:105 | the merged list is the first three first-occurrences of existing followed by incoming |
| ConversationState.PainPointsExistingFirst | src/components/chat/ChatWidget.tsx:103-105 | held pain points keep their places at the front of the merged list |
| ConversationState.PainPointsFullIgnoresIncoming | src/components/chat/ChatWidget.tsx:105 | with three pain points held, the merge returns them unchanged whatever arrives |
| ConversationState.PainPointsUnderCapKeepsAll | src/components/chat/ChatWidget.tsx:105 | when the union has at most three distinct entries, every existing and incoming entry is kept |
| ConversationState.MergeState | src/components/chat/ChatWidget.tsx:99-108 | every key other than `pain_points` is the spread's; `pain_points` follows the merge rule when the incoming list is non-empty, the spread otherwise |
| ConversationState.EmptyIncomingReplacesPainPoints | src/components/chat/ChatWidget.tsx:100-106 | an incoming `[]` or `null` is not merged and replaces the held pain points |
| ConversationState.MergeStatePreservesInvariant | src/components/chat/ChatWidget.tsx:99-108 | a merge keeps the pain points distinct and at most three, whatever the service sends |
| ConversationState.PainPointsInvariantAlways | src/components/chat/ChatWidget.tsx:98-109 | after any sequence of responses the pain points are distinct and at most three |
| ConversationState.MergeStateEmpty | src/components/chat/ChatWidget.tsx:98 | merging updates without keys would change nothing |
| ConversationState.HistoryWindow | src/components/chat/ChatWidget.tsx:86 | the window is the suffix of length min(10, number of messages) |
| SessionStore.DurableStorage.constructor | src/components/chat/ChatWidget.tsx:14 | storage starts with the items the browser kept |
| SessionStore.DurableStorage.GetItem | src/components/chat/ChatWidget.tsx:14 | a stored key gives its value, a missing key gives `null` |
| SessionStore.DurableStorage.SetItem | src/components/chat/ChatWidget.tsx:17 | the key is made to map to the value, and every other item stays |
| SessionStore.DurableStorage.Clear | src/components/chat/ChatWidget.tsx:14-17 | after the visitor clears site storage no item is left |
| SessionStore.NewSessionId | src/components/chat/ChatWidget.tsx:16 | a fresh id is `s_` followed by the stamp, and is non-empty |
| SessionStore.NewSessionIdInjective | src/components/chat/ChatWidget.tsx:16 | distinct stamps give distinct ids |
| SessionStore.GetOrCreateSession | src/components/chat/ChatWidget.tsx:13-20 | a usable stored id is returned and nothing is written; otherwise a fresh id is written under the key and returned |
| SessionStore.SecondCallReturnsFirstId | src/components/chat/ChatWidget.tsx:13-20 | a second call returns the first call's id |
| SessionStore.ClearedStorageGivesNewId | src/components/chat/ChatWidget.tsx:13-20 | after storage is cleared, a new id is made that differs from the one held before, for a new or a returning visitor |
| Widget.ReachedHalfway | src/components/chat/ChatWidget.tsx:46-48 | the scroll test holds exactly when twice the scrolled distance reaches the page height; a zero height follows JavaScript's `Infinity` and `NaN` |
| Widget.NudgeShown | src/components/chat/ChatWidget.tsx:164 | the nudge bubble is shown exactly when the nudge is raised and the panel is closed |
| Widget.EmailPresent | src/components/chat/ChatWidget.tsx:122 | an email counts exactly when it is set to a non-empty string |
| Widget.LeadDue | src/components/chat/ChatWidget.tsx:119-123 | no lead is due once one was submitted or when capture is not reported; with capture reported and none submitted, a non-empty email in the update or in the stored state makes it due, and one of the two must have it |
| Widget.LeadSnapshot | src/components/chat/ChatWidget.tsx:124-133 | each contact field of the payload is the update's value when the update has that key and the stored one otherwise (`''` for a missing name or email, `undefined` for a missing phone); its state is the spread; its transcript is the one given |
| Widget.LeadCarriesIncomingEmail | src/components/chat/ChatWidget.tsx:122-129 | an email in the response is the email submitted |
| Widget.LeadMayCarryEmptyEmail | src/components/chat/ChatWidget.tsx:122-129 | an update clearing the email passes the email test on the stored email, and the submitted email is `''` |
| Widget.LeadSnapshotSkipsPainPointMerge | src/components/chat/ChatWidget.tsx:100-124 | for a concrete state the stored pain points are the merged two, but the payload carries one |
| Widget.StateAfterResponse | src/components/chat/ChatWidget.tsx:97-109 | the state is merged only for an update object that has keys; the pain-point invariant is kept |
| Widget.MergeGuardRedundant | src/components/chat/ChatWidget.tsx:98 | the key-count guard never changes the outcome of a merge |
| Widget.RespondFailure | src/components/chat/ChatWidget.tsx:137-147 | a gateway failure appends one fallback message and changes neither state, hints, lead flag nor analytics |
| Widget.LeadStep | src/components/chat/ChatWidget.tsx:118-144 | once a lead was submitted the step does nothing; the flag ends set exactly when it was set or a `submitLead` call returned; the fallback is appended exactly when reading a missing `state_updates` or a due `submitLead` throws, and then nothing is tracked |
| Widget.Respond | src/components/chat/ChatWidget.tsx:85-147 | the rest of a send only appends to the transcript, one or two messages |
| Widget.RespondSuccess | src/components/chat/ChatWidget.tsx:94-144 | an answer appends the reply, followed by one fallback exactly when the lead step throws; it merges the state, replaces the hints, and tracks `demo_offered` exactly when the demo button is shown |
| Widget.RespondLeadGate | src/components/chat/ChatWidget.tsx:118-133 | `submitLead` is called exactly when the lead is reported captured, none was submitted yet and an email is present; it gets the spread snapshot and the full transcript |
| Widget.RespondLeadAtMostOnce | src/components/chat/ChatWidget.tsx:119-144 | the lead flag is set only by a returning `submitLead`; once set, no further call is made; a throwing call keeps reply, state and hints and adds the fallback |
| Widget.RespondTrackedCounts | src/components/chat/ChatWidget.tsx:113-135 | a completion never tracks `opened_chat`, and tracks one `lead_submitted` exactly when the lead flag goes from false to true |
| Widget.ChatWidget.constructor | src/components/chat/ChatWidget.tsx:22-37 | mounting reads or creates the session id. A stored id leaves storage unchanged; a fresh id is written under the key. The widget starts closed with an empty transcript, empty state and the opening chips |
| Widget.ChatWidget.Tick | src/components/chat/ChatWidget.tsx:41-43 | the timer raises the nudge only when the panel is closed |
| Widget.ChatWidget.Scroll | src/components/chat/ChatWidget.tsx:45-49 | a scroll past half the page while closed raises the nudge; otherwise nothing changes |
| Widget.ChatWidget.Open | src/components/chat/ChatWidget.tsx:58-69 | opening hides the nudge; only the first open injects the opening message and tracks `opened_chat` |
| Widget.ChatWidget.Close | src/components/chat/ChatWidget.tsx:71-73 | closing changes only the open flag |
| Widget.ChatWidget.Track | src/components/chat/ChatWidget.tsx:83 | a `track` call appends one event to the log and keeps the one-shot counts |
| Widget.ChatWidget.BeginSend | src/components/chat/ChatWidget.tsx:75-92 | blank text or a send in flight is ignored; otherwise the trimmed user message is appended, `loading` is set, `sent_message` is tracked and the request carries the last-10 window and the current state |
| Widget.ChatWidget.ChipClick | src/components/chat/ChatWidget.tsx:150-153 | `chips_clicked` is always tracked, then the chip text is sent as typed text would be; an ignored send leaves the pending send alone, a send records the transcript it saw and the user message |
| Widget.ChatWidget.DemoClick | src/components/chat/ChatWidget.tsx:155-158 | `demo_clicked` is always tracked, then the canned request is sent unless a send is in flight, whose pending record stays; a send records the transcript it saw and the canned message |
| Widget.ChatWidget.LeadCallSettled | src/components/chat/ChatWidget.tsx:126-144 | a returning `submitLead` sets the flag and tracks `lead_submitted`; a throwing one appends the fallback |
| Widget.ChatWidget.SubmitLeadIfDue | src/components/chat/ChatWidget.tsx:118-144 | the lead step leaves the transcript, flag, analytics and payload that the specification of the lead step gives |
| Widget.ChatWidget.TakeAnswer | src/components/chat/ChatWidget.tsx:94-116 | the reply is appended, the state merged, the hints replaced, and `demo_offered` tracked when shown |
| Widget.ChatWidget.AnswerFailed | src/components/chat/ChatWidget.tsx:137-144 | a gateway failure appends exactly the fallback message |
| Widget.ChatWidget.Answered | src/components/chat/ChatWidget.tsx:94-136 | an answered send leaves the fields that `Respond` gives for the answer |
| Widget.ChatWidget.CompleteSend | src/components/chat/ChatWidget.tsx:87-147 | the widget's transcript, state, hints, lead flag, analytics and the lead call are those `Respond` gives; `loading` is cleared; the invariant is kept |
| ChatComposer.SubmitPayload | src/components/chat/Composer.tsx:14-17 | nothing is sent exactly when disabled or the draft is all whitespace; otherwise the non-empty trimmed draft is sent |
| ChatComposer.SendButtonDisabled | src/components/chat/Composer.tsx:53 | the button is disabled exactly when the composer is disabled or the draft is all whitespace |
| ChatComposer.ButtonMatchesSubmit | src/components/chat/Composer.tsx:14-53 | the button is clickable exactly when a submit would send |
| ChatComposer.PayloadIsTrimmed | src/components/chat/Composer.tsx:15-17 | what is sent has non-whitespace at both ends and is its own trim |
| ChatComposer.ClampHeight | src/components/chat/Composer.tsx:34 | the height is at most 120 and at most the content height, and equal to one of them |
| ChatComposer.Composer.constructor | src/components/chat/Composer.tsx:11 | the draft starts empty and the height unset |
| ChatComposer.Composer.Change | src/components/chat/Composer.tsx:42 | the draft becomes the typed text |
| ChatComposer.Composer.Submit | src/components/chat/Composer.tsx:14-21 | a rejected submit keeps draft and height; a sent one clears the draft and resets the height to `auto` |
| ChatComposer.Composer.KeyDown | src/components/chat/Composer.tsx:23-28 | Enter without Shift is prevented and submits; every other key changes nothing |
| ChatComposer.Composer.Input | src/components/chat/Composer.tsx:30-35 | the height becomes the clamped content height, never above 120 |
| ChatComposer.SubmitTwice | src/components/chat/Composer.tsx:14-18 | a submit right after a successful one sends nothing |
| ChatPanelView.RenderPanel | src/components/chat/ChatPanel.tsx:51-68 | the list gets the messages and `loading` unchanged; chips show exactly the hinted chips iff enabled and non-empty; the demo button shows iff hinted; every control's disabled flag is `loading` |
| ChatPanelView.DisabledExactlyWhileLoading | src/components/chat/ChatPanel.tsx:58-68 | all shown controls are disabled exactly when loading, and all are enabled exactly when not |
| ChatPanelView.LoadingChangesOnlyFlags | src/components/chat/ChatPanel.tsx:51-65 | toggling `loading` shows the same chips, demo button and messages |
| ChatPanelView.OpeningPanel | src/components/chat/ChatPanel.tsx:54-65 | a freshly opened widget shows the three opening chips enabled and no demo button |
| DemoRequestForm.Settled | src/App.tsx:463-474 | a settled request gives `success` exactly for an ok response, `error` otherwise |
| DemoRequestForm.ContactForm.constructor | src/App.tsx:454-456 | the form starts `idle` with an empty email |
| DemoRequestForm.ContactForm.Change | src/App.tsx:506 | the email becomes the typed text |
| DemoRequestForm.ContactForm.Submit | src/App.tsx:458-468 | a submit while `submitting` is ignored; otherwise the status becomes `submitting` and the request carries the email |
| DemoRequestForm.ContactForm.Complete | src/App.tsx:469-474 | the status becomes the settled outcome; `marketing_demo_request` is tracked on success only |
| DemoRequestForm.DoubleSubmit | src/App.tsx:460-461 | two submits before the first settles issue one request |
| DemoRequestForm.RetryAfterError | src/App.tsx:460-473 | from `error`, a submit issues a new request |
| DemoRequestForm.RenderContact | src/App.tsx:493-528 | the success panel shows iff `success`, the form is hidden iff `success`, the error notice shows iff `error`, the controls are disabled iff `submitting`, and the caption and arrow follow `submitting` |
| DemoRequestForm.ErrorNoticeBelowForm | src/App.tsx:493-528 | the error notice only appears with the form, never beside the success panel |
| DemoRequestForm.ControlsLockedWhileSubmitting | src/App.tsx:508-513 | with the form shown, input and button are both disabled exactly while `submitting` |

## Left out

- Network bodies: `fetch`, JSON encoding, HTTP status codes and the backend URLs are not modelled. Each call is an outcome parameter: it returns or it throws. A non-ok status is a throw.
- Analytics transport: `track` is a ghost log of event names and properties. Its own network request, which never throws, is not modelled.
- Session-id rewrite after clearing: `useRef(getOrCreateSession())` calls `getOrCreateSession` on every render. If the visitor clears storage while the widget is mounted, the next render writes a fresh id to storage, and the widget never uses that id. The constructor makes the one call whose result the widget keeps, and that later write is not modelled.
- Events during a pending `submitLead`: `CompleteSend` takes both awaits of a send as one step, so no event is interleaved while `submitLead` is pending. This loses nothing observable. `loading` is still set then, so the composer, the chips and the demo button are disabled. Only Open, Close, Tick and Scroll can run, and they touch only `open` and `nudgeVisible`. Open also adds the opening message and `opened_chat`, but only on the first open, and a send requires an earlier open.
- Storage failures: `localStorage.getItem` and `setItem` are taken never to throw. `getOrCreateSession` has no `try`, so a blocked or full storage would make mounting the widget fail, and that path is not modelled.
- Sends while the panel is closed: `BeginSend`, `ChipClick` and `DemoClick` require `open`, because only the open panel renders the composer, the chips and the demo button. A send already in flight may still complete after the panel is closed.
- Clocks and randomness: the fresh session id takes its `Date.now()` and `Math.random()` part as the parameter `stamp`.
- Timers and listeners: the 25 s timer and the scroll listener are the events `Tick` and `Scroll`, and installing or clearing them is not modelled. After `open` changes, the re-installed handlers see the new `open`, and that is how `Tick` and `Scroll` read it.
- Widget.ReachedHalfway: the ratio uses exact reals, so floating-point rounding of the division is not modelled.
- React scheduling: each handler's closure sees the widget's fields as they stand when it runs. Batching and stale renders are not modelled. Re-evaluating `getOrCreateSession()` on every render is left out. By `SecondCallReturnsFirstId` it returns the id already in use, unless storage is cleared between renders.
- Unknown keys: properties of `state_updates` outside `ChatState` are not represented. A malformed gateway response beyond a missing `state_updates` is not represented either.
- Composer: the textarea reference is assumed mounted, so the null-reference guard of `handleInput` is not modelled, and `e.preventDefault()` is the flag `prevented`.
- Contact form: browser validation of the `required` email input is not modelled. `handleSubmit` is taken as invoked whenever the form is submitted, and `preventDefault` is not modelled.
- Presentational components and static content are not part of this model: the launcher, the message list, the chip and demo-button markup, the landing page sections and the build configuration.
- DemoRequestForm.ContactForm.Valid: only records that a shown success was tracked; it does not count events per request.
