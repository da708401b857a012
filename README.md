# Chat panel of the portfolio demo, modelled in Dafny

This project models the chat-assistant panel of a demo web client. A visitor types a
question or clicks one of five suggestion chips. The panel appends the question, shows a
canned "thinking" script chosen by keyword, calls a demo endpoint, and after a timer
appends one assistant reply. The view decides which messages show sources, actions,
streaming reasoning and citations.

The three core files become:

- `dummy_route.dfy` (`DummyRoute`): `POST /api/dummy` as a pure function. Its inputs are
  the request body, the API key, the outcome of the two upstream chat-completion calls
  and the parsed sources. Its result is `{status, reasoning, reply, sources?}`.
- `thinking.dfy` (`Thinking`): `buildThinkingFor`, a keyword classifier over the
  lower-cased question.
- `panel_spec.dfy` (`PanelSpec`): the panel as a state machine over values. The state holds
  the messages, suggestions, thinking state, stored sources, input, armed reply timers,
  the timer ref and the awaited requests. `processUserText` is split at its `await`:
  `ProcessUserText` is the part before the demo endpoint answers, `ResponseArrived` the
  part after.
  `PanelSpec.HandleSubmit` tests "not all white space"; `PanelSpec.SubmitRule` proves this
  is the source's `input.trim()` test, and the class method calls `Trim` itself.
- `side_panel.dfy` (`SidePanel.ChatBotDemo`): the component as a class whose fields are
  that state. Each handler updates the fields step by step and is proved to perform the
  `PanelSpec` transition.
- `tab_one.dfy` (`TabOne`): the view's rules, the suggestion filter and the submit-button rule.
- `panel_props.dfy` (`PanelProps`): properties of whole runs of events, and how the view
  and the route fit the panel.
- `js_string.dfy`, `chat_types.dfy`, `wrappers.dfy`: the JavaScript string operations used
  (`slice`, `trim` with ECMAScript's exact white-space set, `includes`, `split`/`join` on
  one character, ASCII `toLowerCase`), the shared records, and `Option`.

Behaviours of the source worth knowing:

- `shouldShowMockAssistant` (SidePanel.tsx:115-118) is computed but never read, neither by the
  panel nor by the view, so no mock reply is ever rendered. The model keeps the flag only to relate
  it to the placeholder bubble.
- The route omits `sources` on the upstream-error and catch-all branches. It does not
  always answer `{reasoning, reply, sources}`.
- Clearing the timer on re-submission avoids overlapping replies only when requests do
  not overlap. If a second question is submitted before the first answer arrives, both
  answers arm a timer. The second overwrites the ref without clearing the first, so two
  timers are pending (`PanelProps.OverlappingRequestsArmTwoTimers`).
- The fallback reasoning of the catch-all branch (route.ts:122) and the fallback thinking
  title (TabOne.tsx:215) are written in the files as `Thinking` followed by the three
  characters U+00E2 U+20AC U+00A6. That is how a UTF-8 "…" reads after being decoded as
  Windows-1252. The model keeps those characters. The thinking scripts in SidePanel.tsx
  use a real U+2026.

## Model

| member | source | states |
|---|---|---|
| `JsString.Take` | app/api/dummy/route.ts:11 | `slice(0, n)` is the prefix of length min(n, length) |
| `JsString.Trim` | app/side-panel/SidePanel.tsx:166 | `trim()` cuts only white space off either end: the result occurs in the text with nothing but white space before and after it, and neither starts nor ends with white space; it is empty exactly when the text is all white space |
| `JsString.TrimIdempotent` | app/side-panel/SidePanel.tsx:166 | trimming a trimmed text changes nothing |
| `JsString.ToLower` | app/side-panel/SidePanel.tsx:63 | `toLowerCase()` keeps the length and maps each character on its own: ASCII capitals to their small letters, everything else unchanged |
| `JsString.Contains` | app/side-panel/SidePanel.tsx:64 | `includes(part)`: some position of the text starts an occurrence of `part` (a definition; `Thinking.ScriptPrecedence` states what the scripts make of it) |
| `JsString.IndexOf` | app/api/dummy/route.ts:80 | the position of the first newline: it holds the newline and nothing before it does |
| `JsString.Split` | app/api/dummy/route.ts:80 | `split('\n')` returns at least one piece, no piece contains the separator, and text without a newline is one piece |
| `JsString.Join` | app/api/dummy/route.ts:82 | `join('\n')` starts with the first piece, followed by the separator when there is a second piece |
| `JsString.JoinSplit` | app/api/dummy/route.ts:80-82 | joining the pieces of a split restores the text |
| `JsString.SplitJoin` | app/api/dummy/route.ts:80-82 | splitting a join of newline-free pieces returns the pieces |
| `JsString.RestPiecesJoin` | app/api/dummy/route.ts:82 | the pieces after the first, re-joined, are exactly the text after the first newline |
| `Thinking.BuildThinkingFor` | app/side-panel/SidePanel.tsx:62-106 | every script has a non-empty title and exactly four task items, and is one of the four fixed scripts |
| `Thinking.ScriptPrecedence` | app/side-panel/SidePanel.tsx:63-105 | on the lower-cased text: the research script iff "research" occurs; the outcomes script iff impact/results/metrics occurs without "research"; the process script iff process/approach/timeline occurs and neither earlier group does; otherwise the default |
| `Thinking.CaseInsensitive` | app/side-panel/SidePanel.tsx:63 | lower-casing the question first picks the same script |
| `Thinking.UpperCaseResearchMatches` | app/side-panel/SidePanel.tsx:63-64 | "RESEARCH" anywhere in the question selects the research script |
| `Thinking.LowerCasedKeywordFound` | app/side-panel/SidePanel.tsx:63-64 | lower-casing a question that contains "RESEARCH" yields one that mentions "research" |
| `DummyRoute.ThinkingAbout` | app/api/dummy/route.ts:11 | the reasoning is `Thinking about: "`, then the first min(length, 120) characters of the question (none when it is absent), then a quote |
| `DummyRoute.Shown` | app/api/dummy/route.ts:12 | a question the body lacks prints as "undefined" in the no-key reply (a definition; `DummyRoute.NoKeyReplyWithoutQuestion` states the reply it builds) |
| `DummyRoute.NoKeyResponse` | app/api/dummy/route.ts:8-48 | without a key: status 200, the `Thinking about:` reasoning, the five fixed sources |
| `DummyRoute.NoKeyReplyQuotesText` | app/api/dummy/route.ts:12-44 | the no-key reply contains the whole question, and there are exactly five sources |
| `DummyRoute.NoKeyReplyWithoutQuestion` | app/api/dummy/route.ts:12 | without a question the no-key reply is the one for the question "undefined", and contains it |
| `DummyRoute.UpstreamErrorResponse` | app/api/dummy/route.ts:66-75 | upstream not ok: status 200, no `sources`, the `Thinking about:` reasoning, and a reply that is the fallback prefix plus the first min(length, 120) characters of the upstream message |
| `DummyRoute.SourcesFor` | app/api/dummy/route.ts:85-116 | success-path sources number 1 to 5: a non-empty parse is kept as its first five entries, and an empty or failed parse gives the five fallback entries |
| `DummyRoute.CompletionResponse` | app/api/dummy/route.ts:77-118 | success path: status 200, non-empty reasoning of at most 200 characters, and a reply that is empty exactly when the completion content is empty |
| `DummyRoute.ReasoningIsFirstLine` | app/api/dummy/route.ts:80-81 | reasoning is the first line cut to 200 characters, or the `Thinking about:` text when that line is empty |
| `DummyRoute.SingleLineReplyIsContent` | app/api/dummy/route.ts:82 | a completion without a newline is the reply as it stands |
| `DummyRoute.MultiLineReplyIsRest` | app/api/dummy/route.ts:82 | a multi-line completion answers the trimmed text after the first newline, or the whole content when that is blank |
| `DummyRoute.ReasoningAndRestRebuildContent` | app/api/dummy/route.ts:80-82 | first line, newline and the re-joined rest rebuild the completion |
| `DummyRoute.ErrorResponse` | app/api/dummy/route.ts:119-127 | any thrown error: status 200, no `sources`, the fixed reasoning, and a reply that is the error-fallback prefix plus the error's message (or its string form when the message is empty) |
| `DummyRoute.Post` | app/api/dummy/route.ts:3-128 | every branch answers 200; any `sources` has 1 to 5 entries; reasoning is never empty; the reply is empty exactly when a key is set and the completion content is empty |
| `TabOne.SourceUrls` | app/side-panel/views/TabOne.tsx:124-130 | one url per source-url part: every source-url part's url is listed, nothing else is, and the list is as long as the number of source-url parts; it is empty exactly when there is none |
| `TabOne.SourceUrlsAppend` | app/side-panel/views/TabOne.tsx:128-130 | the source list keeps the parts' order (the filter distributes over concatenation) |
| `TabOne.SourceCount` | app/side-panel/views/TabOne.tsx:124-127 | the count on the sources trigger is the number of source-url parts of the message |
| `TabOne.ShowsSources` | app/side-panel/views/TabOne.tsx:121 | the sources panel is shown for an assistant message with a positive source count (a definition; `TabOne.SourcesPanelRule` states its meaning) |
| `TabOne.SourcesPanelRule` | app/side-panel/views/TabOne.tsx:121-127 | a sources panel appears exactly for assistant messages with at least one source-url part; its count is the number of those parts |
| `TabOne.HasActions` | app/side-panel/views/TabOne.tsx:176 | Retry/Copy follow a part when it is a text part, the last of an assistant message (a definition; `TabOne.ActionsOnLastPartOnly` states its meaning) |
| `TabOne.ActionsOnLastPartOnly` | app/side-panel/views/TabOne.tsx:176 | Retry/Copy follow at most one part of a message, the last, and only on an assistant text part |
| `TabOne.IsStreaming` | app/side-panel/views/TabOne.tsx:201 | a reasoning part streams when status is "streaming", it is its message's last part, and its message has the last message's id (a definition; `TabOne.StreamingOnlyAtTheEnd` states its meaning) |
| `TabOne.StreamingOnlyAtTheEnd` | app/side-panel/views/TabOne.tsx:201 | with distinct ids, a reasoning part streams iff status is "streaming", it is its message's last part, and its message is the last one |
| `TabOne.ThinkingTitle` | app/side-panel/views/TabOne.tsx:215 | the thinking title is `thinkingText` when that is non-empty, and the fallback literal otherwise; so it is never empty |
| `TabOne.ShowsPlaceholder` | app/side-panel/views/TabOne.tsx:223 | the empty assistant bubble shows unless the last message is the user's (a definition; `PanelProps.MockAssistantExcludesPlaceholder` relates it to the `shouldShowMockAssistant` flag) |
| `TabOne.ShowsInlineCitation` | app/side-panel/views/TabOne.tsx:152 | an inline citation follows text parts of assistant messages while sources are stored (a definition; `TabOne.CitationUrls` states what it lists) |
| `TabOne.CitationUrls` | app/side-panel/views/TabOne.tsx:152-155 | the inline citation lists the url of every stored source, in order, one per source; it lists nothing, and does not appear, unless the message is the assistant's and sources are stored |
| `TabOne.RemoveSuggestion` | app/side-panel/views/TabOne.tsx:248 | the filtered list is never longer than the list clicked on |
| `TabOne.RemoveSuggestionCounts` | app/side-panel/views/TabOne.tsx:248 | clicking removes every copy of the suggestion and keeps each other suggestion as often as before; the list shrinks by exactly the copies removed |
| `TabOne.RemoveSuggestionAppend` | app/side-panel/views/TabOne.tsx:248 | the filter keeps the remaining suggestions in their original order |
| `TabOne.RemoveAbsentSuggestion` | app/side-panel/views/TabOne.tsx:248 | filtering out a suggestion that is not listed changes nothing |
| `TabOne.SubmitDisabled` | app/side-panel/views/TabOne.tsx:289 | the submit button is disabled exactly for empty input (a definition; `PanelProps.BlankInputIsIgnored` and `PanelProps.DisabledSubmitIsNoOp` state what it means for submitting) |
| `PanelSpec.Initial` | app/side-panel/SidePanel.tsx:45-60 | the mounted panel has the five suggestions, no messages, no timer, no request |
| `PanelSpec.ReplyText` | app/side-panel/SidePanel.tsx:151 | the reply appended is `data.reply` when it is non-empty, otherwise 'Here is a demo response.', so it is never empty |
| `PanelSpec.StoredSources` | app/side-panel/SidePanel.tsx:145 | stored sources are the first min(length, 5) entries of the answer's array, and none when `sources` is not an array |
| `PanelSpec.ProcessUserText` | app/side-panel/SidePanel.tsx:128-137 | appends the user message, cancels the current timer, starts thinking with the chosen script's title and items, and starts one request, before any reply |
| `PanelSpec.ResponseArrived` | app/side-panel/SidePanel.tsx:138-161 | an answer stores its capped sources and arms one new timer held by the ref, leaving the messages and the thinking state as they are; a failure cancels the current timer, stops thinking and appends exactly the network-error reply, leaving the ref and sources as they are; neither touches the input, suggestions, title or task items |
| `PanelSpec.TimerFired` | app/side-panel/SidePanel.tsx:146-153 | the timer stops thinking, disarms itself and appends exactly one assistant message with its reply; every other field but the message id counter stays as it was |
| `PanelSpec.HandleSubmit` | app/side-panel/SidePanel.tsx:164-171 | all-white-space input leaves the panel unchanged; any other input is cleared and then processed in full as typed (`PanelSpec.ProcessUserText` of the untrimmed text), so thinking starts and one request is awaited |
| `PanelSpec.SubmitRule` | app/side-panel/SidePanel.tsx:164-171 | submit does nothing when the trimmed input is empty; otherwise it clears the input and processes the untrimmed text |
| `PanelSpec.ClickSuggestion` | app/side-panel/views/TabOne.tsx:247-250 | a click drops the suggestion, then processes its text |
| `PanelSpec.FirstText` | app/side-panel/SidePanel.tsx:123 | the first text part's text, and none exactly when no part is text |
| `PanelSpec.LastUserIndex` | app/side-panel/SidePanel.tsx:120 | none iff there is no user message; otherwise the position of the last user message |
| `PanelSpec.MessageText` | app/side-panel/SidePanel.tsx:123 | a message's text is its content when it has one, else the text of its first text part, else '' when it has no text part |
| `PanelSpec.LastUserText` | app/side-panel/SidePanel.tsx:120-123 | none iff there is no user message; otherwise the text (content, else first text part, else '') of the last user message |
| `PanelSpec.Regenerate` | app/side-panel/SidePanel.tsx:119-126 | Retry appends one user message with the last user text under a fresh id, and changes nothing else; with no user message it changes nothing |
| `PanelSpec.Unmount` | app/side-panel/SidePanel.tsx:108-112 | unmounting cancels the timer the ref holds and changes nothing else |
| `PanelSpec.ShouldShowMockAssistant` | app/side-panel/SidePanel.tsx:113-118 | the `shouldShowMockAssistant` flag holds when the last message is the user's and status is "ready"; the component computes it but never reads it (a definition; `PanelProps.MockAssistantExcludesPlaceholder` states its meaning) |
| `PanelSpec.SendMessageKeepsValid` | app/side-panel/SidePanel.tsx:130 | appending under a fresh id keeps the invariant (distinct ids) |
| `PanelSpec.ProcessUserTextKeepsValid` | app/side-panel/SidePanel.tsx:128-137 | processing keeps the invariant (distinct ids, non-empty armed replies, at most five sources, a well-formed script while thinking) |
| `PanelSpec.ResponseArrivedKeepsValid` | app/side-panel/SidePanel.tsx:138-161 | the continuation keeps the invariant |
| `PanelSpec.TimerFiredKeepsValid` | app/side-panel/SidePanel.tsx:146-153 | the timer callback keeps the invariant |
| `PanelSpec.RegenerateKeepsValid` | app/side-panel/SidePanel.tsx:119-126 | Retry keeps the invariant |
| `SidePanel.ChatBotDemo.constructor` | app/side-panel/SidePanel.tsx:45-60 | the mounted component's state is the initial panel state |
| `SidePanel.ChatBotDemo.SendMessage` | app/side-panel/SidePanel.tsx:130 | appends one message under a fresh id |
| `SidePanel.ChatBotDemo.ClearCurrentTimer` | app/side-panel/SidePanel.tsx:132 | cancels the timer the ref holds and leaves the ref as it is |
| `SidePanel.ChatBotDemo.SetInput` | app/side-panel/views/TabOne.tsx:259 | only the input changes, and the invariant is kept |
| `SidePanel.ChatBotDemo.ProcessUserText` | app/side-panel/SidePanel.tsx:128-137 | performs `PanelSpec.ProcessUserText` and keeps the invariant |
| `SidePanel.ChatBotDemo.ResponseArrived` | app/side-panel/SidePanel.tsx:138-161 | performs `PanelSpec.ResponseArrived` and keeps the invariant |
| `SidePanel.ChatBotDemo.TimerFired` | app/side-panel/SidePanel.tsx:146-153 | performs `PanelSpec.TimerFired` and keeps the invariant |
| `SidePanel.ChatBotDemo.HandleSubmit` | app/side-panel/SidePanel.tsx:164-171 | performs `PanelSpec.HandleSubmit` (checked with `trim()`) and keeps the invariant |
| `SidePanel.ChatBotDemo.ClickSuggestion` | app/side-panel/views/TabOne.tsx:247-250 | performs `PanelSpec.ClickSuggestion` and keeps the invariant |
| `SidePanel.ChatBotDemo.Regenerate` | app/side-panel/SidePanel.tsx:119-126 | performs `PanelSpec.Regenerate` and keeps the invariant |
| `SidePanel.ChatBotDemo.Unmount` | app/side-panel/SidePanel.tsx:108-112 | performs `PanelSpec.Unmount` and keeps the invariant |
| `PanelProps.StepKeepsValid` | app/side-panel/SidePanel.tsx:119-171 | every enabled event keeps the invariant |
| `PanelProps.RunKeepsValid` | app/side-panel/SidePanel.tsx:119-171 | every state reachable from a valid state is valid |
| `PanelProps.StepKeepsSingleTimer` | app/side-panel/SidePanel.tsx:132-155 | if no request starts while another is awaited, each event keeps at most one request or one armed timer pending, and an armed timer is the one the ref holds |
| `PanelProps.AtMostOnePendingTimer` | app/side-panel/SidePanel.tsx:132-155 | in runs where requests do not overlap, at most one reply timer is ever pending |
| `PanelProps.OverlappingRequestsArmTwoTimers` | app/side-panel/SidePanel.tsx:128-153 | from any state without an armed timer, two non-blank submissions answered only afterwards leave two reply timers armed, under two fresh handles |
| `PanelProps.UnmountLeavesOtherTimers` | app/side-panel/SidePanel.tsx:108-112 | unmounting leaves armed every reply timer other than the ref's, with its reply |
| `PanelProps.AwaitedRequestOutlivesUnmount` | app/side-panel/SidePanel.tsx:108-112 | a request still awaited at unmount, once answered, arms a reply timer the clean-up never cancels |
| `PanelProps.SuggestionNeverReturns` | app/side-panel/views/TabOne.tsx:248 | a suggestion that is gone never reappears in any later state |
| `PanelProps.ClickRemovesOnlyThatSuggestion` | app/side-panel/views/TabOne.tsx:247-250 | a click removes the clicked suggestion and no other |
| `PanelProps.SubmitThenReply` | app/side-panel/SidePanel.tsx:128-171 | a submit followed by its answer and timer adds exactly the untrimmed user message and then one non-empty assistant reply |
| `PanelProps.SubmitThenNetworkError` | app/side-panel/SidePanel.tsx:154-161 | a submit whose request fails adds the user message and exactly one network-error reply, and thinking stops |
| `PanelProps.ThinkingBeforeReply` | app/side-panel/SidePanel.tsx:130-136 | right after processing, thinking shows the script's title, the last message is the user's, and no placeholder is shown |
| `PanelProps.BlankInputIsIgnored` | app/side-panel/views/TabOne.tsx:289 | whitespace-only input enables the button, but submitting it changes nothing |
| `PanelProps.DisabledSubmitIsNoOp` | app/side-panel/views/TabOne.tsx:289 | the button is disabled only for empty input, which submit ignores anyway |
| `PanelProps.LastUserTextSkipsAssistant` | app/side-panel/SidePanel.tsx:120 | appending a non-user message leaves the text Retry would resend unchanged |
| `PanelProps.RetryResendsQuestion` | app/side-panel/SidePanel.tsx:119-126 | after a question and its reply, Retry resends exactly the question |
| `PanelProps.RetryWithoutQuestion` | app/side-panel/SidePanel.tsx:121 | with no user message Retry sends nothing |
| `PanelProps.ReplyCarriesActions` | app/side-panel/views/TabOne.tsx:176-223 | the reply the timer appends carries Retry/Copy, and the placeholder bubble shows after it |
| `PanelProps.MockAssistantExcludesPlaceholder` | app/side-panel/SidePanel.tsx:113-118 | the `shouldShowMockAssistant` flag and the placeholder bubble never hold together; when status is "ready", exactly one of them holds |
| `PanelProps.StreamingOnlyInLastMessage` | app/side-panel/views/TabOne.tsx:201 | in every valid panel state only the last message can stream reasoning |
| `PanelProps.RouteAnswerReachesPanel` | app/api/dummy/route.ts:78-118 | the panel stores the route's sources unchanged and appends its reply, or the default when the completion was empty, so the reply shown is never empty |

## Left out

- Network: the `fetch` to the demo endpoint and the two upstream calls are not modelled. Their outcomes are inputs: an answer or a failure, the completion content, the upstream error text, and the parsed sources or none.
- JSON: `req.json()`, `res.json()` and `JSON.parse` are not modelled. Their outcome is an `Option` or a thrown error. Values of an unexpected type are outside the model: a non-string `text`, `content` or `reply`, and source entries of another shape. Coercion through `String(...)` is therefore not modelled.
- Chat library: the internals of `useChat` are not modelled. `sendMessage` appends one message under a fresh numeric id (the library makes string ids). The library's own request to its chat endpoint, and the status changes and streamed messages it would cause, are not modelled. The chat `status` is an input to the view rules.
- Timers: the 3500 ms delay is not modelled. A timer is armed and later fires as a separate event. Which armed timer fires next is left to the trace.
- Unmount: it is a function and a method, not an event in traces; what the component does after it is not followed. The clean-up cancels only the ref's timer: other armed timers still fire and a request still awaited still arms a timer (`PanelProps.UnmountLeavesOtherTimers`, `PanelProps.AwaitedRequestOutlivesUnmount`), and what those callbacks do to an unmounted component is not modelled.
- Characters: `toLowerCase` is modelled for ASCII letters only. JavaScript's `slice` counts UTF-16 code units; the model counts characters (Unicode scalar values). The two differ outside the Basic Multilingual Plane.
- The `apiKey` variable is modelled as a string, with "" for unset, because `!apiKey` treats both alike.
- `PanelProps.AtMostOnePendingTimer`: the at-most-one-pending-timer property is proved only for runs where no request starts while another is awaited. The source does not keep it for overlapping requests, as `PanelProps.OverlappingRequestsArmTwoTimers` shows.
- UI state with no behaviour to verify is not modelled: clipboard writes, tab switching, the model selector and the web-search toggle, `maxDuration`, and the markup and styling of the view.
- The rich-text editor is not part of this model: `components/blocks/editor-x/editor.tsx`, the toolbar and insert plugins, `components/editor/plugins/picker/poll-picker-plugin.tsx`, `components/ai-elements/task.tsx` and `app/page.tsx`. They are wrappers over libraries, with no logic of their own.
