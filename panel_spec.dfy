/**
 * The chat panel of app/side-panel/SidePanel.tsx as a state machine over values.
 * `processUserText` is split at its `await fetch`: ProcessUserText is what runs before
 * the demo endpoint answers, ResponseArrived what runs after. Pending reply timers are
 * a map from timer handle to the reply text the callback will append; `timerRef` is
 * `thinkingTimerRef.current`. The class SidePanel.ChatBotDemo is proved to perform
 * exactly these transitions.
 */
module PanelSpec {
  import opened Wrappers
  import opened JsString
  import opened ChatTypes
  import opened Thinking
  import TabOne

  /** The JSON the panel reads from /api/dummy: `data.reply` and `data.sources` when it is an array. */
  datatype DummyReply = DummyReply(reply: Option<string>, sources: Option<seq<SourceItem>>)

  /** How the awaited `fetch` + `res.json()` ended. */
  datatype FetchOutcome = Received(data: DummyReply) | NetworkError

  datatype PanelState = PanelState(
    messages: seq<ChatMessage>,
    suggestions: seq<string>,
    isThinking: bool,
    thinkingText: string,
    taskItems: seq<string>,
    lastSources: seq<SourceItem>,
    input: string,
    timers: map<nat, string>,   // armed reply timers: handle -> text their callback appends
    timerRef: Option<nat>,      // thinkingTimerRef.current
    inFlight: nat,              // requests to /api/dummy not yet answered
    nextId: nat,                // next message id the chat library hands out
    nextHandle: nat)            // next timer handle

  const InitialSuggestions: seq<string> := [
    "What research methods did you use?",
    "What were the key user insights?",
    "Show the impact and success metrics",
    "Explain the design decisions and trade\U{2011}offs",
    "Walk me through the process and timeline"
  ]

  const DefaultReply := "Here is a demo response."
  const NetworkErrorReply := "Demo response (network error)."
  const MaxStoredSources := 5

  /** What every reachable state satisfies. */
  ghost predicate Valid(s: PanelState) {
    && DistinctIds(s.messages)
    && (forall i :: 0 <= i < |s.messages| ==> s.messages[i].id < s.nextId)
    && (forall h :: h in s.timers ==> h < s.nextHandle && s.timers[h] != "")
    && (s.timerRef.Some? ==> s.timerRef.value < s.nextHandle)
    && |s.lastSources| <= MaxStoredSources
    && (s.isThinking ==> WellFormed(ThinkingScript(s.thinkingText, s.taskItems)))
  }

  /** The panel when it mounts: five suggestions and nothing else. */
  function Initial(): (s: PanelState)
    ensures Valid(s)
    ensures s.messages == [] && !s.isThinking && s.timers == map[] && s.inFlight == 0
    ensures s.suggestions == InitialSuggestions
  {
    PanelState([], InitialSuggestions, false, "", [], [], "", map[], None, 0, 0, 0)
  }

  /** A message with a role and a single text part, as the panel sends them. */
  function TextMessage(id: nat, role: Role, text: string): ChatMessage {
    ChatMessage(id, role, None, Some([Text(text)]))
  }

  /** The message `sendMessage({ text })` appends. */
  function UserMessage(id: nat, text: string): ChatMessage {
    TextMessage(id, User, text)
  }

  /** The single-text-part assistant message the panel appends. */
  function AssistantMessage(id: nat, text: string): ChatMessage {
    TextMessage(id, Assistant, text)
  }

  /** The chat library's `sendMessage`: append one message under a fresh id. */
  function SendMessage(s: PanelState, role: Role, text: string): PanelState {
    s.(messages := s.messages + [TextMessage(s.nextId, role, text)], nextId := s.nextId + 1)
  }

  /** `if (thinkingTimerRef.current) clearTimeout(thinkingTimerRef.current)`; the ref keeps its value. */
  function ClearCurrentTimer(s: PanelState): PanelState {
    if s.timerRef.Some? then s.(timers := s.timers - {s.timerRef.value}) else s
  }

  /** `data?.reply || 'Here is a demo response.'`: never empty. */
  function ReplyText(d: DummyReply): (r: string)
    ensures r != ""
    ensures d.reply.Some? && d.reply.value != "" ==> r == d.reply.value
    ensures d.reply.None? || d.reply.value == "" ==> r == DefaultReply
  {
    if d.reply.Some? && d.reply.value != "" then d.reply.value else DefaultReply
  }

  /** `Array.isArray(data?.sources) ? data.sources.slice(0, 5) : []` */
  function StoredSources(sources: Option<seq<SourceItem>>): (r: seq<SourceItem>)
    ensures |r| <= MaxStoredSources
    ensures sources.None? ==> r == []
    ensures sources.Some? ==> r <= sources.value && (|sources.value| <= MaxStoredSources ==> r == sources.value)
    ensures sources.Some? ==> |r| == if |sources.value| < MaxStoredSources then |sources.value| else MaxStoredSources
  {
    if sources.Some? then Take(sources.value, MaxStoredSources) else []
  }

  /**
   * processUserText up to its `await`: append the user's message, cancel the current
   * reply timer, show the thinking script chosen for the text, and start the request.
   */
  function ProcessUserText(s: PanelState, text: string): (r: PanelState)
    ensures r.messages == s.messages + [UserMessage(s.nextId, text)]
    ensures r.isThinking && ThinkingScript(r.thinkingText, r.taskItems) == BuildThinkingFor(text)
    ensures r.inFlight == s.inFlight + 1
    ensures r.timers == if s.timerRef.Some? then s.timers - {s.timerRef.value} else s.timers
    ensures r.timerRef == s.timerRef && r.lastSources == s.lastSources
    ensures r.suggestions == s.suggestions && r.input == s.input
    ensures r.nextId == s.nextId + 1 && r.nextHandle == s.nextHandle
  {
    var sent := SendMessage(s, User, text);
    var cleared := ClearCurrentTimer(sent);
    var thinking := BuildThinkingFor(text);
    cleared.(thinkingText := thinking.title, taskItems := thinking.items, isThinking := true,
             inFlight := cleared.inFlight + 1)
  }

  /**
   * processUserText after its `await`. With an answer: store at most five sources and
   * arm a new reply timer (the ref is overwritten, not cleared). On a failure: cancel
   * the current timer, stop thinking and append the network-error reply.
   */
  function ResponseArrived(s: PanelState, outcome: FetchOutcome): (r: PanelState)
    requires s.inFlight > 0
    ensures r.inFlight == s.inFlight - 1
    ensures outcome.Received? ==>
      && r.lastSources == StoredSources(outcome.data.sources)
      && r.timers == s.timers[s.nextHandle := ReplyText(outcome.data)]
      && r.timerRef == Some(s.nextHandle) && r.nextHandle == s.nextHandle + 1
      && r.messages == s.messages && r.isThinking == s.isThinking && r.nextId == s.nextId
    ensures outcome.NetworkError? ==>
      && !r.isThinking
      && r.messages == s.messages + [AssistantMessage(s.nextId, NetworkErrorReply)]
      && r.timers == (if s.timerRef.Some? then s.timers - {s.timerRef.value} else s.timers)
      && r.timerRef == s.timerRef
      && r.lastSources == s.lastSources && r.nextId == s.nextId + 1 && r.nextHandle == s.nextHandle
    ensures r.suggestions == s.suggestions && r.input == s.input
    ensures r.thinkingText == s.thinkingText && r.taskItems == s.taskItems
  {
    match outcome
    case Received(data) =>
      s.(inFlight := s.inFlight - 1, lastSources := StoredSources(data.sources),
         timers := s.timers[s.nextHandle := ReplyText(data)], timerRef := Some(s.nextHandle),
         nextHandle := s.nextHandle + 1)
    case NetworkError =>
      var cleared := ClearCurrentTimer(s).(inFlight := s.inFlight - 1, isThinking := false);
      SendMessage(cleared, Assistant, NetworkErrorReply)
  }

  /** The reply timer `handle` fires: stop thinking and append exactly one assistant message. */
  function TimerFired(s: PanelState, handle: nat): (r: PanelState)
    requires handle in s.timers
    ensures !r.isThinking && handle !in r.timers && r.timers == s.timers - {handle}
    ensures r.messages == s.messages + [AssistantMessage(s.nextId, s.timers[handle])]
    ensures r.timerRef == s.timerRef && r.lastSources == s.lastSources && r.inFlight == s.inFlight
    ensures r.nextId == s.nextId + 1 && r.nextHandle == s.nextHandle
    ensures r.suggestions == s.suggestions && r.input == s.input
    ensures r.thinkingText == s.thinkingText && r.taskItems == s.taskItems
  {
    var text := s.timers[handle];
    SendMessage(s.(isThinking := false, timers := s.timers - {handle}), Assistant, text)
  }

  /**
   * handleSubmit: `input.trim()` is empty exactly when the input is all white space;
   * then nothing happens. Otherwise the input is cleared and processed as typed.
   */
  function HandleSubmit(s: PanelState): (r: PanelState)
    ensures AllWhiteSpace(s.input) ==> r == s
    ensures !AllWhiteSpace(s.input) ==>
      && r.input == "" && r.isThinking && r.inFlight == s.inFlight + 1
      && r.messages == s.messages + [UserMessage(s.nextId, s.input)]
    ensures !AllWhiteSpace(s.input) ==> r == ProcessUserText(s.(input := ""), s.input)
  {
    if !AllWhiteSpace(s.input) then ProcessUserText(s.(input := ""), s.input) else s
  }

  /** Submitting does nothing unless the trimmed input is non-empty; then it clears the input and sends it untrimmed. */
  lemma SubmitRule(s: PanelState)
    ensures Trim(s.input) == "" ==> HandleSubmit(s) == s
    ensures Trim(s.input) != "" ==>
      && HandleSubmit(s).input == ""
      && HandleSubmit(s).messages == s.messages + [UserMessage(s.nextId, s.input)]
      && HandleSubmit(s).isThinking
      && HandleSubmit(s) == ProcessUserText(s.(input := ""), s.input)
  {
  }

  /** A suggestion click: drop that suggestion, then process its text (TabOne.tsx:247-250). */
  function ClickSuggestion(s: PanelState, suggestion: string): (r: PanelState)
    ensures suggestion !in r.suggestions
    ensures r == ProcessUserText(s.(suggestions := TabOne.RemoveSuggestion(s.suggestions, suggestion)), suggestion)
  {
    TabOne.RemoveSuggestionCounts(s.suggestions, suggestion);
    ProcessUserText(s.(suggestions := TabOne.RemoveSuggestion(s.suggestions, suggestion)), suggestion)
  }

  /** The first text part's text, if any. */
  function FirstText(parts: seq<ChatPart>): (r: Option<string>)
    ensures r.None? <==> forall i :: 0 <= i < |parts| ==> !parts[i].Text?
    ensures r.Some? ==> exists i :: IsFirstText(parts, i) && parts[i].text == r.value
  {
    if parts == [] then None
    else if parts[0].Text? then
      assert IsFirstText(parts, 0);
      Some(parts[0].text)
    else
      var r := FirstText(parts[1..]);
      assert forall i :: 1 <= i < |parts| ==> parts[i] == parts[1..][i - 1];
      if r.Some? then
        var i :| IsFirstText(parts[1..], i) && parts[1..][i].text == r.value;
        assert IsFirstText(parts, i + 1);
        r
      else r
  }

  predicate IsFirstText(parts: seq<ChatPart>, i: int) {
    0 <= i < |parts| && parts[i].Text? && forall j :: 0 <= j < i ==> !parts[j].Text?
  }

  /** `m.content ?? firstTextPart?.text ?? ''` */
  function MessageText(m: ChatMessage): (r: string)
    ensures m.content.Some? ==> r == m.content.value
    ensures m.content.None? ==>
      || (exists i :: IsFirstText(Parts(m), i) && r == Parts(m)[i].text)
      || (r == "" && forall i :: 0 <= i < |Parts(m)| ==> !Parts(m)[i].Text?)
  {
    match m.content
    case Some(c) => c
    case None => FirstText(Parts(m)).GetOr("")
  }

  /** Message i is the last one from the user. */
  predicate IsLastUser(ms: seq<ChatMessage>, i: int) {
    0 <= i < |ms| && ms[i].role == User && forall j :: i < j < |ms| ==> ms[j].role != User
  }

  /** The position of the most recent user message, if there is one. */
  function LastUserIndex(ms: seq<ChatMessage>): (r: Option<nat>)
    ensures r.None? <==> forall i :: 0 <= i < |ms| ==> ms[i].role != User
    ensures r.Some? ==> IsLastUser(ms, r.value)
  {
    if ms == [] then None
    else if ms[|ms| - 1].role == User then Some(|ms| - 1)
    else
      var front := ms[..|ms| - 1];
      assert forall i :: 0 <= i < |front| ==> front[i] == ms[i];
      LastUserIndex(front)
  }

  /** The text `regenerate` resends: that of the most recent user message, if there is one. */
  function LastUserText(ms: seq<ChatMessage>): (r: Option<string>)
    ensures r.None? <==> forall i :: 0 <= i < |ms| ==> ms[i].role != User
    ensures r.Some? ==> exists i :: IsLastUser(ms, i) && r.value == MessageText(ms[i])
  {
    match LastUserIndex(ms)
    case None => None
    case Some(i) => Some(MessageText(ms[i]))
  }

  /** regenerate: resend the most recent user text as a new user message; nothing without one. */
  function Regenerate(s: PanelState): (r: PanelState)
    ensures LastUserText(s.messages).None? ==> r == s
    ensures LastUserText(s.messages).Some? ==>
      && r.messages == s.messages + [UserMessage(s.nextId, LastUserText(s.messages).value)]
      && r.nextId == s.nextId + 1
    ensures r.timers == s.timers && r.isThinking == s.isThinking && r.inFlight == s.inFlight
    ensures r.input == s.input && r.suggestions == s.suggestions && r.lastSources == s.lastSources
    ensures r.thinkingText == s.thinkingText && r.taskItems == s.taskItems
    ensures r.timerRef == s.timerRef && r.nextHandle == s.nextHandle
  {
    match LastUserText(s.messages)
    case None => s
    case Some(text) => SendMessage(s, User, text)
  }

  /** The unmount clean-up: cancel the timer the ref holds, and only that one. */
  function Unmount(s: PanelState): (r: PanelState)
    ensures s.timerRef.Some? ==> s.timerRef.value !in r.timers
    ensures r.timers == if s.timerRef.Some? then s.timers - {s.timerRef.value} else s.timers
    ensures r == s.(timers := r.timers)
  {
    ClearCurrentTimer(s)
  }

  /**
   * The `shouldShowMockAssistant` flag: the last message is the user's and the chat status
   * is "ready". The component computes it but never reads it.
   */
  predicate ShouldShowMockAssistant(messages: seq<ChatMessage>, status: string) {
    messages != [] && messages[|messages| - 1].role == User && status == "ready"
  }

  /** A fresh message id keeps the ids distinct. */
  lemma SendMessageKeepsValid(s: PanelState, role: Role, text: string)
    requires Valid(s)
    ensures Valid(SendMessage(s, role, text))
  {
  }

  lemma ProcessUserTextKeepsValid(s: PanelState, text: string)
    requires Valid(s)
    ensures Valid(ProcessUserText(s, text))
  {
    SendMessageKeepsValid(s, User, text);
  }

  lemma ResponseArrivedKeepsValid(s: PanelState, outcome: FetchOutcome)
    requires Valid(s) && s.inFlight > 0
    ensures Valid(ResponseArrived(s, outcome))
  {
    if outcome.NetworkError? {
      SendMessageKeepsValid(ClearCurrentTimer(s).(inFlight := s.inFlight - 1, isThinking := false), Assistant, NetworkErrorReply);
    }
  }

  lemma TimerFiredKeepsValid(s: PanelState, handle: nat)
    requires Valid(s) && handle in s.timers
    ensures Valid(TimerFired(s, handle))
  {
    SendMessageKeepsValid(s.(isThinking := false, timers := s.timers - {handle}), Assistant, s.timers[handle]);
  }

  lemma RegenerateKeepsValid(s: PanelState)
    requires Valid(s)
    ensures Valid(Regenerate(s))
  {
    if LastUserText(s.messages).Some? {
      SendMessageKeepsValid(s, User, LastUserText(s.messages).value);
    }
  }

  /** What can happen to the panel while it is mounted. */
  datatype Event =
    | TypeInput(value: string)       // the textarea's onChange
    | Submit                         // the form's onSubmit
    | Click(suggestion: string)      // a suggestion chip
    | Arrive(outcome: FetchOutcome)  // one awaited request completes
    | Fire(handle: nat)              // an armed reply timer elapses
    | Retry                          // the Retry action

  /** Only listed suggestions can be clicked, only awaited requests complete, only armed timers fire. */
  predicate Enabled(s: PanelState, e: Event) {
    match e
    case Click(x) => x in s.suggestions
    case Arrive(_) => s.inFlight > 0
    case Fire(h) => h in s.timers
    case _ => true
  }

  function Step(s: PanelState, e: Event): PanelState
    requires Enabled(s, e)
  {
    match e
    case TypeInput(v) => s.(input := v)
    case Submit => HandleSubmit(s)
    case Click(x) => ClickSuggestion(s, x)
    case Arrive(o) => ResponseArrived(s, o)
    case Fire(h) => TimerFired(s, h)
    case Retry => Regenerate(s)
  }

  /** Every event of the sequence is enabled when it happens. */
  predicate IsTrace(s: PanelState, events: seq<Event>)
    decreases |events|
  {
    events == [] || (Enabled(s, events[0]) && IsTrace(Step(s, events[0]), events[1..]))
  }

  function Run(s: PanelState, events: seq<Event>): PanelState
    requires IsTrace(s, events)
    decreases |events|
  {
    if events == [] then s else Run(Step(s, events[0]), events[1..])
  }
}
