/**
 * Properties of the chat panel over whole runs of events, and how the view and the
 * demo route fit the panel's transitions.
 */
module PanelProps {
  import opened Wrappers
  import opened JsString
  import opened ChatTypes
  import opened Thinking
  import TabOne
  import DummyRoute
  import opened PanelSpec

  /** Every enabled event keeps the state invariant. */
  lemma StepKeepsValid(s: PanelState, e: Event)
    requires Valid(s) && Enabled(s, e)
    ensures Valid(Step(s, e))
  {
    match e
    case TypeInput(_) =>
    case Submit =>
      if !AllWhiteSpace(s.input) { ProcessUserTextKeepsValid(s.(input := ""), s.input); }
    case Click(x) =>
      ProcessUserTextKeepsValid(s.(suggestions := TabOne.RemoveSuggestion(s.suggestions, x)), x);
    case Arrive(o) => ResponseArrivedKeepsValid(s, o);
    case Fire(h) => TimerFiredKeepsValid(s, h);
    case Retry => RegenerateKeepsValid(s);
  }

  /** Every state reachable from a valid one is valid; in particular every state after mounting. */
  lemma {:induction false} RunKeepsValid(s: PanelState, events: seq<Event>)
    requires Valid(s) && IsTrace(s, events)
    ensures Valid(Run(s, events))
    decreases |events|
  {
    if events != [] {
      StepKeepsValid(s, events[0]);
      RunKeepsValid(Step(s, events[0]), events[1..]);
    }
  }

  /** The event starts a request to /api/dummy. */
  predicate StartsRequest(s: PanelState, e: Event) {
    e.Click? || (e.Submit? && !AllWhiteSpace(s.input))
  }

  /** No request is started while another one is still awaited. */
  predicate OneRequestAtATime(s: PanelState, events: seq<Event>)
    requires IsTrace(s, events)
    decreases |events|
  {
    events == [] ||
    ((StartsRequest(s, events[0]) ==> s.inFlight == 0) && OneRequestAtATime(Step(s, events[0]), events[1..]))
  }

  /** At most one thing is pending — one request or one armed timer — and an armed timer is the one the ref holds. */
  predicate SingleTimer(s: PanelState) {
    && s.inFlight + |s.timers| <= 1
    && forall h :: h in s.timers ==> s.timerRef == Some(h)
  }

  lemma StepKeepsSingleTimer(s: PanelState, e: Event)
    requires Enabled(s, e) && SingleTimer(s)
    requires StartsRequest(s, e) ==> s.inFlight == 0
    ensures SingleTimer(Step(s, e))
  {
    var r := Step(s, e);
    match e
    case TypeInput(_) =>
    case Submit =>
      if !AllWhiteSpace(s.input) {
        assert r.timers.Keys == {};
      }
    case Click(_) =>
      assert r.timers.Keys == {};
    case Arrive(o) =>
      assert s.timers.Keys == {};
      if o.Received? {
        assert r.timers.Keys == {s.nextHandle};
      } else {
        assert r.timers.Keys == {};
      }
    case Fire(h) =>
      assert r.timers.Keys == {};
    case Retry =>
  }

  /**
   * When no request starts before the previous one is answered, at most one reply timer
   * is ever pending, and it is the one an unmount or a new submission would cancel.
   */
  lemma {:induction false} AtMostOnePendingTimer(s: PanelState, events: seq<Event>)
    requires IsTrace(s, events) && SingleTimer(s) && OneRequestAtATime(s, events)
    ensures SingleTimer(Run(s, events)) && |Run(s, events).timers| <= 1
    decreases |events|
  {
    if events != [] {
      StepKeepsSingleTimer(s, events[0]);
      AtMostOnePendingTimer(Step(s, events[0]), events[1..]);
    }
  }

  /**
   * Two submissions made before either request is answered leave two reply timers
   * armed: the second answer overwrites the ref without clearing the first timer.
   * This holds from any state without an armed timer, the mounted panel among them.
   */
  lemma OverlappingRequestsArmTwoTimers(s: PanelState, a: string, b: string, d1: DummyReply, d2: DummyReply)
    requires s.timers == map[] && !AllWhiteSpace(a) && !AllWhiteSpace(b)
    ensures var s4 := HandleSubmit(HandleSubmit(s.(input := a)).(input := b));
      && s4.inFlight == s.inFlight + 2
      && ResponseArrived(ResponseArrived(s4, Received(d1)), Received(d2)).timers.Keys == {s.nextHandle, s.nextHandle + 1}
  {
    var s2 := HandleSubmit(s.(input := a));
    assert s2.timers == map[] && s2.inFlight == s.inFlight + 1 && s2.nextHandle == s.nextHandle;
    var s4 := HandleSubmit(s2.(input := b));
    assert s4.timers == map[] && s4.inFlight == s.inFlight + 2 && s4.nextHandle == s.nextHandle;
    var s5 := ResponseArrived(s4, Received(d1));
    assert s5.timers.Keys == {s.nextHandle} && s5.nextHandle == s.nextHandle + 1;
  }

  /**
   * The clean-up on unmount reaches only the timer the ref holds: a reply timer armed
   * by an earlier, overlapping request stays armed and will still append its reply.
   */
  lemma UnmountLeavesOtherTimers(s: PanelState, h: nat)
    requires h in s.timers && s.timerRef != Some(h)
    ensures h in Unmount(s).timers && Unmount(s).timers[h] == s.timers[h]
  {
  }

  /**
   * A request still awaited at unmount resumes afterwards and arms a reply timer
   * that the clean-up, which has already run, never cancels.
   */
  lemma AwaitedRequestOutlivesUnmount(s: PanelState, d: DummyReply)
    requires s.inFlight > 0
    ensures var r := ResponseArrived(Unmount(s), Received(d));
      && s.nextHandle in r.timers && r.timers[s.nextHandle] == ReplyText(d)
      && r.timerRef == Some(s.nextHandle)
  {
  }

  /** Once a suggestion is gone it never comes back. */
  lemma {:induction false} SuggestionNeverReturns(s: PanelState, events: seq<Event>, x: string)
    requires IsTrace(s, events) && x !in s.suggestions
    ensures x !in Run(s, events).suggestions
    decreases |events|
  {
    if events != [] {
      var e := events[0];
      if e.Click? {
        var kept := TabOne.RemoveSuggestion(s.suggestions, e.suggestion);
        TabOne.RemoveSuggestionCounts(s.suggestions, e.suggestion);
        assert multiset(kept)[x] == 0 by {
          if x != e.suggestion { assert multiset(s.suggestions)[x] == 0; }
        }
      }
      SuggestionNeverReturns(Step(s, e), events[1..], x);
    }
  }

  /** A click removes the clicked suggestion and leaves every other one as often as it was listed. */
  lemma ClickRemovesOnlyThatSuggestion(s: PanelState, x: string, y: string)
    requires x in s.suggestions && y != x
    ensures x !in Step(s, Click(x)).suggestions
    ensures multiset(Step(s, Click(x)).suggestions)[y] == multiset(s.suggestions)[y]
  {
    TabOne.RemoveSuggestionCounts(s.suggestions, x);
  }

  /**
   * Submitting input with a non-white-space character and letting the reply timer fire
   * adds exactly two messages: the user's untrimmed text, then one non-empty assistant reply.
   */
  lemma SubmitThenReply(s: PanelState, d: DummyReply)
    requires !AllWhiteSpace(s.input)
    ensures HandleSubmit(s).input == "" && HandleSubmit(s).isThinking && HandleSubmit(s).inFlight > 0
    ensures HandleSubmit(s).messages == s.messages + [UserMessage(s.nextId, s.input)]
    ensures s.nextHandle in ResponseArrived(HandleSubmit(s), Received(d)).timers
    ensures var r := TimerFired(ResponseArrived(HandleSubmit(s), Received(d)), s.nextHandle);
      && !r.isThinking && ReplyText(d) != ""
      && r.messages == s.messages + [UserMessage(s.nextId, s.input), AssistantMessage(s.nextId + 1, ReplyText(d))]
  {
    var s1 := HandleSubmit(s);
    var s2 := ResponseArrived(s1, Received(d));
    var s3 := TimerFired(s2, s.nextHandle);
    var u := UserMessage(s.nextId, s.input);
    var a := AssistantMessage(s.nextId + 1, ReplyText(d));
    assert s2.nextId == s.nextId + 1 && s2.timers[s.nextHandle] == ReplyText(d);
    assert s3.messages == (s.messages + [u]) + [a];
    assert (s.messages + [u]) + [a] == s.messages + [u, a];
  }

  /** A failed request ends thinking at once with exactly one network-error reply. */
  lemma SubmitThenNetworkError(s: PanelState)
    requires !AllWhiteSpace(s.input)
    ensures HandleSubmit(s).inFlight > 0
    ensures var r := ResponseArrived(HandleSubmit(s), NetworkError);
      && !r.isThinking
      && r.messages == s.messages + [UserMessage(s.nextId, s.input), AssistantMessage(s.nextId + 1, NetworkErrorReply)]
  {
    var s1 := HandleSubmit(s);
    var u := UserMessage(s.nextId, s.input);
    var a := AssistantMessage(s.nextId + 1, NetworkErrorReply);
    assert s1.messages == s.messages + [u] && s1.nextId == s.nextId + 1;
    var s2 := ResponseArrived(s1, NetworkError);
    assert s2.messages == (s.messages + [u]) + [a];
    assert (s.messages + [u]) + [a] == s.messages + [u, a];
  }

  /** Thinking starts with the chosen script before any reply exists; the last message is the user's. */
  lemma ThinkingBeforeReply(s: PanelState, text: string)
    ensures var r := ProcessUserText(s, text);
      && r.isThinking && WellFormed(ThinkingScript(r.thinkingText, r.taskItems))
      && r.messages[|r.messages| - 1].role == User
      && !TabOne.ShowsPlaceholder(r.messages)
      && TabOne.ThinkingTitle(r.thinkingText) == BuildThinkingFor(text).title
  {
  }

  /** The submit button can be enabled for blank input, but submitting it changes nothing. */
  lemma BlankInputIsIgnored(s: PanelState)
    requires AllWhiteSpace(s.input)
    ensures HandleSubmit(s) == s
    ensures s.input != "" ==> !TabOne.SubmitDisabled(s.input)
  {
  }

  /** A disabled button means an empty input, which submitting would ignore anyway. */
  lemma DisabledSubmitIsNoOp(s: PanelState)
    requires TabOne.SubmitDisabled(s.input)
    ensures HandleSubmit(s) == s
  {
    assert AllWhiteSpace(s.input);
  }

  /** Appending an assistant message does not change which user text Retry resends. */
  lemma LastUserTextSkipsAssistant(ms: seq<ChatMessage>, m: ChatMessage)
    requires m.role != User
    ensures LastUserText(ms + [m]) == LastUserText(ms)
  {
    assert (ms + [m])[..|ms|] == ms;
  }

  /** After a question and its reply, Retry resends exactly the question. */
  lemma RetryResendsQuestion(s: PanelState, text: string, d: DummyReply)
    ensures var s1 := ResponseArrived(ProcessUserText(s, text), Received(d));
      var s2 := TimerFired(s1, s1.nextHandle - 1);
      LastUserText(s2.messages) == Some(text) &&
      Regenerate(s2).messages == s2.messages + [UserMessage(s2.nextId, text)]
  {
    var s0 := ProcessUserText(s, text);
    var s1 := ResponseArrived(s0, Received(d));
    var s2 := TimerFired(s1, s1.nextHandle - 1);
    assert LastUserText(s0.messages) == Some(text) by {
      assert IsLastUser(s0.messages, |s0.messages| - 1);
    }
    LastUserTextSkipsAssistant(s1.messages, AssistantMessage(s1.nextId, s1.timers[s1.nextHandle - 1]));
  }

  /** Without any user message Retry sends nothing. */
  lemma RetryWithoutQuestion(s: PanelState)
    requires forall i :: 0 <= i < |s.messages| ==> s.messages[i].role != User
    ensures Regenerate(s) == s
  {
  }

  /** The reply the timer appends is the last message, carries the Retry/Copy actions, brings back the placeholder bubble and turns the mock-assistant flag off. */
  lemma ReplyCarriesActions(s: PanelState, handle: nat)
    requires handle in s.timers
    ensures var r := TimerFired(s, handle);
      && TabOne.HasActions(r.messages[|r.messages| - 1], 0)
      && TabOne.ShowsPlaceholder(r.messages)
      && !ShouldShowMockAssistant(r.messages, "ready")
  {
  }

  /** The mock-assistant flag and the placeholder bubble never both hold. */
  lemma MockAssistantExcludesPlaceholder(messages: seq<ChatMessage>, status: string)
    ensures ShouldShowMockAssistant(messages, status) ==> !TabOne.ShowsPlaceholder(messages)
    ensures !TabOne.ShowsPlaceholder(messages) && status == "ready" ==> ShouldShowMockAssistant(messages, status)
  {
  }

  /** In every valid state, a reasoning part streams only at the very end of the conversation. */
  lemma StreamingOnlyInLastMessage(s: PanelState, status: string, mi: int, i: int)
    requires Valid(s) && TabOne.IsStreaming(status, s.messages, mi, i)
    ensures mi == |s.messages| - 1
  {
    TabOne.StreamingOnlyAtTheEnd(status, s.messages, mi, i);
  }

  /** What the panel reads from the route's JSON answer. */
  function FromRoute(r: DummyRoute.Response): DummyReply {
    DummyReply(Some(r.reply), r.sources)
  }

  /**
   * Whatever the route answers, the panel stores its sources unchanged (there are at
   * most five) and the reply it will append is non-empty: the route's reply, or the
   * panel's default when the completion was empty.
   */
  lemma RouteAnswerReachesPanel(req: DummyRoute.Request)
    ensures var resp := DummyRoute.Post(req);
      && StoredSources(FromRoute(resp).sources) == resp.sources.GetOr([])
      && ReplyText(FromRoute(resp)) == (if resp.reply != "" then resp.reply else DefaultReply)
      && (req.body.Body? && req.apiKey != "" && req.completion == DummyRoute.CompletionOk("") ==>
            ReplyText(FromRoute(resp)) == DefaultReply)
  {
  }
}
