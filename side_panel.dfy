/**
 * The chat panel component (app/side-panel/SidePanel.tsx, ChatBotDemo) as an object
 * whose fields are its React state, its timer ref and the chat library's message list.
 * Every handler updates the fields step by step, as the component does, and is proved
 * to perform the transition PanelSpec gives for it.
 */
module SidePanel {
  import opened Wrappers
  import opened JsString
  import opened ChatTypes
  import opened Thinking
  import TabOne
  import Spec = PanelSpec

  class ChatBotDemo {
    var messages: seq<ChatMessage>      // useChat's messages
    var suggestions: seq<string>
    var isThinking: bool
    var thinkingText: string
    var taskItems: seq<string>
    var lastSources: seq<SourceItem>
    var input: string
    var timers: map<nat, string>        // armed setTimeout callbacks: handle -> reply they append
    var timerRef: Option<nat>           // thinkingTimerRef.current
    var inFlight: nat                   // awaited requests to /api/dummy
    var nextId: nat
    var nextHandle: nat

    /** The component's state as a value. */
    function State(): Spec.PanelState
      reads this
    {
      Spec.PanelState(messages, suggestions, isThinking, thinkingText, taskItems, lastSources, input,
                      timers, timerRef, inFlight, nextId, nextHandle)
    }

    ghost predicate Valid()
      reads this
    {
      Spec.Valid(State())
    }

    /** Mounting: the initial suggestions, an empty conversation, no timer. */
    constructor ()
      ensures Valid() && State() == Spec.Initial()
    {
      messages := [];
      suggestions := Spec.InitialSuggestions;
      isThinking := false;
      thinkingText := "";
      taskItems := [];
      lastSources := [];
      input := "";
      timers := map[];
      timerRef := None;
      inFlight := 0;
      nextId := 0;
      nextHandle := 0;
    }

    /** The chat library's `sendMessage` with one text part. */
    method SendMessage(role: Role, text: string)
      modifies this
      ensures State() == Spec.SendMessage(old(State()), role, text)
    {
      messages := messages + [Spec.TextMessage(nextId, role, text)];
      nextId := nextId + 1;
    }

    /** `if (thinkingTimerRef.current) clearTimeout(thinkingTimerRef.current)` */
    method ClearCurrentTimer()
      modifies this
      ensures State() == Spec.ClearCurrentTimer(old(State()))
    {
      if timerRef.Some? {
        timers := timers - {timerRef.value};
      }
    }

    /** The textarea's onChange. */
    method SetInput(value: string)
      requires Valid()
      modifies this
      ensures Valid() && State() == old(State()).(input := value)
    {
      input := value;
    }

    /** processUserText up to its `await fetch`. */
    method ProcessUserText(text: string)
      requires Valid()
      modifies this
      ensures Valid() && State() == Spec.ProcessUserText(old(State()), text)
    {
      ghost var s := State();
      Spec.ProcessUserTextKeepsValid(s, text);
      SendMessage(User, text);
      ClearCurrentTimer();
      ghost var cleared := State();
      var thinking := BuildThinkingFor(text);
      thinkingText := thinking.title;
      taskItems := thinking.items;
      isThinking := true;
      inFlight := inFlight + 1;
      assert State() == cleared.(thinkingText := thinking.title, taskItems := thinking.items,
                                 isThinking := true, inFlight := cleared.inFlight + 1);
    }

    /** processUserText after its `await`: arm the reply timer, or fall back on a network error. */
    method ResponseArrived(outcome: Spec.FetchOutcome)
      requires Valid() && inFlight > 0
      modifies this
      ensures Valid() && State() == Spec.ResponseArrived(old(State()), outcome)
    {
      ghost var s := State();
      Spec.ResponseArrivedKeepsValid(s, outcome);
      inFlight := inFlight - 1;
      match outcome
      case Received(data) =>
        lastSources := Spec.StoredSources(data.sources);
        var handle := nextHandle;
        nextHandle := nextHandle + 1;
        timers := timers[handle := Spec.ReplyText(data)];
        timerRef := Some(handle);
        assert State() == s.(inFlight := s.inFlight - 1, lastSources := Spec.StoredSources(data.sources),
                             timers := s.timers[s.nextHandle := Spec.ReplyText(data)],
                             timerRef := Some(s.nextHandle), nextHandle := s.nextHandle + 1);
      case NetworkError =>
        ClearCurrentTimer();
        isThinking := false;
        ghost var cleared := State();
        assert cleared == Spec.ClearCurrentTimer(s).(inFlight := s.inFlight - 1, isThinking := false);
        SendMessage(Assistant, Spec.NetworkErrorReply);
    }

    /** The callback of the reply timer `handle`. */
    method TimerFired(handle: nat)
      requires Valid() && handle in timers
      modifies this
      ensures Valid() && State() == Spec.TimerFired(old(State()), handle)
    {
      Spec.TimerFiredKeepsValid(State(), handle);
      var text := timers[handle];
      timers := timers - {handle};
      isThinking := false;
      SendMessage(Assistant, text);
    }

    /** handleSubmit: ignore blank input; otherwise clear it and process the text as typed. */
    method HandleSubmit()
      requires Valid()
      modifies this
      ensures Valid() && State() == Spec.HandleSubmit(old(State()))
    {
      if Trim(input) != "" {
        var userText := input;
        input := "";
        ProcessUserText(userText);
      }
    }

    /** A suggestion chip's onClick. */
    method ClickSuggestion(suggestion: string)
      requires Valid()
      modifies this
      ensures Valid() && State() == Spec.ClickSuggestion(old(State()), suggestion)
    {
      suggestions := TabOne.RemoveSuggestion(suggestions, suggestion);
      ProcessUserText(suggestion);
    }

    /** regenerate: resend the last user text. */
    method Regenerate()
      requires Valid()
      modifies this
      ensures Valid() && State() == Spec.Regenerate(old(State()))
    {
      Spec.RegenerateKeepsValid(State());
      var lastUser := Spec.LastUserText(messages);
      if lastUser.Some? {
        SendMessage(User, lastUser.value);
      }
    }

    /** The effect clean-up on unmount. */
    method Unmount()
      requires Valid()
      modifies this
      ensures Valid() && State() == Spec.Unmount(old(State()))
    {
      ClearCurrentTimer();
    }
  }
}
