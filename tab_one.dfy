/**
 * What the chat view (app/side-panel/views/TabOne.tsx) decides from the panel's
 * state: which messages get a sources panel, which part carries the Retry/Copy
 * actions, when a reasoning part streams, the thinking title, the placeholder
 * bubble, inline citations, the suggestion filter and the submit button.
 */
module TabOne {
  import opened Wrappers
  import opened ChatTypes

  /** Which parts are source-url parts, position by position. */
  function SourceFlags(parts: seq<ChatPart>): seq<bool> {
    seq(|parts|, i requires 0 <= i < |parts| => parts[i].SourceUrl?)
  }

  /** How many parts are source-url parts. */
  function CountSourceParts(parts: seq<ChatPart>): nat {
    multiset(SourceFlags(parts))[true]
  }

  /** The count splits into the first part and the rest. */
  lemma CountSourcePartsCons(parts: seq<ChatPart>)
    requires parts != []
    ensures CountSourceParts(parts) == (if parts[0].SourceUrl? then 1 else 0) + CountSourceParts(parts[1..])
  {
    assert SourceFlags(parts) == [parts[0].SourceUrl?] + SourceFlags(parts[1..]);
  }

  /**
   * The urls of the source-url parts, in order: one per source-url part, every
   * such part's url listed and nothing else.
   */
  function SourceUrls(parts: seq<ChatPart>): (urls: seq<string>)
    ensures |urls| == CountSourceParts(parts) <= |parts|
    ensures forall u :: u in urls ==> SourceUrl(u) in parts
    ensures forall i :: 0 <= i < |parts| && parts[i].SourceUrl? ==> parts[i].url in urls
    ensures urls == [] <==> forall i :: 0 <= i < |parts| ==> !parts[i].SourceUrl?
  {
    if parts == [] then []
    else
      var rest := SourceUrls(parts[1..]);
      assert forall i :: 1 <= i < |parts| ==> parts[i] == parts[1..][i - 1];
      CountSourcePartsCons(parts);
      if parts[0].SourceUrl? then [parts[0].url] + rest else rest
  }

  /** Filtering a concatenation filters each side: the urls keep the parts' order. */
  lemma {:induction false} SourceUrlsAppend(a: seq<ChatPart>, b: seq<ChatPart>)
    ensures SourceUrls(a + b) == SourceUrls(a) + SourceUrls(b)
  {
    if a != [] {
      assert (a + b)[0] == a[0] && (a + b)[1..] == a[1..] + b;
      SourceUrlsAppend(a[1..], b);
    } else {
      assert a + b == b;
    }
  }

  /** The count shown on the sources trigger (TabOne.tsx:124-127): the number of source-url parts. */
  function SourceCount(m: ChatMessage): (n: nat)
    ensures n == CountSourceParts(Parts(m))
  {
    |SourceUrls(Parts(m))|
  }

  /** The sources panel is rendered for a message (TabOne.tsx:121). */
  predicate ShowsSources(m: ChatMessage) {
    m.role == Assistant && SourceCount(m) > 0
  }

  /** Only assistant messages with at least one source-url part get a sources panel. */
  lemma SourcesPanelRule(m: ChatMessage)
    ensures ShowsSources(m) <==>
      m.role == Assistant && exists i :: 0 <= i < |Parts(m)| && Parts(m)[i].SourceUrl?
    ensures ShowsSources(m) ==> SourceCount(m) == CountSourceParts(Parts(m)) > 0
  {
  }

  /**
   * Retry/Copy actions follow part i of message m: it is a text part, the message
   * is the assistant's, and i is the last part index (TabOne.tsx:143-176).
   */
  predicate HasActions(m: ChatMessage, i: int) {
    0 <= i < |Parts(m)| && Parts(m)[i].Text? && m.role == Assistant && i == |Parts(m)| - 1
  }

  /** At most one part of a message carries the actions, and it is the last one. */
  lemma ActionsOnLastPartOnly(m: ChatMessage, i: int, j: int)
    requires HasActions(m, i) && HasActions(m, j)
    ensures i == j == |Parts(m)| - 1
  {
  }

  /**
   * A reasoning part streams when the chat status is "streaming", it is its message's
   * last part, and its message has the id of the list's last message (TabOne.tsx:201).
   */
  predicate IsStreaming(status: string, messages: seq<ChatMessage>, mi: int, i: int) {
    && 0 <= mi < |messages|
    && 0 <= i < |Parts(messages[mi])| && Parts(messages[mi])[i].Reasoning?
    && status == "streaming"
    && i == |Parts(messages[mi])| - 1
    && messages[mi].id == messages[|messages| - 1].id
  }

  /** With distinct ids, only the last part of the last message can stream. */
  lemma StreamingOnlyAtTheEnd(status: string, messages: seq<ChatMessage>, mi: int, i: int)
    requires DistinctIds(messages)
    ensures IsStreaming(status, messages, mi, i) <==>
      && 0 <= mi == |messages| - 1 && status == "streaming"
      && 0 <= i == |Parts(messages[mi])| - 1 && Parts(messages[mi])[i].Reasoning?
  {
  }

  /** The literal of TabOne.tsx:215 as its bytes read: "Thinking" followed by U+00E2 U+20AC U+00A6. */
  const FallbackThinkingTitle := "Thinking\U{00E2}\U{20AC}\U{00A6}"

  /** `thinkingText || 'Thinking…'`: never empty, and the panel's text whenever it has one. */
  function ThinkingTitle(thinkingText: string): (title: string)
    ensures title != ""
    ensures thinkingText != "" ==> title == thinkingText
    ensures thinkingText == "" ==> title == FallbackThinkingTitle
  {
    if thinkingText != "" then thinkingText else FallbackThinkingTitle
  }

  /** The empty assistant bubble is shown when there is no last message or it is not the user's (TabOne.tsx:223). */
  predicate ShowsPlaceholder(messages: seq<ChatMessage>) {
    messages == [] || messages[|messages| - 1].role != User
  }

  /** An inline citation follows an assistant text part exactly when sources are stored (TabOne.tsx:152). */
  predicate ShowsInlineCitation(m: ChatMessage, lastSources: seq<SourceItem>) {
    m.role == Assistant && |lastSources| > 0
  }

  /** The urls listed by the inline citation's trigger. */
  function CitationUrls(m: ChatMessage, lastSources: seq<SourceItem>): (urls: seq<string>)
    ensures |urls| == if ShowsInlineCitation(m, lastSources) then |lastSources| else 0
    ensures urls != [] <==> ShowsInlineCitation(m, lastSources)
    ensures forall k :: 0 <= k < |urls| ==> urls[k] == lastSources[k].url
  {
    if ShowsInlineCitation(m, lastSources) then seq(|lastSources|, k requires 0 <= k < |lastSources| => lastSources[k].url)
    else []
  }

  /** `prev.filter((x) => x !== text)`: drops every copy of the clicked suggestion. */
  function RemoveSuggestion(suggestions: seq<string>, clicked: string): (r: seq<string>)
    ensures |r| <= |suggestions|
  {
    if suggestions == [] then []
    else
      var rest := RemoveSuggestion(suggestions[1..], clicked);
      if suggestions[0] == clicked then rest else [suggestions[0]] + rest
  }

  /** The filter removes every copy of the clicked suggestion and keeps each other one as often as it was listed. */
  lemma {:induction false} RemoveSuggestionCounts(suggestions: seq<string>, clicked: string)
    ensures var r := RemoveSuggestion(suggestions, clicked);
      && clicked !in r
      && (forall x :: x != clicked ==> multiset(r)[x] == multiset(suggestions)[x])
      && |r| == |suggestions| - multiset(suggestions)[clicked]
  {
    if suggestions != [] {
      RemoveSuggestionCounts(suggestions[1..], clicked);
      assert suggestions == [suggestions[0]] + suggestions[1..];
    }
  }

  /** The filter keeps the relative order of what it keeps: it distributes over concatenation. */
  lemma {:induction false} RemoveSuggestionAppend(a: seq<string>, b: seq<string>, clicked: string)
    ensures RemoveSuggestion(a + b, clicked) == RemoveSuggestion(a, clicked) + RemoveSuggestion(b, clicked)
  {
    if a != [] {
      var head := if a[0] == clicked then [] else [a[0]];
      assert (a + b)[0] == a[0] && (a + b)[1..] == a[1..] + b;
      assert RemoveSuggestion(a, clicked) == head + RemoveSuggestion(a[1..], clicked);
      assert RemoveSuggestion(a + b, clicked) == head + RemoveSuggestion(a[1..] + b, clicked);
      RemoveSuggestionAppend(a[1..], b, clicked);
    } else {
      assert a + b == b;
    }
  }

  /** Removing a suggestion that is not listed changes nothing. */
  lemma {:induction false} RemoveAbsentSuggestion(suggestions: seq<string>, clicked: string)
    requires clicked !in suggestions
    ensures RemoveSuggestion(suggestions, clicked) == suggestions
  {
    if suggestions != [] {
      RemoveAbsentSuggestion(suggestions[1..], clicked);
      assert suggestions == [suggestions[0]] + suggestions[1..];
    }
  }

  /** The submit button is disabled exactly when the input is empty (TabOne.tsx:289). */
  predicate SubmitDisabled(input: string) {
    input == ""
  }
}
