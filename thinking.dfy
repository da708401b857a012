/**
 * The canned "thinking" script the panel shows while a reply is pending:
 * a keyword classifier over the lower-cased question (SidePanel.tsx, buildThinkingFor).
 */
module Thinking {
  import opened JsString

  /** The title of the thinking indicator and its task items. */
  datatype ThinkingScript = ThinkingScript(title: string, items: seq<string>)

  const ResearchScript := ThinkingScript(
    "Scanning user research and findings\U{2026}",
    [ "Identify study type and participants",
      "Surface key insights and pain points",
      "Map insights to solution directions",
      "Assemble citations from research notes" ])

  const OutcomesScript := ThinkingScript(
    "Collecting outcomes and impact metrics\U{2026}",
    [ "Locate KPIs before/after launch",
      "Summarize quantitative lifts",
      "Pull qualitative feedback highlights",
      "Cross\U{2011}check assumptions with data" ])

  const ProcessScript := ThinkingScript(
    "Reconstructing design process from case study\U{2026}",
    [ "Outline phases and milestones",
      "Extract artifacts (flows, wireframes, tests)",
      "Link decisions to evidence",
      "Prepare concise narrative" ])

  const DefaultScript := ThinkingScript(
    "Reading the case study and preparing an answer\U{2026}",
    [ "Parse question intent",
      "Skim relevant sections",
      "Draft answer structure",
      "Fill details and sources" ])

  /** A well-formed script has a title and exactly four steps. */
  predicate WellFormed(s: ThinkingScript) {
    s.title != "" && |s.items| == 4
  }

  predicate MentionsResearch(q: string) {
    Contains(q, "research")
  }

  predicate MentionsOutcomes(q: string) {
    Contains(q, "impact") || Contains(q, "results") || Contains(q, "metrics")
  }

  predicate MentionsProcess(q: string) {
    Contains(q, "process") || Contains(q, "approach") || Contains(q, "timeline")
  }

  /** buildThinkingFor: the first keyword group found in the lower-cased text picks the script. */
  function BuildThinkingFor(text: string): (s: ThinkingScript)
    ensures WellFormed(s)
    ensures s in {ResearchScript, OutcomesScript, ProcessScript, DefaultScript}
  {
    var q := ToLower(text);
    if MentionsResearch(q) then ResearchScript
    else if MentionsOutcomes(q) then OutcomesScript
    else if MentionsProcess(q) then ProcessScript
    else DefaultScript
  }

  /**
   * The script identifies the keyword groups found: "research" beats every other keyword,
   * impact/results/metrics beat process/approach/timeline, and the default means none was found.
   */
  lemma ScriptPrecedence(text: string)
    ensures var q := ToLower(text);
      && (BuildThinkingFor(text) == ResearchScript <==> MentionsResearch(q))
      && (BuildThinkingFor(text) == OutcomesScript <==> !MentionsResearch(q) && MentionsOutcomes(q))
      && (BuildThinkingFor(text) == ProcessScript <==>
            !MentionsResearch(q) && !MentionsOutcomes(q) && MentionsProcess(q))
      && (BuildThinkingFor(text) == DefaultScript <==>
            !MentionsResearch(q) && !MentionsOutcomes(q) && !MentionsProcess(q))
  {
    assert ResearchScript.title != OutcomesScript.title;
    assert ResearchScript.title != ProcessScript.title;
    assert ResearchScript.title != DefaultScript.title;
    assert OutcomesScript.title != ProcessScript.title;
    assert OutcomesScript.title != DefaultScript.title;
    assert ProcessScript.title != DefaultScript.title;
  }

  /** Matching ignores letter case: lower-casing the question first picks the same script. */
  lemma CaseInsensitive(text: string)
    ensures BuildThinkingFor(ToLower(text)) == BuildThinkingFor(text)
  {
    ToLowerIdempotent(text);
  }

  /** An upper-case keyword is still found. */
  lemma UpperCaseResearchMatches(prefix: string, suffix: string)
    ensures BuildThinkingFor(prefix + "RESEARCH" + suffix) == ResearchScript
  {
    LowerCasedKeywordFound(prefix, suffix);
    ScriptPrecedence(prefix + "RESEARCH" + suffix);
  }

  /** Lower-casing turns "RESEARCH" into "research" in place. */
  lemma LowerCasedKeywordFound(prefix: string, suffix: string)
    ensures MentionsResearch(ToLower(prefix + "RESEARCH" + suffix))
  {
    ToLowerAppend(prefix + "RESEARCH", suffix);
    ToLowerAppend(prefix, "RESEARCH");
    assert ToLower("RESEARCH") == "research" by {
      assert LowerChar('R') == 'r' && LowerChar('E') == 'e' && LowerChar('S') == 's';
      assert LowerChar('A') == 'a' && LowerChar('C') == 'c' && LowerChar('H') == 'h';
    }
    var q := ToLower(prefix + "RESEARCH" + suffix);
    var k := |ToLower(prefix)|;
    assert q == ToLower(prefix) + "research" + ToLower(suffix);
    assert q[k..k + 8] == "research";
    assert OccursAt(q, "research", k);
  }
}
