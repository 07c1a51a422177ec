/**
 * The agent's router: intent classification (with the language model's reply injected),
 * the ordered blocking rules, the clarification message and the router's state update.
 */
module AgentGraph {
  import opened Common
  import opened AgentState

  datatype Intent = MetaResearch | DeckCoaching | Unknown

  function IntentName(i: Intent): string
  {
    match i
    case MetaResearch => "meta_research"
    case DeckCoaching => "deck_coaching"
    case Unknown => "unknown"
  }

  /** A workflow option offered in the clarification message. */
  datatype ToolOption = ToolOption(name: string, description: string, tools: seq<string>)

  /** The built-in options, used when no tool catalog override is set. */
  const ToolOptions: seq<ToolOption> := [
    ToolOption("meta_research",
      "Format-wide analytics: meta rankings, matchup spreads, archetype lists",
      ["get_format_meta_rankings", "get_format_matchup_stats", "get_format_archetypes"]),
    ToolOption("deck_coaching",
      "User deck coaching: enrich deck, matchup stats, sideboard/mainboard optimization",
      ["get_enriched_deck", "get_deck_matchup_stats", "generate_deck_matchup_strategy",
       "optimize_mainboard", "optimize_sideboard"])
  ]

  /**
   * The intent from the model's reply. `reply` is the parsed JSON document, or None when
   * the client failed or the text was not JSON. Only the two workflow names are accepted;
   * every other value, a missing key, a non-object document or a failure gives Unknown.
   */
  function ClassifyIntent(reply: Option<Json>): (i: Intent)
    ensures i == MetaResearch <==> reply.Some? && reply.value.JObject? && GetKey(reply.value.fields, "intent") == Some(JStr("meta_research"))
    ensures i == DeckCoaching <==> reply.Some? && reply.value.JObject? && GetKey(reply.value.fields, "intent") == Some(JStr("deck_coaching"))
    ensures reply.None? || !reply.value.JObject? ==> i == Unknown
  {
    if reply.None? || !reply.value.JObject? then Unknown
    else
      var v := GetKey(reply.value.fields, "intent");
      if v == Some(JStr("meta_research")) then MetaResearch
      else if v == Some(JStr("deck_coaching")) then DeckCoaching
      else Unknown
  }

  const FormatRequired := "Format is required before proceeding."
  const DaysRequired := "Please provide a days window for meta analysis."
  const DeckRequired := "Please provide your deck list so I can enrich it first."
  const ArchetypeRequired := "Select an archetype before continuing deck coaching."

  /**
   * The blocking rule's `current_days` lookup. The state schema has no such key (see
   * SchemaHasDaysNotCurrentDays) and nothing writes one, so the lookup is always None.
   */
  function CurrentDays(s: ConversationState): Option<int>
  {
    None
  }

  /** The blocking rules in order: each is (fires, message). */
  function BlockingRules(s: ConversationState, intent: Intent): seq<(bool, string)>
  {
    [ (!StrTruthy(s.format), FormatRequired),
      (intent == MetaResearch && CurrentDays(s).None?, DaysRequired),
      (intent == DeckCoaching && !ListTruthy(s.cardDetails), DeckRequired),
      (intent == DeckCoaching && ListTruthy(s.cardDetails) && !StrTruthy(s.archetype), ArchetypeRequired) ]
  }

  /** The message of the first rule that fires, if any. */
  function FirstFiring(rules: seq<(bool, string)>): (r: Option<string>)
    ensures r.None? <==> forall k :: 0 <= k < |rules| ==> !rules[k].0
    ensures r.Some? ==> exists k :: (0 <= k < |rules| && rules[k].0 && rules[k].1 == r.value
      && forall j :: 0 <= j < k ==> !rules[j].0)
  {
    if rules == [] then None
    else if rules[0].0 then Some(rules[0].1)
    else
      var rest := FirstFiring(rules[1..]);
      if rest.Some? then
        var k :| 0 <= k < |rules[1..]| && rules[1..][k].0 && rules[1..][k].1 == rest.value
          && forall j :: 0 <= j < k ==> !rules[1..][j].0;
        assert rules[k + 1].0 && rules[k + 1].1 == rest.value;
        rest
      else rest
  }

  /** `enforce_blocking`: (allowed, reason). */
  function EnforceBlocking(s: ConversationState, intent: Intent): (r: (bool, Option<string>))
    ensures r.0 <==> r.1.None?
    ensures !StrTruthy(s.format) ==> r == (false, Some(FormatRequired))
    ensures StrTruthy(s.format) && intent == DeckCoaching && !ListTruthy(s.cardDetails) ==> r == (false, Some(DeckRequired))
    ensures StrTruthy(s.format) && intent == DeckCoaching && ListTruthy(s.cardDetails) && !StrTruthy(s.archetype)
      ==> r == (false, Some(ArchetypeRequired))
    ensures r.0 <==> (StrTruthy(s.format) && (intent == MetaResearch ==> CurrentDays(s).Some?)
      && (intent == DeckCoaching ==> ListTruthy(s.cardDetails) && StrTruthy(s.archetype)))
  {
    if !StrTruthy(s.format) then (false, Some(FormatRequired))
    else if intent == MetaResearch && CurrentDays(s).None? then (false, Some(DaysRequired))
    else if intent == DeckCoaching && !ListTruthy(s.cardDetails) then (false, Some(DeckRequired))
    else if intent == DeckCoaching && ListTruthy(s.cardDetails) && !StrTruthy(s.archetype) then (false, Some(ArchetypeRequired))
    else (true, None)
  }

  /** The blocking decision is the first firing rule of the ordered table. */
  lemma BlockingIsFirstFiringRule(s: ConversationState, intent: Intent)
    ensures EnforceBlocking(s, intent).1 == FirstFiring(BlockingRules(s, intent))
  {
    var r0 := BlockingRules(s, intent);
    var r1, r2, r3 := r0[1..], r0[2..], r0[3..];
    assert r1[1..] == r2 && r2[1..] == r3 && r3[1..] == [];
    assert FirstFiring(r3) == (if r3[0].0 then Some(r3[0].1) else None);
    assert FirstFiring(r2) == (if r2[0].0 then Some(r2[0].1) else FirstFiring(r3));
    assert FirstFiring(r1) == (if r1[0].0 then Some(r1[0].1) else FirstFiring(r2));
    assert FirstFiring(r0) == (if r0[0].0 then Some(r0[0].1) else FirstFiring(r1));
  }

  /**
   * As written, meta research is blocked for every state with a format, whatever `days`
   * holds, because the rule reads the absent `current_days` key.
   */
  lemma MetaResearchAlwaysBlocked(s: ConversationState)
    requires StrTruthy(s.format)
    ensures EnforceBlocking(s, MetaResearch) == (false, Some(DaysRequired))
  {
  }

  /** `update_workflow`: sets current_workflow and nothing else. */
  function UpdateWorkflow(s: ConversationState, intent: Intent): (r: ConversationState)
    ensures r.currentWorkflow == Some(IntentName(intent))
    ensures r.(currentWorkflow := s.currentWorkflow) == s
  {
    s.(currentWorkflow := Some(IntentName(intent)))
  }

  /** `_tool_catalog_override or TOOL_OPTIONS`: an empty override means none is set. */
  function ChooseOptions(override: seq<ToolOption>): seq<ToolOption>
  {
    if override != [] then override else ToolOptions
  }

  const ClarifyHeader: seq<string> := [
    "I couldn't tell if you want meta research or deck coaching.",
    "Please choose one of these options and provide any missing details:"
  ]
  const ClarifyClosing := "Tell me which path to take (meta_research or deck_coaching)."

  /** The lines one option contributes: its name and description, then its tools if any. */
  function OptionLines(o: ToolOption): seq<string>
  {
    ["- " + o.name + ": " + o.description] + (if o.tools != [] then ["  tools: " + Join(o.tools, ", ")] else [])
  }

  function AllOptionLines(opts: seq<ToolOption>): seq<string>
  {
    if opts == [] then [] else AllOptionLines(opts[..|opts| - 1]) + OptionLines(opts[|opts| - 1])
  }

  function ClarifyLines(opts: seq<ToolOption>): seq<string>
  {
    ClarifyHeader + AllOptionLines(opts) + [ClarifyClosing]
  }

  /** How many options list tools. */
  function WithTools(opts: seq<ToolOption>): nat
  {
    if opts == [] then 0 else WithTools(opts[..|opts| - 1]) + (if opts[|opts| - 1].tools != [] then 1 else 0)
  }

  /** The clarification text for a given override. */
  function ClarifyText(override: seq<ToolOption>): string
  {
    Join(ClarifyLines(ChooseOptions(override)), "\n")
  }

  /** Two header lines, one line per option plus one per option with tools, one closing line. */
  lemma {:induction false} ClarifyLineCount(opts: seq<ToolOption>)
    ensures |ClarifyLines(opts)| == 3 + |opts| + WithTools(opts)
    ensures ClarifyLines(opts)[..2] == ClarifyHeader
    ensures ClarifyLines(opts)[|ClarifyLines(opts)| - 1] == ClarifyClosing
  {
    OptionLinesCount(opts);
  }

  lemma {:induction false} OptionLinesCount(opts: seq<ToolOption>)
    ensures |AllOptionLines(opts)| == |opts| + WithTools(opts)
  {
    if opts != [] {
      OptionLinesCount(opts[..|opts| - 1]);
    }
  }

  /** The option lines of the clarification, one option at a time. */
  method OptionLinesOf(options: seq<ToolOption>) returns (lines: seq<string>)
    ensures lines == AllOptionLines(options)
  {
    lines := [];
    var i := 0;
    while i < |options|
      invariant 0 <= i <= |options|
      invariant lines == AllOptionLines(options[..i])
    {
      var option := options[i];
      lines := lines + ["- " + option.name + ": " + option.description];
      if option.tools != [] {
        lines := lines + ["  tools: " + Join(option.tools, ", ")];
      }
      assert options[..i + 1][..i] == options[..i];
      i := i + 1;
    }
    assert options[..i] == options;
  }

  /** Builds the clarification message line by line. */
  method ClarifyMessage(override: seq<ToolOption>) returns (msg: string)
    ensures msg == ClarifyText(override)
  {
    var options := if override != [] then override else ToolOptions;
    var optionLines := OptionLinesOf(options);
    var lines := ClarifyHeader + optionLines + [ClarifyClosing];
    msg := Join(lines, "\n");
  }

  /** The router's update dictionary: current_workflow only when routed, and the new messages. */
  datatype RouterUpdate = RouterUpdate(currentWorkflow: Option<string>, messages: seq<Message>)

  function Assistant(text: string): Message
  {
    Message("assistant", text)
  }

  /** `_router_node`, with the model's reply to the intent prompt injected. */
  function RouterNode(s: ConversationState, reply: Option<Json>, override: seq<ToolOption>): (u: RouterUpdate)
    ensures |u.messages| == 1 && u.messages[0].role == "assistant"
    ensures u.currentWorkflow.None? <==> ClassifyIntent(reply) == Unknown
  {
    var intent := ClassifyIntent(reply);
    if intent == Unknown then RouterUpdate(None, [Assistant(ClarifyText(override))])
    else
      var (allowed, reason) := EnforceBlocking(s, intent);
      if !allowed then
        RouterUpdate(Some(IntentName(intent)), [Assistant(reason.value)])
      else
        RouterUpdate(Some(IntentName(intent)), [Assistant("Routed to " + IntentName(intent) + " workflow.")])
  }

  /**
   * An unclassified reply leaves the workflow unset and answers with the clarification; a
   * classified one sets the workflow and answers with one assistant message: the routed
   * confirmation when no rule blocks, otherwise the first blocking rule's message.
   */
  lemma RouterNodeCorrect(s: ConversationState, reply: Option<Json>, override: seq<ToolOption>)
    ensures var u := RouterNode(s, reply, override);
      |u.messages| == 1 && u.messages[0].role == "assistant"
      && (ClassifyIntent(reply) == Unknown ==>
        u.currentWorkflow.None? && u.messages[0].content == ClarifyText(override))
      && (ClassifyIntent(reply) != Unknown ==>
        u.currentWorkflow == Some(IntentName(ClassifyIntent(reply)))
        && (EnforceBlocking(s, ClassifyIntent(reply)).0 <==>
            u.messages[0].content == "Routed to " + IntentName(ClassifyIntent(reply)) + " workflow.")
        && (!EnforceBlocking(s, ClassifyIntent(reply)).0 ==>
            u.messages[0].content == EnforceBlocking(s, ClassifyIntent(reply)).1.value))
  {
    var intent := ClassifyIntent(reply);
    if intent != Unknown && !EnforceBlocking(s, intent).0 {
      var m := EnforceBlocking(s, intent).1.value;
      var routed := "Routed to " + IntentName(intent) + " workflow.";
      assert |IntentName(intent)| == 13;
      assert |m| != |routed| by {
        assert |FormatRequired| == 37 && |DaysRequired| == 47;
        assert |DeckRequired| == 55 && |ArchetypeRequired| == 52;
      }
    }
  }

  /** The graph's merge of a router update: messages are appended, current_workflow overwritten when given. */
  function MergeRouterUpdate(s: ConversationState, u: RouterUpdate): (r: ConversationState)
    ensures r.messages == s.messages + u.messages
    ensures r.currentWorkflow == (if u.currentWorkflow.Some? then u.currentWorkflow else s.currentWorkflow)
    ensures r.(messages := s.messages, currentWorkflow := s.currentWorkflow) == s
  {
    s.(messages := s.messages + u.messages,
       currentWorkflow := if u.currentWorkflow.Some? then u.currentWorkflow else s.currentWorkflow)
  }

  /** One graph invocation: the router runs once and its update is merged. */
  function InvokeGraph(s: ConversationState, reply: Option<Json>, override: seq<ToolOption>): (r: ConversationState)
    ensures |r.messages| == |s.messages| + 1 && r.messages[..|s.messages|] == s.messages
    ensures r.messages[|s.messages|].role == "assistant"
  {
    RouterNodeCorrect(s, reply, override);
    MergeRouterUpdate(s, RouterNode(s, reply, override))
  }

  /** The reply for meta research never reaches the routed message, even with days set. */
  lemma MetaResearchNeverRouted(s: ConversationState, reply: Option<Json>, override: seq<ToolOption>)
    requires ClassifyIntent(reply) == MetaResearch
    ensures RouterNode(s, reply, override).messages[0].content
      == (if StrTruthy(s.format) then DaysRequired else FormatRequired)
  {
  }
}
