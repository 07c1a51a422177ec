/** The agent's per-conversation state record, its partial updates and its UI summary. */
module AgentState {
  import opened Common

  /** One chat turn; role is "user" or "assistant". */
  datatype Message = Message(role: string, content: string)

  /**
   * The conversation state schema. Every key of the schema is a field; there is a
   * `days` field and no `current_days` field.
   */
  datatype ConversationState = ConversationState(
    format: Option<string>,
    days: Option<int>,
    archetype: Option<string>,
    deckText: Option<string>,
    cardDetails: Option<seq<Json>>,
    matchupStats: Option<Json>,
    messages: seq<Message>,
    currentWorkflow: Option<string>,
    toolCatalog: Option<seq<Json>>,
    availableFormats: Option<seq<string>>,
    workflows: Option<seq<Json>>)

  /** The keys of the state schema, in declaration order. */
  const SchemaKeys: seq<string> := ["format", "days", "archetype", "deck_text", "card_details",
    "matchup_stats", "messages", "current_workflow", "tool_catalog", "available_formats", "workflows"]

  lemma SchemaHasDaysNotCurrentDays()
    ensures "days" in SchemaKeys && "current_days" !in SchemaKeys
  {
    assert SchemaKeys[1] == "days";
  }

  /**
   * A state update dictionary: a field is Some(v) exactly when the dictionary carries
   * that key with value v.
   */
  datatype StateUpdate = StateUpdate(
    format: Option<Option<string>>,
    days: Option<Option<int>>,
    archetype: Option<Option<string>>,
    deckText: Option<Option<string>>,
    cardDetails: Option<Option<seq<Json>>>,
    matchupStats: Option<Option<Json>>,
    messages: Option<seq<Message>>,
    currentWorkflow: Option<Option<string>>,
    toolCatalog: Option<Option<seq<Json>>>,
    availableFormats: Option<Option<seq<string>>>,
    workflows: Option<Option<seq<Json>>>)

  const NoUpdate := StateUpdate(None, None, None, None, None, None, None, None, None, None, None)

  /** A dictionary is falsy exactly when it has no keys. */
  predicate IsEmptyUpdate(u: StateUpdate)
  {
    u == NoUpdate
  }

  function Pick<T>(o: Option<T>, old_: T): T
  {
    if o.Some? then o.value else old_
  }

  /** Python's dict.update: every key present in `u` overwrites the state's value. */
  function Apply(s: ConversationState, u: StateUpdate): (r: ConversationState)
    ensures u.format.Some? ==> r.format == u.format.value
    ensures u.format.None? ==> r.format == s.format
    ensures u.days.Some? ==> r.days == u.days.value
    ensures u.days.None? ==> r.days == s.days
    ensures u.archetype.Some? ==> r.archetype == u.archetype.value
    ensures u.archetype.None? ==> r.archetype == s.archetype
    ensures u.deckText.Some? ==> r.deckText == u.deckText.value
    ensures u.deckText.None? ==> r.deckText == s.deckText
    ensures u.cardDetails.Some? ==> r.cardDetails == u.cardDetails.value
    ensures u.cardDetails.None? ==> r.cardDetails == s.cardDetails
    ensures u.matchupStats.Some? ==> r.matchupStats == u.matchupStats.value
    ensures u.matchupStats.None? ==> r.matchupStats == s.matchupStats
    ensures u.messages.Some? ==> r.messages == u.messages.value
    ensures u.messages.None? ==> r.messages == s.messages
    ensures u.currentWorkflow.Some? ==> r.currentWorkflow == u.currentWorkflow.value
    ensures u.currentWorkflow.None? ==> r.currentWorkflow == s.currentWorkflow
    ensures u.toolCatalog.Some? ==> r.toolCatalog == u.toolCatalog.value
    ensures u.toolCatalog.None? ==> r.toolCatalog == s.toolCatalog
    ensures u.availableFormats.Some? ==> r.availableFormats == u.availableFormats.value
    ensures u.availableFormats.None? ==> r.availableFormats == s.availableFormats
    ensures u.workflows.Some? ==> r.workflows == u.workflows.value
    ensures u.workflows.None? ==> r.workflows == s.workflows
  {
    ConversationState(
      Pick(u.format, s.format), Pick(u.days, s.days), Pick(u.archetype, s.archetype),
      Pick(u.deckText, s.deckText), Pick(u.cardDetails, s.cardDetails),
      Pick(u.matchupStats, s.matchupStats), Pick(u.messages, s.messages),
      Pick(u.currentWorkflow, s.currentWorkflow), Pick(u.toolCatalog, s.toolCatalog),
      Pick(u.availableFormats, s.availableFormats), Pick(u.workflows, s.workflows))
  }

  /** A whole state used as an update dictionary: it carries every key. */
  function AsUpdate(s: ConversationState): StateUpdate
  {
    StateUpdate(Some(s.format), Some(s.days), Some(s.archetype), Some(s.deckText),
      Some(s.cardDetails), Some(s.matchupStats), Some(s.messages), Some(s.currentWorkflow),
      Some(s.toolCatalog), Some(s.availableFormats), Some(s.workflows))
  }

  lemma ApplyEmpty(s: ConversationState)
    ensures Apply(s, NoUpdate) == s
  {
  }

  /** Updating with a full state replaces the state by it. */
  lemma ApplyFull(s: ConversationState, t: ConversationState)
    ensures Apply(s, AsUpdate(t)) == t
    ensures !IsEmptyUpdate(AsUpdate(t))
  {
  }

  /** Initial state: every field None, except messages, which is the empty list. */
  function InitialState(): (s: ConversationState)
    ensures s.messages == []
    ensures s.format.None? && s.days.None? && s.archetype.None? && s.deckText.None?
    ensures s.cardDetails.None? && s.matchupStats.None? && s.currentWorkflow.None?
    ensures s.toolCatalog.None? && s.availableFormats.None? && s.workflows.None?
  {
    ConversationState(None, None, None, None, None, None, [], None, None, None, None)
  }

  /** The slim snapshot sent in state events: exactly these four keys. */
  datatype UiSummary = UiSummary(hasDeck: bool, format: Option<string>, archetype: Option<string>, days: Option<int>)

  function SummarizeForUi(s: ConversationState): (r: UiSummary)
    ensures r.hasDeck <==> StrTruthy(s.deckText) || ListTruthy(s.cardDetails)
    ensures r.format == s.format && r.archetype == s.archetype && r.days == s.days
  {
    UiSummary(StrTruthy(s.deckText) || ListTruthy(s.cardDetails), s.format, s.archetype, s.days)
  }

  /** The payload of a summary as the JSON object the event carries, keys in source order. */
  function SummaryJson(u: UiSummary): Json
  {
    JObject([("has_deck", JBool(u.hasDeck)), ("format", OptStrJson(u.format)),
      ("archetype", OptStrJson(u.archetype)), ("days", OptIntJson(u.days))])
  }

  /** The summary object carries exactly has_deck, format, archetype and days, in that order. */
  lemma SummaryJsonKeys(u: UiSummary)
    ensures SummaryJson(u).JObject? && Keys(SummaryJson(u).fields) == ["has_deck", "format", "archetype", "days"]
  {
  }

  /** The summary depends only on deck text, card details, format, archetype and days. */
  lemma SummaryDependsOnlyOnDeckAndContext(s: ConversationState, t: ConversationState)
    requires s.deckText == t.deckText && s.cardDetails == t.cardDetails
    requires s.format == t.format && s.archetype == t.archetype && s.days == t.days
    ensures SummarizeForUi(s) == SummarizeForUi(t)
  {
  }

  lemma InitialSummary()
    ensures SummarizeForUi(InitialState()) == UiSummary(false, None, None, None)
  {
  }
}
