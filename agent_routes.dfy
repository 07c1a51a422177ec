/**
 * The agent API routes: chat (validation, conversation reuse, context merge, event order),
 * conversation lookup and the archetype list guard. The tool catalog, the language
 * model's intent reply, the clock and the fresh conversation id are parameters.
 */
module AgentRoutes {
  import opened Common
  import opened AgentState
  import opened AgentStore
  import opened AgentGraph
  import opened AgentStreaming

  /** An HTTP outcome: a body, or an error status with its detail. */
  datatype Response<T> = Ok(body: T) | HttpError(status: int, detail: string)

  /** The optional context a chat request carries. */
  datatype ChatContext = ChatContext(format: Option<string>, archetype: Option<string>, days: Option<int>, deckText: Option<string>)

  datatype ChatRequest = ChatRequest(message: string, conversationId: Option<string>, context: ChatContext)

  /** A tool as the catalog fetch describes it. */
  datatype CatalogTool = CatalogTool(name: string, description: string, server: string)

  /** The fetched catalog as the metadata event carries it: one object per tool, in order. */
  function CatalogJson(catalog: seq<CatalogTool>): (j: seq<Json>)
    ensures |j| == |catalog|
    ensures forall i :: 0 <= i < |catalog| ==>
      j[i] == JObject([("name", JStr(catalog[i].name)), ("description", JStr(catalog[i].description)), ("server", JStr(catalog[i].server))])
  {
    if catalog == [] then []
    else [JObject([("name", JStr(catalog[0].name)), ("description", JStr(catalog[0].description)),
                   ("server", JStr(catalog[0].server))])] + CatalogJson(catalog[1..])
  }

  /** Catalog entries carry no "tools" key, so they offer no tools line in the clarification. */
  function CatalogOptions(catalog: seq<CatalogTool>): (opts: seq<ToolOption>)
    ensures |opts| == |catalog|
    ensures forall i :: 0 <= i < |catalog| ==> opts[i] == ToolOption(catalog[i].name, catalog[i].description, [])
  {
    if catalog == [] then [] else [ToolOption(catalog[0].name, catalog[0].description, [])] + CatalogOptions(catalog[1..])
  }

  /** `_apply_context`: format, archetype and deck text overwrite only when truthy, days only when given. */
  function ApplyContext(s: ConversationState, c: ChatContext): (r: ConversationState)
    ensures r.format == (if StrTruthy(c.format) then c.format else s.format)
    ensures r.archetype == (if StrTruthy(c.archetype) then c.archetype else s.archetype)
    ensures r.days == (if c.days.Some? then c.days else s.days)
    ensures r.deckText == (if StrTruthy(c.deckText) then c.deckText else s.deckText)
    ensures r.(format := s.format, archetype := s.archetype, days := s.days, deckText := s.deckText) == s
  {
    var s1 := if StrTruthy(c.format) then s.(format := c.format) else s;
    var s2 := if StrTruthy(c.archetype) then s1.(archetype := c.archetype) else s1;
    var s3 := if c.days.Some? then s2.(days := c.days) else s2;
    if StrTruthy(c.deckText) then s3.(deckText := c.deckText) else s3
  }

  /** An empty context changes nothing. */
  lemma EmptyContextIsIdentity(s: ConversationState)
    ensures ApplyContext(s, ChatContext(None, None, None, None)) == s
  {
  }

  /** The body of `GET /conversations/{id}`. */
  datatype ConversationView = ConversationView(
    conversationId: string, format: Option<string>, archetype: Option<string>, days: Option<int>,
    hasDeck: bool, messages: seq<Message>)

  /** 404 for an unknown or expired id; otherwise the view, where has_deck looks at card details only. */
  function ConversationResponse(id: string, found: Option<Entry>): (r: Response<ConversationView>)
    ensures found.None? <==> r == HttpError(404, "Conversation not found")
    ensures found.Some? ==> (r.Ok? && r.body.conversationId == id
      && r.body.hasDeck == ListTruthy(found.value.state.cardDetails)
      && r.body.format == found.value.state.format && r.body.archetype == found.value.state.archetype
      && r.body.days == found.value.state.days && r.body.messages == found.value.state.messages)
  {
    if found.None? then HttpError(404, "Conversation not found")
    else
      var s := found.value.state;
      Ok(ConversationView(id, s.format, s.archetype, s.days, ListTruthy(s.cardDetails), s.messages))
  }

  /**
   * The conversation view's has_deck ignores deck text, unlike the state event's summary:
   * a state with deck text and no card details shows a deck in one and not the other.
   */
  lemma ViewAndSummaryDisagreeOnDeckText(id: string, e: Entry)
    requires StrTruthy(e.state.deckText) && !ListTruthy(e.state.cardDetails)
    ensures !ConversationResponse(id, Some(e)).body.hasDeck && SummarizeForUi(e.state).hasDeck
  {
  }

  /**
   * `GET /archetypes`: 400 without a format; otherwise the archetypes tool's result, 404
   * when it has no "archetypes" value. `toolResult` is that tool's returned object.
   */
  function ListArchetypes(format: Option<string>, toolResult: seq<(string, Json)>): (r: Response<seq<(string, Json)>>)
    ensures !StrTruthy(format) ==> r == HttpError(400, "format is required")
    ensures StrTruthy(format) && (GetKey(toolResult, "archetypes") in {None, Some(JNull)}) ==> r == HttpError(404, "format not found")
    ensures r.Ok? <==> StrTruthy(format) && GetKey(toolResult, "archetypes") !in {None, Some(JNull)}
    ensures r.Ok? ==> r.body == toolResult
  {
    if !StrTruthy(format) then HttpError(400, "format is required")
    else if GetKey(toolResult, "archetypes") in {None, Some(JNull)} then HttpError(404, "format not found")
    else Ok(toolResult)
  }

  /** A chat message is rejected when empty or whitespace only. */
  predicate BlankMessage(m: string)
  {
    m == "" || Strip(m) == ""
  }

  const ThinkingText := "Routing your request..."

  /** What one accepted chat turn does, given the store before it. */
  datatype ChatTurn = ChatTurn(cid: string, reused: bool, convo: Entry, merged: ConversationState,
                               current: ConversationState, updated: ConversationState, entry: Entry)

  /** The conversation a chat turn works on, before its context is merged. */
  function ResolveConversation(entries: map<string, Entry>, ttlSeconds: int, requested: Option<string>, now: int, freshId: string): (e: Entry)
    requires WellKeyed(entries)
    ensures e.conversationId == ChooseId(requested, freshId)
    ensures StrTruthy(requested) && Lookup(entries, requested.value, ttlSeconds, now).Some? ==> e == entries[requested.value]
    ensures !(StrTruthy(requested) && Lookup(entries, requested.value, ttlSeconds, now).Some?) ==>
      e == NewEntry(ChooseId(requested, freshId), Some(InitialState()), now)
  {
    if StrTruthy(requested) && Lookup(entries, requested.value, ttlSeconds, now).Some? then entries[requested.value]
    else NewEntry(ChooseId(requested, freshId), Some(InitialState()), now)
  }

  /** One accepted chat turn, step by step, as the route performs it. */
  function ChatSpec(entries: map<string, Entry>, ttlSeconds: int, limit: int, override: seq<ToolOption>,
                    req: ChatRequest, now: int, freshId: string, catalog: seq<CatalogTool>, reply: Option<Json>): ChatTurn
    requires WellKeyed(entries)
  {
    var reused := StrTruthy(req.conversationId) && Lookup(entries, req.conversationId.value, ttlSeconds, now).Some?;
    var cid := ChooseId(req.conversationId, freshId);
    var convo := ResolveConversation(entries, ttlSeconds, req.conversationId, now, freshId);
    var merged := ApplyContext(convo.state, req.context);
    var current := UpdatedEntry(convo, AsUpdate(merged), [Message("user", Strip(req.message))], limit, now).state;
    var updated := InvokeGraph(current, reply, if catalog != [] then CatalogOptions(catalog) else override);
    ChatTurn(cid, reused, convo, merged, current, updated, Entry(cid, updated, convo.createdAt, now))
  }

  function LastContent(s: ConversationState): string
  {
    if s.messages == [] then "" else s.messages[|s.messages| - 1].content
  }

  function EventTypes(es: seq<Event>): (ts: seq<string>)
    ensures |ts| == |es| && forall i :: 0 <= i < |es| ==> ts[i] == es[i].eventType
  {
    if es == [] then [] else [es[0].eventType] + EventTypes(es[1..])
  }

  /** The stream of one turn: metadata, thinking, content, state, done, in that order. */
  function ChatEvents(cid: string, current: ConversationState, updated: ConversationState, catalog: seq<CatalogTool>): seq<Event>
  {
    [MetadataEvent(cid, current, CatalogJson(catalog)), ThinkingEvent(ThinkingText),
     ContentEvent(LastContent(updated)), StateEvent(updated), DoneEvent()]
  }

  /**
   * The events come in the order metadata, thinking, content, state, done; the content is
   * the last message of the routed state and the state event summarises that state.
   */
  lemma ChatEventsShape(cid: string, current: ConversationState, updated: ConversationState, catalog: seq<CatalogTool>)
    ensures var es := ChatEvents(cid, current, updated, catalog);
      EventTypes(es) == ["metadata", "thinking", "content", "state", "done"]
      && es[0].payload.JObject? && es[0].payload.fields[0] == ("conversation_id", JStr(cid))
      && es[2].payload == JObject([("text", JStr(LastContent(updated)))])
      && es[3].payload == SummaryJson(SummarizeForUi(updated))
  {
    var es := ChatEvents(cid, current, updated, catalog);
    ChatEventTypes(cid, current, updated, catalog);
    MetadataEventShape(cid, current, CatalogJson(catalog));
    var f := es[0].payload.fields;
    assert Keys(f)[0] == f[0].0;
  }

  lemma ChatEventTypes(cid: string, current: ConversationState, updated: ConversationState, catalog: seq<CatalogTool>)
    ensures EventTypes(ChatEvents(cid, current, updated, catalog)) == ["metadata", "thinking", "content", "state", "done"]
  {
    EventTypesOfFive(MetadataEvent(cid, current, CatalogJson(catalog)), ThinkingEvent(ThinkingText),
                     ContentEvent(LastContent(updated)), StateEvent(updated), DoneEvent());
  }

  lemma EventTypesOfFive(a: Event, b: Event, c: Event, d: Event, e: Event)
    ensures EventTypes([a, b, c, d, e]) == [a.eventType, b.eventType, c.eventType, d.eventType, e.eventType]
  {
    var ts := EventTypes([a, b, c, d, e]);
    assert ts[0] == a.eventType && ts[4] == e.eventType;
  }

  /** The values a chat turn computes step by step are the ones its specification names. */
  lemma ChatSpecOf(entries: map<string, Entry>, ttlSeconds: int, limit: int, override: seq<ToolOption>,
                   req: ChatRequest, now: int, freshId: string, catalog: seq<CatalogTool>, reply: Option<Json>,
                   convo: Entry, current: ConversationState, updated: ConversationState)
    requires WellKeyed(entries)
    requires convo == ResolveConversation(entries, ttlSeconds, req.conversationId, now, freshId)
    requires current == UpdatedEntry(convo, AsUpdate(ApplyContext(convo.state, req.context)),
                                     [Message("user", Strip(req.message))], limit, now).state
    requires updated == InvokeGraph(current, reply, if catalog != [] then CatalogOptions(catalog) else override)
    ensures var t := ChatSpec(entries, ttlSeconds, limit, override, req, now, freshId, catalog, reply);
      t.cid == convo.conversationId && t.current == current && t.updated == updated
      && t.entry == Entry(convo.conversationId, updated, convo.createdAt, now)
  {
  }

  /**
   * The stored history after a turn ends with the stripped user message and the router's
   * reply, and the second store update (which passes no messages) is not capped: the
   * history reaches limit + 1 once the conversation holds at least `limit` messages.
   */
  lemma {:induction false} ChatHistoryShape(entries: map<string, Entry>, ttlSeconds: int, limit: int, override: seq<ToolOption>,
                                 req: ChatRequest, now: int, freshId: string, catalog: seq<CatalogTool>, reply: Option<Json>)
    requires WellKeyed(entries) && limit >= 1
    ensures var t := ChatSpec(entries, ttlSeconds, limit, override, req, now, freshId, catalog, reply);
      var h := t.entry.state.messages;
      |h| >= 2 && |h| <= limit + 1
      && h[|h| - 2] == Message("user", Strip(req.message))
      && h[|h| - 1].role == "assistant"
      && LastContent(t.updated) == h[|h| - 1].content
  {
    var t := ChatSpec(entries, ttlSeconds, limit, override, req, now, freshId, catalog, reply);
    var user := Message("user", Strip(req.message));
    TurnCurrentHistory(t.convo, t.merged, user, limit, now);
    CapKeepsLast(t.merged.messages, user, limit);
    var c := t.current.messages;
    var h := t.updated.messages;
    assert |h| == |c| + 1 && h[..|c|] == c;
    assert h[|h| - 2] == h[..|c|][|c| - 1];
    assert t.entry.state.messages == h;
  }

  lemma TurnCurrentHistory(convo: Entry, merged: ConversationState, user: Message, limit: int, now: int)
    ensures UpdatedEntry(convo, AsUpdate(merged), [user], limit, now).state.messages == CapHistory(merged.messages + [user], limit)
  {
    ApplyFull(convo.state, merged);
  }

  lemma CapKeepsLast(h: seq<Message>, m: Message, limit: int)
    requires limit >= 1
    ensures var c := CapHistory(h + [m], limit); 1 <= |c| <= limit && c[|c| - 1] == m
  {
    var c := CapHistory(h + [m], limit);
    assert c == (h + [m])[|h + [m]| - |c|..];
    if |h + [m]| > limit { assert |c| == limit; } else { assert c == h + [m]; }
  }

  /** A full history plus one more turn stores limit + 1 messages. */
  lemma {:induction false} ChatHistoryExceedsLimit(entries: map<string, Entry>, ttlSeconds: int, limit: int, override: seq<ToolOption>,
                                    req: ChatRequest, now: int, freshId: string, catalog: seq<CatalogTool>, reply: Option<Json>)
    requires WellKeyed(entries) && limit >= 1
    requires StrTruthy(req.conversationId) && Lookup(entries, req.conversationId.value, ttlSeconds, now).Some?
    requires |entries[req.conversationId.value].state.messages| >= limit
    ensures |ChatSpec(entries, ttlSeconds, limit, override, req, now, freshId, catalog, reply).entry.state.messages| == limit + 1
  {
    var t := ChatSpec(entries, ttlSeconds, limit, override, req, now, freshId, catalog, reply);
    var user := Message("user", Strip(req.message));
    TurnCurrentHistory(t.convo, t.merged, user, limit, now);
    assert t.merged.messages == t.convo.state.messages;
  }

  /** The context of the request is merged into the stored state before routing. */
  lemma ChatMergesContext(entries: map<string, Entry>, ttlSeconds: int, limit: int, override: seq<ToolOption>,
                          req: ChatRequest, now: int, freshId: string, catalog: seq<CatalogTool>, reply: Option<Json>)
    requires WellKeyed(entries) && StrTruthy(req.context.format)
    ensures ChatSpec(entries, ttlSeconds, limit, override, req, now, freshId, catalog, reply).entry.state.format == req.context.format
  {
  }

  /** A new conversation starts from the initial state. */
  lemma ChatNewConversationStartsFresh(entries: map<string, Entry>, ttlSeconds: int, limit: int, override: seq<ToolOption>,
                                       req: ChatRequest, now: int, freshId: string, catalog: seq<CatalogTool>, reply: Option<Json>)
    requires WellKeyed(entries) && req.conversationId.None? && req.context == ChatContext(None, None, None, None)
    ensures var t := ChatSpec(entries, ttlSeconds, limit, override, req, now, freshId, catalog, reply);
      !t.reused && t.cid == freshId && t.current.format.None? && t.entry.createdAt == now
  {
  }

  lemma MapOverwrite<V>(m0: map<string, V>, k: string, a: V, b: V)
    ensures m0[k := a][k := b] == m0[k := b]
  {
  }

  /** The module-level state the routes share: the store and the clarification override. */
  class AgentService {
    const store: ConversationStore
    var clarifyOverride: seq<ToolOption>

    ghost predicate Valid()
      reads this, store
    {
      store.Valid()
    }

    constructor (store: ConversationStore)
      requires store.Valid()
      ensures Valid() && this.store == store && clarifyOverride == []
    {
      this.store := store;
      clarifyOverride := [];
    }

    /**
     * Reuses a live conversation when a truthy id names one; otherwise creates one under
     * the requested id (or the fresh id) with the initial state.
     */
    method OpenConversation(requested: Option<string>, now: int, freshId: string) returns (convo: Entry)
      requires Valid() && store.ttlSeconds >= 0
      modifies store
      ensures Valid()
      ensures convo == ResolveConversation(old(store.entries), store.ttlSeconds, requested, now, freshId)
      ensures store.entries == old(store.entries)[convo.conversationId := convo]
      ensures !IsExpired(convo, store.ttlSeconds, now)
      ensures Lookup(store.entries, convo.conversationId, store.ttlSeconds, now) == Some(convo)
    {
      var reuse := false;
      if StrTruthy(requested) {
        reuse := store.Exists(requested.value, now);
      }
      if reuse {
        var found := store.Get(requested.value, now);
        convo := found.value;
      } else {
        convo := store.Create(requested, Some(InitialState()), now, freshId);
      }
    }

    /**
     * Merges the request context into a live conversation, appends the user message and
     * reads the stored state back.
     */
    method RecordUserMessage(convo: Entry, context: ChatContext, text: string, now: int) returns (current: ConversationState)
      requires Valid() && Lookup(store.entries, convo.conversationId, store.ttlSeconds, now) == Some(convo)
      modifies store
      ensures Valid()
      ensures var e := UpdatedEntry(convo, AsUpdate(ApplyContext(convo.state, context)), [Message("user", text)],
                                    store.messageHistoryLimit, now);
        current == e.state && store.entries == old(store.entries)[convo.conversationId := e]
        && Lookup(store.entries, convo.conversationId, store.ttlSeconds, now) == Some(e)
    {
      var cid := convo.conversationId;
      var state := ApplyContext(convo.state, context);
      var stored := store.Update(cid, AsUpdate(state), [Message("user", text)], now);
      ghost var entries2 := store.entries;
      var cur := store.Get(cid, now);
      assert store.entries == entries2;
      current := cur.value.state;
    }

    /** Routes the turn and stores the router's reply (the second store update, with no messages). */
    method RouteTurn(cid: string, ghost e: Entry, current: ConversationState, reply: Option<Json>, now: int)
      returns (updated: ConversationState)
      requires Valid() && Lookup(store.entries, cid, store.ttlSeconds, now) == Some(e) && e.state == current
      modifies store
      ensures Valid()
      ensures updated == InvokeGraph(current, reply, clarifyOverride)
      ensures store.entries == old(store.entries)[cid := Entry(e.conversationId, updated, e.createdAt, now)]
    {
      updated := InvokeGraph(current, reply, clarifyOverride);
      var last := store.Update(cid, AsUpdate(updated), [], now);
      ApplyFull(current, updated);
    }

    /** Records the user message into a live conversation, routes it and stores the reply. */
    method ProcessTurn(convo: Entry, context: ChatContext, text: string, reply: Option<Json>, now: int)
      returns (current: ConversationState, updated: ConversationState)
      requires Valid() && Lookup(store.entries, convo.conversationId, store.ttlSeconds, now) == Some(convo)
      modifies store
      ensures Valid()
      ensures current == UpdatedEntry(convo, AsUpdate(ApplyContext(convo.state, context)), [Message("user", text)],
                                      store.messageHistoryLimit, now).state
      ensures updated == InvokeGraph(current, reply, clarifyOverride)
      ensures store.entries == old(store.entries)[convo.conversationId := Entry(convo.conversationId, updated, convo.createdAt, now)]
    {
      ghost var entries0 := store.entries;
      current := RecordUserMessage(convo, context, text, now);
      ghost var e2 := UpdatedEntry(convo, AsUpdate(ApplyContext(convo.state, context)), [Message("user", text)],
                                   store.messageHistoryLimit, now);
      ghost var entries1 := store.entries;
      updated := RouteTurn(convo.conversationId, e2, current, reply, now);
      MapOverwrite(entries0, convo.conversationId, e2, Entry(convo.conversationId, updated, convo.createdAt, now));
    }

    /** `POST /chat`. */
    method Chat(req: ChatRequest, now: int, freshId: string, catalog: seq<CatalogTool>, reply: Option<Json>)
      returns (r: Response<seq<Event>>)
      requires Valid() && store.ttlSeconds >= 0
      modifies this, store
      ensures Valid()
      ensures BlankMessage(req.message) ==>
        r == HttpError(400, "message is required") && store.entries == old(store.entries)
        && clarifyOverride == old(clarifyOverride)
      ensures !BlankMessage(req.message) ==>
        var t := ChatSpec(old(store.entries), store.ttlSeconds, store.messageHistoryLimit, old(clarifyOverride),
                          req, now, freshId, catalog, reply);
        r == Ok(ChatEvents(t.cid, t.current, t.updated, catalog)) && store.entries == old(store.entries)[t.cid := t.entry]
        && clarifyOverride == (if catalog != [] then CatalogOptions(catalog) else old(clarifyOverride))
    {
      if req.message == "" || Strip(req.message) == "" {
        return HttpError(400, "message is required");
      }
      ghost var override0 := clarifyOverride;
      if catalog != [] {
        clarifyOverride := CatalogOptions(catalog);
      }
      r := AcceptTurn(req, now, freshId, catalog, reply, override0);
    }

    /** A non-blank chat turn, once the clarify options have been taken from the catalog. */
    method AcceptTurn(req: ChatRequest, now: int, freshId: string, catalog: seq<CatalogTool>, reply: Option<Json>,
                      ghost override0: seq<ToolOption>)
      returns (r: Response<seq<Event>>)
      requires Valid() && store.ttlSeconds >= 0 && !BlankMessage(req.message)
      requires clarifyOverride == (if catalog != [] then CatalogOptions(catalog) else override0)
      modifies store
      ensures Valid()
      ensures var t := ChatSpec(old(store.entries), store.ttlSeconds, store.messageHistoryLimit, override0,
                                req, now, freshId, catalog, reply);
        r == Ok(ChatEvents(t.cid, t.current, t.updated, catalog)) && store.entries == old(store.entries)[t.cid := t.entry]
    {
      ghost var entries0 := store.entries;
      var convo := OpenConversation(req.conversationId, now, freshId);
      var cid := convo.conversationId;
      var current, updated := ProcessTurn(convo, req.context, Strip(req.message), reply, now);
      ghost var e3 := Entry(cid, updated, convo.createdAt, now);
      MapOverwrite(entries0, cid, convo, e3);
      ChatSpecOf(entries0, store.ttlSeconds, store.messageHistoryLimit, override0, req, now, freshId, catalog, reply,
                 convo, current, updated);
      r := Ok(ChatEvents(cid, current, updated, catalog));
    }

    /** `GET /conversations/{id}`, reading through the store (and evicting an expired entry). */
    method GetConversation(id: string, now: int) returns (r: Response<ConversationView>)
      requires Valid()
      modifies store
      ensures Valid()
      ensures r == ConversationResponse(id, Lookup(old(store.entries), id, store.ttlSeconds, now))
      ensures store.entries == AfterRead(old(store.entries), id, store.ttlSeconds, now)
    {
      var found := store.Get(id, now);
      r := ConversationResponse(id, found);
    }
  }
}
