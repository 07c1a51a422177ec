# mtg-meta-mage core, modelled in Dafny

This project models the core of mtg-meta-mage, a Magic: The Gathering meta-analysis
service, and proves properties of that model. The service ingests tournaments and
decklists, classifies decklists into archetypes, and computes meta shares, win rates
and matchup matrices. An agent API lets a user talk to it about the meta and about
their own deck. The parts modelled here are the following.

- **Conversation layer** (`agent_state`, `agent_store`, `agent_graph`, `agent_streaming`,
  `agent_routes`).
  - The conversation state record, its partial updates and the UI snapshot.
  - The in-memory conversation store, a class whose table the methods update. Expiry is
    measured from creation. A read evicts an expired entry, and the message history is capped.
  - The router: intent classification, the ordered blocking rules, the clarification
    message and the workflow update.
  - The server-sent event frames and payloads.
  - The chat, conversation and archetype-list routes, as a service class over the store.
- **Decklists and card names** (`card_names`, `deck_text`, `utils_decklist`, `etl_decklist`,
  `edit_distance`, `fuzzy_match`).
  - Card-name normalisation.
  - The line patterns the two decklist parsers share.
  - Both parsers, each as a loop with a current section.
  - Levenshtein distance and the nearest-name selection loop, which picks the first
    nearest name within the threshold.
- **Tournament ingest** (`tournament_filters`, `tournament_load`, `match_rounds`, `deck_cards`).
  - The format, game and table filters of the three loaders.
  - Cross-format de-duplication by TID, the optional limit, and the per-tournament load loop
    with its counts and latest start date.
  - The load metadata for initial and incremental loads.
  - Round numbering and match emission.
  - The five-tier card lookup used when storing a decklist's cards.
- **Cards** (`scryfall`, `cards_load`).
  - Joining rulings to oracle cards, concatenating rulings, and the card-row transform.
  - The batched card load with its loaded/error accounting, for initial and incremental loads.
- **Archetypes** (`archetype`).
  - Validation of the classifier's reply and the retry loop.
  - Storing a classification, and the batched classification loads with their counts and
    their timestamp.
- **Meta analysis** (`meta_analysis`, `sorting`).
  - The time windows, meta share, win rates, the left join of the periods, the filters and
    group-bys, and the sorted rankings.
  - The matchup matrix, filled cell by cell in a nested map.
- **Deck coaching** (`deck_coaching`).
  - Parsing and enriching a decklist against the card rows: an exact normalised name first,
    then the nearest name within distance 2.
  - A deck's matchup statistics, most-played first.
  - The card list of the coaching prompt.
- **API models** (`api_models`).
  - The `strategy` and `group_by` validators.
  - The 1..365 day bounds.
  - The bounds of a matchup cell, which every computed cell respects.

Everything outside the program's own logic is a parameter of the operation that uses it:

- the clock (`now`) and the random conversation id (`freshId`);
- the language model's replies;
- JSON serialisation (`dumps`) and `repr`;
- the interpreter's string hash used for unknown round labels;
- the results of HTTP fetches and of database queries;
- the outcome of each database batch or transaction (`batchOk`, `commits`, `ok`) and of the load-metadata insert (`metaOk`);
- the archetype pipeline's `Services`.

Some behaviours of the code as written are stated as lemmas:

- `AgentGraph.MetaResearchAlwaysBlocked`: the days rule reads `current_days`, a key the
  state schema does not have. So once a format is set, meta research is always blocked.
- `AgentRoutes.ChatHistoryExceedsLimit`: the second store update passes no messages, so the
  assistant's reply is stored without capping. In the model, which has no graph checkpoint
  (see Left out), a stored history then holds the limit plus one; the source's checkpoint
  can make it longer still.
- `AgentStore.UpdateKeepsExpiry`: expiry uses the creation time only, so an update never
  extends a conversation.
- `TournamentLoad.EtlMeta`: the ETL loader's metadata always carries the load type
  "incremental", for its initial load too.
- `MatchRounds.MatchNum`: the two loaders number matches differently when a table has no
  integer `table` value. The ETL loader stores no number, and the tournament pipeline uses the
  table's position plus one.

Python semantics are written out where they matter:

- truthiness;
- slicing with negative and out-of-range bounds (`msgs[-limit:]`);
- `dict` insertion order;
- stable descending sorts;
- `str.strip` with Python's whitespace set;
- case folding, restricted to ASCII (see Left out).

`src/data/etl_pipeline.py` and `src/data/filters.py` repeat the ETL loader and its filters. The
`src/data` filter has no Limited check; the model gives it as the `NonCommander` rules. One member
stands for each pair of copies, and its row cites one of the two:

- `TournamentLoad.LoadTournament` and `MatchRounds.TableMatch` cite the `src/data` copy.
- `TournamentLoad.EtlLoadInitial` and `TournamentLoad.EtlLoadIncremental` cite the ETL copy. They
  also stand for `load_initial` and `load_incremental` in `src/data/etl_pipeline.py`, at 454-524
  and 526-603.
- `MatchRounds.InsertMatchRounds` cites the tournament pipeline. With the ETL loader's match
  numbering it also stands for `insert_match_rounds` in `src/data/etl_pipeline.py`, at 227-396.
- The filter functions cite the ETL copy. `TournamentFilters.ConstructedKeepsLess` relates the two
  rule sets.

## Model

| member | source | states |
|---|---|---|
| AgentState.SchemaHasDaysNotCurrentDays | src/app/agent_api/state.py:13-26 | the conversation state's keys include `days` and do not include `current_days` |
| AgentState.Apply | src/app/agent_api/store.py:57-58 | `dict.update`: for every key of the state schema, a key present in the update overwrites the state's value and an absent key keeps it |
| AgentState.ApplyEmpty | src/app/agent_api/store.py:57-58 | an update with no keys leaves the state as it was |
| AgentState.ApplyFull | src/app/agent_api/store.py:57-58 | a complete state used as an update is truthy and replaces the state outright |
| AgentState.InitialState | src/app/agent_api/state.py:29-43 | a fresh state has an empty message list and every other field None |
| AgentState.SummarizeForUi | src/app/agent_api/state.py:46-54 | `has_deck` holds exactly when the deck text or the card details are truthy; format, archetype and days are copied |
| AgentState.SummaryJsonKeys | src/app/agent_api/state.py:48-54 | the snapshot object has exactly the keys has_deck, format, archetype, days, in that order |
| AgentState.SummaryDependsOnlyOnDeckAndContext | src/app/agent_api/state.py:46-54 | two states that agree on deck text, card details, format, archetype and days have the same snapshot |
| AgentState.InitialSummary | src/app/agent_api/state.py:29-54 | a fresh state's snapshot reports no deck and no format, archetype or days |
| AgentStore.ChooseId | src/app/agent_api/store.py:24 | a truthy requested id is kept; None or "" gives the freshly generated id |
| AgentStore.ChooseState | src/app/agent_api/store.py:25 | a given initial state is used as is; otherwise the fresh initial state |
| AgentStore.NewEntry | src/app/agent_api/store.py:26-31 | a new entry carries the chosen id and state, and creation and update times both equal the current time |
| AgentStore.Lookup | src/app/agent_api/store.py:38-45 | a read finds an entry exactly when one is stored under the id and it has not expired, and then returns that entry |
| AgentStore.AfterRead | src/app/agent_api/store.py:38-45 | a read removes the id's entry exactly when it has expired and keeps every other entry unchanged |
| AgentStore.CapHistory | src/app/agent_api/store.py:63-64 | the capped history is a suffix of the history, untouched when within the limit, and exactly `limit` long when it was longer |
| AgentStore.UpdatedEntry | src/app/agent_api/store.py:47-67 | an update keeps id and creation time, sets the update time, applies the state keys, and appends then caps the messages only when some are given |
| AgentStore.UpdateKeepsExpiry | src/app/agent_api/store.py:35-36 | updating an entry never changes whether it is expired at any later time |
| AgentStore.UpdateCapsHistory | src/app/agent_api/store.py:60-64 | after an update that carries messages, the history is at most `limit` long and is a suffix of the old history followed by the new messages |
| AgentStore.ReadAfterCreate | src/app/agent_api/store.py:21-45 | a read within the time-to-live after creation finds the new entry with the fresh initial state |
| AgentStore.ConversationStore.constructor | src/app/agent_api/store.py:13-16 | a new store is empty and keeps the given time-to-live and history limit |
| AgentStore.ConversationStore.Create | src/app/agent_api/store.py:21-33 | stores the new entry under the chosen id, replacing any entry already there, and returns it |
| AgentStore.ConversationStore.IsExpiredEntry | src/app/agent_api/store.py:35-36 | an entry is expired when more than the time-to-live has passed since its creation |
| AgentStore.ConversationStore.Get | src/app/agent_api/store.py:38-45 | returns the live entry or None, and evicts the entry exactly when it has expired |
| AgentStore.ConversationStore.Update | src/app/agent_api/store.py:47-67 | a missing or expired id yields None with only the read's eviction; otherwise the stored entry becomes the updated entry, which is returned |
| AgentStore.ConversationStore.Exists | src/app/agent_api/store.py:69-70 | true exactly when a read finds a live entry, with the same eviction as a read |
| AgentStore.EvictedStaysMissing | src/app/agent_api/store.py:42-44 | once a read has evicted an expired entry, no later read finds it |
| AgentStreaming.Frame | src/app/agent_api/streaming.py:9-10 | a frame starts with the `event:` line naming its type and ends with a blank line |
| AgentStreaming.FrameRoundTrip | src/app/agent_api/streaming.py:9-10 | reading a frame back recovers its event type and data whenever the type has no newline |
| AgentStreaming.MetadataEventShape | src/app/agent_api/streaming.py:13-21 | the metadata event carries the conversation id, format and archetype, plus the tool catalog exactly when it is non-empty |
| AgentStreaming.ToolCallEventShape | src/app/agent_api/streaming.py:28-34 | a tool-call event carries tool and status first, then the arguments and the summary each only when truthy |
| AgentStreaming.DoneWire | src/app/agent_api/streaming.py:45-46 | the done event is the frame of type `done` whose data is the empty object |
| AgentStreaming.Render | src/app/agent_api/streaming.py:9-10 | an event's wire text reads back as its type and serialised payload whenever the type holds no newline |
| AgentStreaming.MetadataEvent | src/app/agent_api/streaming.py:13-21 | the metadata event reports the conversation id, and it has a `tool_catalog` key exactly when the catalog is non-empty |
| AgentStreaming.ThinkingEvent | src/app/agent_api/streaming.py:24-25 | a thinking event has the single key `content`, which holds the text |
| AgentStreaming.ToolCallEventLookup | src/app/agent_api/streaming.py:28-34 | a tool-call event reports the tool and status; it has `arguments` exactly when they are truthy and `summary` exactly when it is non-empty |
| AgentStreaming.ContentEvent | src/app/agent_api/streaming.py:37-38 | a content event has the single key `text`, which holds the text |
| AgentStreaming.StateEvent | src/app/agent_api/streaming.py:41-42 | a state event carries the four snapshot keys; `has_deck` is true exactly when the deck text or the card details are truthy, and the format is copied |
| AgentStreaming.DoneEvent | src/app/agent_api/streaming.py:45-46 | the done event's payload has no keys |
| AgentGraph.ClassifyIntent | src/app/agent_api/graph.py:141-150 | the intent is meta research or deck coaching exactly when the reply is a JSON object whose `intent` is that name; any failure, non-object or other value gives unknown |
| AgentGraph.FirstFiring | src/app/agent_api/graph.py:153-167 | no message exactly when no rule fires; otherwise the message of a firing rule with no firing rule before it |
| AgentGraph.EnforceBlocking | src/app/agent_api/graph.py:153-167 | allowed exactly when no reason is given; a missing format blocks first, then the days rule for meta research, then a missing deck and a missing archetype for deck coaching |
| AgentGraph.BlockingIsFirstFiringRule | src/app/agent_api/graph.py:153-167 | the blocking decision is the first rule that fires in the ordered rule table |
| AgentGraph.MetaResearchAlwaysBlocked | src/app/agent_api/graph.py:158-159 | with a format set, meta research is always blocked with the days message, because the rule reads the absent `current_days` key |
| AgentGraph.UpdateWorkflow | src/app/agent_api/graph.py:170-173 | sets the current workflow to the intent and changes nothing else |
| AgentGraph.ClarifyLineCount | src/app/agent_api/graph.py:96-109 | the clarification has the two header lines, one line per option plus one per option with tools, and the closing line last |
| AgentGraph.OptionLinesCount | src/app/agent_api/graph.py:103-107 | the options contribute one line each plus one for each option that lists tools |
| AgentGraph.OptionLinesOf | src/app/agent_api/graph.py:103-107 | the loop builds exactly the option lines of every option in order |
| AgentGraph.ClarifyMessage | src/app/agent_api/graph.py:96-109 | the message is the header, the option lines and the closing line joined by newlines, using the override when it is non-empty |
| AgentGraph.RouterNodeCorrect | src/app/agent_api/graph.py:233-268 | an unknown intent answers with the clarification and sets no workflow; a known one sets the workflow and answers with the blocking reason or the routed confirmation |
| AgentGraph.MergeRouterUpdate | src/app/agent_api/graph.py:236-237 | merging a router update appends its messages, overwrites the workflow when it sets one, and keeps every other key |
| AgentGraph.InvokeGraph | src/app/agent_api/graph.py:271-278 | one invocation keeps the history and appends exactly one assistant message |
| AgentGraph.MetaResearchNeverRouted | src/app/agent_api/graph.py:249-264 | a meta-research reply never reaches the routed confirmation, whatever the state holds |
| AgentGraph.RouterNode | src/app/agent_api/graph.py:233-268 | the router always answers with exactly one assistant message, and it leaves the workflow unset exactly when the intent is unknown |
| AgentRoutes.CatalogJson | src/app/agent_api/routes.py:171-186 | the metadata event's tool catalog holds every fetched tool, in order, as an object with its name, description and server |
| AgentRoutes.CatalogOptions | src/app/agent_api/routes.py:171-173 | each catalog tool becomes one clarification option with its name and description and no tools, in order |
| AgentRoutes.ApplyContext | src/app/agent_api/routes.py:154-163 | format, archetype and deck text are overwritten only when truthy, days whenever given, and no other key changes |
| AgentRoutes.EmptyContextIsIdentity | src/app/agent_api/routes.py:154-163 | an empty request context leaves the state unchanged |
| AgentRoutes.ConversationResponse | src/app/agent_api/routes.py:137-151 | 404 exactly when no live conversation is found; otherwise the view echoes the id, format, archetype, days and messages, and has_deck means truthy card details |
| AgentRoutes.ViewAndSummaryDisagreeOnDeckText | src/app/agent_api/routes.py:148 | a state with deck text but no card details shows a deck in the state event and none in the conversation view |
| AgentRoutes.ListArchetypes | src/app/agent_api/routes.py:126-134 | 400 without a truthy format, 404 when the tool's result has no archetypes value, and otherwise the tool's result unchanged |
| AgentRoutes.ResolveConversation | src/app/agent_api/routes.py:175-178 | a truthy id naming a live conversation reuses it; otherwise a fresh entry with the initial state under the requested or generated id |
| AgentRoutes.ChatEventsShape | src/app/agent_api/routes.py:184-194 | a turn streams metadata, thinking, content, state and done in that order; the content is the routed state's last message and the state event summarises that state |
| AgentRoutes.ChatHistoryShape | src/app/agent_api/routes.py:180-191 | after a turn the stored history ends with the stripped user message and the assistant's reply, and holds at most limit + 1 messages |
| AgentRoutes.ChatHistoryExceedsLimit | src/app/agent_api/routes.py:191 | because the second store update passes no messages, a conversation that already holds `limit` messages stores limit + 1 after a turn |
| AgentRoutes.ChatMergesContext | src/app/agent_api/routes.py:180-182 | a truthy format in the request context is the format stored after the turn |
| AgentRoutes.ChatNewConversationStartsFresh | src/app/agent_api/routes.py:175-178 | a turn without an id opens a new conversation under the generated id, created now, starting from the initial state |
| AgentRoutes.AgentService.constructor | src/app/agent_api/routes.py:25-27 | the service wraps the given store and starts with no clarification override |
| AgentRoutes.AgentService.OpenConversation | src/app/agent_api/routes.py:175-178 | opens the resolved conversation, stores it under its id, and leaves it live and readable |
| AgentRoutes.AgentService.RecordUserMessage | src/app/agent_api/routes.py:180-185 | stores the merged state with the user message appended and capped, and returns the stored state read back |
| AgentRoutes.AgentService.RouteTurn | src/app/agent_api/routes.py:188-191 | the routed state is one graph invocation on the current state, and it is stored with the update time set |
| AgentRoutes.AgentService.ProcessTurn | src/app/agent_api/routes.py:180-191 | records the user message, routes the turn and stores the reply, returning the state before and after routing |
| AgentRoutes.AgentService.Chat | src/app/agent_api/routes.py:166-196 | a blank message gives 400 and changes nothing; otherwise the turn's events are returned, its entry is stored, and a non-empty catalog becomes the clarification options |
| AgentRoutes.AgentService.AcceptTurn | src/app/agent_api/routes.py:175-194 | a non-blank turn returns exactly the events of its specification and stores exactly its final entry |
| AgentRoutes.AgentService.GetConversation | src/app/agent_api/routes.py:137-151 | answers from a read of the store, with that read's eviction |
| CardNames.MapChar | src/etl/utils.py:40-76 | a character is mapped to one that no quote, dash or space table rewrites, and characters outside the tables are kept |
| CardNames.MapChars | src/etl/utils.py:55-76 | applying the tables keeps the length, rewrites each character by itself, and leaves no rewritable character |
| CardNames.MapCharsOfTidy | src/etl/utils.py:55-76 | a string holding no rewritable character is left unchanged by the tables |
| CardNames.Collapse | src/etl/utils.py:79 | after collapsing, every whitespace character is a single plain space; no character is introduced; the first character is kept, or is a space when it was whitespace |
| CardNames.CollapseOfTidy | src/etl/utils.py:79 | a string whose only whitespace is single plain spaces is left unchanged by collapsing |
| CardNames.ReplacePair | src/etl/utils.py:85-88 | replacing a two-character sequence never lengthens the string, introduces only the replacement, keeps or replaces both ends, and does nothing when the first character is absent |
| CardNames.ReplacePairNoDoubleSpace | src/etl/utils.py:85-88 | replacing with a non-space character never creates two spaces in a row |
| CardNames.StripKeepsTidy | src/etl/utils.py:79-82 | stripping a collapsed string with no rewritable characters gives a tidy name |
| CardNames.ReplacePairKeepsTidy | src/etl/utils.py:85-88 | one unescaping replacement keeps a tidy name tidy |
| CardNames.UnescapeKeepsTidy | src/etl/utils.py:84-88 | the four unescaping replacements keep a tidy name tidy |
| CardNames.NormalizedIsTidy | src/etl/utils.py:16-90 | a normalised name holds no rewritable character, only single inner plain spaces, and no leading or trailing space |
| CardNames.TidyIsFixedPoint | src/etl/utils.py:16-90 | a tidy name without backslashes normalises to itself, so normalising twice equals normalising once on such names |
| CardNames.EmptyNameUnchanged | src/etl/utils.py:33-34 | the empty name is returned unchanged |
| CardNames.Unescape | src/etl/utils.py:84-88 | the four backslash escapes are undone, so the name never gets longer, and a name without a backslash is unchanged |
| CardNames.NormalizeCardName | src/etl/utils.py:16-90 | the normalised name is never longer than the input, and an empty name stays empty; `NormalizedIsTidy` and `TidyIsFixedPoint` give its shape and idempotence |
| CardNames.CollapseSplits | src/etl/utils.py:79 | `re.sub(r'\s+', ' ')` works piecewise around a non-space character: the runs on each side are collapsed on their own |
| CardNames.CollapseRun | src/etl/utils.py:79 | a run of white space followed by text that does not start with white space becomes one space before the collapsed text |
| CardNames.CollapseAllWhitespace | src/etl/utils.py:79 | a non-empty run of white space becomes exactly one space |
| CardNames.CollapseNoWhitespace | src/etl/utils.py:79 | text without white space is left unchanged |
| CardNames.StripLeftAppend | src/etl/utils.py:79-82 | stripping leading white space from a concatenation strips the first part, and the second part too if the first part was all white space |
| CardNames.FindPair | src/etl/utils.py:85-88 | the first position where the two-character sequence occurs, or none exactly when it occurs nowhere |
| CardNames.ReplacePairIsReplaceByFind | src/etl/utils.py:85-88 | `str.replace` of a two-character sequence keeps the text before its first occurrence, writes the replacement, and continues after the pair |
| CardNames.NoPairUnchanged | src/etl/utils.py:85-88 | text without the two-character sequence is left unchanged |
| DeckText.Token | src/etl/utils.py:126-135 | when leading whitespace and the word (ignoring case) begin the text, what follows the word is returned, and it is a suffix of the text |
| DeckText.SbRemainder | src/etl/utils.py:135 | what follows an `SB:` prefix is returned stripped of whitespace at both ends |
| DeckText.CardMatch | src/etl/utils.py:138 | a line that matches the quantity-and-name pattern yields a non-empty name group |
| DeckText.CardMatchOfTrimmed | src/etl/utils.py:138-182 | on a line that does not end in whitespace, the matched name is non-empty and already stripped |
| UtilsDecklist.StripEach | src/etl/utils.py:192 | each piece of the split name is stripped, one result per piece |
| UtilsDecklist.SplitCardNameShape | src/etl/utils.py:191-198 | a name is rewritten exactly when it is two capitalised colon-free pieces around a single `/`, and then it becomes the stripped pieces around ` // ` |
| UtilsDecklist.EscapeWithoutNewlines | src/etl/utils.py:116-117 | text without newlines is unchanged by writing newlines back as `\n` |
| UtilsDecklist.EscapeUndoesReplace | src/etl/utils.py:116-117 | on text without a real newline, writing newlines back as `\n` undoes the replacement of `\n` by newlines |
| UtilsDecklist.RealNewlinesWin | src/etl/utils.py:116 | text that holds a real newline is split as it is |
| UtilsDecklist.UnescapeRoundTrip | src/etl/utils.py:116-117 | the newline fix-up on single-line text loses nothing: escaping the newlines again restores the text |
| UtilsDecklist.Classify | src/etl/utils.py:163-212 | a card comes out only with a quantity of at least one, in the current section, which it keeps |
| UtilsDecklist.Step | src/etl/utils.py:140-212 | a card produced from a line has a positive quantity and belongs to the section the next line starts in |
| UtilsDecklist.ParseLine | src/etl/utils.py:140-212 | the loop body for one line yields exactly the card and next section of the line's specification |
| UtilsDecklist.ClassifyLine | src/etl/utils.py:163-212 | the loop body after the `SB:` check yields exactly the card and section its specification gives |
| UtilsDecklist.ParseDecklist | src/etl/utils.py:93-218 | the parser returns exactly the cards its line-by-line specification gives, starting in the mainboard |
| UtilsDecklist.ParseLines | src/etl/utils.py:119-212 | the loop over the lines appends exactly the cards of the lines, in order |
| UtilsDecklist.BlankTextHasNoCards | src/etl/utils.py:110-112 | empty or whitespace-only text gives no cards |
| UtilsDecklist.QuantitiesPositive | src/etl/utils.py:200-203 | every card produced from a run of lines has a quantity of at least one |
| UtilsDecklist.ParsedQuantitiesPositive | src/etl/utils.py:200-203 | every card the parser returns has a quantity of at least one |
| UtilsDecklist.MarkersSetSection | src/etl/utils.py:147-172 | marker lines yield no card: the mainboard marker moves to the mainboard, and `SB:` alone or a sideboard heading, comment or marker moves to the sideboard |
| UtilsDecklist.SplitCardName | src/etl/utils.py:191-198 | a name the split-card rule does not apply to is kept; one it applies to is changed and then holds ` // ` |
| EtlDecklist.Classify | src/etl/etl_pipeline.py:95-128 | a card keeps the current section; on a line not ending in whitespace it is well formed; the sideboard is never left |
| EtlDecklist.Step | src/etl/etl_pipeline.py:77-128 | a card produced from a line is well formed and in the section the next line starts in; once in the sideboard the parser stays there |
| EtlDecklist.ParseLine | src/etl/etl_pipeline.py:77-128 | the loop body for one line yields exactly the card and next section of the line's specification |
| EtlDecklist.ParseDecklist | src/etl/etl_pipeline.py:41-130 | the parser returns exactly the cards its line-by-line specification gives, starting in the mainboard |
| EtlDecklist.ParseLines | src/etl/etl_pipeline.py:61-128 | the loop over the lines appends exactly the cards of the lines, in order |
| EtlDecklist.ParseStep | src/etl/etl_pipeline.py:77-125 | one turn of the loop appends the line's card, if any, and leaves the cards still to come unchanged |
| EtlDecklist.BlankTextHasNoCards | src/etl/etl_pipeline.py:58-59 | empty or whitespace-only text gives no cards |
| EtlDecklist.CardsWellFormed | src/etl/etl_pipeline.py:110-125 | every card produced from a run of lines has a positive quantity and a non-empty stripped name |
| EtlDecklist.ParsedCardsWellFormed | src/etl/etl_pipeline.py:110-125 | every card the parser returns has a positive quantity and a non-empty stripped name |
| EtlDecklist.SectionsNeverReturn | src/etl/etl_pipeline.py:84-104 | from the sideboard on every card is a sideboard card, and the cards of a run are in section order |
| EtlDecklist.MainboardBeforeSideboard | src/etl/etl_pipeline.py:41-130 | in the parsed list every mainboard card comes before every sideboard card |
| EtlDecklist.SbPrefixReadsRemainder | src/etl/etl_pipeline.py:85-93 | a line `SB: x` is read as the line `x` in the sideboard |
| EtlDecklist.SbPrefixedCard | src/etl/etl_pipeline.py:85-125 | a card line after `SB:` yields that card with its stripped name, in the sideboard, whatever the current section |
| EditDistance.DistanceToSelf | src/etl/utils.py:300 | a name is at edit distance 0 from itself |
| EditDistance.LengthDifferenceBound | src/etl/utils.py:300 | the edit distance is at least the difference of the two lengths |
| EditDistance.ZeroDistanceMeansEqual | src/etl/utils.py:300 | edit distance 0 holds only between equal strings |
| EditDistance.Levenshtein | src/etl/utils.py:10 | the distance between two names is never more than the longer name's length |
| FuzzyMatch.FirstClosestIsUnique | src/etl/utils.py:299-303 | at most one candidate is the first closest within the threshold |
| FuzzyMatch.KeepFirstClosest | src/etl/utils.py:301 | appending a candidate no closer than the best keeps the best |
| FuzzyMatch.LastFirstClosest | src/etl/utils.py:301-303 | a new candidate within the threshold and strictly closer than all before it becomes the best |
| FuzzyMatch.ClosestIsFirstClosest | src/etl/utils.py:294-305 | no match exactly when no candidate is within the threshold; otherwise the match is the first candidate at the least distance |
| FuzzyMatch.ClosestNoneIff | src/etl/utils.py:294-305 | no match exactly when every candidate is farther than the threshold |
| FuzzyMatch.ClosestIsFirst | src/etl/utils.py:294-305 | a match is a candidate within the threshold, strictly closer than every earlier candidate and no farther than any later one |
| FuzzyMatch.FindClosest | src/etl/utils.py:278-305 | the selection loop returns None exactly when no candidate is within the threshold, and otherwise the first closest candidate |
| FuzzyMatch.Closest | src/etl/utils.py:295-305 | what the selection returns is one of the candidates, and it is within the threshold of the wanted name |
| TournamentFilters.IncludedIff | src/etl/etl_pipeline.py:165-193 | a tournament is included exactly when its format is not Commander, not Limited under the loaders' rules, and its game is Magic: The Gathering |
| TournamentFilters.FormatChecksIgnoreSurroundingSpace | src/etl/etl_pipeline.py:133-162 | the format checks strip first, so stripping the value beforehand changes no answer |
| TournamentFilters.NamesIgnoreSurroundingSpace | src/etl/etl_pipeline.py:146 | membership of the stripped name is unchanged by stripping it again |
| TournamentFilters.BlankNameMatchesNothing | src/etl/etl_pipeline.py:143-146 | a blank name is in a format set only if the empty name is |
| TournamentFilters.NoEmptyFormatName | src/etl/etl_pipeline.py:19-38 | neither the Commander nor the Limited set holds the empty name |
| TournamentFilters.CommanderCheckIsExact | src/etl/etl_pipeline.py:146 | the check compares names exactly: `edh` in lower case is not a Commander format |
| TournamentFilters.FilterTournaments | src/etl/etl_pipeline.py:215-229 | the filter never adds tournaments |
| TournamentFilters.FilterMembership | src/etl/etl_pipeline.py:225 | a tournament is kept exactly when it is in the input and included |
| TournamentFilters.FilterSnoc | src/etl/etl_pipeline.py:225 | appending one tournament appends it to the result exactly when it is included |
| TournamentFilters.FilterConcat | src/etl/etl_pipeline.py:225 | filtering keeps order: filtering two runs is filtering each and concatenating |
| TournamentFilters.FilterIdempotent | src/etl/etl_pipeline.py:215-229 | filtering twice is filtering once |
| TournamentFilters.ConstructedKeepsLess | src/data/filters.py:36-59 | whatever the loaders' rules keep, the shared module's rules, which have no Limited check, keep too |
| TournamentFilters.ValidTables | src/etl/etl_pipeline.py:249 | the valid tables are exactly the input tables with at most two players, in order |
| TournamentFilters.FilterRoundsData | src/etl/etl_pipeline.py:232-256 | the loop keeps exactly the filtered copies of the rounds that have a valid table, in order |
| TournamentFilters.FilteredRoundShape | src/etl/etl_pipeline.py:251-254 | a kept round keeps every key but `tables`, whose value is the round's valid tables |
| TournamentFilters.KeptRoundsSnoc | src/etl/etl_pipeline.py:244-254 | one more round adds its filtered copy exactly when it has a valid table |
| TournamentFilters.KeptRoundsAreValid | src/etl/etl_pipeline.py:232-256 | every kept round is the filtered copy of an input round with at least one valid table |
| TournamentFilters.KeptRoundCount | src/etl/etl_pipeline.py:232-256 | the number of kept rounds is the number of rounds less those without a valid table |
| TournamentFilters.IsCommanderFormat | src/etl/etl_pipeline.py:133-146 | a falsy format is never Commander, and a Commander format is never also a Limited one |
| TournamentFilters.IsLimitedFormat | src/etl/etl_pipeline.py:149-162 | a falsy format is never Limited, and a Limited format is never also a Commander one |
| TournamentFilters.ShouldInclude | src/etl/etl_pipeline.py:165-193 | an included tournament is Magic and not Commander, and under the loaders' rules not Limited; a tournament of another game is never included |
| TournamentFilters.IsValidMatch | src/etl/etl_pipeline.py:196-212 | a table without a `players` key counts as valid, since the missing list is empty |
| TournamentLoad.SameSetElement | src/etl/etl_pipeline.py:1022-1023 | TIDs meet in the seen-set as Python compares them: `True`, `1` and `1.0` are one element, and the string "1" is another |
| TournamentLoad.DedupBy | src/etl/etl_pipeline.py:1019-1025 | de-duplication never adds elements |
| TournamentLoad.DedupFromInput | src/etl/etl_pipeline.py:1021-1025 | only input tournaments are kept |
| TournamentLoad.DedupDistinct | src/etl/etl_pipeline.py:1021-1025 | the kept tournaments have truthy, pairwise distinct TIDs, and every truthy TID of the input is kept |
| TournamentLoad.DedupTruthyDistinct | src/etl/etl_pipeline.py:1022-1025 | the kept tournaments have truthy, pairwise distinct TIDs |
| TournamentLoad.DedupCovers | src/etl/etl_pipeline.py:1022-1025 | every truthy TID of the input is the TID of a kept tournament |
| TournamentLoad.DedupKeepsFirst | src/etl/etl_pipeline.py:1022-1025 | each kept tournament is the first in the input with its TID |
| TournamentLoad.DedupSnoc | src/etl/etl_pipeline.py:1022-1025 | one more tournament is kept at the end exactly when its TID is truthy and not yet kept |
| TournamentLoad.DedupPrefix | src/etl/etl_pipeline.py:1011-1030 | reading more input only adds at the end: what a prefix keeps is a prefix of what the whole keeps |
| TournamentLoad.CollectedBy | src/etl/tournaments_pipeline.py:803-833 | the collected list is a prefix of the de-duplicated input, at most `limit` long with a limit, and all of it without one |
| TournamentLoad.FirstRaise | src/etl/etl_pipeline.py:1011-1030 | a format's list is read up to its first tournament whose TID raises in the seen-set test, and every tournament before it is readable |
| TournamentLoad.CutAt | src/etl/etl_pipeline.py:1011-1030 | what one format contributes is a prefix of its list in which no TID raises |
| TournamentLoad.Cuts | src/etl/etl_pipeline.py:1011-1030 | each format's list is cut on its own; an exception in one format does not affect the others |
| TournamentLoad.CutAtIff | src/etl/etl_pipeline.py:1011-1030 | a list whose first raising TID is at position i contributes exactly its first i tournaments |
| TournamentLoad.CutAtWhole | src/etl/etl_pipeline.py:1011-1030 | a list without a raising TID is read whole |
| TournamentLoad.CollectBy | src/etl/tournaments_pipeline.py:803-833 | the two collection loops, with the caught exception that ends a format's list and the early exits at the limit, build exactly the first `limit` de-duplicated tournaments of the cut lists |
| TournamentLoad.CollectList | src/etl/tournaments_pipeline.py:807-833 | the loop over one format's list extends the de-duplicated list by that list up to its first raising TID, or stops exactly when the limit is reached |
| TournamentLoad.KeepNext | src/etl/tournaments_pipeline.py:817-820 | one tournament is appended, and its TID remembered, exactly when the TID is truthy and unseen |
| TournamentLoad.StopEarly | src/etl/tournaments_pipeline.py:823-830 | stopping at the limit in the middle of a list keeps a prefix of what the whole input would keep |
| TournamentLoad.CollectedDistinct | src/etl/etl_pipeline.py:1019-1025 | every collected tournament has a truthy TID that a set can hold, and no two collected TIDs are the same set element |
| TournamentLoad.CollectedStable | src/etl/tournaments_pipeline.py:823-830 | once `limit` tournaments are kept, more input changes nothing |
| TournamentLoad.LaterTournamentsUnread | src/etl/tournaments_pipeline.py:828-830 | once the limit is reached, the formats not yet fetched do not change what is collected |
| TournamentLoad.FetchAll | src/etl/etl_pipeline.py:1011-1030 | one list per format in order, a fetch that fails or returns nothing counting as empty |
| TournamentLoad.NumberOf | src/etl/etl_pipeline.py:1049-1050 | a start date compares with a number exactly when it is a bool, an integer or a float |
| TournamentLoad.LoadTournament | src/data/etl_pipeline.py:398-452 | a tournament without a truthy TID is never loaded; with one, it is loaded exactly when its transaction completes (the same code as `load_tournament` in `src/etl/etl_pipeline.py`) |
| TournamentLoad.MissingTidNeverLoads | src/etl/etl_pipeline.py:924-927 | a tournament with no TID is never loaded, whatever the database does |
| TournamentLoad.KeptIff | src/etl/etl_pipeline.py:1046-1048 | the loaded tournaments are exactly the input tournaments whose load succeeded |
| TournamentLoad.KeptPrefixSnoc | src/etl/etl_pipeline.py:1046-1048 | one more tournament joins the loaded ones exactly when its load succeeds |
| TournamentLoad.MaxByIsMax | src/etl/etl_pipeline.py:1049-1051 | the tracked maximum is at least its start value and every loaded start date, and is one of them |
| TournamentLoad.LatestIsLatest | src/etl/tournaments_pipeline.py:864-868 | the latest start is None only when none came before and every start is 0; otherwise it is at least the earlier one and every non-zero start, and is one of them |
| TournamentLoad.LimitTo | src/etl/tournaments_pipeline.py:850-851 | the cut list is a prefix of at most `limit` tournaments, and the whole list without a limit |
| TournamentLoad.ToLoadRaisesIff | src/etl/tournaments_pipeline.py:847-851 | filtering raises exactly when a collected tournament has a truthy format that is not a string; only collected tournaments are read; with a limit at most `limit` remain |
| TournamentLoad.LoadEach | src/etl/etl_pipeline.py:1043-1051 | the loop counts exactly the successful loads and tracks the largest start date among them, and raises at the first loaded tournament whose start date does not compare |
| TournamentLoad.EtlMeta | src/etl/etl_pipeline.py:1053-1055 | metadata is written exactly when something loaded and the maximum moved past its start, with that maximum and count and the load type `incremental` |
| TournamentLoad.EtlLoadFetched | src/etl/etl_pipeline.py:1032-1058 | after fetching, the load collects, filters (raising on an unreadable format), loads each tournament, and returns the outcome of its specification |
| TournamentLoad.EtlLoadInitial | src/etl/etl_pipeline.py:988-1058 | the initial load is collection, filtering and loading over `days_back` days, with the maximum starting at 0; a failing metadata insert makes it raise |
| TournamentLoad.AfterMetaWrite | src/etl/etl_utils.py:53-79 | the load raises exactly when it raised already or its metadata insert is issued and fails; otherwise its result stands |
| TournamentLoad.DaysSinceCoversSpan | src/etl/etl_pipeline.py:1077 | the days asked for are at least one and cover more than the time elapsed since the last load |
| TournamentLoad.EtlLoadIncremental | src/etl/etl_pipeline.py:1060-1137 | without a stored timestamp (None or 0) it is the 90-day initial load; otherwise the same steps over the days since then, with the maximum starting at the stored timestamp; a failing metadata insert makes it raise |
| TournamentLoad.EtlMetaIffLaterStart | src/etl/etl_pipeline.py:1121-1134 | when the load completes, metadata is written exactly when a loaded tournament started after the stored timestamp, and it records the latest loaded start date |
| TournamentLoad.EtlRaisesIff | src/etl/etl_pipeline.py:1043-1051 | the load loop raises exactly when a loaded tournament's start date does not compare; a tournament that failed to load is never read |
| TournamentLoad.WellFormedEtlCompletes | src/etl/etl_pipeline.py:1032-1058 | when every fetched tournament has a string or falsy format and a numeric start date, an ETL load completes |
| TournamentLoad.ReadableToLoad | src/etl/tournaments_pipeline.py:846-851 | when every fetched tournament is readable, filtering completes and leaves only readable tournaments |
| TournamentLoad.LoadEachCounting | src/etl/tournaments_pipeline.py:856-870 | the loop counts the loads that succeed and fail, which add up to the input, tracks the latest truthy start date among the loaded, and raises at the first loaded tournament with a truthy start date that is not a number |
| TournamentLoad.PipelineMeta | src/etl/tournaments_pipeline.py:872-879 | metadata is written exactly when something loaded and a start date was seen beyond the stored one, and it carries that date, the count and the load type |
| TournamentLoad.PipelineOutcome | src/etl/tournaments_pipeline.py:884-889 | when the loop completes, loaded and failed add up to the processed count, which is the number of tournaments, and success means no failure |
| TournamentLoad.PipelineHonoursLimit | src/etl/tournaments_pipeline.py:846-851 | with a limit, a completed load processes at most `limit` tournaments |
| TournamentLoad.PipelineLoadFetched | src/etl/tournaments_pipeline.py:835-889 | after fetching, the load collects up to the limit, filters, cuts to the limit, loads each tournament, and returns the report and metadata of its specification, or raises |
| TournamentLoad.LoadAndReport | src/etl/tournaments_pipeline.py:856-889 | the loop and the report built from its counts give exactly the specified report and metadata |
| TournamentLoad.PipelineLoadInitial | src/etl/tournaments_pipeline.py:778-889 | the initial load collects, filters, cuts and loads; when it completes with a limit, at most `limit` tournaments are processed; a failing metadata insert makes it raise |
| TournamentLoad.PipelineLoadIncremental | src/etl/tournaments_pipeline.py:891-1013 | without a stored timestamp it is the 90-day initial load; otherwise it loads the days since then as an incremental load, processing at most `limit` tournaments; a failing metadata insert makes it raise |
| TournamentLoad.IncrementalMetaIffLaterStart | src/etl/tournaments_pipeline.py:980-1003 | when the load completes, it writes metadata exactly when a loaded tournament started after the stored timestamp, and records a date no earlier than any loaded start |
| TournamentLoad.PipelineRaisesIff | src/etl/tournaments_pipeline.py:860-870 | the pipeline loop raises exactly when a loaded tournament has a truthy start date that is not a number |
| TournamentLoad.WellFormedPipelineCompletes | src/etl/tournaments_pipeline.py:846-889 | when every fetched tournament has a readable format and a falsy or numeric start date, a pipeline load completes and processes every tournament left after filtering and the limit |
| MatchRounds.RoundNumber | src/etl/tournaments_pipeline.py:563-587 | a round identifier gets a number exactly when `int()` can convert it: a string (by the bracket table or the hash), an integer, a bool or a float; a missing identifier, a list or an object gets none and is skipped by the first loop |
| MatchRounds.BracketAndNumericRounds | src/etl/tournaments_pipeline.py:549-571 | `Top 8`, `Top 4` and `Finals` get 1000, 2000 and 3000, and integer rounds keep their value |
| MatchRounds.TruncReal | src/etl/tournaments_pipeline.py:580-583 | `int()` of a float truncates toward zero: the result is at most one away from the float, on the side of zero |
| MatchRounds.FloatRoundsTruncate | src/etl/tournaments_pipeline.py:580-583 | a float round 3.0 is round 3, 2.5 is round 2 and -2.5 is round -2 |
| MatchRounds.EqualKeysShareNumber | src/etl/tournaments_pipeline.py:587 | identifiers that Python takes for the same dict key (an integer, the equal float, and True or False for 1 or 0) get the same number, so the number map returns the same number whichever of them was stored |
| MatchRounds.OtherLabelsAvoidBracketNumbers | src/etl/tournaments_pipeline.py:573-577 | any other label gets a number in 10000..19999, which no bracket label has |
| MatchRounds.IntValue | src/etl/tournaments_pipeline.py:656 | a value counts as an integer exactly when it is an integer or a bool, as `isinstance(v, int)` does |
| MatchRounds.MatchNum | src/etl/tournaments_pipeline.py:655-658 | under the tournament pipeline's numbering every match gets a number, the table position plus one when the table has none |
| MatchRounds.RoundMatches | src/etl/tournaments_pipeline.py:621-668 | a round that does not raise yields at most one match per table |
| MatchRounds.Ids | src/etl/tournaments_pipeline.py:563-564 | one identifier per round, in order |
| MatchRounds.InsertMatchRounds | src/etl/tournaments_pipeline.py:523-700 | the method raises exactly when the second loop does; otherwise the two loops produce exactly the specified round rows and match rows |
| MatchRounds.MatchAllRounds | src/etl/tournaments_pipeline.py:612-668 | the second loop produces the matches of every numbered round in round order, or raises when a round does |
| MatchRounds.MatchRound | src/etl/tournaments_pipeline.py:612-668 | one pass of the second loop gives exactly the round's step: an exception for an identifier that cannot be hashed, nothing for a missing one, and its tables' matches otherwise |
| MatchRounds.MatchesSnoc | src/etl/tournaments_pipeline.py:612-668 | one more round adds its matches when its identifier has a number, nothing when it is missing, and makes the whole raise when it raises |
| MatchRounds.NumberRounds | src/etl/tournaments_pipeline.py:563-593 | the first loop produces one round row per identifier that gets a number, and remembers the number of each such identifier |
| MatchRounds.NumberedPut | src/etl/tournaments_pipeline.py:587 | recording an identifier's own number keeps every remembered number right |
| MatchRounds.RowsOfSnoc | src/etl/tournaments_pipeline.py:563-593 | one more identifier adds its round row when it has a number, and nothing otherwise |
| MatchRounds.RoundTableMatches | src/etl/tournaments_pipeline.py:621-668 | the loop over one round's tables, with their positions, produces exactly that round's matches, or raises when a table does |
| MatchRounds.MatchTable | src/etl/tournaments_pipeline.py:621-668 | one pass of the inner loop gives exactly the table's outcome |
| MatchRounds.RoundMatchesRaiseIff | src/etl/tournaments_pipeline.py:621-668 | a round's tables raise exactly when one of them raises |
| MatchRounds.RoundStepRaisesIff | src/etl/tournaments_pipeline.py:612-668 | a round raises in the second loop exactly when its identifier cannot be hashed, or it is numbered and one of its tables raises |
| MatchRounds.MatchesRaiseIff | src/etl/tournaments_pipeline.py:612-698 | the second loop raises exactly when one of the rounds raises |
| MatchRounds.RoundMatchesAreValid | src/etl/tournaments_pipeline.py:621-668 | every match of a round that does not raise has known or absent players, the round's number and the tournament's id, and under the pipeline's numbering a match number |
| MatchRounds.MatchesHaveKnownPlayers | src/etl/tournaments_pipeline.py:634-651 | no match is written with a player who is present but not a known player of the tournament |
| MatchRounds.UnnumberedRoundSkipped | src/etl/tournaments_pipeline.py:614-618 | a round without an identifier adds no round row and no matches |
| MatchRounds.UnhashableRoundRaises | src/etl/tournaments_pipeline.py:563-614 | a round whose identifier is a list or an object adds no round row, and makes the second loop raise |
| MatchRounds.NonStringIdSkipsTable | src/etl/tournaments_pipeline.py:630-643 | a present player id that is a bool or a number is never a known player, so its table is skipped |
| MatchRounds.TableMatch | src/data/etl_pipeline.py:323-364 | a table gives a match exactly when it has at most two players, all objects, and each present player id is the id of a known player; it raises exactly when it has at most two players and a player is not an object, the first id is truthy and unhashable, or the first passes and the second is truthy and unhashable; a match carries the round's number, the tournament id and the two ids read |
| DeckCards.FirstHit | src/etl/tournaments_pipeline.py:409-460 | a tier's `LIMIT 1` query finds nothing exactly when no row is accepted, and otherwise returns the id of an accepted row |
| DeckCards.FirstHitIsFirst | src/etl/tournaments_pipeline.py:409-417 | the query returns the id of the first row the tier accepts |
| DeckCards.LookupSoundAndComplete | src/etl/tournaments_pipeline.py:407-468 | a card is missing exactly when no tier accepts any row and no row of the first 100000 is within edit distance 2; a found id is that of a row a tier accepts or a near name |
| DeckCards.ExactNameWins | src/etl/tournaments_pipeline.py:407-417 | a name stored exactly resolves to its first exact row, whatever the later tiers would find |
| DeckCards.LookupCardId | src/etl/tournaments_pipeline.py:407-469 | the tier sequence, each query run only while nothing was found, gives exactly the specified lookup |
| DeckCards.ResolveAccounts | src/etl/tournaments_pipeline.py:402-483 | every parsed card becomes exactly one row or one missing name; a row carries its card's section, quantity and looked-up id, and a missing name is one the lookup could not resolve |
| DeckCards.ResolveCards | src/etl/tournaments_pipeline.py:402-483 | the loop over parsed cards builds exactly the specified rows and missing names |
| DeckCards.InsertDeckCards | src/etl/tournaments_pipeline.py:336-521 | blank text, a missing decklist, a parser failure or an empty parse store nothing; otherwise the rows and missing names are those of the parsed cards |
| DeckCards.LookupCard | src/etl/tournaments_pipeline.py:402-475 | any id found is the id of a row of the cards table, and an exact name match always decides |
| Scryfall.JoinCardsWithRulings | src/etl/api_clients/scryfall_client.py:193-227 | the join raises exactly when a ruling's or a card's truthy oracle id is a list or an object; otherwise the joined list is every card, in order, copied with the list of comments filed under its truthy oracle id |
| Scryfall.FileComments | src/etl/api_clients/scryfall_client.py:206-213 | filing raises exactly when some ruling's truthy oracle id cannot be hashed; otherwise the list under each truthy hashable oracle id holds exactly the comments of the rulings with that id, in input order |
| Scryfall.Attach | src/etl/api_clients/scryfall_client.py:217-224 | the `in` test raises exactly when the card's truthy oracle id cannot be hashed; otherwise a card whose truthy oracle id has a list gets that list, every other card the empty list |
| Scryfall.SomeUnhashableIdIff | src/etl/api_clients/scryfall_client.py:209-211 | a list of rulings or cards makes a key test raise exactly when one of its entries has a truthy oracle id that cannot be hashed |
| Scryfall.JoinedInOrder | src/etl/api_clients/scryfall_client.py:216-227 | entry i of the result is card i with its rulings attached |
| Scryfall.JoinedCardShape | src/etl/api_clients/scryfall_client.py:218-224 | a joined card has a "rulings" list and every other key keeps the value it had in the input card |
| Scryfall.CommentsForConcat | src/etl/api_clients/scryfall_client.py:208-213 | filing preserves order: the comments of two runs of rulings are those of the first followed by those of the second |
| Scryfall.CommentsComeFromFiledRulings | src/etl/api_clients/scryfall_client.py:208-213 | every comment a card receives is the comment of some ruling filed under that card's oracle id |
| Scryfall.UnmatchedCardGetsNoRulings | src/etl/api_clients/scryfall_client.py:220-223 | a card whose oracle id no ruling carries gets the empty list |
| Scryfall.FalsyOracleIdIgnored | src/etl/api_clients/scryfall_client.py:209-210 | a ruling with a falsy oracle id is filed under no card |
| Scryfall.KeptRulings | src/etl/api_clients/scryfall_client.py:239-242 | the kept texts are at most as many as the rulings, each one stripped and non-blank |
| Scryfall.KeptRulingsFailIff | src/etl/api_clients/scryfall_client.py:242 | concatenation raises exactly when some truthy entry is not a string |
| Scryfall.BlankRulingsGiveEmptyText | src/etl/api_clients/scryfall_client.py:239-243 | an empty list, or one of blank or falsy entries only, gives the empty text |
| Scryfall.SingleRuling | src/etl/api_clients/scryfall_client.py:242-243 | one non-blank ruling gives its stripped text |
| Scryfall.AnotherRuling | src/etl/api_clients/scryfall_client.py:242-243 | one more non-blank ruling appends ", " and its stripped text to the previous result |
| Scryfall.TransformFailsOnlyOnBadRulings | src/etl/api_clients/scryfall_client.py:268-273 | transforming a card fails exactly when its rulings are a list holding a truthy non-string |
| Scryfall.BareCardDefaults | src/etl/api_clients/scryfall_client.py:280-292 | a card with no keys maps to empty id and name, null columns, empty rulings text and no colours |
| Scryfall.JoinedCardTransforms | src/etl/api_clients/scryfall_client.py:245-292 | a card joined with string comments always transforms, and its rulings column is the concatenation of its comments |
| Scryfall.ColorIdentityIsList | src/etl/api_clients/scryfall_client.py:275-278 | a list colour identity is kept and anything else becomes the empty list |
| Scryfall.ConcatenateRulings | src/etl/api_clients/scryfall_client.py:229-243 | concatenation fails (an attribute error) exactly when some truthy ruling is not a string |
| Scryfall.Transform | src/etl/api_clients/scryfall_client.py:245-293 | the transform can fail only on a list of rulings; a row keeps the card's id and name (defaulting to "") and its list colour identity |
| CardsLoad.ConflictFor | src/etl/cards_pipeline.py:134-170 | `update_existing` selects the upsert (DO UPDATE) when true and the insert that skips existing cards (DO NOTHING) when false |
| CardsLoad.BatchesCoverRows | src/etl/cards_pipeline.py:110-111 | the batches, concatenated in order, are exactly the rows, and each holds between 1 and `batch_size` rows |
| CardsLoad.BatchCount | src/etl/cards_pipeline.py:110 | there are exactly ⌈n / batch_size⌉ batches |
| CardsLoad.LoadedPlusFailed | src/etl/cards_pipeline.py:172-179 | every row lies in a batch counted either as loaded or as errors, never both |
| CardsLoad.AccountingBalances | src/etl/cards_pipeline.py:102-193 | with a positive batch size a completed insert has loaded + errors = processed |
| CardsLoad.NegativeBatchSizeCountsNothing | src/etl/cards_pipeline.py:110 | a negative batch size gives an empty range: nothing loaded, no errors, all rows counted as processed |
| CardsLoad.LimitCards | src/etl/cards_pipeline.py:66-67 | a positive limit keeps the first min(n, limit) cards; no limit or a zero limit keeps them all |
| CardsLoad.TransformAll | src/etl/cards_pipeline.py:89-96 | the transformed rows are never more than the cards |
| CardsLoad.AllTransformed | src/etl/cards_pipeline.py:89-96 | when every card transforms there is one row per card |
| CardsLoad.InsertCards | src/etl/cards_pipeline.py:25-193 | a failed oracle download reports one error and nothing processed; an unhashable oracle id makes the join raise; otherwise the result is the batch outcome over the limited, joined and transformed cards, with the conflict rule `update_existing` selects |
| CardsLoad.TransformCards | src/etl/cards_pipeline.py:89-96 | the transform loop keeps, in order, the row of every card whose transform does not raise |
| CardsLoad.InsertRows | src/etl/cards_pipeline.py:102-193 | a zero batch size or a transaction that does not complete raises; a negative size loads nothing; otherwise loaded and errors are the sizes of the succeeding and failing batches |
| CardsLoad.InsertBatches | src/etl/cards_pipeline.py:110-179 | the batch loop adds each batch's size to loaded when its statement succeeds and to errors when it fails |
| CardsLoad.BatchStep | src/etl/cards_pipeline.py:110-111 | the batch at offset i is rows[i:i+size], followed by the batches from i + size on |
| CardsLoad.ReportOf | src/etl/cards_pipeline.py:231-237 | a report exists exactly when the insert completed, and says success exactly when there were no errors |
| CardsLoad.MetadataOf | src/etl/cards_pipeline.py:221-229 | load metadata is written exactly when at least one card was loaded, recording that count and the load kind |
| CardsLoad.LoadInitial | src/etl/cards_pipeline.py:195-237 | the initial load upserts (DO UPDATE), reports the insert's counts and records 'initial' metadata when something loaded; a failing metadata insert makes the load raise |
| CardsLoad.LoadIncremental | src/etl/cards_pipeline.py:239-297 | without a stored timestamp it is the initial load; otherwise it inserts with DO NOTHING and records 'incremental' metadata; a failing metadata insert makes the load raise |
| CardsLoad.LoadCardsFromBulkData | src/etl/etl_pipeline.py:259-398 | the tournament loader's card load is the same pipeline with no limit and always DO UPDATE, raising likewise on an unhashable oracle id |
| CardsLoad.SuccessMeansEverythingLoaded | src/etl/cards_pipeline.py:231-237 | a completed load with a positive batch size reports success exactly when every processed row was loaded |
| Archetype.Validate | src/etl/archetype_pipeline.py:25-48 | a reply validates exactly when the three names are present, the strategy is one of the five, the confidence lies in [0, 1] and the reasoning is absent, null or a string; the classification carries those fields unchanged |
| Archetype.ClassifyIsFirstValid | src/etl/archetype_pipeline.py:331-369 | the classifier returns the first reply that validates within max_retries + 1 attempts when every earlier one was retried, and raises exactly when an attempt raised before any validated or when every attempt was retried |
| Archetype.ClassifyDecklist | src/etl/archetype_pipeline.py:284-369 | an empty card list raises before any attempt; otherwise the outcome is that of the retry loop from attempt 0 |
| Archetype.InsertArchetype | src/etl/archetype_pipeline.py:371-466 | an empty card list returns None; a classifier exception propagates; a valid classification returns the group id the store gives back |
| Archetype.GroupFor | src/etl/archetype_pipeline.py:553-581 | a decklist is classified only under a truthy (non-zero) group id, and only when its cards query succeeded with some cards |
| Archetype.ProcessDecklist | src/etl/archetype_pipeline.py:549-581 | processing one decklist yields exactly the group it is specified to end up in, or None when it counts as an error |
| Archetype.Tally | src/etl/archetype_pipeline.py:535-581 | every decklist is counted once, as classified or as an error, with one update call per classified decklist |
| Archetype.UpdatesMatchClassified | src/etl/archetype_pipeline.py:569-574 | every update call points a processed decklist at the non-zero group its classification stored; a decklist that got no group is not counted as classified |
| Archetype.MaxStartDate | src/etl/archetype_pipeline.py:660-680 | the tracked maximum is at least the stored timestamp and every start date seen, and is one of them |
| Archetype.ProgressSnoc | src/etl/archetype_pipeline.py:549-581 | processing one more decklist advances the state by that decklist's group alone |
| Archetype.ProcessBatch | src/etl/archetype_pipeline.py:549-581 | the inner loop over a batch extends the state exactly as processing those decklists in order |
| Archetype.ProcessInBatches | src/etl/archetype_pipeline.py:539-587 | a batch size of 0 raises; otherwise the state is that of processing, in order, the decklists the batch range reaches |
| Archetype.LoadInitial | src/etl/archetype_pipeline.py:503-616 | a raising query, a zero batch size or a failing metadata insert reports failure; no decklists reports success with zeros; otherwise the report counts classified and errors over all decklists and the metadata records the clock |
| Archetype.LoadIncremental | src/etl/archetype_pipeline.py:618-744 | without a stored timestamp it is the initial load; otherwise it processes the decklists since then and records the latest start date seen as the new timestamp; a failing metadata insert reports failure in both |
| Archetype.BatchesAccountForAll | src/etl/archetype_pipeline.py:539-581 | with a positive batch size classified + errors is the number of decklists, with one update per classified decklist |
| Archetype.NegativeBatchSizeProcessesNothing | src/etl/archetype_pipeline.py:539 | a negative batch size processes no decklist, while the report still counts them all as processed |
| Archetype.IncrementalTimestampIsLatest | src/etl/archetype_pipeline.py:660-723 | the recorded timestamp is the latest of the stored one and every processed decklist's start date |
| MetaAnalysis.TimeWindows | src/app/api/services/meta_analysis.py:155-174 | the current window ends now and spans `current_days` days; the previous window ends where the current one starts and spans `previous_days` days |
| MetaAnalysis.WindowsPartition | src/app/api/services/meta_analysis.py:155-174 | with positive lengths the two windows are non-empty, back to back and in order, and no instant lies in both |
| MetaAnalysis.MetaShareRows | src/app/api/services/meta_analysis.py:277-309 | each meta-share row is an archetype among the decklists, with its number of decklists and that number as a percentage of all decklists |
| MetaAnalysis.MetaShareCovers | src/app/api/services/meta_analysis.py:299-307 | every archetype among the decklists has a row |
| MetaAnalysis.MetaShareSortedAndComplete | src/app/api/services/meta_analysis.py:299-307 | no archetype has two rows, the rows are sorted by meta share descending, and the sample sizes add up to the number of decklists |
| MetaAnalysis.MetaShareIdsDistinct | src/app/api/services/meta_analysis.py:303 | when a group id determines the rest of the archetype, the meta-share rows have distinct ids, so a join on the id matches at most one |
| MetaAnalysis.RateOf | src/app/api/services/meta_analysis.py:357-362 | the win rate is null exactly below three games, and otherwise a percentage between 0 and 100 |
| MetaAnalysis.StatsCorrect | src/app/api/services/meta_analysis.py:351-363 | the aggregation gives every observed key exactly one row, holding its number of games, its number of wins and its win rate, and the game counts add up to the observations |
| MetaAnalysis.StatsRowsOk | src/app/api/services/meta_analysis.py:351-363 | each aggregated row holds an observed key, its occurrence count, its winning occurrences and the rate `RateOf` gives |
| MetaAnalysis.StatsCover | src/app/api/services/meta_analysis.py:352 | every observed key has a row |
| MetaAnalysis.StatsDistinct | src/app/api/services/meta_analysis.py:352 | no key has two rows |
| MetaAnalysis.StatsSum | src/app/api/services/meta_analysis.py:355 | the game counts add up to the number of observations |
| MetaAnalysis.WinRatesCorrect | src/app/api/services/meta_analysis.py:311-365 | each archetype's games are its appearances on either side of a match and its wins those on the winning side; every match is counted twice, once per side |
| MetaAnalysis.FindMeta | src/app/api/services/meta_analysis.py:403-405 | the joined previous-period row has the group id, and none is found exactly when no row has it |
| MetaAnalysis.FindWins | src/app/api/services/meta_analysis.py:412-442 | the joined win-rate row has the group id, and none is found exactly when no row has it |
| MetaAnalysis.Merge | src/app/api/services/meta_analysis.py:367-444 | the merge has one row per current meta-share row |
| MetaAnalysis.MergeIsLeftJoin | src/app/api/services/meta_analysis.py:386-444 | each merged row keeps its current row's identity and current share; a previous-period or win-rate column is null exactly when the other frame has no row for the group, and otherwise holds that row's values |
| MetaAnalysis.OnlyMatch | src/app/api/services/meta_analysis.py:419-421 | with distinct ids the join finds the one row that has the id |
| MetaAnalysis.FilterByKeeps | src/app/api/services/meta_analysis.py:446-452 | a filter keeps exactly the rows whose column equals the value |
| MetaAnalysis.MeanPresent | src/app/api/services/meta_analysis.py:469-470 | a column's mean is null exactly when all of its values are null |
| MetaAnalysis.GroupByLabels | src/app/api/services/meta_analysis.py:454-504 | every grouped row is titled "grouped", has no group id, and carries in both label columns a value some input row has in the grouped column |
| MetaAnalysis.GroupByOnePerValue | src/app/api/services/meta_analysis.py:454-504 | grouping gives exactly one row per distinct value of the column |
| MetaAnalysis.GroupByKeepsSampleTotal | src/app/api/services/meta_analysis.py:454-504 | the grouped rows' current sample sizes add up to those of the rows grouped: no decklist is lost or counted twice |
| MetaAnalysis.RankingsSorted | src/app/api/services/meta_analysis.py:26-104 | the rankings are exactly the selected rows, as a multiset, sorted by current meta share descending |
| MetaAnalysis.SelectedUngrouped | src/app/api/services/meta_analysis.py:71-75 | without grouping a row is selected exactly when it is a merged row matching each non-empty filter |
| MetaAnalysis.Put | src/app/api/services/meta_analysis.py:559-565 | setting one cell adds that cell and leaves every other cell as it was |
| MetaAnalysis.FillMatrix | src/app/api/services/meta_analysis.py:553-567 | the nested dictionary has a cell for exactly the keys of the stats rows, each holding its row's win rate and game count |
| MetaAnalysis.StatsLookup | src/app/api/services/meta_analysis.py:539-550 | a key has a stats row exactly when it was observed, and every row for it holds its wins, its games and the matching rate |
| MetaAnalysis.MatrixCellsObserved | src/app/api/services/meta_analysis.py:553-567 | the filled matrix has a cell for a pair exactly when that pair was observed |
| MetaAnalysis.MatrixCellValues | src/app/api/services/meta_analysis.py:553-567 | each cell holds the pair's game count and the win rate of its wins over those games |
| MetaAnalysis.MatrixRowsNonEmpty | src/app/api/services/meta_analysis.py:555-565 | an archetype gets a matrix row only together with at least one opponent cell |
| MetaAnalysis.MatchupMatrix | src/app/api/services/meta_analysis.py:506-567 | `matrix[a][b]` exists exactly when `a` met `b`, and holds the number of those games and, from three games on, the percentage `a` won |
| MetaAnalysis.MatrixSymmetric | src/app/api/services/meta_analysis.py:520-536 | the matrix holds `b` against `a` whenever it holds `a` against `b`, with the same game count |
| MetaAnalysis.PairCountSymmetric | src/app/api/services/meta_analysis.py:520-536 | seen from both sides, `a` met `b` as often as `b` met `a` |
| MetaAnalysis.PairWinsComplement | src/app/api/services/meta_analysis.py:520-550 | when each match has one of its players as winner, the wins of `a` over `b` and of `b` over `a` add up to their games, and two given rates of a matchup add up to 100 |
| MetaAnalysis.GetMatchupMatrix | src/app/api/services/meta_analysis.py:106-153 | no matches give an empty matrix and no archetypes; the archetypes are exactly those that met some opponent |
| MetaAnalysis.MetaShare | src/app/api/services/meta_analysis.py:277-309 | at most one row per decklist, and no rows exactly when there are no decklists |
| MetaAnalysis.WinRates | src/app/api/services/meta_analysis.py:311-365 | no rows exactly when there are no matches |
| MetaAnalysis.FilterBy | src/app/api/services/meta_analysis.py:446-452 | a filter never adds rows, and every row it keeps has the value in the filtered column |
| MetaAnalysis.GroupBy | src/app/api/services/meta_analysis.py:454-504 | no groups exactly when there are no rows; every group row is titled "grouped", has no group id and the same value in both label columns |
| MetaAnalysis.ArchetypeRankings | src/app/api/services/meta_analysis.py:26-104 | with a strategy filter and no grouping every ranked row has that strategy; with a grouping every ranked row is a grouped row |
| Sorting.SortDesc | src/app/api/services/meta_analysis.py:84 | the descending sort is a permutation of its input |
| Sorting.SortDescSorted | src/app/api/services/meta_analysis.py:84 | the sort's result is ordered by descending key |
| Sorting.SortDescMembers | src/app/api/services/meta_analysis.py:84 | sorting neither adds nor drops a row |
| Sorting.SortKeeps | src/app/api/services/meta_analysis.py:302-307 | sorting keeps every property each row has and the set of their projections |
| Sorting.SumBySort | src/app/api/services/meta_analysis.py:306 | sorting leaves every column sum unchanged |
| Sorting.SortKeepsDistinct | src/app/api/services/meta_analysis.py:306 | sorting keeps distinct keys distinct |
| Sorting.Distinct | src/app/api/services/meta_analysis.py:302-307 | the group keys are the distinct values of the column, each once |
| Sorting.GroupSizesSum | src/app/api/services/meta_analysis.py:303-304 | the group sizes add up to the number of rows grouped |
| DeckCoaching.Assign | src/app/mcp/tools/deck_coaching_tools.py:67-74 | `d[k] = v` keeps an existing key in its place with the new value, and adds a new key last |
| DeckCoaching.LookupOf | src/app/mcp/tools/deck_coaching_tools.py:64-74 | the lookup's keys are the rows' normalised names, each once, in order of first appearance |
| DeckCoaching.BuildLookup | src/app/mcp/tools/deck_coaching_tools.py:64-74 | the loop over the query rows builds exactly that lookup |
| DeckCoaching.LookupOfSnoc | src/app/mcp/tools/deck_coaching_tools.py:65-74 | one more row assigns its key in the lookup built from the rows before it |
| DeckCoaching.LookupOfLastRow | src/app/mcp/tools/deck_coaching_tools.py:65-74 | the value under each key is the last row with that normalised name |
| DeckCoaching.Get | src/app/mcp/tools/deck_coaching_tools.py:86 | `get` finds nothing exactly when the key is absent, and otherwise the value stored under it |
| DeckCoaching.CardDataCorrect | src/app/mcp/tools/deck_coaching_tools.py:83-103 | an exact key wins; otherwise the card is the value of the first key nearest the normalised name within distance 2, and there is none exactly when no key is that near or that first nearest key is empty |
| DeckCoaching.MatchCard | src/app/mcp/tools/deck_coaching_tools.py:83-103 | the dictionary lookup followed by the nearest-name loop gives exactly the specified card data |
| DeckCoaching.Matches | src/app/mcp/tools/deck_coaching_tools.py:82-103 | each parsed card gets the card data its name matches |
| DeckCoaching.EnrichAccounts | src/app/mcp/tools/deck_coaching_tools.py:82-119 | every parsed card ends up either enriched or reported: details + errors = parsed cards |
| DeckCoaching.EnrichDetails | src/app/mcp/tools/deck_coaching_tools.py:105-111 | an enriched card carries the data matched for some parsed card, with that card's quantity and section |
| DeckCoaching.EnrichErrors | src/app/mcp/tools/deck_coaching_tools.py:117-118 | every reported name is that of a parsed card for which no match was found |
| DeckCoaching.EnrichCounts | src/app/mcp/tools/deck_coaching_tools.py:113-116 | the mainboard and sideboard counts are the quantity sums of the enriched cards of each section |
| DeckCoaching.EnrichPrefix | src/app/mcp/tools/deck_coaching_tools.py:82-119 | one more parsed card extends the result by that card's step alone |
| DeckCoaching.EnrichCards | src/app/mcp/tools/deck_coaching_tools.py:82-119 | the enrichment loop gives exactly the specified validation result |
| DeckCoaching.EnrichOne | src/app/mcp/tools/deck_coaching_tools.py:105-118 | a matched card is appended and its quantity added to its section's count; an unmatched one is reported by name |
| DeckCoaching.ParseAndValidate | src/app/mcp/tools/deck_coaching_tools.py:20-126 | an empty parse returns no details, zero counts and the single error "Empty or invalid decklist"; otherwise the enrichment of the parsed cards against the lookup of the query rows |
| DeckCoaching.CollectRow | src/app/mcp/tools/deck_coaching_tools.py:163-169 | the collected rows are one per opponent of the archetype, each carrying that opponent's cell |
| DeckCoaching.SortKeepsRowsOf | src/app/mcp/tools/deck_coaching_tools.py:172 | sorting keeps the rows one per opponent with their cells, and orders them by match count descending |
| DeckCoaching.DeckMatchupStats | src/app/mcp/tools/deck_coaching_tools.py:150-180 | an empty matrix gives the no-data answer; an archetype the matrix lacks gives no rows; otherwise one row per opponent with that cell's values, most-played first |
| DeckCoaching.DecimalString | src/app/mcp/tools/deck_coaching_tools.py:277 | the decimal text of a number is never empty |
| DeckCoaching.DecimalStringRoundTrip | src/app/mcp/tools/deck_coaching_tools.py:277 | the decimal text of a non-negative number is all digits and reads back as that number |
| DeckCoaching.FormatCardList | src/app/mcp/tools/deck_coaching_tools.py:270-278 | the card list is the cards' lines joined by newlines |
| DeckCoaching.CardLineDefaults | src/app/mcp/tools/deck_coaching_tools.py:274-277 | a card without quantity and name is shown as "  1x Unknown (" |
| DeckCoaching.SplitJoin | src/app/mcp/tools/deck_coaching_tools.py:278 | splitting the joined list at newlines gives back exactly the card lines when none holds a newline |
| DeckCoaching.InSection | src/app/mcp/tools/deck_coaching_tools.py:212-213 | a section's list holds at most all the cards |
| DeckCoaching.SectionsPartition | src/app/mcp/tools/deck_coaching_tools.py:212-213 | every card is in the mainboard list, the sideboard list or neither, and in only one; each listed card has that section |
| DeckCoaching.CardData | src/app/mcp/tools/deck_coaching_tools.py:82-103 | an exact normalised key wins; any card found is the value of some key of the lookup |
| DeckCoaching.Render | src/app/mcp/tools/deck_coaching_tools.py:277 | a string is shown as itself, None as `None`, booleans as `True` and `False` and integers in decimal (with a leading `-` when negative); floats, lists and objects are shown as the interpreter's `str` text, a parameter |
| DeckCoaching.CardLine | src/app/mcp/tools/deck_coaching_tools.py:273-277 | every card line starts with two spaces and ends with `)` |
| DeckCoaching.QueryRows | src/app/mcp/tools/deck_coaching_tools.py:51-61 | the query as written returns exactly the table rows whose lower-cased name is one of the given names |
| DeckCoaching.CapitalisedNameFindsNoRow | src/app/mcp/tools/deck_coaching_tools.py:51-61 | as written, a tidy name with a capital letter is kept as is by normalisation and so finds no row at all |
| DeckCoaching.QueryRowsFolded | src/app/mcp/tools/deck_coaching_tools.py:51-61 | the corrected query returns exactly the table rows whose name equals one of the given names ignoring case |
| DeckCoaching.FoldedQueryFindsName | src/app/mcp/tools/deck_coaching_tools.py:51-61 | with the corrected query, a tidy name finds the row carrying it |
| DeckCoaching.QueryNames | src/app/mcp/tools/deck_coaching_tools.py:49-59 | the query receives one normalised name per parsed card, in order |
| DeckCoaching.ValidateDecklist | src/app/mcp/tools/deck_coaching_tools.py:20-126 | an empty parse gives the one error; otherwise the cards are enriched against the rows the corrected query returns for their normalised names |
| ApiModels.ValidateChoice | src/app/api/models.py:76-96 | a missing value passes; a present one is accepted, lower-cased, exactly when it matches an allowed value ignoring case, and is rejected naming the field otherwise |
| ApiModels.ValidateStrategyCorrect | src/app/api/models.py:76-85 | the strategy validator accepts exactly the case variants of the five strategies, answers alike for names differing only in case, and accepts its own output unchanged |
| ApiModels.ValidateGroupByCorrect | src/app/api/models.py:87-96 | the group-by validator accepts exactly the case variants of the two fields, answers alike for names differing only in case, and accepts its own output unchanged |
| ApiModels.ValidateDays | src/app/api/models.py:66-71 | a missing day count takes the default 14; a given one is accepted unchanged exactly when it lies in 1..365 |
| ApiModels.AcceptedQueryIsUsable | src/app/api/models.py:66-96 | an accepted rankings query has day counts in 1..365, so its two time windows are non-empty and back to back, and its strategy and grouping are ones the rankings know |
| ApiModels.ValidateMatchupQuery | src/app/api/models.py:100-103 | a matchup query is accepted exactly when its day count is missing or in 1..365; an accepted one keeps its format and the given day count, 14 when missing; a rejection names the `days` field |
| ApiModels.MatrixCellsValid | src/app/api/models.py:34-38 | every cell the matchup matrix computes respects `MatchupCell`'s bounds: a non-negative count and a rate within 0..100 |
| ApiModels.MetaSharesInRange | src/app/api/models.py:17-21 | each current-period meta share is a percentage and each sample size lies between 1 and the number of decklists |
| ApiModels.ValidateStrategy | src/app/api/models.py:76-85 | a missing strategy passes; an accepted one is one of the five; a rejected one names the `strategy` field |
| ApiModels.ValidateGroupBy | src/app/api/models.py:87-96 | a missing grouping passes; an accepted one is one of the two; a rejected one names the `group_by` field |
| ApiModels.ValidateArchetypeQuery | src/app/api/models.py:66-96 | a query is accepted exactly when each day count is missing or in 1..365 and the strategy and grouping validators accept; an accepted one keeps the format and colour filter, takes the given day counts (14 when missing) and the validators' lower-cased strategy and grouping; a rejection names one of the four validated fields, and an out-of-range current day count is the one reported |

## Left out

- Database access is left out: SQL statements, connection pools, cursors, transactions and upserts. Query results and the success of each statement or transaction are parameters. A table is a sequence of rows or a lookup function.
- HTTP clients, retries, sleeps, rate limiting and file downloads are left out. Fetched data is a parameter, and a failed fetch is an explicit outcome.
- Language-model calls and prompt templates are left out. The model's reply is a parameter, and the coaching prompt contributes only its section split and its card-list lines.
- Logging and warnings are left out. This covers the archetype pipeline's small-deck and low-confidence warnings and the logged `days_since_last` of the incremental card load; none of them changes a result.
- Server wiring is left out: LangGraph graph compilation and its checkpoint store, FastAPI/MCP routing, the MCP client, the tool catalog module and the CLI entry points. The welcome and format-list endpoints are left out as well, since they only query the database.
- `uuid4`, `datetime.now` and the interpreter's `hash()` are opaque. They are injected as `freshId`, `now` and `hash`. For `hash()`, only its folding into 10000..19999 is modelled.
- `unicodedata.normalize('NFC', …)` is taken as the identity. Case handling covers ASCII only: `lower()` and `re.IGNORECASE` fold only A–Z, `\d` matches only the ASCII digits 0–9, and `str.isupper` holds only for A–Z. Python applies all of these to every Unicode letter and digit.
- JSON serialisation (`json.dumps`) and `repr` are parameters, so event payload text is opaque.
- Floating-point numbers are replaced: percentages are exact reals, and `:.1f`/`:.2f` formatting is not modelled.
- Polars is restated over sequences of rows. A group-by lists its groups in order of first appearance; polars does not promise an order.
- MetaAnalysis.GetMatchupMatrix: the archetype list is the set of archetypes, not the `sorted(...)` list. `datetime.now()` is called twice in the source; the model uses one `now`.
- MetaAnalysis.MergeIsLeftJoin: stated for frames whose group ids are distinct. A join that finds several rows for one id, which would multiply rows, is not modelled.
- MetaAnalysis.PairWinsComplement: assumes every match's winner is one of its two players, as the rates only then add up to 100.
- DeckCoaching.DeckMatchupStats: sorts by the cell's match count. The source's "None as 0" fallback cannot apply, because every matrix cell holds a count.
- Deck coaching calls `normalize_card_name`, `parse_decklist` and `find_fuzzy_card_match` from `src/core_utils.py`, which is not part of this model. The model uses the versions in `src/etl/utils.py` (`CardNames`, `UtilsDecklist.Parse`, `FuzzyMatch`).
- ApiModels.MetaSharesInRange: the `ArchetypeRanking` field bounds are stated for the current meta share and sample size only.
- Python object identity and aliasing are not modelled: the conversation store hands out value snapshots, and mutating a returned state dict outside the store is not captured.
- Scryfall: the `legalities` column of a card row is always the empty object, because the transform gives no legalities.
- Concurrency and cancellation are not modelled. Each chat turn is modelled as atomic. The async routes can interleave: a chat awaits the tool catalog and streams its events, so another request can change or expire the same conversation in between. An entry that expires between the store's `exists` and `get` makes the route raise a `TypeError`; the model does not capture this.
- UtilsDecklist.SplitCardNameShape: a capital is an ASCII letter A–Z only. `str.isupper` also accepts a non-ASCII capital such as 'Æ' or 'É', so a name like `Æther/Tear` is split by the source but kept by the model.
- DeckCards.LookupCard: tiers 2 and 3 compare the faces literally. The source uses SQL `LIKE`, where `%` and `_` in a card name are wildcards, so a name holding `_` (such as `_____ Goblin`) can match other rows there.
- DeckCoaching.ParseAndValidate: takes the rows the query returned as a parameter. `DeckCoaching.ValidateDecklist` states the query as well, using the corrected, case-insensitive query (see Findings).
- TournamentLoad.PipelineLoadInitial: `limit` is a natural number or None, and the collection and cut take 0 as no limit. A negative limit is not modelled; the source would stop collecting after the first tournament and cut the last ones from the filtered list.
- TournamentLoad.EtlLoadIncremental: the current time and the stored load timestamp are whole seconds (`now`, `last`). The fractional seconds of `time.time()` and of the stored `datetime` are not modelled; the same holds for `TournamentLoad.PipelineLoadIncremental`.
- MatchRounds.InsertMatchRounds: a round's `tables` must be a list of objects whose `players`, when present, is a list. The source raises on most other shapes (a table that is not a dict, `players` null or a number), but measures and indexes a string or dict `players` value; those inputs are not modelled.
- MatchRounds.InsertMatchRounds: the ids of the known players are taken to be strings, as read from the `players` table. A non-string id coming back from the database is not modelled.
- MatchRounds.InsertMatchRounds: a bool round identifier is kept as the bool itself and passed to the database as such; the model stores its integer value, 0 or 1. How the database treats a boolean in an integer column is not modelled.
- MatchRounds.InsertMatchRounds: Python's number map merges the keys 1, 1.0 and True into one; the model keys its map by the value as read. `MatchRounds.EqualKeysShareNumber` shows that no lookup changes.
- MatchRounds.InsertMatchRounds: when the second loop raises, the round rows have already been sent by the first batch. The model reports only the exception, and what the caller's transaction keeps is not modelled. JSON floats have no NaN or infinity here, so `int()` of a float never fails.
- ApiModels.ValidateArchetypeQuery: reports the first failing field only. Pydantic collects the errors of every failing field.
- AgentGraph.MergeRouterUpdate: the `messages` channel is a plain list of role/content dicts, and a router update's messages are appended. The source declares it with LangGraph's `add_messages` reducer (src/app/agent_api/state.py:21), which turns dict messages into message objects and merges them by id. LangGraph is not part of this model, so that conversion and merge are not captured.
- AgentGraph.InvokeGraph: there is no thread checkpoint. The source compiles the graph with `MemorySaver` (src/app/agent_api/graph.py:279) and invokes it per `thread_id`, so the saved thread state is merged with the input and messages the store had trimmed can return. "The input history plus one reply" is the result without that merge.
- AgentRoutes.AgentService.RouteTurn: stores the result of `AgentGraph.InvokeGraph`, so it keeps dict messages and has no checkpoint merge.
- AgentRoutes.AgentService.ProcessTurn: the routed state it stores is RouteTurn's, without the reducer's conversion or the checkpoint merge.
- AgentRoutes.ChatEventsShape: the content event reads the routed state's last message as a dict. Once the reducer has made that message an object, the `["content"]` subscript at src/app/agent_api/routes.py:192 raises after the routed state was stored, and only the metadata and thinking events go out. That failure is not modelled.
- AgentRoutes.AgentService.AcceptTurn: its events include content, state and done; the `["content"]` failure at src/app/agent_api/routes.py:192 is not modelled (see ChatEventsShape).
- AgentRoutes.AgentService.Chat: the same events gap as AcceptTurn; the 400 answer to a blank message does not depend on it.
- AgentRoutes.ChatHistoryShape: the bound of limit + 1 messages holds without the thread checkpoint only. With the checkpoint merging earlier messages back at every invocation, the stored history is unbounded in the source.
- AgentRoutes.ChatHistoryExceedsLimit: "exactly limit + 1" is the count without the thread checkpoint; in the source the re-merged history can be longer.
- DeckCards.LookupCard: the tournament pipeline imports `find_fuzzy_card_match` and `parse_deck` from `src/etl/etl_utils.py`, which re-exports `normalize_card_name`, `parse_decklist` and `find_fuzzy_card_match` from `src/core_utils.py`; `src/core_utils.py` is not part of this model. The fuzzy tier is the list version: the selection of `src/etl/utils.py` (`FuzzyMatch.FindClosest`) over the list of the first 100000 card rows the pipeline fetches. `parse_deck` is not modelled, and `DeckCards.InsertDeckCards` takes the parsed cards as its parameter `parsed`. `src/etl/etl_utils.py` binds no `parse_deck`, so that import would fail as written (not executed).
- CardsLoad.InsertCards: `src/etl/cards_pipeline.py` imports its client from `src/clients/scryfall_client.py`, which is not part of this model. The join and transform are those of `src/etl/api_clients/scryfall_client.py`, the client the ETL loader imports.
- Scryfall.JoinCardsWithRulings: oracle ids are compared as the values read. Python's dict would also merge the keys 1, 1.0 and True into one; Scryfall's oracle ids are strings, and this aliasing is not modelled.

## Findings

| source | as written | input that shows it | evidently intended | confidence | as-written member | corrected member |
|---|---|---|---|---|---|---|
| src/app/mcp/tools/deck_coaching_tools.py:51-61 | the query compares `LOWER(name)` with the normalised names, and normalisation keeps case | the decklist `4 Lightning Bolt` against a table holding `Lightning Bolt`: no row comes back, so the card is reported as not found | lower-case both sides, so that a name matches its row whatever its case | not executed | DeckCoaching.QueryRows, DeckCoaching.CapitalisedNameFindsNoRow | DeckCoaching.QueryRowsFolded, DeckCoaching.FoldedQueryFindsName, DeckCoaching.ValidateDecklist |
