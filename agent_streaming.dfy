/**
 * Server-sent event builders. An event is its type and its JSON payload; the wire text
 * frames the serialised payload. JSON serialisation is a parameter (`dumps`).
 */
module AgentStreaming {
  import opened Common
  import opened AgentState

  datatype Event = Event(eventType: string, payload: Json)

  /** `event: <type>\ndata: <data>\n\n`. */
  function Frame(eventType: string, data: string): (w: string)
    ensures StartsWith(w, "event: " + eventType + "\n") && EndsWith(w, "\n\n")
  {
    "event: " + eventType + "\ndata: " + data + "\n\n"
  }

  /** The wire text of an event, which reads back as its type and serialised payload. */
  function Render(e: Event, dumps: Json -> string): (w: string)
    ensures '\n' !in e.eventType ==> Unframe(w) == Some((e.eventType, dumps(e.payload)))
  {
    if '\n' in e.eventType then Frame(e.eventType, dumps(e.payload))
    else
      FrameRoundTrip(e.eventType, dumps(e.payload));
      Frame(e.eventType, dumps(e.payload))
  }

  /** Reads a framed event back: the type is the text before the first newline. */
  function Unframe(w: string): Option<(string, string)>
  {
    if |w| < 7 || w[..7] != "event: " || '\n' !in w[7..] then None
    else
      var body := w[7..];
      var k := FirstIndex(body, '\n');
      var rest := body[k + 1..];
      if |rest| >= 8 && rest[..6] == "data: " && rest[|rest| - 2..] == "\n\n" then
        Some((body[..k], rest[6..|rest| - 2]))
      else None
  }

  /** Framing is reversible for any event type without a newline, whatever the data. */
  lemma FrameRoundTrip(eventType: string, data: string)
    requires '\n' !in eventType
    ensures Unframe(Frame(eventType, data)) == Some((eventType, data))
  {
    var w := Frame(eventType, data);
    var tail := "\ndata: " + data + "\n\n";
    FrameSplits(eventType, data);
    var body := w[7..];
    FirstNewlineAfter(eventType, tail);
    assert body[..|eventType|] == eventType;
    var rest := body[|eventType| + 1..];
    assert rest == tail[1..];
    DataLine(data);
  }

  /** The frame is the "event: " prefix, then the type, then the data line. */
  lemma FrameSplits(eventType: string, data: string)
    ensures var w := Frame(eventType, data);
      |w| >= 7 && w[..7] == "event: " && w[7..] == eventType + ("\ndata: " + data + "\n\n")
  {
    var w := Frame(eventType, data);
    assert w == "event: " + (eventType + ("\ndata: " + data + "\n\n"));
  }

  /** After the newline, the data line reads back the data. */
  lemma DataLine(data: string)
    ensures var rest := ("\ndata: " + data + "\n\n")[1..];
      |rest| >= 8 && rest[..6] == "data: " && rest[|rest| - 2..] == "\n\n" && rest[6..|rest| - 2] == data
  {
    var rest := ("\ndata: " + data + "\n\n")[1..];
    assert rest == "data: " + data + "\n\n";
  }

  lemma FirstNewlineAfter(a: string, b: string)
    requires '\n' !in a && |b| > 0 && b[0] == '\n'
    ensures '\n' in a + b && FirstIndex(a + b, '\n') == |a|
  {
    assert (a + b)[|a|] == '\n';
  }

  /** The metadata event: its keys, and the conversation id it reports. */
  function MetadataEvent(conversationId: string, s: ConversationState, toolCatalog: seq<Json>): (e: Event)
    ensures e.eventType == "metadata" && e.payload.JObject?
    ensures "tool_catalog" in Keys(e.payload.fields) <==> toolCatalog != []
    ensures GetKey(e.payload.fields, "conversation_id") == Some(JStr(conversationId))
  {
    var base := [("conversation_id", JStr(conversationId)), ("format", OptStrJson(s.format)),
                 ("archetype", OptStrJson(s.archetype))];
    var fields := base + OptionalField(toolCatalog != [], "tool_catalog", JList(toolCatalog));
    KeysConcat(base, OptionalField(toolCatalog != [], "tool_catalog", JList(toolCatalog)));
    assert Keys(base) == ["conversation_id", "format", "archetype"];
    SnapshotKeyNamesDiffer();
    OptionalKeysIn("format", "conversation_id", true, "archetype", toolCatalog != [], "tool_catalog");
    FirstTwoFound(fields, "conversation_id", JStr(conversationId), "format", OptStrJson(s.format));
    Event("metadata", JObject(fields))
  }

  /** The metadata event names the conversation, its format and archetype, and the tool catalog when there is one. */
  lemma MetadataEventShape(conversationId: string, s: ConversationState, toolCatalog: seq<Json>)
    ensures var e := MetadataEvent(conversationId, s, toolCatalog);
      e.eventType == "metadata" && e.payload.JObject?
      && Keys(e.payload.fields) == ["conversation_id", "format", "archetype"] + (if toolCatalog != [] then ["tool_catalog"] else [])
      && e.payload.fields[0].1 == JStr(conversationId)
      && e.payload.fields[1].1 == OptStrJson(s.format) && e.payload.fields[2].1 == OptStrJson(s.archetype)
      && (toolCatalog != [] ==> e.payload.fields[3].1 == JList(toolCatalog))
  {
  }

  /** A thinking event reports exactly its content. */
  function ThinkingEvent(content: string): (e: Event)
    ensures e.eventType == "thinking" && e.payload.JObject? && Keys(e.payload.fields) == ["content"]
    ensures GetKey(e.payload.fields, "content") == Some(JStr(content))
  {
    Event("thinking", JObject([("content", JStr(content))]))
  }

  /** Tool and status always; arguments and summary only when truthy. */
  function ToolCallEvent(tool: string, status: string, arguments: Json, summary: string): (e: Event)
    ensures e.eventType == "tool_call" && e.payload.JObject?
  {
    var opt1 := OptionalField(Truthy(arguments), "arguments", arguments);
    var opt2 := OptionalField(summary != "", "summary", JStr(summary));
    Event("tool_call", JObject([("tool", JStr(tool)), ("status", JStr(status))] + opt1 + opt2))
  }

  /** The entry `(key, value)` when it is present, and nothing otherwise. */
  function OptionalField(present: bool, key: string, value: Json): (f: seq<(string, Json)>)
    ensures |f| <= 1 && Keys(f) == (if present then [key] else [])
    ensures present ==> f[0] == (key, value)
  {
    if present then [(key, value)] else []
  }

  /** A tool-call event always carries the tool and its status first, then arguments and summary only when truthy. */
  lemma ToolCallEventShape(tool: string, status: string, arguments: Json, summary: string)
    ensures var e := ToolCallEvent(tool, status, arguments, summary);
      e.eventType == "tool_call" && e.payload.JObject?
      && Keys(e.payload.fields) == ["tool", "status"] + (if Truthy(arguments) then ["arguments"] else [])
        + (if summary != "" then ["summary"] else [])
      && e.payload.fields[..2] == [("tool", JStr(tool)), ("status", JStr(status))]
      && (Truthy(arguments) ==> e.payload.fields[2].1 == arguments)
      && (summary != "" ==> e.payload.fields[|e.payload.fields| - 1].1 == JStr(summary))
  {
    var opt1 := OptionalField(Truthy(arguments), "arguments", arguments);
    var opt2 := OptionalField(summary != "", "summary", JStr(summary));
    var ts := [("tool", JStr(tool)), ("status", JStr(status))];
    var f := ToolCallEvent(tool, status, arguments, summary).payload.fields;
    assert f == ts + opt1 + opt2;
    KeysConcat(ts, opt1);
    KeysConcat(ts + opt1, opt2);
    assert Keys(ts) == ["tool", "status"];
  }

  /** A tool-call event reports the tool and status; it has arguments exactly when they are truthy, and a summary exactly when it is non-empty. */
  lemma ToolCallEventLookup(tool: string, status: string, arguments: Json, summary: string)
    ensures var f := ToolCallEvent(tool, status, arguments, summary).payload.fields;
      GetKey(f, "tool") == Some(JStr(tool)) && GetKey(f, "status") == Some(JStr(status))
      && ("arguments" in Keys(f) <==> Truthy(arguments))
      && ("summary" in Keys(f) <==> summary != "")
  {
    ToolCallKeyNamesDiffer();
    OptionalFieldsLookup("tool", JStr(tool), "status", JStr(status), Truthy(arguments), "arguments", arguments,
                         summary != "", "summary", JStr(summary));
  }

  lemma ToolCallKeyNamesDiffer()
    ensures "arguments" != "tool" && "arguments" != "status" && "arguments" != "summary"
    ensures "summary" != "tool" && "summary" != "status"
  {
    assert |"arguments"| == 9 && |"summary"| == 7 && |"tool"| == 4;
    assert "summary"[1] != "status"[1];
  }

  /**
   * Two fixed entries followed by two optional ones, all under different keys: the fixed
   * values are found, and each optional key is present exactly when its entry is.
   */
  lemma {:induction false} OptionalFieldsLookup(k1: string, v1: Json, k2: string, v2: Json,
                                                has3: bool, k3: string, v3: Json, has4: bool, k4: string, v4: Json)
    requires k1 != k2 && k1 != k3 && k1 != k4 && k2 != k3 && k2 != k4 && k3 != k4
    ensures var f := [(k1, v1), (k2, v2)] + OptionalField(has3, k3, v3) + OptionalField(has4, k4, v4);
      GetKey(f, k1) == Some(v1) && GetKey(f, k2) == Some(v2)
      && (k3 in Keys(f) <==> has3) && (k4 in Keys(f) <==> has4)
  {
    var head := [(k1, v1), (k2, v2)];
    var opt3 := OptionalField(has3, k3, v3);
    var opt4 := OptionalField(has4, k4, v4);
    var f := head + opt3 + opt4;
    KeysConcat(head, opt3);
    KeysConcat(head + opt3, opt4);
    assert Keys(head) == [k1, k2];
    var tail := (if has3 then [k3] else []) + (if has4 then [k4] else []);
    assert Keys(f) == [k1, k2] + tail;
    assert Keys(f)[2..] == tail;
    OptionalKeysIn(k1, k2, has3, k3, has4, k4);
    FirstTwoFound(f, k1, v1, k2, v2);
  }

  lemma OptionalKeysIn(k1: string, k2: string, has3: bool, k3: string, has4: bool, k4: string)
    requires k1 != k2 && k1 != k3 && k1 != k4 && k2 != k3 && k2 != k4 && k3 != k4
    ensures var tail := (if has3 then [k3] else []) + (if has4 then [k4] else []);
      k1 !in tail && k2 !in tail
      && (k3 in [k1, k2] + tail <==> has3) && (k4 in [k1, k2] + tail <==> has4)
  {
    if has3 && has4 {
      assert ([k3] + [k4]) == [k3, k4];
    }
  }

  /** The values under the first two keys of fields whose keys are all different. */
  lemma FirstTwoFound(fields: seq<(string, Json)>, k1: string, v1: Json, k2: string, v2: Json)
    requires k1 != k2 && |fields| >= 2 && fields[0] == (k1, v1) && fields[1] == (k2, v2)
    requires k1 !in Keys(fields)[2..] && k2 !in Keys(fields)[2..]
    ensures GetKey(fields, k1) == Some(v1) && GetKey(fields, k2) == Some(v2)
  {
    assert Keys(fields)[0] == k1 && Keys(fields)[1] == k2;
    var a := GetKey(fields, k1);
    var j :| 0 <= j < |fields| && fields[j] == (k1, a.value);
    assert j == 0;
    var b := GetKey(fields, k2);
    var k :| 0 <= k < |fields| && fields[k] == (k2, b.value);
    assert k == 1;
  }

  /** A content event reports exactly its text. */
  function ContentEvent(text: string): (e: Event)
    ensures e.eventType == "content" && e.payload.JObject? && Keys(e.payload.fields) == ["text"]
    ensures GetKey(e.payload.fields, "text") == Some(JStr(text))
  {
    Event("content", JObject([("text", JStr(text))]))
  }

  /** A state event carries the UI snapshot: whether there is a deck, and the format, archetype and days. */
  function StateEvent(s: ConversationState): (e: Event)
    ensures e.eventType == "state" && e.payload.JObject?
    ensures Keys(e.payload.fields) == ["has_deck", "format", "archetype", "days"]
    ensures GetKey(e.payload.fields, "has_deck") == Some(JBool(StrTruthy(s.deckText) || ListTruthy(s.cardDetails)))
    ensures GetKey(e.payload.fields, "format") == Some(OptStrJson(s.format))
  {
    var u := SummarizeForUi(s);
    SummaryJsonKeys(u);
    SnapshotKeyNamesDiffer();
    FirstTwoFound(SummaryJson(u).fields, "has_deck", JBool(u.hasDeck), "format", OptStrJson(u.format));
    Event("state", SummaryJson(u))
  }

  /** The payload keys of the metadata and state events are all different. */
  lemma SnapshotKeyNamesDiffer()
    ensures |"conversation_id"| == 15 && |"tool_catalog"| == 12 && |"archetype"| == 9
    ensures |"has_deck"| == 8 && |"format"| == 6 && |"days"| == 4
  {
  }

  /** The done event has no payload fields. */
  function DoneEvent(): (e: Event)
    ensures e.eventType == "done" && e.payload.JObject? && Keys(e.payload.fields) == []
  {
    Event("done", JObject([]))
  }

  /** With a serialiser that writes the empty object as `{}`, the done event is literally this text. */
  lemma DoneWire(dumps: Json -> string)
    requires dumps(JObject([])) == "{}"
    ensures Render(DoneEvent(), dumps) == "event: done\ndata: {}\n\n"
  {
    var e := DoneEvent();
    assert e == Event("done", JObject([]));
    assert Render(e, dumps) == Frame("done", "{}");
    DoneFrame();
  }

  lemma DoneFrame()
    ensures Frame("done", "{}") == "event: done\ndata: {}\n\n"
  {
  }
}
