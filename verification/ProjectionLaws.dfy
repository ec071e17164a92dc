/**
 What the projection does with the requests the normaliser accepts: exactly
 which of them it accepts, that nothing it accepts is changed, and when the
 smaller contract versions suffice (src/cyrene_exchange/protocol.py and
 src/cyrene_exchange/direct_plugin.py).
 */
module ProjectionLaws {
  import opened Prelude
  import opened Values
  import opened Protocol
  import opened Projection

  // ---- conditions a caller can read off the payload -----------------------------------

  predicate UnknownField(raw: Value) {
    raw.Dict? && !(raw.fields.Keys <= MESSAGE_FIELDS)
  }

  predicate Typed(raw: Value) {
    raw.Dict? && Get(raw.fields, "content").List?
  }

  predicate NullParameters(raw: Value) {
    && raw.Dict? && Get(raw.fields, "function").Dict?
    && "parameters" in Get(raw.fields, "function").fields
    && Get(raw.fields, "function").fields["parameters"].Null?
  }

  function RawMessages(payload: Value): seq<Value> {
    if payload.Dict? && Get(payload.fields, "messages").List? then payload.fields["messages"].items else []
  }

  function ToolList(payload: Value): seq<Value> {
    if payload.Dict? && RawTools(payload.fields).List? then RawTools(payload.fields).items else []
  }

  predicate KnownFields(payload: Value) {
    forall i :: 0 <= i < |RawMessages(payload)| ==> !UnknownField(RawMessages(payload)[i])
  }

  predicate SchemasPresent(payload: Value) {
    forall i :: 0 <= i < |ToolList(payload)| ==> !NullParameters(ToolList(payload)[i])
  }

  /** No message carries an unknown field and no tool an explicit null schema. */
  predicate Expressible(payload: Value) {
    KnownFields(payload) && SchemasPresent(payload)
  }

  predicate SomeTyped(payload: Value) {
    exists i :: 0 <= i < |RawMessages(payload)| && Typed(RawMessages(payload)[i])
  }

  predicate AllTyped(payload: Value) {
    forall i :: 0 <= i < |RawMessages(payload)| ==> Typed(RawMessages(payload)[i])
  }

  // ---- tool calls, tools and parts --------------------------------------------------

  /** An accepted tool call is projected with its stripped identity and its exact arguments. */
  lemma {:induction false} CallProjects(raw: Value)
    requires AcceptableCall(raw)
    ensures ToCall(NormalizedCall(raw).value).Ok? && CarriedCall(raw, ToCall(NormalizedCall(raw).value).value)
  {
    StripIdempotent(raw.fields["id"].s);
    StripIdempotent(Get(raw.fields, "function").fields["name"].s);
    DefaultKind();
  }

  lemma {:induction false} ToolProjects(raw: Value)
    requires AcceptableTool(raw)
    ensures ToChatTool(NormalizedTool(raw).value).Ok? <==> !NullParameters(raw)
  {
    var g := Get(raw.fields, "function").fields;
    StripIdempotent(g["name"].s);
    var tool := NormalizedTool(raw).value;
    assert Get(tool, "function").fields == g["name" := Str(Strip(g["name"].s))];
  }

  lemma {:induction false} PartProjects(raw: Value, total: nat)
    requires NormalizedPart(raw, total).Ok?
    ensures ToPart(NormalizedPart(raw, total).value.0).Ok?
  {
    if !TextPart(raw.fields) {
      MediaProjects(raw.fields);
    }
  }

  lemma {:induction false} MediaProjects(f: Fields)
    requires MediaPart(f)
    ensures ToPart(Dict(CleanMedia(f))).Ok?
  {
    var g := CleanMedia(f);
    assert Get(g, "type") == f["type"] && Get(g, "mime_type").Str?;
    assert ProjectableMedia(g);
  }

  // ---- messages --------------------------------------------------------------------

  lemma {:induction false} NormalizedKeys(f: Fields, total: nat)
    requires NormalizedMessage(f, total).Ok?
    ensures var m := NormalizedMessage(f, total).value.0;
      && m.Keys == f.Keys + {"role", "content"}
      && m["role"] == Get(f, "role")
      && Get(m, "name") == Get(f, "name") && Get(m, "tool_call_id") == Get(f, "tool_call_id")
  {
  }

  lemma {:induction false} NormalizedText(f: Fields, total: nat)
    requires NormalizedMessage(f, total).Ok?
    ensures var m := NormalizedMessage(f, total).value.0;
      && (m["content"].List? <==> Get(f, "content").List?)
      && (!m["content"].List? ==> m["content"] == Get(f, "content") && OptionalText(m["content"]))
  {
    NormalizedKeys(f, total);
  }

  lemma {:induction false} CallsProject(f: Fields, total: nat)
    requires NormalizedMessage(f, total).Ok?
    ensures ToCalls(Get(NormalizedMessage(f, total).value.0, "tool_calls")).Ok?
    ensures "tool_calls" in f ==> |ToCalls(Get(NormalizedMessage(f, total).value.0, "tool_calls")).value| > 0
    ensures "tool_calls" !in f ==> ToCalls(Get(NormalizedMessage(f, total).value.0, "tool_calls")) == Ok([])
  {
    NormalizedKeys(f, total);
    if "tool_calls" in f {
      var raw := f["tool_calls"];
      var calls := NormalizedCalls(raw).value;
      forall i | 0 <= i < |calls| ensures ToCall(calls[i]).Ok? {
        assert NormalizedCall(raw.items[i]) == Ok(calls[i]);
        CallProjects(raw.items[i]);
      }
    }
  }

  lemma {:induction false} PartsProject(f: Fields, total: nat)
    requires NormalizedMessage(f, total).Ok? && Get(f, "content").List?
    ensures Each(ToPart, NormalizedMessage(f, total).value.0["content"].items).Ok?
  {
    NormalizedKeys(f, total);
    var raw := f["content"].items;
    var parts := NormalizedMessage(f, total).value.0["content"].items;
    forall i | 0 <= i < |parts| ensures ToPart(parts[i]).Ok? {
      var before := ThreadEach(NormalizedPart, raw, total, i);
      PartProjects(raw[i], before);
    }
  }

  /** The text projection of an accepted message. */
  lemma {:induction false} MessageProjects(f: Fields, total: nat)
    requires NormalizedMessage(f, total).Ok?
    ensures var m := NormalizedMessage(f, total).value.0;
      && (ToChatMessage(m).Ok? <==> f.Keys <= MESSAGE_FIELDS && !Get(f, "content").List?)
      && (ToChatMessage(WithoutContent(m)).Ok? <==> f.Keys <= MESSAGE_FIELDS)
  {
    var m := NormalizedMessage(f, total).value.0;
    NormalizedKeys(f, total);
    NormalizedText(f, total);
    CallsProject(f, total);
    assert WithoutContent(m).Keys == m.Keys;
    assert f.Keys <= MESSAGE_FIELDS <==> m.Keys <= MESSAGE_FIELDS by {
      assert {"role", "content"} <= MESSAGE_FIELDS;
    }
    assert Get(WithoutContent(m), "tool_calls") == Get(m, "tool_calls");
  }

  lemma {:induction false} MessageProjectsV3(f: Fields, total: nat)
    requires NormalizedMessage(f, total).Ok?
    ensures ToChatMessageV3(NormalizedMessage(f, total).value.0).Ok?
      <==> f.Keys <= MESSAGE_FIELDS && Get(f, "content").List?
  {
    NormalizedKeys(f, total);
    NormalizedText(f, total);
    MessageProjects(f, total);
    if Get(f, "content").List? {
      PartsProject(f, total);
    }
  }

  /** Message `i` of an accepted payload is a mapping, and was normalised on its own. */
  lemma {:induction false} MessageOf(payload: Value, i: nat) returns (total: nat)
    requires NormalizedRequest(payload).Ok? && i < |RawMessages(payload)|
    ensures |NormalizedRequest(payload).value.messages| == |RawMessages(payload)|
    ensures RawMessages(payload)[i].Dict?
    ensures NormalizedMessage(RawMessages(payload)[i].fields, total).Ok?
    ensures NormalizedMessage(RawMessages(payload)[i].fields, total).value.0
         == NormalizedRequest(payload).value.messages[i]
  {
    total := ThreadEach(MessageAt, RawMessages(payload), 0, i);
  }

  lemma {:induction false} ChoiceProjects(v: Value)
    requires NormalizedChoice(v).Ok?
    ensures ToChoice(NormalizedChoice(v).value).Ok?
  {
  }

  lemma {:induction false} ToolsAndChoiceProject(payload: Value)
    requires NormalizedRequest(payload).Ok?
    ensures var r := NormalizedRequest(payload).value;
      && (Each(ToChatTool, r.tools).Ok? <==> SchemasPresent(payload))
      && ToOptionalChoice(r.toolChoice).Ok?
  {
    var r := NormalizedRequest(payload).value;
    var raw := ToolList(payload);
    assert r.tools == Each(NormalizedTool, raw).value;
    forall i | 0 <= i < |raw| ensures ToChatTool(r.tools[i]).Ok? <==> !NullParameters(raw[i]) {
      assert NormalizedTool(raw[i]) == Ok(r.tools[i]);
      ToolProjects(raw[i]);
    }
    var choice := Get(payload.fields, "tool_choice");
    if !choice.Null? {
      ChoiceProjects(choice);
    }
  }

  // ---- exact acceptance ------------------------------------------------------------

  /** Version 3 is asked for exactly when some message of the payload has typed parts. */
  lemma {:induction false} V3IffTyped(payload: Value)
    requires NormalizedRequest(payload).Ok?
    ensures RequiresV3(NormalizedRequest(payload).value) <==> SomeTyped(payload)
  {
    var r, raw := NormalizedRequest(payload).value, RawMessages(payload);
    assert |r.messages| == |raw|;
    forall i | 0 <= i < |raw| ensures TypedContent(r.messages[i]) <==> Typed(raw[i]) {
      var total := MessageOf(payload, i);
      NormalizedKeys(raw[i].fields, total);
      NormalizedText(raw[i].fields, total);
    }
    if RequiresV3(r) {
      var i :| 0 <= i < |r.messages| && TypedContent(r.messages[i]);
      assert Typed(raw[i]);
    }
    if SomeTyped(payload) {
      var i :| 0 <= i < |raw| && Typed(raw[i]);
      assert TypedContent(r.messages[i]);
    }
  }

  lemma {:induction false} KnownFieldsSuffice(payload: Value)
    requires NormalizedRequest(payload).Ok?
    ensures Each(ToChatMessage, TextOnly(NormalizedRequest(payload).value).messages).Ok?
      <==> KnownFields(payload)
  {
    var r, raw := NormalizedRequest(payload).value, RawMessages(payload);
    assert |r.messages| == |raw|;
    forall i | 0 <= i < |raw|
      ensures ToChatMessage(TextOnly(r).messages[i]).Ok? <==> !UnknownField(raw[i])
    {
      var total := MessageOf(payload, i);
      MessageProjects(raw[i].fields, total);
    }
  }

  lemma {:induction false} V3NeedsAllFour(r: Request)
    ensures ToChatRequestV3(r).Ok? <==>
      && Each(ToChatMessageV3, r.messages).Ok? && Each(ToChatMessage, TextOnly(r).messages).Ok?
      && Each(ToChatTool, r.tools).Ok? && ToOptionalChoice(r.toolChoice).Ok?
  {
    var t := TextOnly(r);
    assert t.tools == r.tools && t.toolChoice == r.toolChoice;
  }

  lemma {:induction false} PartsSuffice(payload: Value)
    requires NormalizedRequest(payload).Ok?
    ensures Each(ToChatMessageV3, NormalizedRequest(payload).value.messages).Ok?
      <==> AllTyped(payload) && KnownFields(payload)
  {
    var r, raw := NormalizedRequest(payload).value, RawMessages(payload);
    assert |r.messages| == |raw|;
    forall i | 0 <= i < |raw|
      ensures ToChatMessageV3(r.messages[i]).Ok? <==> !UnknownField(raw[i]) && Typed(raw[i])
    {
      var total := MessageOf(payload, i);
      MessageProjectsV3(raw[i].fields, total);
    }
  }

  lemma {:induction false} TextSuffices(payload: Value)
    requires NormalizedRequest(payload).Ok?
    ensures Each(ToChatMessage, NormalizedRequest(payload).value.messages).Ok?
      <==> KnownFields(payload) && !SomeTyped(payload)
  {
    var r, raw := NormalizedRequest(payload).value, RawMessages(payload);
    assert |r.messages| == |raw|;
    forall i | 0 <= i < |raw|
      ensures ToChatMessage(r.messages[i]).Ok? <==> !UnknownField(raw[i]) && !Typed(raw[i])
    {
      var total := MessageOf(payload, i);
      MessageProjects(raw[i].fields, total);
    }
  }

  /**
   The text projection accepts exactly the payloads with known message fields,
   no explicit null schema and no typed parts.
   */
  lemma {:induction false} TextProjectionExact(payload: Value)
    requires NormalizedRequest(payload).Ok?
    ensures ToChatRequest(NormalizedRequest(payload).value).Ok? <==> Expressible(payload) && !SomeTyped(payload)
  {
    ToolsAndChoiceProject(payload);
    TextSuffices(payload);
  }

  /**
   Version 3 in addition wants every message to have typed parts: a payload
   that mixes text and parts is accepted by the normaliser and refused here.
   */
  lemma {:induction false} V3ProjectionExact(payload: Value)
    requires NormalizedRequest(payload).Ok?
    ensures ToChatRequestV3(NormalizedRequest(payload).value).Ok? <==> Expressible(payload) && AllTyped(payload)
  {
    var r := NormalizedRequest(payload).value;
    ToolsAndChoiceProject(payload);
    KnownFieldsSuffice(payload);
    PartsSuffice(payload);
    V3NeedsAllFour(r);
  }

  /** What the provider call does with a request: version 3 when it is required, text otherwise. */
  predicate Delivered(r: Request) {
    if RequiresV3(r) then ToChatRequestV3(r).Ok? else ToChatRequest(r).Ok?
  }

  /** Hence an accepted payload can be delivered exactly when it is expressible and all or none of its messages are typed. */
  lemma {:induction false} DeliveredExactly(payload: Value)
    requires NormalizedRequest(payload).Ok?
    ensures Delivered(NormalizedRequest(payload).value)
      <==> Expressible(payload) && (SomeTyped(payload) ==> AllTyped(payload))
  {
    V3IffTyped(payload);
    V3ProjectionExact(payload);
    TextProjectionExact(payload);
  }

  // ---- nothing is changed on the way -------------------------------------------------

  predicate CarriedText(f: Fields, c: ChatMessage) {
    && Get(f, "role") == Str(c.role)
    && c.content == TextOf(Get(f, "content")).GetOr("")
    && c.name == TextOf(Get(f, "name"))
    && c.toolCallId == TextOf(Get(f, "tool_call_id"))
  }

  /** A delivered text message has the role, text and names of the payload's message. */
  lemma {:induction false} TextIsCarried(payload: Value, i: nat)
    requires NormalizedRequest(payload).Ok? && i < |RawMessages(payload)|
    ensures RawMessages(payload)[i].Dict?
    ensures var projected := ToChatRequest(NormalizedRequest(payload).value);
      projected.Ok? ==>
        && |projected.value.messages| == |RawMessages(payload)|
        && CarriedText(RawMessages(payload)[i].fields, projected.value.messages[i])
  {
    var total := MessageOf(payload, i);
    var r := NormalizedRequest(payload).value;
    var f := RawMessages(payload)[i].fields;
    if ToChatRequest(r).Ok? {
      assert ToChatMessage(r.messages[i]) == Ok(ToChatRequest(r).value.messages[i]);
      NormalizedKeys(f, total);
      NormalizedText(f, total);
    }
  }

  /** The tool calls a message of the payload lists. */
  function RawCalls(raw: Value): seq<Value> {
    if raw.Dict? && Get(raw.fields, "tool_calls").List? then raw.fields["tool_calls"].items else []
  }

  /** `call` has the stripped identity and the exact arguments of `raw`. */
  predicate CarriedCall(raw: Value, call: ChatToolCall) {
    && AcceptableCall(raw)
    && var g := Get(raw.fields, "function").fields;
      call == ChatToolCall(Strip(raw.fields["id"].s), "function", Strip(g["name"].s),
                           if "arguments" in g then g["arguments"].s else "")
  }

  /** Tool calls are carried in number and order, each with its exact argument text. */
  lemma {:induction false} ArgumentsAreCarried(payload: Value, i: nat, k: nat)
    requires NormalizedRequest(payload).Ok? && i < |RawMessages(payload)| && k < |RawCalls(RawMessages(payload)[i])|
    ensures var raw := RawCalls(RawMessages(payload)[i]);
      var projected := ToChatRequest(NormalizedRequest(payload).value);
      projected.Ok? ==>
        && i < |projected.value.messages| && |projected.value.messages[i].toolCalls| == |raw|
        && CarriedCall(raw[k], projected.value.messages[i].toolCalls[k])
  {
    var r := NormalizedRequest(payload).value;
    if ToChatRequest(r).Ok? {
      var total := MessageOf(payload, i);
      var f := RawMessages(payload)[i].fields;
      var raw := RawCalls(RawMessages(payload)[i]);
      assert ToChatMessage(r.messages[i]) == Ok(ToChatRequest(r).value.messages[i]);
      assert NormalizedCalls(f["tool_calls"]).Ok?;
      assert r.messages[i]["tool_calls"] == List(NormalizedCalls(f["tool_calls"]).value);
      assert NormalizedCall(raw[k]) == Ok(r.messages[i]["tool_calls"].items[k]);
      CallProjects(raw[k]);
    }
  }

  /** Members of a tool or of its function outside the projected ones leave no trace. */
  lemma {:induction false} ToolExtrasAreDropped(tool: Fields, key: string, v: Value)
    requires Get(tool, "function").Dict?
    requires key !in {"name", "description", "parameters", "strict"}
    ensures ToChatTool(tool["function" := Dict(Get(tool, "function").fields[key := v])]) == ToChatTool(tool)
  {
    var g := Get(tool, "function").fields;
    var more := g[key := v];
    assert forall k :: k in {"name", "description", "parameters", "strict"} ==> Get(more, k) == Get(g, k);
  }

  // ---- choosing between the versions -------------------------------------------------

  predicate CarriesStructure(c: ChatRequest) {
    || c.tools != [] || c.toolChoice.Some? || c.parallelToolCalls.Some? || c.includeUsage.Some?
    || exists i :: 0 <= i < |c.messages| && c.messages[i].toolCalls != []
  }

  /**
   The second version is chosen exactly when the projected request has a member
   the first version lacks, so the choice loses nothing and is never idle.
   */
  lemma {:induction false} StructuredExactlyWhenNeeded(payload: Value)
    requires NormalizedRequest(payload).Ok?
    ensures var projected := ToChatRequest(NormalizedRequest(payload).value);
      projected.Ok? ==> (RequiresStructured(NormalizedRequest(payload).value) <==> CarriesStructure(projected.value))
  {
    var r := NormalizedRequest(payload).value;
    if ToChatRequest(r).Ok? {
      var c := ToChatRequest(r).value;
      forall i | 0 <= i < |r.messages| ensures "tool_calls" in r.messages[i] <==> c.messages[i].toolCalls != [] {
        StructureOfMessage(payload, i);
        assert ToChatMessage(r.messages[i]) == Ok(c.messages[i]);
      }
      if exists i :: 0 <= i < |r.messages| && "tool_calls" in r.messages[i] {
        var i :| 0 <= i < |r.messages| && "tool_calls" in r.messages[i];
        assert c.messages[i].toolCalls != [];
      }
      if exists i :: 0 <= i < |c.messages| && c.messages[i].toolCalls != [] {
        var i :| 0 <= i < |c.messages| && c.messages[i].toolCalls != [];
        assert "tool_calls" in r.messages[i];
      }
    }
  }

  lemma {:induction false} StructureOfMessage(payload: Value, i: nat)
    requires NormalizedRequest(payload).Ok? && i < |NormalizedRequest(payload).value.messages|
    ensures var m := NormalizedRequest(payload).value.messages[i];
      ToChatMessage(m).Ok? ==> ("tool_calls" in m <==> ToChatMessage(m).value.toolCalls != [])
  {
    assert |NormalizedRequest(payload).value.messages| == |RawMessages(payload)|;
    var total := MessageOf(payload, i);
    NormalizedKeys(RawMessages(payload)[i].fields, total);
    CallsProject(RawMessages(payload)[i].fields, total);
  }
}
