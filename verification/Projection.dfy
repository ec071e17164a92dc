/**
 The projection of a normalised request onto the typed chat contract of a
 directly called plugin (src/cyrene_exchange/direct_plugin.py). Tool schemas are
 carried as objects; their JSON text is not modelled.
 */
module Projection {
  import opened Prelude
  import opened Values
  import opened Protocol

  const MESSAGE_FIELDS := {"role", "content", "name", "tool_call_id", "tool_calls"}

  datatype ChatToolCall = ChatToolCall(id: string, kind: string, name: string, arguments: string)

  datatype ChatMessage = ChatMessage(
    role: string, content: string, name: Option<string>, toolCallId: Option<string>, toolCalls: seq<ChatToolCall>)

  datatype ChatTool = ChatTool(
    kind: string, name: string, description: Option<string>, parameters: Fields, strict: Option<bool>)

  datatype ChatToolChoice = ChatToolChoice(mode: string, functionName: Option<string>)

  datatype ChatRequest = ChatRequest(
    messages: seq<ChatMessage>, model: string, stream: bool, temperature: Option<real>, maxTokens: Option<int>,
    tools: seq<ChatTool>, toolChoice: Option<ChatToolChoice>, parallelToolCalls: Option<bool>,
    includeUsage: Option<bool>)

  datatype ContentPart =
    | TextContent(text: string)
    | ImageContent(mimeType: string, data: Option<seq<Byte>>, artifactId: Option<string>)
    | AudioContent(mimeType: string, data: Option<seq<Byte>>, artifactId: Option<string>)
    | FileContent(mimeType: string, data: Option<seq<Byte>>, artifactId: Option<string>, filename: Option<string>)

  datatype ChatMessageV3 = ChatMessageV3(text: ChatMessage, parts: seq<ContentPart>)

  datatype ChatRequestV3 = ChatRequestV3(text: ChatRequest, messages: seq<ChatMessageV3>)

  function TextOf(v: Value): Option<string> {
    if v.Str? then Some(v.s) else None
  }

  // ---- the functions ---------------------------------------------------------------

  predicate ProjectableCall(raw: Value) {
    && raw.Dict?
    && !Blank(Get(raw.fields, "id"))
    && ("type" in raw.fields ==> !Blank(raw.fields["type"]))
    && Get(raw.fields, "function").Dict?
    && var g := Get(raw.fields, "function").fields;
      && !Blank(Get(g, "name"))
      && ("arguments" in g ==> g["arguments"].Str?)
  }

  function ToCall(raw: Value): Result<ChatToolCall> {
    if !ProjectableCall(raw) then Err(Refused)
    else
      var g := Get(raw.fields, "function").fields;
      Ok(ChatToolCall(
        raw.fields["id"].s,
        if "type" in raw.fields then raw.fields["type"].s else "function",
        g["name"].s,
        if "arguments" in g then g["arguments"].s else ""))
  }

  function ToCalls(raw: Value): Result<seq<ChatToolCall>> {
    if raw.Null? then Ok([]) else if raw.List? then Each(ToCall, raw.items) else Err(Refused)
  }

  predicate ProjectableText(m: Fields) {
    && m.Keys <= MESSAGE_FIELDS
    && Get(m, "role").Str? && m["role"].s in ROLES
    && (Get(m, "content").Null? || Get(m, "content").Str?)
    && OptionalText(Get(m, "name")) && OptionalText(Get(m, "tool_call_id"))
  }

  function ToChatMessage(m: Fields): Result<ChatMessage> {
    if !ProjectableText(m) then Err(Refused)
    else
      var calls := ToCalls(Get(m, "tool_calls"));
      if calls.Err? then Err(calls.failure)
      else Ok(ChatMessage(m["role"].s, TextOf(Get(m, "content")).GetOr(""), TextOf(Get(m, "name")),
                          TextOf(Get(m, "tool_call_id")), calls.value))
  }

  predicate ProjectableTool(tool: Fields) {
    && Get(tool, "function").Dict?
    && Get(tool, "type").Str? && tool["type"].s != ""
    && var g := Get(tool, "function").fields;
      && !Blank(Get(g, "name"))
      && ("parameters" in g ==> g["parameters"].Dict?)
      && OptionalText(Get(g, "description"))
      && (Get(g, "strict").Null? || Get(g, "strict").Bool?)
  }

  function ToChatTool(tool: Fields): Result<ChatTool> {
    if !ProjectableTool(tool) then Err(Refused)
    else
      var g := Get(tool, "function").fields;
      Ok(ChatTool(tool["type"].s, g["name"].s, TextOf(Get(g, "description")),
                  if "parameters" in g then g["parameters"].fields else map[],
                  if Get(g, "strict").Bool? then Some(g["strict"].b) else None))
  }

  function ToChoice(v: Value): Result<ChatToolChoice> {
    if v.Str? then Ok(ChatToolChoice(v.s, None))
    else if v.Dict? && Get(v.fields, "function").Dict? && Get(Get(v.fields, "function").fields, "name").Str? then
      Ok(ChatToolChoice("function", Some(Get(Get(v.fields, "function").fields, "name").s)))
    else Err(Refused)
  }

  function ToOptionalChoice(v: Option<Value>): Result<Option<ChatToolChoice>> {
    if v.None? then Ok(None)
    else
      var choice := ToChoice(v.value);
      if choice.Err? then Err(choice.failure) else Ok(Some(choice.value))
  }

  function ToChatRequest(r: Request): Result<ChatRequest> {
    var messages := Each(ToChatMessage, r.messages);
    var tools := Each(ToChatTool, r.tools);
    var choice := ToOptionalChoice(r.toolChoice);
    if messages.Err? || tools.Err? || choice.Err? then Err(Refused)
    else Ok(ChatRequest(messages.value, r.model, r.stream, r.temperature, r.maxTokens, tools.value, choice.value,
                        r.parallelToolCalls, r.includeUsage))
  }

  predicate ProjectableMedia(f: Fields) {
    && Get(f, "mime_type").Str?
    && (Get(f, "data").Null? || Get(f, "data").Bytes?)
    && OptionalText(Get(f, "artifact_id"))
    && MediaKind(Get(f, "type"))
    && (f["type"] == Str("file") ==> OptionalText(Get(f, "filename")))
  }

  function ToPart(raw: Value): Result<ContentPart> {
    if !raw.Dict? then Err(Refused)
    else
      var f := raw.fields;
      if Get(f, "type") == Str("text") then
        if Get(f, "text").Str? then Ok(TextContent(f["text"].s)) else Err(Refused)
      else if !ProjectableMedia(f) then Err(Refused)
      else
        var mime, artifact := f["mime_type"].s, TextOf(Get(f, "artifact_id"));
        var data := if Get(f, "data").Bytes? then Some(f["data"].data) else None;
        Ok(if f["type"].s == "image" then ImageContent(mime, data, artifact)
           else if f["type"].s == "audio" then AudioContent(mime, data, artifact)
           else FileContent(mime, data, artifact, TextOf(Get(f, "filename"))))
  }

  function WithoutContent(m: Fields): Fields {
    m["content" := Str("")]
  }

  function ToChatMessageV3(m: Fields): Result<ChatMessageV3> {
    if !Get(m, "content").List? then Err(Refused)
    else
      var parts := Each(ToPart, m["content"].items);
      var text := ToChatMessage(WithoutContent(m));
      if parts.Err? || text.Err? then Err(Refused) else Ok(ChatMessageV3(text.value, parts.value))
  }

  function TextOnly(r: Request): Request {
    r.(messages := seq(|r.messages|, i requires 0 <= i < |r.messages| => WithoutContent(r.messages[i])))
  }

  function ToChatRequestV3(r: Request): Result<ChatRequestV3> {
    var messages := Each(ToChatMessageV3, r.messages);
    var text := ToChatRequest(TextOnly(r));
    if messages.Err? || text.Err? then Err(Refused) else Ok(ChatRequestV3(text.value, messages.value))
  }

  predicate RequiresStructured(r: Request) {
    || r.tools != [] || r.toolChoice.Some? || r.parallelToolCalls.Some? || r.includeUsage.Some?
    || exists i :: 0 <= i < |r.messages| && "tool_calls" in r.messages[i]
  }

  predicate TypedContent(m: Fields) {
    !OptionalText(Get(m, "content"))
  }

  predicate RequiresV3(r: Request) {
    exists i :: 0 <= i < |r.messages| && TypedContent(r.messages[i])
  }

  // ---- the loops -------------------------------------------------------------------

  lemma {:induction false} DefaultKind()
    ensures !Blank(Str("function"))
  {
    assert TrimStart("function") == "function" && TrimEnd("function") == "function";
  }

  method ToChatCall(raw: Value) returns (r: Result<ChatToolCall>)
    ensures r == ToCall(raw)
  {
    if !raw.Dict? {
      return Err(Refused);
    }
    var f := raw.fields;
    var kind := if "type" in f then f["type"] else Str("function");
    DefaultKind();
    if Blank(Get(f, "id")) || Blank(kind) || !Get(f, "function").Dict? {
      return Err(Refused);
    }
    var g := Get(f, "function").fields;
    var arguments := if "arguments" in g then g["arguments"] else Str("");
    if Blank(Get(g, "name")) || !arguments.Str? {
      return Err(Refused);
    }
    return Ok(ChatToolCall(f["id"].s, kind.s, g["name"].s, arguments.s));
  }

  method ToChatCalls(items: seq<Value>) returns (r: Result<seq<ChatToolCall>>)
    ensures r == Each(ToCall, items)
  {
    var calls: seq<ChatToolCall> := [];
    assert items[0..] == items;
    AfterEachNothing(Each(ToCall, items));
    for i := 0 to |items|
      invariant Each(ToCall, items) == AfterEach(calls, Each(ToCall, items[i..]))
    {
      assert items[i..][0] == items[i] && items[i..][1..] == items[i + 1..];
      var call := ToChatCall(items[i]);
      if call.Err? {
        return Err(call.failure);
      }
      assert Each(ToCall, items[i..]) == AfterEach([call.value], Each(ToCall, items[i + 1..]));
      AfterEachOneMore(calls, call.value, Each(ToCall, items[i + 1..]));
      calls := calls + [call.value];
    }
    assert items[|items|..] == [] && calls + [] == calls;
    return Ok(calls);
  }

  method ToMessage(m: Fields) returns (r: Result<ChatMessage>)
    ensures r.Ok? <==> ToChatMessage(m).Ok?
    ensures r.Ok? ==> r == ToChatMessage(m)
  {
    if exists k :: k in m.Keys && k !in MESSAGE_FIELDS {
      return Err(Refused);
    }
    var role, content := Get(m, "role"), Get(m, "content");
    if !role.Str? || role.s !in ROLES {
      return Err(Refused);
    }
    if content.Null? {
      content := Str("");
    }
    if !content.Str? || !OptionalText(Get(m, "name")) || !OptionalText(Get(m, "tool_call_id")) {
      return Err(Refused);
    }
    var calls: seq<ChatToolCall> := [];
    var raw := Get(m, "tool_calls");
    if !raw.Null? {
      if !raw.List? {
        return Err(Refused);
      }
      var projected := ToChatCalls(raw.items);
      if projected.Err? {
        return Err(Refused);
      }
      calls := projected.value;
    }
    return Ok(ChatMessage(role.s, content.s, TextOf(Get(m, "name")), TextOf(Get(m, "tool_call_id")), calls));
  }

  method ToParts(items: seq<Value>) returns (r: Result<seq<ContentPart>>)
    ensures r == Each(ToPart, items)
  {
    var parts: seq<ContentPart> := [];
    assert items[0..] == items;
    AfterEachNothing(Each(ToPart, items));
    for i := 0 to |items|
      invariant Each(ToPart, items) == AfterEach(parts, Each(ToPart, items[i..]))
    {
      var raw := items[i];
      assert items[i..][0] == raw && items[i..][1..] == items[i + 1..];
      var part := ToPart(raw);
      if part.Err? {
        return Err(part.failure);
      }
      assert Each(ToPart, items[i..]) == AfterEach([part.value], Each(ToPart, items[i + 1..]));
      AfterEachOneMore(parts, part.value, Each(ToPart, items[i + 1..]));
      parts := parts + [part.value];
    }
    assert items[|items|..] == [] && parts + [] == parts;
    return Ok(parts);
  }

  method ToMessageV3(m: Fields) returns (r: Result<ChatMessageV3>)
    ensures r.Ok? <==> ToChatMessageV3(m).Ok?
    ensures r.Ok? ==> r == ToChatMessageV3(m)
  {
    var content := Get(m, "content");
    if !content.List? {
      return Err(Refused);
    }
    var parts := ToParts(content.items);
    if parts.Err? {
      return Err(Refused);
    }
    var text := ToMessage(WithoutContent(m));
    if text.Err? {
      return Err(Refused);
    }
    return Ok(ChatMessageV3(text.value, parts.value));
  }

  method ToTools(items: seq<Fields>) returns (r: Result<seq<ChatTool>>)
    ensures r == Each(ToChatTool, items)
  {
    var tools: seq<ChatTool> := [];
    assert items[0..] == items;
    AfterEachNothing(Each(ToChatTool, items));
    for i := 0 to |items|
      invariant Each(ToChatTool, items) == AfterEach(tools, Each(ToChatTool, items[i..]))
    {
      assert items[i..][0] == items[i] && items[i..][1..] == items[i + 1..];
      var tool := ToChatTool(items[i]);
      if tool.Err? {
        return Err(tool.failure);
      }
      assert Each(ToChatTool, items[i..]) == AfterEach([tool.value], Each(ToChatTool, items[i + 1..]));
      AfterEachOneMore(tools, tool.value, Each(ToChatTool, items[i + 1..]));
      tools := tools + [tool.value];
    }
    assert items[|items|..] == [] && tools + [] == tools;
    return Ok(tools);
  }

  method ToRequest(r: Request) returns (c: Result<ChatRequest>)
    ensures c == ToChatRequest(r)
  {
    var messages: seq<ChatMessage> := [];
    assert r.messages[0..] == r.messages;
    AfterEachNothing(Each(ToChatMessage, r.messages));
    for i := 0 to |r.messages|
      invariant Each(ToChatMessage, r.messages) == AfterEach(messages, Each(ToChatMessage, r.messages[i..]))
    {
      assert r.messages[i..][0] == r.messages[i] && r.messages[i..][1..] == r.messages[i + 1..];
      var message := ToMessage(r.messages[i]);
      if message.Err? {
        return Err(Refused);
      }
      assert Each(ToChatMessage, r.messages[i..])
          == AfterEach([message.value], Each(ToChatMessage, r.messages[i + 1..]));
      AfterEachOneMore(messages, message.value, Each(ToChatMessage, r.messages[i + 1..]));
      messages := messages + [message.value];
    }
    assert r.messages[|r.messages|..] == [] && messages + [] == messages;
    var tools := ToTools(r.tools);
    if tools.Err? {
      return Err(Refused);
    }
    var choice := ToOptionalChoice(r.toolChoice);
    if choice.Err? {
      return Err(Refused);
    }
    return Ok(ChatRequest(messages, r.model, r.stream, r.temperature, r.maxTokens, tools.value, choice.value,
                          r.parallelToolCalls, r.includeUsage));
  }
}
