/**
 Normalisation of an OpenAI-compatible chat payload
 (src/cyrene_exchange/protocol.py). The functions say which payloads are
 accepted and what they become; the methods are the checks and loops of the
 source, with its one-cell byte counter, proved to compute those functions.
 */
module Protocol {
  import opened Prelude
  import opened Values
  import Base64

  const MAX_PARTS := 128
  const MAX_MEDIA := 20 * 1024 * 1024
  const MAX_ARTIFACT_ID := 256

  // ---- content parts ---------------------------------------------------------------

  predicate IsMimeChar(c: char) {
    'a' <= c <= 'z' || '0' <= c <= '9' || c in "!#$&^_.+-"
  }

  /** Two non-empty runs of token characters around one slash. */
  predicate IsMime(s: string) {
    exists i :: 0 < i < |s| - 1 && s[i] == '/' && forall j :: 0 <= j < |s| && j != i ==> IsMimeChar(s[j])
  }

  function Category(s: string): string {
    if s == "" || s[0] == '/' then "" else [s[0]] + Category(s[1..])
  }

  predicate MimeFits(kind: string, v: Value) {
    && v.Str? && |v.s| <= 255
    && IsMime(Lower(Strip(v.s)))
    && (kind == "image" || kind == "audio" ==> Category(Lower(Strip(v.s))) == kind)
  }

  predicate InlineData(v: Value) {
    && v.Str?
    && Base64.Decode(v.s).Some?
    && 0 < |Base64.Decode(v.s).value| <= MAX_MEDIA
  }

  predicate OpaqueReference(v: Value) {
    v.Str? && Strip(v.s) != "" && |v.s| <= MAX_ARTIFACT_ID && '/' !in v.s && '\\' !in v.s && v.s[..1] != "~"
  }

  predicate SafeFilename(v: Value) {
    && v.Str? && Strip(v.s) != "" && |v.s| <= 255
    && '/' !in v.s && '\\' !in v.s && '\0' !in v.s && v.s != "." && v.s != ".."
  }

  predicate TextPart(f: Fields) {
    f.Keys == {"type", "text"} && f["type"] == Str("text") && f["text"].Str?
  }

  function AllowedKeys(kind: string): set<string> {
    {"type", "mime_type", "data_base64", "artifact_id"} + if kind == "file" then {"filename"} else {}
  }

  predicate MediaKind(v: Value) {
    v == Str("image") || v == Str("audio") || v == Str("file")
  }

  predicate MediaPart(f: Fields) {
    && MediaKind(Get(f, "type"))
    && f.Keys <= AllowedKeys(Get(f, "type").s)
    && MimeFits(Get(f, "type").s, Get(f, "mime_type"))
    && (("data_base64" in f) != ("artifact_id" in f))
    && ("data_base64" in f ==> InlineData(f["data_base64"]))
    && ("artifact_id" in f ==> OpaqueReference(f["artifact_id"]))
    && ("filename" in f ==> SafeFilename(f["filename"]))
  }

  function InlineBytes(f: Fields): seq<Byte>
    requires MediaPart(f)
  {
    if "data_base64" in f then Base64.Decode(f["data_base64"].s).value else []
  }

  function CleanMedia(f: Fields): Fields
    requires MediaPart(f)
  {
    var base: Fields := map["type" := f["type"], "mime_type" := Str(Lower(Strip(f["mime_type"].s)))];
    var sourced := if "data_base64" in f then base["data" := Bytes(InlineBytes(f))]
                   else base["artifact_id" := f["artifact_id"]];
    if "filename" in f then sourced["filename" := f["filename"]] else sourced
  }

  /** `total` bytes of media have been accepted before this part. */
  function NormalizedPart(raw: Value, total: nat): Result<(Value, nat)> {
    if !raw.Dict? then Err(Refused)
    else if TextPart(raw.fields) then Ok((Dict(map["type" := Str("text"), "text" := raw.fields["text"]]), total))
    else if !Hashable(Get(raw.fields, "type")) then Err(TypeError)
    else if !MediaPart(raw.fields) then Err(Refused)
    else if "data_base64" in raw.fields && total + |InlineBytes(raw.fields)| > MAX_MEDIA then Err(Refused)
    else Ok((Dict(CleanMedia(raw.fields)), total + |InlineBytes(raw.fields)|))
  }

  class MediaBytes {
    var total: nat

    constructor ()
      ensures total == 0
    {
      total := 0;
    }
  }

  /** The result of a step, with the byte count it leaves behind. */
  function Counted<T>(r: Result<T>, total: nat): Result<(T, nat)> {
    if r.Err? then Err(r.failure) else Ok((r.value, total))
  }

  lemma {:induction false} GateNeverDecides(s: string)
    requires Base64.Decode(s).Some?
    ensures s == "" || |s| > Base64.Gate(MAX_MEDIA) ==> !InlineData(Str(s))
  {
    if 0 < |Base64.Decode(s).value| <= MAX_MEDIA {
      Base64.GateIsSafe(s, MAX_MEDIA);
      Base64.DecodedLength(s);
    }
  }

  method NormalizeInline(encoded: Value, media: MediaBytes) returns (r: Result<seq<Byte>>)
    modifies media
    ensures r.Ok? <==> InlineData(encoded) && old(media.total) + |Base64.Decode(encoded.s).value| <= MAX_MEDIA
    ensures r.Ok? ==> Base64.Decode(encoded.s) == Some(r.value) && media.total == old(media.total) + |r.value|
    ensures r.Err? ==> r.failure == Refused
  {
    if !encoded.Str? || encoded.s == "" || |encoded.s| > Base64.Gate(MAX_MEDIA) {
      if encoded.Str? && Base64.Decode(encoded.s).Some? {
        GateNeverDecides(encoded.s);
      }
      return Err(Refused);
    }
    var data := Base64.Decode(encoded.s);
    if data.None? || data.value == [] || |data.value| > MAX_MEDIA {
      return Err(Refused);
    }
    media.total := media.total + |data.value|;
    if media.total > MAX_MEDIA {
      return Err(Refused);
    }
    return Ok(data.value);
  }

  method NormalizeMedia(f: Fields, media: MediaBytes) returns (r: Result<Fields>)
    requires MediaKind(Get(f, "type"))
    modifies media
    ensures r.Ok? <==> MediaPart(f) && ("data_base64" in f ==> old(media.total) + |InlineBytes(f)| <= MAX_MEDIA)
    ensures r.Ok? ==> r.value == CleanMedia(f) && media.total == old(media.total) + |InlineBytes(f)|
    ensures r.Err? ==> r.failure == Refused
  {
    var kind := Get(f, "type").s;
    if f.Keys - AllowedKeys(kind) != {} {
      assert !(f.Keys <= AllowedKeys(kind));
      return Err(Refused);
    }
    assert f.Keys <= AllowedKeys(kind) by {
      forall k | k in f.Keys ensures k in AllowedKeys(kind) {
        assert k !in f.Keys - AllowedKeys(kind);
      }
    }
    var mime := Get(f, "mime_type");
    if !mime.Str? || |mime.s| > 255 {
      return Err(Refused);
    }
    var name := Lower(Strip(mime.s));
    if !IsMime(name) || (kind == "image" && Category(name) != "image") || (kind == "audio" && Category(name) != "audio") {
      return Err(Refused);
    }
    if ("data_base64" in f) == ("artifact_id" in f) {
      return Err(Refused);
    }
    var normalized: Fields := map["type" := Str(kind), "mime_type" := Str(name)];
    if "data_base64" in f {
      var data := NormalizeInline(f["data_base64"], media);
      if data.Err? {
        return Err(Refused);
      }
      normalized := normalized["data" := Bytes(data.value)];
    } else {
      if !OpaqueReference(f["artifact_id"]) {
        return Err(Refused);
      }
      normalized := normalized["artifact_id" := f["artifact_id"]];
    }
    if kind == "file" && "filename" in f {
      if !SafeFilename(f["filename"]) {
        return Err(Refused);
      }
      normalized := normalized["filename" := f["filename"]];
    }
    return Ok(normalized);
  }

  method NormalizeContentPart(raw: Value, media: MediaBytes) returns (r: Result<Value>)
    modifies media
    ensures Counted(r, media.total) == NormalizedPart(raw, old(media.total))
  {
    if !raw.Dict? {
      return Err(Refused);
    }
    var f := raw.fields;
    var kind := Get(f, "type");
    if kind == Str("text") {
      if f.Keys != {"type", "text"} || !Get(f, "text").Str? {
        return Err(Refused);
      }
      return Ok(Dict(map["type" := Str("text"), "text" := f["text"]]));
    }
    if !Hashable(kind) {
      return Err(TypeError);
    }
    if !MediaKind(kind) {
      return Err(Refused);
    }
    var part := NormalizeMedia(f, media);
    if part.Err? {
      return Err(part.failure);
    }
    return Ok(Dict(part.value));
  }

  // ---- messages --------------------------------------------------------------------

  const ROLES := {"system", "user", "assistant", "tool"}

  predicate OptionalText(v: Value) {
    v.Null? || v.Str?
  }

  predicate AcceptableCall(raw: Value) {
    && raw.Dict?
    && !Blank(Get(raw.fields, "id"))
    && ("type" in raw.fields ==> raw.fields["type"] == Str("function"))
    && Get(raw.fields, "function").Dict?
    && var g := Get(raw.fields, "function").fields;
      && !Blank(Get(g, "name"))
      && ("arguments" in g ==> g["arguments"].Str?)
  }

  /** Arguments are kept as they came; only the id and the name are stripped. */
  function NormalizedCall(raw: Value): Result<Value> {
    if !AcceptableCall(raw) then Err(Refused)
    else
      var g := Get(raw.fields, "function").fields;
      var arguments := if "arguments" in g then g["arguments"] else Str("");
      Ok(Dict(raw.fields["id" := Str(Strip(Get(raw.fields, "id").s))]["type" := Str("function")]
        ["function" := Dict(g["name" := Str(Strip(Get(g, "name").s))]["arguments" := arguments])]))
  }

  function NormalizedCalls(raw: Value): Result<seq<Value>> {
    if !raw.List? || raw.items == [] then Err(Refused) else Each(NormalizedCall, raw.items)
  }

  /** The checks between the content and the tool calls of a message. */
  predicate AcceptableText(role: string, content: Value) {
    && (content.Null? ==> role == "assistant")
    && (content.Str? ==> Utf8Size(content.s) <= MAX_MEDIA)
    && (content.Null? || content.Str? || content.List?)
  }

  function NormalizedContent(role: string, content: Value, total: nat): Result<(Value, nat)> {
    if content.List? then
      if role == "tool" || content.items == [] || |content.items| > MAX_PARTS then Err(Refused)
      else
        var parts := Thread(NormalizedPart, content.items, total);
        if parts.Err? then Err(parts.failure) else Ok((List(parts.value.0), parts.value.1))
    else if !AcceptableText(role, content) then Err(Refused)
    else Ok((content, total))
  }

  function NormalizedMessage(f: Fields, total: nat): Result<(Fields, nat)> {
    var role := Get(f, "role");
    if !Hashable(role) then Err(TypeError)
    else if !role.Str? || role.s !in ROLES then Err(Refused)
    else if "tool_calls" in f && role.s != "assistant" then Err(Refused)
    else if "content" !in f && "tool_calls" !in f then Err(Refused)
    else
      var content := NormalizedContent(role.s, Get(f, "content"), total);
      if content.Err? then Err(content.failure)
      else if !OptionalText(Get(f, "name")) || !OptionalText(Get(f, "tool_call_id")) then Err(Refused)
      else if role.s == "tool" && Blank(Get(f, "tool_call_id")) then Err(Refused)
      else
        var message := f["role" := role]["content" := content.value.0];
        if "tool_calls" !in f then Ok((message, content.value.1))
        else
          var calls := NormalizedCalls(f["tool_calls"]);
          if calls.Err? then Err(calls.failure)
          else Ok((message["tool_calls" := List(calls.value)], content.value.1))
  }

  method NormalizeToolCalls(raw: Value) returns (r: Result<seq<Value>>)
    ensures r == NormalizedCalls(raw)
  {
    if !raw.List? || raw.items == [] {
      return Err(Refused);
    }
    var calls: seq<Value> := [];
    var items := raw.items;
    assert items[0..] == items;
    AfterEachNothing(Each(NormalizedCall, items));
    for i := 0 to |items|
      invariant Each(NormalizedCall, items) == AfterEach(calls, Each(NormalizedCall, items[i..]))
    {
      var raw := items[i];
      assert items[i..][0] == raw && items[i..][1..] == items[i + 1..];
      if !raw.Dict? || Blank(Get(raw.fields, "id")) {
        return Err(Refused);
      }
      var f := raw.fields;
      if "type" in f && f["type"] != Str("function") {
        return Err(Refused);
      }
      if !Get(f, "function").Dict? {
        return Err(Refused);
      }
      var g := Get(f, "function").fields;
      if Blank(Get(g, "name")) || ("arguments" in g && !g["arguments"].Str?) {
        return Err(Refused);
      }
      var arguments := if "arguments" in g then g["arguments"] else Str("");
      var function_ := g["name" := Str(Strip(Get(g, "name").s))]["arguments" := arguments];
      var call := f["id" := Str(Strip(Get(f, "id").s))]["type" := Str("function")]["function" := Dict(function_)];
      assert Each(NormalizedCall, items[i..]) == AfterEach([Dict(call)], Each(NormalizedCall, items[i + 1..]));
      AfterEachOneMore(calls, Dict(call), Each(NormalizedCall, items[i + 1..]));
      calls := calls + [Dict(call)];
    }
    assert items[|items|..] == [] && calls + [] == calls;
    return Ok(calls);
  }

  method NormalizeParts(items: seq<Value>, media: MediaBytes) returns (r: Result<seq<Value>>)
    modifies media
    ensures Counted(r, media.total) == Thread(NormalizedPart, items, old(media.total))
  {
    var parts: seq<Value> := [];
    assert items[0..] == items;
    AfterNothing(Thread(NormalizedPart, items, media.total));
    for i := 0 to |items|
      invariant Thread(NormalizedPart, items, old(media.total))
             == After(parts, Thread(NormalizedPart, items[i..], media.total))
    {
      assert items[i..][0] == items[i] && items[i..][1..] == items[i + 1..];
      ghost var before := media.total;
      var part := NormalizeContentPart(items[i], media);
      if part.Err? {
        return Err(part.failure);
      }
      ghost var rest := Thread(NormalizedPart, items[i + 1..], media.total);
      assert Thread(NormalizedPart, items[i..], before) == After([part.value], rest);
      AfterOneMore(parts, part.value, rest);
      parts := parts + [part.value];
    }
    assert items[|items|..] == [] && parts + [] == parts;
    return Ok(parts);
  }

  method NormalizeMessage(f: Fields, media: MediaBytes) returns (r: Result<Fields>)
    modifies media
    ensures Counted(r, media.total) == NormalizedMessage(f, old(media.total))
  {
    var role := Get(f, "role");
    if !Hashable(role) {
      return Err(TypeError);
    }
    if !role.Str? || role.s !in ROLES {
      return Err(Refused);
    }
    var hasCalls := "tool_calls" in f;
    if hasCalls && role.s != "assistant" {
      return Err(Refused);
    }
    var content := Get(f, "content");
    if "content" !in f && !hasCalls {
      return Err(Refused);
    }
    if content.List? {
      if role.s == "tool" || content.items == [] || |content.items| > MAX_PARTS {
        return Err(Refused);
      }
      var parts := NormalizeParts(content.items, media);
      if parts.Err? {
        return Err(parts.failure);
      }
      content := List(parts.value);
    } else if !content.Null? && !content.Str? {
      return Err(Refused);
    }
    if content.Null? && role.s != "assistant" {
      return Err(Refused);
    }
    if content.Str? && Utf8Size(content.s) > MAX_MEDIA {
      return Err(Refused);
    }
    var message := f["role" := role]["content" := content];
    if !OptionalText(Get(message, "name")) || !OptionalText(Get(message, "tool_call_id")) {
      return Err(Refused);
    }
    if role.s == "tool" && Blank(Get(message, "tool_call_id")) {
      return Err(Refused);
    }
    if hasCalls {
      var calls := NormalizeToolCalls(f["tool_calls"]);
      if calls.Err? {
        return Err(calls.failure);
      }
      message := message["tool_calls" := List(calls.value)];
    }
    return Ok(message);
  }

  // ---- the request -----------------------------------------------------------------

  predicate AcceptableTool(raw: Value) {
    && raw.Dict?
    && Get(raw.fields, "type") == Str("function")
    && Get(raw.fields, "function").Dict?
    && var g := Get(raw.fields, "function").fields;
      && !Blank(Get(g, "name"))
      && OptionalText(Get(g, "description"))
      && (Get(g, "parameters").Null? || Get(g, "parameters").Dict?)
      && (Get(g, "strict").Null? || Get(g, "strict").Bool?)
  }

  /** The schema and every other member of a tool are kept; only the name is stripped. */
  function NormalizedTool(raw: Value): Result<Fields> {
    if !AcceptableTool(raw) then Err(Refused)
    else
      var g := Get(raw.fields, "function").fields;
      Ok(raw.fields["function" := Dict(g["name" := Str(Strip(Get(g, "name").s))])])
  }

  method NormalizeTool(raw: Value) returns (r: Result<Fields>)
    ensures r == NormalizedTool(raw)
  {
    if !raw.Dict? || Get(raw.fields, "type") != Str("function") || !Get(raw.fields, "function").Dict? {
      return Err(Refused);
    }
    var g := Get(raw.fields, "function").fields;
    if Blank(Get(g, "name")) {
      return Err(Refused);
    }
    var fn := g["name" := Str(Strip(Get(g, "name").s))];
    var description, parameters, strict := Get(g, "description"), Get(g, "parameters"), Get(g, "strict");
    if !description.Null? {
      if !description.Str? {
        return Err(Refused);
      }
      fn := fn["description" := description];
    }
    if !parameters.Null? {
      if !parameters.Dict? {
        return Err(Refused);
      }
      fn := fn["parameters" := Dict(parameters.fields)];
    }
    if !strict.Null? {
      if !strict.Bool? {
        return Err(Refused);
      }
      fn := fn["strict" := Bool(strict.b)];
    }
    assert fn == g["name" := Str(Strip(Get(g, "name").s))];
    var normalized := raw.fields["type" := Str("function")]["function" := Dict(fn)];
    assert normalized == raw.fields["function" := Dict(fn)];
    return Ok(normalized);
  }

  function NormalizedChoice(v: Value): Result<Value> {
    if v.Str? then
      if v.s in {"none", "auto", "required"} then Ok(v) else Err(Refused)
    else if !v.Dict? || Get(v.fields, "type") != Str("function") || !Get(v.fields, "function").Dict? then Err(Refused)
    else
      var name := Get(Get(v.fields, "function").fields, "name");
      if Blank(name) then Err(Refused)
      else Ok(Dict(map["type" := Str("function"), "function" := Dict(map["name" := Str(Strip(name.s))])]))
  }

  function NormalizedOptions(v: Value): Result<bool> {
    if !v.Dict? || !(v.fields.Keys <= {"include_usage"}) then Err(Refused)
    else if "include_usage" !in v.fields then Ok(false)
    else if !v.fields["include_usage"].Bool? then Err(Refused)
    else Ok(v.fields["include_usage"].b)
  }

  function NormalizedTemperature(v: Value): Result<Option<real>> {
    match v
    case Null => Ok(None)
    case Int(n) => if 0 <= n <= 2 then Ok(Some(n as real)) else Err(Refused)
    case Float(x) => if 0.0 <= x <= 2.0 then Ok(Some(x)) else Err(Refused)
    case _ => Err(Refused)
  }

  datatype Request = Request(
    model: string, messages: seq<Fields>, stream: bool, temperature: Option<real>, maxTokens: Option<int>,
    tools: seq<Fields>, toolChoice: Option<Value>, parallelToolCalls: Option<bool>, includeUsage: Option<bool>)

  /** One element of `messages`. */
  function MessageAt(raw: Value, total: nat): Result<(Fields, nat)> {
    if raw.Dict? then NormalizedMessage(raw.fields, total) else Err(Refused)
  }

  /** Everything of the payload other than its messages and tools. */
  datatype Settings = Settings(
    stream: bool, temperature: Option<real>, maxTokens: Option<int>, toolChoice: Option<Value>,
    parallelToolCalls: Option<bool>, includeUsage: Option<bool>)

  function NormalizedSettings(f: Fields): Option<Settings> {
    var stream := if "stream" in f then f["stream"] else Bool(false);
    var temperature := NormalizedTemperature(Get(f, "temperature"));
    var maxTokens, parallel := Get(f, "max_tokens"), Get(f, "parallel_tool_calls");
    var choice, options := Get(f, "tool_choice"), Get(f, "stream_options");
    if || !stream.Bool? || temperature.Err?
       || !(maxTokens.Null? || (maxTokens.Int? && maxTokens.n > 0))
       || !(choice.Null? || NormalizedChoice(choice).Ok?)
       || !(parallel.Null? || parallel.Bool?)
       || !(options.Null? || (NormalizedOptions(options).Ok? && stream.b)) then None
    else Some(Settings(
      stream.b, temperature.value,
      if maxTokens.Null? then None else Some(maxTokens.n),
      if choice.Null? then None else Some(NormalizedChoice(choice).value),
      if parallel.Null? then None else Some(parallel.b),
      if options.Null? then None else Some(NormalizedOptions(options).value)))
  }

  function RawTools(f: Fields): Value {
    if "tools" in f then f["tools"] else List([])
  }

  function NormalizedRequest(payload: Value): Result<Request> {
    if !payload.Dict? || Blank(Get(payload.fields, "model")) then Err(Refused)
    else
      var f := payload.fields;
      var raw := Get(f, "messages");
      if !raw.List? || raw.items == [] then Err(Refused)
      else
        var messages := Thread(MessageAt, raw.items, 0);
        if messages.Err? then Err(messages.failure)
        else
          var settings := NormalizedSettings(f);
          if settings.None? || !RawTools(f).List? || Each(NormalizedTool, RawTools(f).items).Err? then Err(Refused)
          else
            var s := settings.value;
            Ok(Request(Strip(Get(f, "model").s), messages.value.0, s.stream, s.temperature, s.maxTokens,
                       Each(NormalizedTool, RawTools(f).items).value, s.toolChoice, s.parallelToolCalls, s.includeUsage))
  }

  // ---- when a malformed payload is not refused ---------------------------------------

  predicate UnhashableType(part: Value) {
    part.Dict? && !Hashable(Get(part.fields, "type"))
  }

  /** The parts before `j` are accepted and the type of part `j` cannot be looked up in a set. */
  predicate PartBreaks(parts: seq<Value>, total: nat, j: nat)
    requires j < |parts|
  {
    UnhashableType(parts[j]) && Thread(NormalizedPart, parts[..j], total).Ok?
  }

  /** The checks a message passes before its typed parts are looked at. */
  predicate PartsAreReached(f: Fields) {
    && Get(f, "role").Str? && f["role"].s in ROLES && f["role"].s != "tool"
    && ("tool_calls" in f ==> f["role"].s == "assistant")
    && Get(f, "content").List? && 0 < |f["content"].items| <= MAX_PARTS
  }

  predicate MessageBreaks(f: Fields, total: nat) {
    || !Hashable(Get(f, "role"))
    || (PartsAreReached(f) && exists j: nat :: j < |f["content"].items| && PartBreaks(f["content"].items, total, j))
  }

  /** The messages before `i` are accepted and message `i` runs into an unhashable role or part type. */
  predicate BreaksAt(messages: seq<Value>, i: nat)
    requires i < |messages|
  {
    && messages[i].Dict?
    && Thread(MessageAt, messages[..i], 0).Ok?
    && MessageBreaks(messages[i].fields, Thread(MessageAt, messages[..i], 0).value.1)
  }

  lemma {:induction false} PartTypeErrorExactly(part: Value, total: nat)
    ensures NormalizedPart(part, total) == Err(TypeError) <==> UnhashableType(part)
  {
  }

  lemma {:induction false} PartsTypeErrorExactly(parts: seq<Value>, total: nat)
    ensures Thread(NormalizedPart, parts, total) == Err(TypeError)
      <==> exists j: nat :: j < |parts| && PartBreaks(parts, total, j)
  {
    if Thread(NormalizedPart, parts, total) == Err(TypeError) {
      var j := ThreadFailure(NormalizedPart, parts, total);
      PartTypeErrorExactly(parts[j], Thread(NormalizedPart, parts[..j], total).value.1);
      assert PartBreaks(parts, total, j);
    }
    if exists j: nat :: j < |parts| && PartBreaks(parts, total, j) {
      var j: nat :| j < |parts| && PartBreaks(parts, total, j);
      PartTypeErrorExactly(parts[j], Thread(NormalizedPart, parts[..j], total).value.1);
      ThreadFailsAt(NormalizedPart, parts, total, j);
    }
  }

  lemma {:induction false} MessageTypeErrorExactly(f: Fields, total: nat)
    ensures NormalizedMessage(f, total) == Err(TypeError) <==> MessageBreaks(f, total)
  {
    if Get(f, "content").List? {
      PartsTypeErrorExactly(f["content"].items, total);
    }
    if "tool_calls" in f && NormalizedCalls(f["tool_calls"]).Err? && f["tool_calls"].List? && f["tool_calls"].items != [] {
      var i := EachFailure(NormalizedCall, f["tool_calls"].items);
    }
  }

  /** The checks a payload passes before its messages are looked at. */
  predicate MessagesAreReached(payload: Value) {
    && payload.Dict? && !Blank(Get(payload.fields, "model"))
    && Get(payload.fields, "messages").List? && payload.fields["messages"].items != []
  }

  /**
   A payload raises Python's type error instead of being refused exactly when,
   with everything before it accepted, some message has a role, or some reached
   part a type, that cannot be looked up in a set.
   */
  lemma {:induction false} TypeErrorExactly(payload: Value)
    ensures NormalizedRequest(payload) == Err(TypeError) <==>
      && MessagesAreReached(payload)
      && exists i: nat :: i < |payload.fields["messages"].items| && BreaksAt(payload.fields["messages"].items, i)
  {
    if MessagesAreReached(payload) {
      var raw := payload.fields["messages"].items;
      if Thread(MessageAt, raw, 0) == Err(TypeError) {
        var i := ThreadFailure(MessageAt, raw, 0);
        MessageTypeErrorExactly(raw[i].fields, Thread(MessageAt, raw[..i], 0).value.1);
        assert BreaksAt(raw, i);
      }
      if exists i: nat :: i < |raw| && BreaksAt(raw, i) {
        var i: nat :| i < |raw| && BreaksAt(raw, i);
        MessageTypeErrorExactly(raw[i].fields, Thread(MessageAt, raw[..i], 0).value.1);
        ThreadFailsAt(MessageAt, raw, 0, i);
      }
    }
  }

  /** Every role and every part type of the payload can be looked up in a set. */
  predicate AllHashable(payload: Value) {
    payload.Dict? && Get(payload.fields, "messages").List? ==>
      forall i :: 0 <= i < |payload.fields["messages"].items| && payload.fields["messages"].items[i].Dict? ==>
        HashableMessage(payload.fields["messages"].items[i].fields)
  }

  predicate HashableMessage(f: Fields) {
    && Hashable(Get(f, "role"))
    && (Get(f, "content").List? ==>
         forall j :: 0 <= j < |f["content"].items| ==> !UnhashableType(f["content"].items[j]))
  }

  /** A caller who checks that much never sees the type error. */
  lemma {:induction false} HashablePayloadsNeverBreak(payload: Value)
    requires AllHashable(payload)
    ensures NormalizedRequest(payload) != Err(TypeError)
  {
    TypeErrorExactly(payload);
  }

  /** The other inputs are real: a list for a role. */
  lemma {:induction false} UnhashableRoleEscapes()
    ensures NormalizedRequest(Dict(map[
      "model" := Str("m"),
      "messages" := List([Dict(map["role" := List([]), "content" := Str("hi")])])])) == Err(TypeError)
  {
    var raw := [Dict(map["role" := List([]), "content" := Str("hi")])];
    var payload := Dict(map["model" := Str("m"), "messages" := List(raw)]);
    PlainModel();
    assert raw[..0] == [];
    assert BreaksAt(raw, 0);
    TypeErrorExactly(payload);
  }

  /** And an object for a part type. */
  lemma {:induction false} UnhashablePartTypeEscapes()
    ensures NormalizedRequest(Dict(map[
      "model" := Str("m"),
      "messages" := List([Dict(map["role" := Str("user"), "content" := List([Dict(map["type" := Dict(map[])])])])])]))
      == Err(TypeError)
  {
    var parts := [Dict(map["type" := Dict(map[])])];
    var raw := [Dict(map["role" := Str("user"), "content" := List(parts)])];
    var payload := Dict(map["model" := Str("m"), "messages" := List(raw)]);
    PlainModel();
    assert raw[..0] == [] && parts[..0] == [];
    assert PartBreaks(parts, 0, 0);
    assert BreaksAt(raw, 0);
    TypeErrorExactly(payload);
  }

  lemma {:induction false} PlainModel()
    ensures !Blank(Str("m"))
  {
    assert TrimStart("m") == "m" && TrimEnd("m") == "m";
  }

  method NormalizeMessages(items: seq<Value>, media: MediaBytes) returns (r: Result<seq<Fields>>)
    modifies media
    ensures Counted(r, media.total) == Thread(MessageAt, items, old(media.total))
  {
    var messages: seq<Fields> := [];
    assert items[0..] == items;
    AfterNothing(Thread(MessageAt, items, media.total));
    for i := 0 to |items|
      invariant Thread(MessageAt, items, old(media.total)) == After(messages, Thread(MessageAt, items[i..], media.total))
    {
      assert items[i..][0] == items[i] && items[i..][1..] == items[i + 1..];
      ghost var before := media.total;
      if !items[i].Dict? {
        return Err(Refused);
      }
      var message := NormalizeMessage(items[i].fields, media);
      if message.Err? {
        return Err(message.failure);
      }
      ghost var rest := Thread(MessageAt, items[i + 1..], media.total);
      assert Thread(MessageAt, items[i..], before) == After([message.value], rest);
      AfterOneMore(messages, message.value, rest);
      messages := messages + [message.value];
    }
    assert items[|items|..] == [] && messages + [] == messages;
    return Ok(messages);
  }

  method NormalizeTools(items: seq<Value>) returns (r: Result<seq<Fields>>)
    ensures r == Each(NormalizedTool, items)
  {
    var tools: seq<Fields> := [];
    assert items[0..] == items;
    AfterEachNothing(Each(NormalizedTool, items));
    for i := 0 to |items|
      invariant Each(NormalizedTool, items) == AfterEach(tools, Each(NormalizedTool, items[i..]))
    {
      assert items[i..][0] == items[i] && items[i..][1..] == items[i + 1..];
      var tool := NormalizeTool(items[i]);
      if tool.Err? {
        return Err(tool.failure);
      }
      assert Each(NormalizedTool, items[i..]) == AfterEach([tool.value], Each(NormalizedTool, items[i + 1..]));
      AfterEachOneMore(tools, tool.value, Each(NormalizedTool, items[i + 1..]));
      tools := tools + [tool.value];
    }
    assert items[|items|..] == [] && tools + [] == tools;
    return Ok(tools);
  }

  method FromOpenai(payload: Value) returns (r: Result<Request>)
    ensures r == NormalizedRequest(payload)
  {
    if !payload.Dict? || Blank(Get(payload.fields, "model")) {
      return Err(Refused);
    }
    var f := payload.fields;
    var raw := Get(f, "messages");
    if !raw.List? || raw.items == [] {
      return Err(Refused);
    }
    var media := new MediaBytes();
    var messages := NormalizeMessages(raw.items, media);
    if messages.Err? {
      return Err(messages.failure);
    }
    var stream := if "stream" in f then f["stream"] else Bool(false);
    if !stream.Bool? {
      return Err(Refused);
    }
    var temperature := NormalizedTemperature(Get(f, "temperature"));
    if temperature.Err? {
      return Err(Refused);
    }
    var maxTokens := Get(f, "max_tokens");
    if !maxTokens.Null? && (!maxTokens.Int? || maxTokens.n <= 0) {
      return Err(Refused);
    }
    var rawTools := if "tools" in f then f["tools"] else List([]);
    if !rawTools.List? {
      return Err(Refused);
    }
    var tools := NormalizeTools(rawTools.items);
    if tools.Err? {
      return Err(Refused);
    }
    var choice := Get(f, "tool_choice");
    if !choice.Null? && NormalizedChoice(choice).Err? {
      return Err(Refused);
    }
    var parallel := Get(f, "parallel_tool_calls");
    if !parallel.Null? && !parallel.Bool? {
      return Err(Refused);
    }
    var options := Get(f, "stream_options");
    if !options.Null? && (NormalizedOptions(options).Err? || !stream.b) {
      return Err(Refused);
    }
    var settings := NormalizedSettings(f).value;
    return Ok(Request(Strip(Get(f, "model").s), messages.value, settings.stream, settings.temperature,
                      settings.maxTokens, tools.value, settings.toolChoice, settings.parallelToolCalls,
                      settings.includeUsage));
  }
}
