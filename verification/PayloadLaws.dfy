/**
 A chat payload from the wire to the plugin, member by member: exactly which
 payloads the normaliser accepts, and what each accepted member has become when
 the request is delivered (src/cyrene_exchange/protocol.py and
 src/cyrene_exchange/direct_plugin.py).
 */
module PayloadLaws {
  import opened Prelude
  import opened Values
  import opened Protocol
  import opened Projection
  import opened ProjectionLaws
  import Base64

  // ---- what is accepted ---------------------------------------------------------------------------

  /** An opaque id: short, and nothing that could be read as a path. */
  predicate IsOpaqueId(v: Value) {
    && v.Str? && Strip(v.s) != "" && |v.s| <= 256
    && (forall i :: 0 <= i < |v.s| ==> v.s[i] != '/' && v.s[i] != '\\')
    && v.s[0] != '~'
  }

  /** A plain file name, without any separator and not a directory entry. */
  predicate IsFileName(v: Value) {
    && v.Str? && Strip(v.s) != "" && |v.s| <= 255 && v.s != "." && v.s != ".."
    && forall i :: 0 <= i < |v.s| ==> v.s[i] != '/' && v.s[i] != '\\' && v.s[i] != '\0'
  }

  /** A MIME type of the kind: `image/...` for an image, `audio/...` for an audio part, any for a file. */
  predicate NamesKind(kind: string, v: Value) {
    && v.Str? && |v.s| <= 255 && IsMime(Lower(Strip(v.s)))
    && (kind == "image" ==> "image/" <= Lower(Strip(v.s)))
    && (kind == "audio" ==> "audio/" <= Lower(Strip(v.s)))
  }

  predicate AcceptableMedia(f: Fields, kind: string, total: nat) {
    && kind in {"image", "audio", "file"}
    && f.Keys <= {"type", "mime_type", "data_base64", "artifact_id", "filename"}
    && ("filename" in f ==> kind == "file" && IsFileName(f["filename"]))
    && NamesKind(kind, Get(f, "mime_type"))
    && if "data_base64" in f then
         && "artifact_id" !in f && f["data_base64"].Str? && Base64.Decode(f["data_base64"].s).Some?
         && var size := |Base64.Decode(f["data_base64"].s).value|;
            0 < size && total + size <= 20 * 1024 * 1024
       else "artifact_id" in f && IsOpaqueId(f["artifact_id"])
  }

  lemma {:induction false} CategoryIsPrefix(s: string, kind: string)
    requires IsMime(s) && '/' !in kind
    ensures Category(s) == kind <==> kind + "/" <= s
  {
    var i :| 0 < i < |s| - 1 && s[i] == '/' && forall j :: 0 <= j < |s| && j != i ==> IsMimeChar(s[j]);
    CategoryEndsAt(s, i);
    if kind + "/" <= s {
      assert s[|kind|] == (kind + "/")[|kind|] == '/';
      assert |kind| == i;
      assert s[..i] == (kind + "/")[..i] == kind;
    }
    if Category(s) == kind {
      assert s[..i + 1] == kind + "/";
    }
  }

  lemma {:induction false} CategoryEndsAt(s: string, i: nat)
    requires i < |s| && s[i] == '/' && forall j :: 0 <= j < i ==> s[j] != '/'
    ensures Category(s) == s[..i]
  {
    if i > 0 {
      CategoryEndsAt(s[1..], i - 1);
      assert s[..i] == [s[0]] + s[1..][..i - 1];
    }
  }

  lemma {:induction false} KindExactly(kind: string, v: Value)
    ensures MimeFits(kind, v) <==> NamesKind(kind, v)
  {
    if v.Str? && IsMime(Lower(Strip(v.s))) {
      CategoryIsPrefix(Lower(Strip(v.s)), "image");
      CategoryIsPrefix(Lower(Strip(v.s)), "audio");
      assert "image" + "/" == "image/" && "audio" + "/" == "audio/";
    }
  }

  lemma {:induction false} StripOfNothing()
    ensures Strip("") == ""
  {
  }

  lemma {:induction false} NamesExactly(v: Value)
    ensures OpaqueReference(v) <==> IsOpaqueId(v)
    ensures SafeFilename(v) <==> IsFileName(v)
  {
    StripOfNothing();
    if v.Str? && v.s != "" {
      assert v.s[..1] == [v.s[0]];
    }
  }

  /**
   Exactly which content parts are accepted after `total` bytes of media: a text
   part with just its text, or a media part of one of three kinds with exactly
   one source, whose inline bytes still fit.
   */
  lemma {:induction false} PartAcceptedExactly(raw: Value, total: nat)
    requires total <= 20 * 1024 * 1024
    ensures NormalizedPart(raw, total).Ok? <==>
      && raw.Dict? && Get(raw.fields, "type").Str?
      && if raw.fields["type"].s == "text" then raw.fields.Keys == {"type", "text"} && raw.fields["text"].Str?
         else AcceptableMedia(raw.fields, raw.fields["type"].s, total)
  {
    if raw.Dict? && Get(raw.fields, "type").Str? {
      var f := raw.fields;
      KindExactly(f["type"].s, Get(f, "mime_type"));
      KeysExactly(f, f["type"].s);
      NamesExactly(Get(f, "artifact_id"));
      NamesExactly(Get(f, "filename"));
    }
  }

  lemma {:induction false} KeysExactly(f: Fields, kind: string)
    ensures f.Keys <= AllowedKeys(kind) <==>
      f.Keys <= {"type", "mime_type", "data_base64", "artifact_id", "filename"} && ("filename" in f ==> kind == "file")
  {
    var all := {"type", "mime_type", "data_base64", "artifact_id", "filename"};
    if f.Keys <= all && ("filename" in f ==> kind == "file") {
      forall key | key in f.Keys ensures key in AllowedKeys(kind) { }
    }
    if f.Keys <= AllowedKeys(kind) {
      forall key | key in f.Keys ensures key in all { }
    }
  }

  predicate NullOrText(f: Fields, key: string) {
    key in f ==> f[key].Null? || f[key].Str?
  }

  predicate TextThatIsNotBlank(f: Fields, key: string) {
    key in f && f[key].Str? && Strip(f[key].s) != ""
  }

  /** Whether the content of a message suits its role. */
  predicate ContentSuits(role: string, content: Value, total: nat) {
    match content
    case Null => role == "assistant"
    case Str(s) => Utf8Size(s) <= 20 * 1024 * 1024
    case List(items) => role != "tool" && 1 <= |items| <= 128 && Thread(NormalizedPart, items, total).Ok?
    case _ => false
  }

  /** Exactly which messages are accepted. */
  lemma {:induction false} MessageAcceptedExactly(f: Fields, total: nat)
    ensures NormalizedMessage(f, total).Ok? <==>
      && "role" in f && f["role"].Str? && f["role"].s in {"system", "user", "assistant", "tool"}
      && ("content" in f || "tool_calls" in f)
      && ContentSuits(f["role"].s, Get(f, "content"), total)
      && NullOrText(f, "name") && NullOrText(f, "tool_call_id")
      && (f["role"].s == "tool" ==> TextThatIsNotBlank(f, "tool_call_id"))
      && ("tool_calls" in f ==>
           && f["role"].s == "assistant" && f["tool_calls"].List? && f["tool_calls"].items != []
           && forall i :: 0 <= i < |f["tool_calls"].items| ==> CallSuits(f["tool_calls"].items[i]))
  {
    if "tool_calls" in f && f["tool_calls"].List? {
      forall i | 0 <= i < |f["tool_calls"].items|
        ensures NormalizedCall(f["tool_calls"].items[i]).Ok? <==> CallSuits(f["tool_calls"].items[i]) { }
    }
  }

  /** A function call with an id, a name and, if any, an argument text. */
  predicate CallSuits(raw: Value) {
    && raw.Dict? && TextThatIsNotBlank(raw.fields, "id")
    && ("type" in raw.fields ==> raw.fields["type"] == Str("function"))
    && "function" in raw.fields && raw.fields["function"].Dict?
    && TextThatIsNotBlank(raw.fields["function"].fields, "name")
    && ("arguments" in raw.fields["function"].fields ==> raw.fields["function"].fields["arguments"].Str?)
  }

  predicate ToolSuits(raw: Value) {
    && raw.Dict? && "type" in raw.fields && raw.fields["type"] == Str("function")
    && "function" in raw.fields && raw.fields["function"].Dict?
    && var g := raw.fields["function"].fields;
      && TextThatIsNotBlank(g, "name") && NullOrText(g, "description")
      && ("parameters" in g ==> g["parameters"].Null? || g["parameters"].Dict?)
      && ("strict" in g ==> g["strict"].Null? || g["strict"].Bool?)
  }

  predicate ChoiceSuits(v: Value) {
    match v
    case Null => true
    case Str(s) => s in {"none", "auto", "required"}
    case Dict(f) =>
      && "type" in f && f["type"] == Str("function") && "function" in f && f["function"].Dict?
      && TextThatIsNotBlank(f["function"].fields, "name")
    case _ => false
  }

  predicate SettingsSuit(f: Fields) {
    && ("stream" in f ==> f["stream"].Bool?)
    && (match Get(f, "temperature")
        case Null => true
        case Int(n) => 0 <= n <= 2
        case Float(x) => 0.0 <= x <= 2.0
        case _ => false)
    && (match Get(f, "max_tokens")
        case Null => true
        case Int(n) => 1 <= n
        case _ => false)
    && ChoiceSuits(Get(f, "tool_choice"))
    && (Get(f, "parallel_tool_calls").Null? || Get(f, "parallel_tool_calls").Bool?)
    && (match Get(f, "stream_options")
        case Null => true
        case Dict(g) => Get(f, "stream") == Bool(true) && g.Keys <= {"include_usage"} && ("include_usage" in g ==> g["include_usage"].Bool?)
        case _ => false)
  }

  lemma {:induction false} SettingsAcceptedExactly(f: Fields)
    ensures NormalizedSettings(f).Some? <==> SettingsSuit(f)
  {
  }

  /** Exactly which payloads are accepted, given that their messages are. */
  lemma {:induction false} PayloadAcceptedExactly(payload: Value)
    ensures NormalizedRequest(payload).Ok? <==>
      && payload.Dict? && TextThatIsNotBlank(payload.fields, "model")
      && "messages" in payload.fields && payload.fields["messages"].List? && payload.fields["messages"].items != []
      && Thread(MessageAt, payload.fields["messages"].items, 0).Ok?
      && SettingsSuit(payload.fields)
      && ("tools" in payload.fields ==>
           && payload.fields["tools"].List?
           && forall i :: 0 <= i < |payload.fields["tools"].items| ==> ToolSuits(payload.fields["tools"].items[i]))
  {
    if payload.Dict? {
      SettingsAcceptedExactly(payload.fields);
      if RawTools(payload.fields).List? {
        var tools := RawTools(payload.fields).items;
        forall i | 0 <= i < |tools| ensures NormalizedTool(tools[i]).Ok? <==> ToolSuits(tools[i]) { }
      }
    }
  }

  // ---- what is delivered ---------------------------------------------------------------------------

  /** The name a tool choice asks for. */
  function ChosenName(choice: Fields): string {
    match Get(choice, "function")
    case Dict(g) => TextOf(Get(g, "name")).GetOr("")
    case _ => ""
  }

  /** The settings of the payload, as the plugin receives them. */
  predicate CarriesSettings(f: Fields, c: ChatRequest) {
    && Get(f, "model").Str? && c.model == Strip(f["model"].s) != ""
    && c.stream == (Get(f, "stream") == Bool(true))
    && c.temperature == (match Get(f, "temperature")
                         case Int(n) => Some(n as real)
                         case Float(x) => Some(x)
                         case _ => None)
    && c.maxTokens == (if Get(f, "max_tokens").Int? then Some(f["max_tokens"].n) else None)
    && c.parallelToolCalls == (if Get(f, "parallel_tool_calls").Bool? then Some(f["parallel_tool_calls"].b) else None)
    && c.includeUsage == (if Get(f, "stream_options").Dict? then Some(Get(f["stream_options"].fields, "include_usage") == Bool(true)) else None)
    && (match Get(f, "tool_choice")
        case Str(mode) => c.toolChoice == Some(ChatToolChoice(mode, None))
        case Dict(g) => c.toolChoice == Some(ChatToolChoice("function", Some(Strip(ChosenName(g)))))
        case _ => c.toolChoice == None)
  }

  lemma {:induction false} SettingsAreNormalized(f: Fields)
    requires NormalizedSettings(f).Some?
    ensures var s := NormalizedSettings(f).value;
      && s.stream == (Get(f, "stream") == Bool(true))
      && s.includeUsage == (if Get(f, "stream_options").Dict? then Some(Get(f["stream_options"].fields, "include_usage") == Bool(true)) else None)
      && ToOptionalChoice(s.toolChoice).Ok?
      && ToOptionalChoice(s.toolChoice).value ==
         match Get(f, "tool_choice")
         case Str(mode) => Some(ChatToolChoice(mode, None))
         case Dict(g) => Some(ChatToolChoice("function", Some(Strip(ChosenName(g)))))
         case _ => None
  {
    if Get(f, "tool_choice").Dict? {
      var choice := NormalizedChoice(f["tool_choice"]).value;
      assert Get(choice.fields, "function").Dict?;
    }
  }

  /** The settings of an accepted request are those of its payload. */
  lemma {:induction false} RequestHasSettings(payload: Value)
    requires NormalizedRequest(payload).Ok?
    ensures payload.Dict? && NormalizedSettings(payload.fields).Some?
    ensures var r, s := NormalizedRequest(payload).value, NormalizedSettings(payload.fields).value;
      && Get(payload.fields, "model").Str? && r.model == Strip(payload.fields["model"].s) != ""
      && Settings(r.stream, r.temperature, r.maxTokens, r.toolChoice, r.parallelToolCalls, r.includeUsage) == s
  {
  }

  lemma {:induction false} NumbersAreNormalized(f: Fields)
    requires NormalizedSettings(f).Some?
    ensures var s := NormalizedSettings(f).value;
      && s.temperature == (match Get(f, "temperature")
                           case Int(n) => Some(n as real)
                           case Float(x) => Some(x)
                           case _ => None)
      && s.maxTokens == (if Get(f, "max_tokens").Int? then Some(f["max_tokens"].n) else None)
      && s.parallelToolCalls == (if Get(f, "parallel_tool_calls").Bool? then Some(f["parallel_tool_calls"].b) else None)
  {
  }

  /** A projected request has the settings of the request. */
  predicate SameSettings(r: Request, c: ChatRequest) {
    && c.model == r.model && c.stream == r.stream && c.temperature == r.temperature && c.maxTokens == r.maxTokens
    && c.parallelToolCalls == r.parallelToolCalls && c.includeUsage == r.includeUsage
    && ToOptionalChoice(r.toolChoice) == Ok(c.toolChoice)
  }

  lemma {:induction false} ProjectionKeepsSettings(r: Request)
    ensures ToChatRequest(r).Ok? ==> SameSettings(r, ToChatRequest(r).value)
    ensures ToChatRequestV3(r).Ok? ==> SameSettings(r, ToChatRequestV3(r).value.text)
  {
    var t := TextOnly(r);
    assert ToChatRequest(t).Ok? ==> SameSettings(t, ToChatRequest(t).value);
  }

  lemma {:induction false} SameIsCarried(payload: Value, c: ChatRequest)
    requires NormalizedRequest(payload).Ok? && SameSettings(NormalizedRequest(payload).value, c)
    ensures payload.Dict? && CarriesSettings(payload.fields, c)
  {
    RequestHasSettings(payload);
    SettingsAreNormalized(payload.fields);
    NumbersAreNormalized(payload.fields);
  }

  /** Every setting of an accepted payload reaches the plugin with its value, and an absent one stays absent. */
  lemma {:induction false} SettingsAreCarried(payload: Value)
    requires NormalizedRequest(payload).Ok?
    ensures payload.Dict?
    ensures ToChatRequest(NormalizedRequest(payload).value).Ok? ==>
      CarriesSettings(payload.fields, ToChatRequest(NormalizedRequest(payload).value).value)
    ensures ToChatRequestV3(NormalizedRequest(payload).value).Ok? ==>
      CarriesSettings(payload.fields, ToChatRequestV3(NormalizedRequest(payload).value).value.text)
  {
    var r := NormalizedRequest(payload).value;
    ProjectionKeepsSettings(r);
    if ToChatRequest(r).Ok? {
      SameIsCarried(payload, ToChatRequest(r).value);
    }
    if ToChatRequestV3(r).Ok? {
      SameIsCarried(payload, ToChatRequestV3(r).value.text);
    }
  }

  /** A delivered tool: its stripped name, its description, its schema (empty if it has none) and its strictness. */
  predicate CarriesTool(raw: Value, t: ChatTool) {
    && ToolSuits(raw) && t.kind == "function"
    && var g := raw.fields["function"].fields;
      && t.name == Strip(g["name"].s)
      && t.description == (if Get(g, "description").Str? then Some(g["description"].s) else None)
      && t.parameters == (if Get(g, "parameters").Dict? then g["parameters"].fields else map[])
      && t.strict == (if Get(g, "strict").Bool? then Some(g["strict"].b) else None)
  }

  /** Tools are delivered in number and order. */
  lemma {:induction false} ToolsAreCarried(payload: Value, i: nat)
    requires NormalizedRequest(payload).Ok? && i < |ToolList(payload)|
    ensures var projected := ToChatRequest(NormalizedRequest(payload).value);
      projected.Ok? ==>
        && |projected.value.tools| == |ToolList(payload)|
        && CarriesTool(ToolList(payload)[i], projected.value.tools[i])
  {
    var r := NormalizedRequest(payload).value;
    var raw := ToolList(payload);
    if ToChatRequest(r).Ok? {
      assert r.tools == Each(NormalizedTool, raw).value;
      assert NormalizedTool(raw[i]) == Ok(r.tools[i]);
      assert ToChatTool(r.tools[i]) == Ok(ToChatRequest(r).value.tools[i]);
      ToolIsCarried(raw[i]);
    }
  }

  lemma {:induction false} ToolIsCarried(raw: Value)
    requires AcceptableTool(raw) && ToChatTool(NormalizedTool(raw).value).Ok?
    ensures CarriesTool(raw, ToChatTool(NormalizedTool(raw).value).value)
  {
    var g := raw.fields["function"].fields;
    var tool := NormalizedTool(raw).value;
    assert Get(tool, "function").fields == g["name" := Str(Strip(g["name"].s))];
    assert tool["type"] == raw.fields["type"];
  }

  /** A delivered part: the text itself, or media with its normalised MIME type and its decoded bytes or its reference. */
  predicate CarriesPart(f: Fields, p: ContentPart) {
    && Get(f, "type").Str?
    && if f["type"].s == "text" then Get(f, "text").Str? && p == TextContent(f["text"].s)
       else
         && Get(f, "mime_type").Str?
         && var mime := Lower(Strip(f["mime_type"].s));
            var data := if Get(f, "data_base64").Str? then Base64.Decode(f["data_base64"].s) else None;
            var artifact := if Get(f, "artifact_id").Str? then Some(f["artifact_id"].s) else None;
            var filename := if Get(f, "filename").Str? then Some(f["filename"].s) else None;
            && (data.Some? <==> artifact.None?)
            && (f["type"].s == "image" ==> p == ImageContent(mime, data, artifact))
            && (f["type"].s == "audio" ==> p == AudioContent(mime, data, artifact))
            && (f["type"].s == "file" ==> p == FileContent(mime, data, artifact, filename))
            && f["type"].s in {"image", "audio", "file"}
  }

  lemma {:induction false} MediaIsCarried(f: Fields)
    requires MediaPart(f)
    ensures ToPart(Dict(CleanMedia(f))).Ok? && CarriesPart(f, ToPart(Dict(CleanMedia(f))).value)
  {
    MediaProjects(f);
    CleanedMembers(f);
    var g := CleanMedia(f);
    assert TextOf(Get(g, "artifact_id")) == if "artifact_id" in f then Some(f["artifact_id"].s) else None;
    assert f["type"] == Str("file") ==> TextOf(Get(g, "filename")) == TextOf(Get(f, "filename"));
  }

  /** What cleaning leaves of a media part. */
  lemma {:induction false} CleanedMembers(f: Fields)
    requires MediaPart(f)
    ensures var g := CleanMedia(f);
      && Get(g, "type") == f["type"] && Get(g, "mime_type") == Str(Lower(Strip(f["mime_type"].s)))
      && Get(g, "data") == (if "data_base64" in f then Bytes(Base64.Decode(f["data_base64"].s).value) else Null)
      && Get(g, "artifact_id") == Get(f, "artifact_id")
      && Get(g, "filename") == Get(f, "filename")
      && MediaKind(f["type"])
  {
    var mime := Str(Lower(Strip(f["mime_type"].s)));
    var base: Fields := map["type" := f["type"], "mime_type" := mime];
    if "data_base64" in f {
      CleanedKeys(f, base["data" := Bytes(InlineBytes(f))]);
    } else {
      CleanedKeys(f, base["artifact_id" := f["artifact_id"]]);
    }
  }

  lemma {:induction false} CleanedKeys(f: Fields, sourced: Fields)
    requires MediaPart(f) && "filename" !in sourced
    ensures var g := if "filename" in f then sourced["filename" := f["filename"]] else sourced;
      && Get(g, "filename") == Get(f, "filename")
      && forall key :: key != "filename" ==> Get(g, key) == Get(sourced, key)
  {
  }

  lemma {:induction false} PartIsCarried(raw: Value, total: nat)
    requires NormalizedPart(raw, total).Ok?
    ensures raw.Dict? && ToPart(NormalizedPart(raw, total).value.0).Ok?
    ensures CarriesPart(raw.fields, ToPart(NormalizedPart(raw, total).value.0).value)
  {
    if !TextPart(raw.fields) {
      MediaIsCarried(raw.fields);
    }
  }

  /** A delivered typed message has the role, the names and the number of parts of the payload's message. */
  predicate CarriesHeader(f: Fields, m: ChatMessageV3) {
    && Get(f, "role") == Str(m.text.role) && m.text.content == ""
    && m.text.name == TextOf(Get(f, "name")) && m.text.toolCallId == TextOf(Get(f, "tool_call_id"))
    && Get(f, "content").List? && |m.parts| == |f["content"].items|
  }

  lemma {:induction false} HeaderIsCarried(f: Fields, total: nat)
    requires NormalizedMessage(f, total).Ok? && ToChatMessageV3(NormalizedMessage(f, total).value.0).Ok?
    ensures CarriesHeader(f, ToChatMessageV3(NormalizedMessage(f, total).value.0).value)
  {
    NormalizedKeys(f, total);
    NormalizedText(f, total);
  }

  lemma {:induction false} EachPartIsCarried(f: Fields, total: nat, j: nat)
    requires NormalizedMessage(f, total).Ok? && ToChatMessageV3(NormalizedMessage(f, total).value.0).Ok?
    requires CarriesHeader(f, ToChatMessageV3(NormalizedMessage(f, total).value.0).value) && j < |f["content"].items|
    ensures f["content"].items[j].Dict?
    ensures CarriesPart(f["content"].items[j].fields, ToChatMessageV3(NormalizedMessage(f, total).value.0).value.parts[j])
  {
    var m := NormalizedMessage(f, total).value.0;
    var before := ThreadEach(NormalizedPart, f["content"].items, total, j);
    PartIsCarried(f["content"].items[j], before);
    assert ToPart(m["content"].items[j]) == Ok(ToChatMessageV3(m).value.parts[j]);
  }

  /** Typed parts are delivered in number and order, under the role and the names of their message. */
  lemma {:induction false} PartsAreCarried(payload: Value, i: nat, j: nat)
    requires NormalizedRequest(payload).Ok? && i < |RawMessages(payload)|
    ensures RawMessages(payload)[i].Dict?
    ensures var f := RawMessages(payload)[i].fields;
      var projected := ToChatRequestV3(NormalizedRequest(payload).value);
      projected.Ok? ==>
        && |projected.value.messages| == |RawMessages(payload)| && CarriesHeader(f, projected.value.messages[i])
        && (j < |projected.value.messages[i].parts| ==>
             f["content"].items[j].Dict? && CarriesPart(f["content"].items[j].fields, projected.value.messages[i].parts[j]))
  {
    var r := NormalizedRequest(payload).value;
    var total := MessageOf(payload, i);
    var f := RawMessages(payload)[i].fields;
    if ToChatRequestV3(r).Ok? {
      assert ToChatMessageV3(r.messages[i]) == Ok(ToChatRequestV3(r).value.messages[i]);
      HeaderIsCarried(f, total);
      if j < |f["content"].items| {
        EachPartIsCarried(f, total, j);
      }
    }
  }
}
