/**
 Replacing artifact references by the bytes they name before a request is
 planned (`_resolve_media_artifacts` in src/cyrene_exchange/gateway.py). The
 resolver and the cancellation event are oracles: the k-th `read` answers
 `replies(k)` for the id it is asked for, and the event may be set at any
 check. SHA-256 is an arbitrary function.
 */
module Media {
  import opened Prelude
  import opened Values
  import opened Protocol
  import opened Lifecycle

  datatype Artifact = Artifact(mimeType: string, data: Option<seq<Byte>>, size: int, sha256: string)

  datatype Reply = Found(artifact: Artifact) | NotAnArtifact | ReadCancelled | ReadFailed

  datatype Env = Env(
    hasResolver: bool, read: (string, nat) -> Reply, digest: seq<Byte> -> string, cancelled: nat -> bool)

  /** Bytes so far, checks of the event so far, resolver calls so far. */
  datatype Progress = Progress(total: nat, checks: nat, calls: nat)

  /** The artifact is what the reference promised and its own record says. */
  predicate Genuine(env: Env, a: Artifact, mime: Value) {
    && mime == Str(a.mimeType)
    && a.data.Some? && a.data.value != []
    && a.size == |a.data.value| && a.size <= MAX_MEDIA
    && a.sha256 == env.digest(a.data.value)
  }

  function InlineSize(f: Fields): nat {
    if Get(f, "data").Bytes? then |f["data"].data| else 0
  }

  function Inlined(f: Fields, data: seq<Byte>): Fields {
    (f - {"artifact_id"})["data" := Bytes(data)]
  }

  function ResolvedReference(env: Env, f: Fields, p: Progress): Result<(Value, Progress)>
    requires "artifact_id" in f
  {
    if env.cancelled(p.checks) then Err(Interrupted)
    else if !env.hasResolver || !f["artifact_id"].Str? then Err(Unavailable)
    else
      match env.read(f["artifact_id"].s, p.calls)
      case ReadCancelled => Err(Interrupted)
      case ReadFailed => Err(Unavailable)
      case NotAnArtifact => Err(if env.cancelled(p.checks + 1) then Interrupted else Unavailable)
      case Found(a) =>
        if env.cancelled(p.checks + 1) then Err(Interrupted)
        else if !Genuine(env, a, Get(f, "mime_type")) || p.total + a.size > MAX_MEDIA then Err(Unavailable)
        else Ok((Dict(Inlined(f, a.data.value)), Progress(p.total + a.size, p.checks + 2, p.calls + 1)))
  }

  function ResolvedPart(env: Env, raw: Value, p: Progress): Result<(Value, Progress)> {
    if !raw.Dict? then Ok((Dict(map[]), p))
    else if "artifact_id" in raw.fields then ResolvedReference(env, raw.fields, p)
    else if Get(raw.fields, "data").Bytes? && p.total + InlineSize(raw.fields) > MAX_MEDIA then Err(Unavailable)
    else Ok((raw, p.(total := p.total + InlineSize(raw.fields))))
  }

  function PartStep(env: Env): (Value, Progress) -> Result<(Value, Progress)> {
    (raw, p) => ResolvedPart(env, raw, p)
  }

  function ResolvedMessage(env: Env, m: Fields, p: Progress): Result<(Fields, Progress)> {
    if !Get(m, "content").List? then Ok((m, p))
    else
      var parts := Thread(PartStep(env), m["content"].items, p);
      if parts.Err? then Err(parts.failure) else Ok((m["content" := List(parts.value.0)], parts.value.1))
  }

  function MessageStep(env: Env): (Fields, Progress) -> Result<(Fields, Progress)> {
    (m, p) => ResolvedMessage(env, m, p)
  }

  /** Resolution of a whole request; `start` says how often the oracles were asked before. */
  function Resolved(env: Env, r: Request, start: Progress): Result<Request> {
    var messages := Thread(MessageStep(env), r.messages, start);
    if messages.Err? then Err(messages.failure) else Ok(r.(messages := messages.value.0))
  }

  // ---- the nested loops of the source -------------------------------------------------

  /** The resolver of the deployment. */
  class ArtifactResolver {
    const answers: (string, nat) -> Reply
    var calls: nat

    constructor (answers: (string, nat) -> Reply)
      ensures this.answers == answers && calls == 0
    {
      this.answers, calls := answers, 0;
    }

    method Read(id: string) returns (reply: Reply)
      modifies this
      ensures reply == answers(id, old(calls)) && calls == old(calls) + 1
    {
      reply := answers(id, calls);
      calls := calls + 1;
    }
  }

  class MediaResolver {
    const resolver: ArtifactResolver
    const hasResolver: bool
    const cancel: CancelFlag
    const digest: seq<Byte> -> string
    var total: nat

    constructor (resolver: ArtifactResolver, hasResolver: bool, cancel: CancelFlag, digest: seq<Byte> -> string)
      ensures this.resolver == resolver && this.hasResolver == hasResolver
      ensures this.cancel == cancel && this.digest == digest && total == 0
    {
      this.resolver, this.hasResolver, this.cancel, this.digest, total := resolver, hasResolver, cancel, digest, 0;
    }

    function Oracles(): Env {
      Env(hasResolver, resolver.answers, digest, cancel.answers)
    }

    ghost function Done(): Progress
      reads this, cancel, resolver
    {
      Progress(total, cancel.readCount, resolver.calls)
    }

    method ResolveReference(f: Fields) returns (r: Result<Value>)
      requires "artifact_id" in f
      modifies this, cancel, resolver
      ensures r.Err? ==> ResolvedReference(Oracles(), f, old(Done())) == Err(r.failure)
      ensures r.Ok? ==> ResolvedReference(Oracles(), f, old(Done())) == Ok((r.value, Done()))
    {
      var set_ := cancel.IsSet();
      if set_ {
        return Err(Interrupted);
      }
      if !hasResolver || !f["artifact_id"].Str? {
        return Err(Unavailable);
      }
      var reply := resolver.Read(f["artifact_id"].s);
      if reply.ReadCancelled? {
        return Err(Interrupted);
      }
      if reply.ReadFailed? {
        return Err(Unavailable);
      }
      set_ := cancel.IsSet();
      if set_ {
        return Err(Interrupted);
      }
      if !reply.Found? {
        return Err(Unavailable);
      }
      var a := reply.artifact;
      if Get(f, "mime_type") != Str(a.mimeType) || a.data.None? || a.data.value == [] {
        return Err(Unavailable);
      }
      if a.size != |a.data.value| || a.size > MAX_MEDIA {
        return Err(Unavailable);
      }
      if a.sha256 != digest(a.data.value) {
        return Err(Unavailable);
      }
      total := total + a.size;
      if total > MAX_MEDIA {
        return Err(Unavailable);
      }
      return Ok(Dict((f - {"artifact_id"})["data" := Bytes(a.data.value)]));
    }

    method ResolveParts(items: seq<Value>) returns (r: Result<seq<Value>>)
      modifies this, cancel, resolver
      ensures r.Err? ==> Thread(PartStep(Oracles()), items, old(Done())) == Err(r.failure)
      ensures r.Ok? ==> Thread(PartStep(Oracles()), items, old(Done())) == Ok((r.value, Done()))
    {
      var parts: seq<Value> := [];
      ghost var step, start := PartStep(Oracles()), Done();
      assert items[0..] == items;
      AfterNothing(Thread(step, items, start));
      for i := 0 to |items|
        invariant Thread(step, items, start) == After(parts, Thread(step, items[i..], Done()))
      {
        var raw := items[i];
        assert items[i..][0] == raw && items[i..][1..] == items[i + 1..];
        ghost var before := Done();
        var part := Dict(map[]);
        if raw.Dict? && "artifact_id" in raw.fields {
          var resolved := ResolveReference(raw.fields);
          if resolved.Err? {
            assert step(raw, before) == Err(resolved.failure);
            return Err(resolved.failure);
          }
          part := resolved.value;
        } else if raw.Dict? {
          if Get(raw.fields, "data").Bytes? {
            total := total + |raw.fields["data"].data|;
            if total > MAX_MEDIA {
              assert step(raw, before) == Err(Unavailable);
              return Err(Unavailable);
            }
          }
          part := raw;
        }
        assert step(raw, before) == Ok((part, Done()));
        ghost var rest := Thread(step, items[i + 1..], Done());
        assert Thread(step, items[i..], before) == After([part], rest);
        AfterOneMore(parts, part, rest);
        parts := parts + [part];
      }
      assert items[|items|..] == [] && parts + [] == parts;
      return Ok(parts);
    }

    method ResolveRequest(request: Request) returns (r: Result<Request>)
      requires total == 0
      modifies this, cancel, resolver
      ensures r == Resolved(Oracles(), request, old(Done()))
    {
      var messages: seq<Fields> := [];
      var items := request.messages;
      ghost var step, start := MessageStep(Oracles()), Done();
      assert items[0..] == items;
      AfterNothing(Thread(step, items, start));
      for i := 0 to |items|
        invariant Thread(step, items, start) == After(messages, Thread(step, items[i..], Done()))
      {
        var m := items[i];
        assert items[i..][0] == m && items[i..][1..] == items[i + 1..];
        ghost var before := Done();
        var copied := m;
        if Get(m, "content").List? {
          var parts := ResolveParts(m["content"].items);
          if parts.Err? {
            assert step(m, before) == Err(parts.failure);
            return Err(parts.failure);
          }
          copied := m["content" := List(parts.value)];
        }
        assert step(m, before) == Ok((copied, Done()));
        ghost var rest := Thread(step, items[i + 1..], Done());
        assert Thread(step, items[i..], before) == After([copied], rest);
        AfterOneMore(messages, copied, rest);
        messages := messages + [copied];
      }
      assert items[|items|..] == [] && messages + [] == messages;
      return Ok(request.(messages := messages));
    }
  }
}
