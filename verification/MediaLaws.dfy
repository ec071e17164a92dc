/**
 The byte budget and the shape of a request from its payload to the planner
 (src/cyrene_exchange/protocol.py and `_resolve_media_artifacts` in
 src/cyrene_exchange/gateway.py).
 */
module MediaLaws {
  import opened Prelude
  import opened Values
  import opened Protocol
  import opened Projection
  import opened ProjectionLaws
  import opened Media

  function Sum<T>(s: seq<T>, size: T -> nat): nat {
    if s == [] then 0 else size(s[0]) + Sum(s[1..], size)
  }

  /** Inline bytes of a part, of a message, and of a request. */
  function PartSize(v: Value): nat {
    if v.Dict? then InlineSize(v.fields) else 0
  }

  function MessageSize(m: Fields): nat {
    if Get(m, "content").List? then Sum(m["content"].items, PartSize) else 0
  }

  function MediaSize(r: Request): nat {
    Sum(r.messages, MessageSize)
  }

  // ---- threading a budget, in general -------------------------------------------------

  ghost predicate Spends<A(!new), B(!new), S(!new)>(
    f: (A, S) -> Result<(B, S)>, spent: S -> nat, size: B -> nat)
  {
    forall x, st :: spent(st) <= MAX_MEDIA && f(x, st).Ok? ==>
      spent(f(x, st).value.1) == spent(st) + size(f(x, st).value.0) <= MAX_MEDIA
  }

  /** If each step accounts for the size of its result, the whole run does. */
  lemma {:induction false} ThreadSpends<A(!new), B(!new), S(!new)>(
    f: (A, S) -> Result<(B, S)>, s: seq<A>, st: S, spent: S -> nat, size: B -> nat)
    requires Spends(f, spent, size) && spent(st) <= MAX_MEDIA && Thread(f, s, st).Ok?
    ensures spent(Thread(f, s, st).value.1) == spent(st) + Sum(Thread(f, s, st).value.0, size) <= MAX_MEDIA
    decreases |s|
  {
    if s != [] {
      var first := f(s[0], st).value;
      ThreadSpends(f, s[1..], first.1, spent, size);
      assert Thread(f, s, st).value.0[1..] == Thread(f, s[1..], first.1).value.0;
    }
  }

  ghost predicate Affords<A(!new), B(!new), S(!new)>(
    f: (A, S) -> Result<(B, S)>, spent: S -> nat, fine: A -> bool, cost: A -> nat)
  {
    forall x, st :: spent(st) <= MAX_MEDIA ==>
      && (f(x, st).Ok? <==> fine(x) && spent(st) + cost(x) <= MAX_MEDIA)
      && (f(x, st).Ok? ==> spent(f(x, st).value.1) == spent(st) + cost(x))
  }

  /** If each step succeeds exactly when it can be afforded, the whole run succeeds exactly when all of it can. */
  lemma {:induction false} ThreadAffords<A(!new), B(!new), S(!new)>(
    f: (A, S) -> Result<(B, S)>, s: seq<A>, st: S, spent: S -> nat, fine: A -> bool, cost: A -> nat)
    requires Affords(f, spent, fine, cost) && spent(st) <= MAX_MEDIA
    ensures Thread(f, s, st).Ok? <==>
      (forall i :: 0 <= i < |s| ==> fine(s[i])) && spent(st) + Sum(s, cost) <= MAX_MEDIA
    ensures Thread(f, s, st).Ok? ==> spent(Thread(f, s, st).value.1) == spent(st) + Sum(s, cost)
    decreases |s|
  {
    if s != [] {
      assert (forall i :: 0 <= i < |s| ==> fine(s[i])) <==> fine(s[0]) && forall i :: 0 <= i < |s[1..]| ==> fine(s[1..][i]) by {
        assert forall i :: 0 < i < |s| ==> s[i] == s[1..][i - 1];
      }
      if f(s[0], st).Ok? {
        ThreadAffords(f, s[1..], f(s[0], st).value.1, spent, fine, cost);
      }
    }
  }

  // ---- the payload's own media ---------------------------------------------------------

  lemma {:induction false} NormalizedPartSpends(raw: Value, total: nat)
    requires total <= MAX_MEDIA && NormalizedPart(raw, total).Ok?
    ensures NormalizedPart(raw, total).value.1 == total + PartSize(NormalizedPart(raw, total).value.0) <= MAX_MEDIA
  {
  }

  lemma {:induction false} NormalizedMessageSpends(raw: Value, total: nat)
    requires total <= MAX_MEDIA && MessageAt(raw, total).Ok?
    ensures MessageAt(raw, total).value.1 == total + MessageSize(MessageAt(raw, total).value.0) <= MAX_MEDIA
  {
    var f := raw.fields;
    NormalizedKeys(f, total);
    NormalizedText(f, total);
    if Get(f, "content").List? {
      var spent := (t: nat) => t;
      assert Spends(NormalizedPart, spent, PartSize) by {
        forall x, st | spent(st) <= MAX_MEDIA && NormalizedPart(x, st).Ok?
          ensures spent(NormalizedPart(x, st).value.1) == spent(st) + PartSize(NormalizedPart(x, st).value.0) <= MAX_MEDIA
        {
          NormalizedPartSpends(x, st);
        }
      }
      ThreadSpends(NormalizedPart, f["content"].items, total, spent, PartSize);
    }
  }

  /** The decoded media of an accepted payload together stay within the limit. */
  lemma {:induction false} AcceptedWithinBudget(payload: Value)
    requires NormalizedRequest(payload).Ok?
    ensures MediaSize(NormalizedRequest(payload).value) <= 20 * 1024 * 1024
  {
    var spent := (t: nat) => t;
    assert Spends(MessageAt, spent, MessageSize) by {
      forall x, st | spent(st) <= MAX_MEDIA && MessageAt(x, st).Ok?
        ensures spent(MessageAt(x, st).value.1) == spent(st) + MessageSize(MessageAt(x, st).value.0) <= MAX_MEDIA
      {
        NormalizedMessageSpends(x, st);
      }
    }
    ThreadSpends(MessageAt, RawMessages(payload), 0, spent, MessageSize);
  }

  // ---- resolution keeps the budget ------------------------------------------------------

  lemma {:induction false} ResolvedPartSpends(env: Env, raw: Value, p: Progress)
    requires p.total <= MAX_MEDIA && ResolvedPart(env, raw, p).Ok?
    ensures ResolvedPart(env, raw, p).value.1.total == p.total + PartSize(ResolvedPart(env, raw, p).value.0) <= MAX_MEDIA
  {
  }

  lemma {:induction false} ResolvedMessageSpends(env: Env, m: Fields, p: Progress)
    requires p.total <= MAX_MEDIA && ResolvedMessage(env, m, p).Ok?
    ensures ResolvedMessage(env, m, p).value.1.total
      == p.total + MessageSize(ResolvedMessage(env, m, p).value.0) <= MAX_MEDIA
  {
    if Get(m, "content").List? {
      var spent := (q: Progress) => q.total;
      var step := PartStep(env);
      assert Spends(step, spent, PartSize) by {
        forall x, st | spent(st) <= MAX_MEDIA && step(x, st).Ok?
          ensures spent(step(x, st).value.1) == spent(st) + PartSize(step(x, st).value.0) <= MAX_MEDIA
        {
          ResolvedPartSpends(env, x, st);
        }
      }
      ThreadSpends(step, m["content"].items, p, spent, PartSize);
    }
  }

  /** Whatever the resolver answers, all media of a resolved request together stay within the limit. */
  lemma {:induction false} ResolvedWithinBudget(env: Env, r: Request, start: Progress)
    requires start.total == 0 && Resolved(env, r, start).Ok?
    ensures MediaSize(Resolved(env, r, start).value) <= 20 * 1024 * 1024
  {
    var spent := (q: Progress) => q.total;
    var step := MessageStep(env);
    assert Spends(step, spent, MessageSize) by {
      forall x, st | spent(st) <= MAX_MEDIA && step(x, st).Ok?
        ensures spent(step(x, st).value.1) == spent(st) + MessageSize(step(x, st).value.0) <= MAX_MEDIA
      {
        ResolvedMessageSpends(env, x, st);
      }
    }
    ThreadSpends(step, r.messages, start, spent, MessageSize);
  }

  // ---- shape and provenance --------------------------------------------------------------

  predicate IsReference(v: Value) {
    v.Dict? && "artifact_id" in v.fields
  }

  /** `v` is `raw` with its reference, if it has one, replaced by bytes the resolver vouched for. */
  ghost predicate Stands(env: Env, raw: Value, v: Value) {
    && v.Dict? && "artifact_id" !in v.fields
    && (raw.Dict? && !IsReference(raw) ==> v == raw)
    && (!raw.Dict? ==> v == Dict(map[]))
    && (IsReference(raw) ==> exists k: nat ::
         && raw.fields["artifact_id"].Str?
         && Backs(env, raw.fields, env.read(raw.fields["artifact_id"].s, k), v.fields))
  }

  /** The artifact has the MIME type the reference names, is not empty, and has the size and the digest of its record. */
  predicate VouchedFor(env: Env, f: Fields, reply: Reply) {
    && reply.Found? && "mime_type" in f && f["mime_type"] == Str(reply.artifact.mimeType)
    && reply.artifact.data.Some? && |reply.artifact.data.value| > 0
    && reply.artifact.size == |reply.artifact.data.value| <= 20 * 1024 * 1024
    && env.digest(reply.artifact.data.value) == reply.artifact.sha256
  }

  predicate Backs(env: Env, f: Fields, reply: Reply, g: Fields) {
    && VouchedFor(env, f, reply)
    && g.Keys == f.Keys - {"artifact_id"} + {"data"}
    && g["data"] == Bytes(reply.artifact.data.value)
    && forall key :: key in g && key != "data" ==> g[key] == f[key]
  }

  lemma {:induction false} PartStands(env: Env, raw: Value, p: Progress)
    requires ResolvedPart(env, raw, p).Ok?
    ensures Stands(env, raw, ResolvedPart(env, raw, p).value.0)
  {
    if IsReference(raw) {
      var f := raw.fields;
      var reply := env.read(f["artifact_id"].s, p.calls);
      assert Backs(env, f, reply, ResolvedPart(env, raw, p).value.0.fields);
    }
  }

  /** The message is unchanged but for its parts, which correspond one to one. */
  ghost predicate MessageStands(env: Env, m: Fields, n: Fields) {
    if !Get(m, "content").List? then n == m
    else
      && n.Keys == m.Keys && n["content"].List?
      && (forall key :: key in m && key != "content" ==> n[key] == m[key])
      && |n["content"].items| == |m["content"].items|
      && forall j :: 0 <= j < |m["content"].items| ==> Stands(env, m["content"].items[j], n["content"].items[j])
  }

  /** A resolved request has the same messages and parts, in number and order, and no reference is left. */
  lemma {:induction false} ResolutionKeepsShape(env: Env, r: Request, start: Progress, i: nat)
    requires Resolved(env, r, start).Ok? && i < |r.messages|
    ensures |Resolved(env, r, start).value.messages| == |r.messages|
    ensures MessageStands(env, r.messages[i], Resolved(env, r, start).value.messages[i])
    ensures Resolved(env, r, start).value.(messages := r.messages) == r
  {
    var before := ThreadEach(MessageStep(env), r.messages, start, i);
    var m := r.messages[i];
    var n := Resolved(env, r, start).value.messages[i];
    assert ResolvedMessage(env, m, before).value.0 == n;
    if Get(m, "content").List? {
      forall j | 0 <= j < |m["content"].items| ensures Stands(env, m["content"].items[j], n["content"].items[j]) {
        var q := ThreadEach(PartStep(env), m["content"].items, before, j);
        PartStands(env, m["content"].items[j], q);
      }
    }
  }

  // ---- when resolution succeeds -----------------------------------------------------------

  /** Nobody cancels and the resolver answers an id the same way every time. */
  ghost predicate Steady(env: Env) {
    && env.hasResolver
    && (forall k :: !env.cancelled(k))
    && (forall id, k :: env.read(id, k) == env.read(id, 0))
  }

  /** A reference the resolver can honour; anything else needs no resolver. */
  predicate Honoured(env: Env, raw: Value) {
    IsReference(raw) ==>
      && raw.fields["artifact_id"].Str?
      && VouchedFor(env, raw.fields, env.read(raw.fields["artifact_id"].s, 0))
  }

  function Cost(env: Env, raw: Value): nat {
    if !IsReference(raw) then PartSize(raw)
    else if Honoured(env, raw) then |env.read(raw.fields["artifact_id"].s, 0).artifact.data.value|
    else 0
  }

  function PartHonoured(env: Env): Value -> bool {
    raw => Honoured(env, raw)
  }

  function PartCost(env: Env): Value -> nat {
    raw => Cost(env, raw)
  }

  predicate AllHonoured(env: Env, m: Fields) {
    Get(m, "content").List? ==>
      forall j :: 0 <= j < |m["content"].items| ==> PartHonoured(env)(m["content"].items[j])
  }

  function TotalCost(env: Env, m: Fields): nat {
    if Get(m, "content").List? then Sum(m["content"].items, PartCost(env)) else 0
  }

  function MessageHonoured(env: Env): Fields -> bool {
    m => AllHonoured(env, m)
  }

  function MessageCost(env: Env): Fields -> nat {
    m => TotalCost(env, m)
  }

  lemma {:induction false} PartAffords(env: Env, raw: Value, p: Progress)
    requires Steady(env) && p.total <= MAX_MEDIA
    ensures ResolvedPart(env, raw, p).Ok? <==> Honoured(env, raw) && p.total + Cost(env, raw) <= MAX_MEDIA
    ensures ResolvedPart(env, raw, p).Ok? ==> ResolvedPart(env, raw, p).value.1.total == p.total + Cost(env, raw)
  {
    if IsReference(raw) && raw.fields["artifact_id"].Str? {
      var id := raw.fields["artifact_id"].s;
      assert env.read(id, p.calls) == env.read(id, 0);
    }
  }

  lemma {:induction false} MessageAffords(env: Env, m: Fields, p: Progress)
    requires Steady(env) && p.total <= MAX_MEDIA
    ensures ResolvedMessage(env, m, p).Ok? <==> AllHonoured(env, m) && p.total + TotalCost(env, m) <= MAX_MEDIA
    ensures ResolvedMessage(env, m, p).Ok? ==> ResolvedMessage(env, m, p).value.1.total == p.total + TotalCost(env, m)
  {
    if Get(m, "content").List? {
      var spent := (q: Progress) => q.total;
      var step := PartStep(env);
      assert Affords(step, spent, PartHonoured(env), PartCost(env)) by {
        forall x, st | spent(st) <= MAX_MEDIA
          ensures step(x, st).Ok? <==> PartHonoured(env)(x) && spent(st) + PartCost(env)(x) <= MAX_MEDIA
          ensures step(x, st).Ok? ==> spent(step(x, st).value.1) == spent(st) + PartCost(env)(x)
        {
          PartAffords(env, x, st);
        }
      }
      ThreadAffords(step, m["content"].items, p, spent, PartHonoured(env), PartCost(env));
    }
  }

  /**
   With a steady resolver and no cancellation a request is resolved exactly
   when every reference can be honoured and everything together fits.
   */
  lemma {:induction false} ResolvesExactly(env: Env, r: Request, start: Progress)
    requires Steady(env) && start.total == 0
    ensures Resolved(env, r, start).Ok? <==>
      && (forall i :: 0 <= i < |r.messages| ==> AllHonoured(env, r.messages[i]))
      && Sum(r.messages, MessageCost(env)) <= 20 * 1024 * 1024
  {
    var spent := (q: Progress) => q.total;
    var step := MessageStep(env);
    assert Affords(step, spent, MessageHonoured(env), MessageCost(env)) by {
      forall x, st | spent(st) <= MAX_MEDIA
        ensures step(x, st).Ok? <==> MessageHonoured(env)(x) && spent(st) + MessageCost(env)(x) <= MAX_MEDIA
        ensures step(x, st).Ok? ==> spent(step(x, st).value.1) == spent(st) + MessageCost(env)(x)
      {
        MessageAffords(env, x, st);
      }
    }
    ThreadAffords(step, r.messages, start, spent, MessageHonoured(env), MessageCost(env));
  }

  // ---- how resolution fails -----------------------------------------------------------------

  /** Somebody cancelled: the event was set at a check, or the resolver's read was cancelled. */
  ghost predicate SomebodyCancelled(env: Env) {
    (exists k :: env.cancelled(k)) || (exists id, k :: env.read(id, k) == ReadCancelled)
  }

  predicate FailsAs(failure: Failure) {
    failure == Interrupted || failure == Unavailable
  }

  lemma {:induction false} PartFailure(env: Env, raw: Value, p: Progress)
    requires ResolvedPart(env, raw, p).Err?
    ensures FailsAs(ResolvedPart(env, raw, p).failure)
    ensures ResolvedPart(env, raw, p).failure == Interrupted ==> IsReference(raw) && SomebodyCancelled(env)
  {
  }

  lemma {:induction false} MessageFailure(env: Env, m: Fields, p: Progress)
    requires ResolvedMessage(env, m, p).Err?
    ensures FailsAs(ResolvedMessage(env, m, p).failure)
    ensures ResolvedMessage(env, m, p).failure == Interrupted ==> SomebodyCancelled(env)
  {
    var j := ThreadFailure(PartStep(env), m["content"].items, p);
    PartFailure(env, m["content"].items[j], Thread(PartStep(env), m["content"].items[..j], p).value.1);
  }

  /** A request that is not resolved is interrupted only if somebody cancelled; every other failure is the artifact's. */
  lemma {:induction false} InterruptedOnlyByCancellation(env: Env, r: Request, start: Progress)
    ensures Resolved(env, r, start).Err? ==> FailsAs(Resolved(env, r, start).failure)
    ensures Resolved(env, r, start) == Err(Interrupted) ==> SomebodyCancelled(env)
  {
    if Resolved(env, r, start).Err? {
      var i := ThreadFailure(MessageStep(env), r.messages, start);
      MessageFailure(env, r.messages[i], Thread(MessageStep(env), r.messages[..i], start).value.1);
    }
  }

  // ---- resolution and delivery -------------------------------------------------------------

  /** A part keeps its place in the typed contract when its reference is replaced. */
  lemma {:induction false} StandInProjects(env: Env, raw: Value, v: Value)
    requires Stands(env, raw, v) && ToPart(raw).Ok?
    ensures ToPart(v).Ok?
  {
    if IsReference(raw) {
      var k: nat :| raw.fields["artifact_id"].Str?
        && Backs(env, raw.fields, env.read(raw.fields["artifact_id"].s, k), v.fields);
      var f, g := raw.fields, v.fields;
      assert forall key :: key != "data" && key != "artifact_id" ==> Get(g, key) == Get(f, key);
      if Get(f, "type") == Str("text") {
        assert g["text"] == f["text"];
      }
    }
  }

  lemma {:induction false} MessageStaysDeliverable(env: Env, m: Fields, n: Fields)
    requires MessageStands(env, m, n)
    ensures TypedContent(n) <==> TypedContent(m)
    ensures ToChatMessage(WithoutContent(n)) == ToChatMessage(WithoutContent(m))
    ensures ToChatMessage(n).Ok? <==> ToChatMessage(m).Ok?
    ensures WithoutContent(n) == WithoutContent(m)
    ensures ToChatMessageV3(m).Ok? ==> ToChatMessageV3(n).Ok?
  {
    if Get(m, "content").List? {
      assert WithoutContent(n) == WithoutContent(m);
      if ToChatMessageV3(m).Ok? {
        forall j | 0 <= j < |n["content"].items| ensures ToPart(n["content"].items[j]).Ok? {
          StandInProjects(env, m["content"].items[j], n["content"].items[j]);
        }
      }
    }
  }

  /** Whether the parts of a message have a say in the typed projection of it. */
  predicate PartsAlwaysProject(m: Fields) {
    ToChatMessageV3(m).Ok? <==> Get(m, "content").List? && ToChatMessage(WithoutContent(m)).Ok?
  }

  /** For an accepted message the typed projection depends on its other fields only. */
  lemma {:induction false} AcceptedParts(payload: Value, i: nat)
    requires NormalizedRequest(payload).Ok? && i < |NormalizedRequest(payload).value.messages|
    ensures PartsAlwaysProject(NormalizedRequest(payload).value.messages[i])
  {
    var raw := RawMessages(payload);
    assert |NormalizedRequest(payload).value.messages| == |raw|;
    var total := MessageOf(payload, i);
    NormalizedKeys(raw[i].fields, total);
    NormalizedText(raw[i].fields, total);
    MessageProjects(raw[i].fields, total);
    MessageProjectsV3(raw[i].fields, total);
  }

  lemma {:induction false} MessagesStayDeliverable(env: Env, r: Request, start: Progress, i: nat)
    requires Resolved(env, r, start).Ok? && i < |r.messages| && PartsAlwaysProject(r.messages[i])
    ensures |Resolved(env, r, start).value.messages| == |r.messages|
    ensures SameFate(r.messages[i], Resolved(env, r, start).value.messages[i])
  {
    ResolutionKeepsShape(env, r, start, i);
    MessageStaysDeliverable(env, r.messages[i], Resolved(env, r, start).value.messages[i]);
  }

  /** The two messages are treated alike by every projection. */
  predicate SameFate(m: Fields, n: Fields) {
    && (TypedContent(n) <==> TypedContent(m))
    && WithoutContent(n) == WithoutContent(m)
    && (ToChatMessage(n).Ok? <==> ToChatMessage(m).Ok?)
    && (ToChatMessageV3(n).Ok? <==> ToChatMessageV3(m).Ok?)
  }

  /** Resolution never decides whether an accepted request can be delivered to a plugin. */
  lemma {:induction false} ResolutionKeepsDelivery(env: Env, payload: Value, start: Progress)
    requires NormalizedRequest(payload).Ok? && Resolved(env, NormalizedRequest(payload).value, start).Ok?
    ensures Delivered(Resolved(env, NormalizedRequest(payload).value, start).value)
      <==> Delivered(NormalizedRequest(payload).value)
  {
    var r := NormalizedRequest(payload).value;
    var out := Resolved(env, r, start).value;
    assert |out.messages| == |r.messages|;
    forall i | 0 <= i < |r.messages| ensures SameFate(r.messages[i], out.messages[i]) {
      AcceptedParts(payload, i);
      MessagesStayDeliverable(env, r, start, i);
    }
    SameDelivery(r, out);
  }

  lemma {:induction false} SameDelivery(r: Request, out: Request)
    requires out == r.(messages := out.messages) && |out.messages| == |r.messages|
    requires forall i :: 0 <= i < |r.messages| ==> SameFate(r.messages[i], out.messages[i])
    ensures Delivered(out) <==> Delivered(r)
  {
    assert TextOnly(out).messages == TextOnly(r).messages;
    V3NeedsAllFour(r);
    V3NeedsAllFour(out);
    assert Each(ToChatMessageV3, out.messages).Ok? <==> Each(ToChatMessageV3, r.messages).Ok?;
    assert Each(ToChatMessage, out.messages).Ok? <==> Each(ToChatMessage, r.messages).Ok?;
    assert RequiresV3(out) <==> RequiresV3(r) by {
      if RequiresV3(r) {
        var i :| 0 <= i < |r.messages| && TypedContent(r.messages[i]);
        assert TypedContent(out.messages[i]);
      }
      if RequiresV3(out) {
        var i :| 0 <= i < |out.messages| && TypedContent(out.messages[i]);
        assert TypedContent(r.messages[i]);
      }
    }
  }

  // ---- requests without references ---------------------------------------------------------

  /** Parts that are mappings without a reference pass unchanged, while they fit. */
  lemma {:induction false} PlainPartsPass(env: Env, items: seq<Value>, p: Progress)
    requires forall j :: 0 <= j < |items| ==> items[j].Dict? && !IsReference(items[j])
    requires p.total + Sum(items, PartSize) <= MAX_MEDIA
    ensures Thread(PartStep(env), items, p) == Ok((items, p.(total := p.total + Sum(items, PartSize))))
    decreases |items|
  {
    if items != [] {
      var q := p.(total := p.total + PartSize(items[0]));
      assert PartStep(env)(items[0], p) == Ok((items[0], q));
      PlainPartsPass(env, items[1..], q);
      assert [items[0]] + items[1..] == items;
    }
  }

  predicate Plain(m: Fields) {
    Get(m, "content").List? ==>
      forall j :: 0 <= j < |m["content"].items| ==> m["content"].items[j].Dict? && !IsReference(m["content"].items[j])
  }

  lemma {:induction false} PlainMessagesPass(env: Env, messages: seq<Fields>, p: Progress)
    requires forall i :: 0 <= i < |messages| ==> Plain(messages[i])
    requires p.total + Sum(messages, MessageSize) <= MAX_MEDIA
    ensures Thread(MessageStep(env), messages, p) == Ok((messages, p.(total := p.total + Sum(messages, MessageSize))))
    decreases |messages|
  {
    if messages != [] {
      var m := messages[0];
      assert Plain(m);
      var q := p.(total := p.total + MessageSize(m));
      if Get(m, "content").List? {
        PlainPartsPass(env, m["content"].items, p);
        assert m["content" := List(m["content"].items)] == m;
      }
      assert MessageStep(env)(m, p) == Ok((m, q));
      PlainMessagesPass(env, messages[1..], q);
      assert [m] + messages[1..] == messages;
    }
  }

  /** An accepted payload without references is not touched, and neither the event nor the resolver is asked. */
  lemma {:induction false} PlainRequestsPass(env: Env, payload: Value, start: Progress)
    requires NormalizedRequest(payload).Ok? && start.total == 0
    requires forall i :: 0 <= i < |NormalizedRequest(payload).value.messages| ==>
      Plain(NormalizedRequest(payload).value.messages[i])
    ensures var r := NormalizedRequest(payload).value;
      && Resolved(env, r, start) == Ok(r)
      && Thread(MessageStep(env), r.messages, start).value.1 == start.(total := MediaSize(r))
  {
    AcceptedWithinBudget(payload);
    PlainMessagesPass(env, NormalizedRequest(payload).value.messages, start);
  }
}
