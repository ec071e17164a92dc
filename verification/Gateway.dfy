/**
 The request handlers (src/cyrene_exchange/gateway.py, `handle_openai_chat`,
 `handle_openai_embeddings`, `_collect_response`): preflight checks, then
 bounded fallback over route candidates. Each collaborator's answer is an input,
 so the theorems range over every provider script, every cancellation timing and
 every observer failure.
 */
module Gateway {
  import opened Prelude
  import opened Capabilities
  import opened Assembly
  import opened Lifecycle

  datatype Target = Target(providerRef: string, routeId: string)

  /** What resolving and invoking the provider of one candidate does. */
  datatype Provider =
    | ChatProvider(refusal: Option<Fault>, chunks: seq<Chunk>, end: Option<Fault>)
    | EmbeddingProvider(fault: Option<Fault>, model: string, complete: bool)

  datatype Body = ChatBody(message: Message, finish: string, usage: Option<Usage>) | EmbeddingBody(model: string)

  function BodyUsage(b: Body): Option<Usage> {
    if b.ChatBody? then b.usage else None
  }

  /** How the `try` block of one attempt leaves. */
  datatype AttemptResult =
    | Answer(body: Body)
    | Open(chunks: seq<Chunk>, end: Option<Fault>)
    | Stopped(usage: Option<Usage>)
    | RefusedBy(code: EmbeddingCode)
    | Escaped
    | Broke(name: string, usage: Option<Usage>)

  datatype Attempt = Attempt(result: AttemptResult, t: nat)

  datatype Outcome =
    | Answered(index: nat, body: Body)
    | Opened(index: nat, chunks: seq<Chunk>, end: Option<Fault>)
    | RaisedCancelled
    | RaisedLifecycle
    | RaisedRefusal(code: EmbeddingCode)
    | RaisedFailure
    | RaisedRejection(errorType: string)
    | LeftUnreported(index: nat)
    | Crashed(name: string)

  /** The callbacks a handler made, how it left, and how often it read the cancellation event. */
  datatype Run = Run(calls: seq<Call>, outcome: Outcome, t: nat)

  datatype Env = Env(
    requestId: string, model: string, stream: bool, principal: Principal,
    targets: seq<Target>, providers: seq<Provider>,
    answers: nat -> bool, replies: nat -> bool)

  ghost predicate ValidEnv(e: Env) {
    |e.providers| == |e.targets|
  }

  function MetaOf(e: Env, target: Target): Metadata {
    Metadata(e.requestId, e.model, e.stream,
      if target.routeId != "" then target.routeId else target.providerRef, target.providerRef, e.principal)
  }

  function MetaAt(e: Env, i: nat): Metadata
    requires i < |e.targets|
  {
    MetaOf(e, e.targets[i])
  }

  // ---- one attempt -----------------------------------------------------------------

  /** The `except` clause that catches a fault raised before a response exists. */
  function FaultResult(f: Fault, embedding: bool): AttemptResult {
    match f
    case RequestCancelled(u) => Stopped(if embedding then None else u)
    case InvocationCancelled => Stopped(None)
    case LifecycleError => Escaped
    case EmbeddingRefusal(code) => if embedding then RefusedBy(code) else Broke(AuditErrorType(f), None)
    case OtherError(name, u) => Broke(name, if embedding then None else u)
  }

  /** `_collect_response` with the first `i` chunks collected. */
  function Collect(chunks: seq<Chunk>, i: nat, end: Option<Fault>, answers: nat -> bool, t: nat): Attempt
    requires i <= |chunks|
    decreases |chunks| - i
  {
    if i < |chunks| then
      if answers(t) then Attempt(Stopped(MergeAll(chunks[..i])), t + 1)
      else Collect(chunks, i + 1, end, answers, t + 1)
    else if end.Some? then
      match end.value
      case RequestCancelled(u) => Attempt(Stopped(u), t)
      case InvocationCancelled => Attempt(Stopped(MergeAll(chunks)), t)
      case _ => Attempt(Broke(PROVIDER_TYPE, MergeAll(chunks)), t)
    else
      var message := Assembled(chunks);
      if message.None? then Attempt(Broke(PROVIDER_TYPE, None), t)
      else Attempt(Answer(ChatBody(message.value, UnaryFinish(chunks), MergeAll(chunks))), t)
  }

  method CollectResponse(chunks: seq<Chunk>, end: Option<Fault>, flag: CancelFlag) returns (r: AttemptResult)
    requires chunks != []
    modifies flag
    ensures Attempt(r, flag.readCount) == Collect(chunks, 1, end, flag.answers, old(flag.readCount))
  {
    ghost var whole := Collect(chunks, 1, end, flag.answers, flag.readCount);
    var collected := [chunks[0]];
    for i := 1 to |chunks|
      invariant collected == chunks[..i]
      invariant whole == Collect(chunks, i, end, flag.answers, flag.readCount)
    {
      assert chunks[..i + 1] == chunks[..i] + [chunks[i]];
      var cancelled := flag.IsSet();
      if cancelled {
        var usage := MergeChunkUsage(collected);
        return Stopped(usage);
      }
      collected := collected + [chunks[i]];
    }
    assert collected == chunks;
    r := FinishCollection(collected, end, flag.answers, flag.readCount);
  }

  /** After the last chunk: the provider's error, or the assembled answer. */
  method FinishCollection(collected: seq<Chunk>, end: Option<Fault>, ghost answers: nat -> bool, ghost t: nat)
    returns (r: AttemptResult)
    ensures Attempt(r, t) == Collect(collected, |collected|, end, answers, t)
  {
    var observed := MergeChunkUsage(collected);
    if end.Some? {
      match end.value {
        case RequestCancelled(u) => return Stopped(u);
        case InvocationCancelled => return Stopped(observed);
        case _ => return Broke(PROVIDER_TYPE, observed);
      }
    }
    var message := AssembleMessage(collected);
    if message.None? {
      return Broke(PROVIDER_TYPE, None);
    }
    return Answer(ChatBody(message.value, UnaryFinish(collected), observed));
  }

  /** The fault that ends an attempt before its first chunk, if any; an empty stream raises StopIteration. */
  function EarlyFault(p: Provider): Option<Fault> {
    match p
    case ChatProvider(refusal, chunks, end) =>
      if refusal.Some? then refusal
      else if chunks != [] then None
      else if end.Some? then end
      else Some(OtherError("StopIteration", None))
    case EmbeddingProvider(fault, _, _) => fault
  }

  function AttemptWith(p: Provider, stream: bool, answers: nat -> bool, t: nat): Attempt {
    var early := EarlyFault(p);
    if early.Some? then Attempt(FaultResult(early.value, p.EmbeddingProvider?), t)
    else
      match p
      case ChatProvider(_, chunks, end) =>
        if stream then Attempt(Open(chunks, end), t) else Collect(chunks, 1, end, answers, t)
      case EmbeddingProvider(_, model, complete) =>
        if !complete then Attempt(Broke(PROVIDER_TYPE, None), t)
        else if answers(t) then Attempt(Stopped(None), t + 1)
        else Attempt(Answer(EmbeddingBody(model)), t + 1)
  }

  method MakeAttempt(p: Provider, stream: bool, flag: CancelFlag) returns (r: AttemptResult)
    modifies flag
    ensures Attempt(r, flag.readCount) == AttemptWith(p, stream, flag.answers, old(flag.readCount))
  {
    var early := EarlyFault(p);
    if early.Some? {
      return FaultResult(early.value, p.EmbeddingProvider?);
    }
    match p {
      case ChatProvider(_, chunks, end) =>
        if stream {
          return Open(chunks, end);
        }
        r := CollectResponse(chunks, end, flag);
      case EmbeddingProvider(_, model, complete) =>
        if !complete {
          return Broke(PROVIDER_TYPE, None);
        }
        var cancelled := flag.IsSet();
        r := if cancelled then Stopped(None) else Answer(EmbeddingBody(model));
    }
  }

  // ---- bounded fallback --------------------------------------------------------------

  function After(calls: seq<Call>, run: Run): Run {
    run.(calls := calls + run.calls)
  }

  /** A callback followed by leaving the handler. */
  function Leave(call: Call, outcome: Outcome, t: nat): Run {
    Run([call], if call.ok then outcome else RaisedLifecycle, t)
  }

  /** Candidates `i` and later, after `t` reads of the event and `n` callbacks. */
  function Try(e: Env, i: nat, t: nat, n: nat): Run
    requires ValidEnv(e) && i <= |e.targets|
    decreases |e.targets| - i, 1
  {
    if i == |e.targets| then Run([], RaisedFailure, t)
    else if e.answers(t) then
      Leave(Refused(e.requestId, Some(e.principal), Cancelled, CANCELLED_TYPE, Some(e.model), Some(e.stream), e.replies(n)),
            RaisedCancelled, t + 1)
    else if !e.replies(n) then Run([Started(MetaAt(e, i), false)], RaisedLifecycle, t + 1)
    else
      var a := AttemptWith(e.providers[i], e.stream, e.answers, t + 1);
      After([Started(MetaAt(e, i), true)], Settle(e, i, a.result, a.t, n + 1))
  }

  /** The end of an admitted attempt: its terminal report, then an exit or the next candidate. */
  function Settle(e: Env, i: nat, r: AttemptResult, t: nat, n: nat): Run
    requires ValidEnv(e) && i < |e.targets|
    decreases |e.targets| - i, 0
  {
    var meta := MetaAt(e, i);
    match r
    case Answer(body) => Leave(Finished(meta, Completed, BodyUsage(body), None, e.replies(n)), Answered(i, body), t)
    case Open(chunks, end) => Run([], Opened(i, chunks, end), t)
    case Stopped(u) => Leave(Finished(meta, Cancelled, u, Some(CANCELLED_TYPE), e.replies(n)), RaisedCancelled, t)
    case RefusedBy(code) =>
      Leave(Finished(meta, Failed, None, Some(EmbeddingErrorType(code)), e.replies(n)), RaisedRefusal(code), t)
    case Escaped => Run([], LeftUnreported(i), t)
    case Broke(name, u) =>
      if e.answers(t) then
        Leave(Finished(meta, Cancelled, u, Some(CANCELLED_TYPE), e.replies(n)), RaisedCancelled, t + 1)
      else
        var call := Finished(meta, Failed, u, Some(name), e.replies(n));
        if call.ok then After([call], Try(e, i + 1, t + 1, n + 1)) else Run([call], RaisedLifecycle, t + 1)
  }

  /** Reports the end of one admitted attempt; `outcome` is None when the next candidate is to be tried. */
  method SettleAttempt(meta: Metadata, i: nat, r: AttemptResult, flag: CancelFlag, observer: Observer, ghost e: Env)
    returns (outcome: Option<Outcome>)
    requires ValidEnv(e) && i < |e.targets| && meta == MetaAt(e, i)
    requires e.answers == flag.answers && e.replies == observer.replies
    modifies flag, observer
    ensures |old(observer.calls)| <= |observer.calls| && observer.calls[..|old(observer.calls)|] == old(observer.calls)
    ensures var run := Settle(e, i, r, old(flag.readCount), |old(observer.calls)|);
      var made := observer.calls[|old(observer.calls)|..];
      if outcome.Some? then run == Run(made, outcome.value, flag.readCount)
      else run == After(made, Try(e, i + 1, flag.readCount, |observer.calls|))
  {
    var ok;
    match r {
      case Answer(body) =>
        ok := observer.OnRequestFinished(meta, Completed, BodyUsage(body), None);
        outcome := Some(if ok then Answered(i, body) else RaisedLifecycle);
      case Open(chunks, end) =>
        outcome := Some(Opened(i, chunks, end));
      case Stopped(u) =>
        ok := observer.OnRequestFinished(meta, Cancelled, u, Some(CANCELLED_TYPE));
        outcome := Some(if ok then RaisedCancelled else RaisedLifecycle);
      case RefusedBy(code) =>
        ok := observer.OnRequestFinished(meta, Failed, None, Some(EmbeddingErrorType(code)));
        outcome := Some(if ok then RaisedRefusal(code) else RaisedLifecycle);
      case Escaped =>
        outcome := Some(LeftUnreported(i));
      case Broke(name, u) =>
        var cancelled := flag.IsSet();
        if cancelled {
          ok := observer.OnRequestFinished(meta, Cancelled, u, Some(CANCELLED_TYPE));
          outcome := Some(if ok then RaisedCancelled else RaisedLifecycle);
        } else {
          ok := observer.OnRequestFinished(meta, Failed, u, Some(name));
          outcome := if ok then None else Some(RaisedLifecycle);
        }
    }
  }

  lemma {:induction false} AfterTwice(a: seq<Call>, b: seq<Call>, run: Run)
    ensures After(a, After(b, run)) == After(a + b, run)
  {
    assert a + (b + run.calls) == (a + b) + run.calls;
  }

  /** What was appended in two goes is what was appended in each. */
  lemma {:induction false} SuffixesJoin(first: seq<Call>, second: seq<Call>, third: seq<Call>)
    requires |first| <= |second| <= |third| && second[..|first|] == first && third[..|second|] == second
    ensures third[..|first|] == first
    ensures third[|first|..] == second[|first|..] + third[|second|..]
  {
    assert third == second + third[|second|..];
  }

  /** One iteration of the loop over the candidates. */
  method TryCandidate(e: Env, i: nat, flag: CancelFlag, observer: Observer) returns (outcome: Option<Outcome>)
    requires ValidEnv(e) && i < |e.targets| && e.answers == flag.answers && e.replies == observer.replies
    modifies flag, observer
    ensures |old(observer.calls)| <= |observer.calls| && observer.calls[..|old(observer.calls)|] == old(observer.calls)
    ensures var run := Try(e, i, old(flag.readCount), |old(observer.calls)|);
      var made := observer.calls[|old(observer.calls)|..];
      if outcome.Some? then run == Run(made, outcome.value, flag.readCount)
      else run == After(made, Try(e, i + 1, flag.readCount, |observer.calls|))
  {
    ghost var before := observer.calls;
    var cancelled := flag.IsSet();
    if cancelled {
      var told := observer.OnRequestRejected(
        e.requestId, Some(e.principal), Cancelled, CANCELLED_TYPE, Some(e.model), Some(e.stream));
      return Some(if told then RaisedCancelled else RaisedLifecycle);
    }
    var meta := MetaOf(e, e.targets[i]);
    var started := observer.OnRequestStarted(meta);
    if !started {
      return Some(RaisedLifecycle);
    }
    ghost var admitted := observer.calls;
    var r := MakeAttempt(e.providers[i], e.stream, flag);
    outcome := SettleAttempt(meta, i, r, flag, observer, e);
    ghost var late := observer.calls[|admitted|..];
    SuffixesJoin(before, admitted, observer.calls);
    AfterTwice([Started(meta, true)], late, Try(e, i + 1, flag.readCount, |observer.calls|));
  }

  /** The loop over the route candidates. */
  method TryCandidates(e: Env, flag: CancelFlag, observer: Observer) returns (outcome: Outcome)
    requires ValidEnv(e) && e.answers == flag.answers && e.replies == observer.replies
    modifies flag, observer
    ensures |old(observer.calls)| <= |observer.calls| && observer.calls[..|old(observer.calls)|] == old(observer.calls)
    ensures Run(observer.calls[|old(observer.calls)|..], outcome, flag.readCount)
            == Try(e, 0, old(flag.readCount), |old(observer.calls)|)
  {
    ghost var before := observer.calls;
    ghost var whole := Try(e, 0, flag.readCount, |before|);
    for i := 0 to |e.targets|
      invariant |before| <= |observer.calls| && observer.calls[..|before|] == before
      invariant whole == After(observer.calls[|before|..], Try(e, i, flag.readCount, |observer.calls|))
    {
      ghost var sofar := observer.calls;
      var done := TryCandidate(e, i, flag, observer);
      ghost var made := observer.calls[|sofar|..];
      SuffixesJoin(before, sofar, observer.calls);
      if done.Some? {
        return done.value;
      }
      AfterTwice(sofar[|before|..], made, Try(e, i + 1, flag.readCount, |observer.calls|));
    }
    return RaisedFailure;
  }

  // ---- preflight -----------------------------------------------------------------------

  datatype Kind = ChatRequest | EmbeddingRequest

  datatype Quota = NoQuota | Within | Exceeded | QuotaUnavailable | QuotaCrash(name: string)

  datatype Parsed = Parsed(model: string, stream: bool, includeUsage: bool)

  /** The routing capability is missing, raises, or returns a plan. */
  datatype Plan = PlanFails | Planned(targets: seq<Target>, providers: seq<Provider>)

  datatype Media = MediaReady | MediaCancelled | MediaUnavailable

  /**
   One request and the answers of the collaborators consulted before a provider
   is reached. `parseCrash` stands for the type error of the normaliser, which
   the handler does not map.
   */
  datatype Incoming = Incoming(
    kind: Kind, requestId: string, rawModel: Option<string>, rawStream: Option<bool>,
    principal: Option<Principal>, quota: Quota, parseCrash: bool, parsed: Option<Parsed>, permitted: bool,
    plan: Plan, media: Media, mediaReads: nat)

  ghost predicate ValidIncoming(q: Incoming) {
    && (q.plan.Planned? ==> |q.plan.providers| == |q.plan.targets|)
    && (q.parseCrash ==> q.parsed.None?)
    && (q.kind == EmbeddingRequest ==>
         && q.media == MediaReady && q.mediaReads == 0
         && (q.parsed.Some? ==> !q.parsed.value.stream))
  }

  /** The stream flag a rejection carries before the body is parsed. */
  function ReportedStream(q: Incoming): Option<bool> {
    if q.kind == EmbeddingRequest then Some(false) else q.rawStream
  }

  /** The plan is cut to the configured number of attempts before anything is tried. */
  function Candidates<T>(plan: seq<T>, maxAttempts: nat): seq<T> {
    if |plan| <= maxAttempts then plan else plan[..maxAttempts]
  }

  datatype Verdict =
    | Turned(errorType: string, status: Status, known: bool, parsed: bool)
    | Crash(name: string)
    | Proceed

  /** The first check that stops the request, in the handler's order, given what the early read of the event returned. */
  function Preflight(q: Incoming, cancelled: bool): Verdict {
    if q.principal.None? then Turned("authentication_error", Rejected, false, false)
    else if q.quota == Exceeded then Turned("quota_exceeded", Rejected, true, false)
    else if q.quota == QuotaUnavailable then Turned("quota_unavailable", Rejected, true, false)
    else if q.quota.QuotaCrash? then Crash(q.quota.name)
    else if cancelled then Turned(CANCELLED_TYPE, Cancelled, true, false)
    else if q.parseCrash then Crash("TypeError")
    else if q.parsed.None? then Turned("invalid_request_error", Rejected, true, false)
    else if !q.permitted then Turned("model_not_permitted", Rejected, true, true)
    else if q.plan.PlanFails? || q.plan.targets == [] then Turned("no_route", Rejected, true, true)
    else if q.media == MediaCancelled then Turned(CANCELLED_TYPE, Cancelled, true, true)
    else if q.media == MediaUnavailable then Turned("media_artifact_unavailable", Rejected, true, true)
    else Proceed
  }

  /** Whether the handler gets as far as its early read of the event, and as far as media resolution. */
  predicate ReadsEvent(q: Incoming) {
    q.principal.Some? && (q.quota == NoQuota || q.quota == Within)
  }

  predicate ResolvesMedia(q: Incoming, cancelled: bool) {
    ReadsEvent(q) && !cancelled && q.parsed.Some? && q.permitted && q.plan.Planned? && q.plan.targets != []
  }

  function RefusalCall(q: Incoming, v: Verdict, ok: bool): Call
    requires v.Turned? && (v.parsed ==> q.parsed.Some?)
  {
    Refused(q.requestId, if v.known then q.principal else None, v.status, v.errorType,
      if v.parsed then Some(q.parsed.value.model) else q.rawModel,
      if v.parsed then Some(q.parsed.value.stream) else ReportedStream(q), ok)
  }

  function EnvOf(q: Incoming, maxAttempts: nat, answers: nat -> bool, replies: nat -> bool): (e: Env)
    requires ValidIncoming(q) && q.principal.Some? && q.parsed.Some? && q.plan.Planned?
    ensures ValidEnv(e) && |e.targets| <= maxAttempts
    ensures |e.targets| == if |q.plan.targets| <= maxAttempts then |q.plan.targets| else maxAttempts
    ensures forall i :: 0 <= i < |e.targets| ==>
      e.targets[i] == q.plan.targets[i] && e.providers[i] == q.plan.providers[i]
    ensures e.requestId == q.requestId && Some(e.principal) == q.principal
    ensures e.model == q.parsed.value.model && e.stream == q.parsed.value.stream
  {
    Env(q.requestId, q.parsed.value.model, q.parsed.value.stream, q.principal.value,
      Candidates(q.plan.targets, maxAttempts), Candidates(q.plan.providers, maxAttempts), answers, replies)
  }

  /** A whole handler run, up to the point where it returns or raises. */
  function Handle(q: Incoming, maxAttempts: nat, answers: nat -> bool, replies: nat -> bool, t: nat, n: nat): Run
    requires ValidIncoming(q)
  {
    var cancelled := ReadsEvent(q) && answers(t);
    var t1 := if ReadsEvent(q) then t + 1 else t;
    var t2 := if ResolvesMedia(q, cancelled) then t1 + q.mediaReads else t1;
    var v := Preflight(q, cancelled);
    match v
    case Turned(errorType, status, _, _) =>
      Leave(RefusalCall(q, v, replies(n)),
        if status == Cancelled then RaisedCancelled else RaisedRejection(errorType), t2)
    case Crash(name) => Run([], Crashed(name), t2)
    case Proceed => Try(EnvOf(q, maxAttempts, answers, replies), 0, t2, n)
  }

  /** What happens once candidates are planned, `t` reads of the event into the run. */
  function Routed(q: Incoming, maxAttempts: nat, answers: nat -> bool, replies: nat -> bool, t: nat, n: nat): Run
    requires ValidIncoming(q) && q.principal.Some? && q.parsed.Some? && q.plan.Planned?
  {
    match q.media
    case MediaCancelled =>
      Leave(RefusalCall(q, Turned(CANCELLED_TYPE, Cancelled, true, true), replies(n)), RaisedCancelled, t + q.mediaReads)
    case MediaUnavailable =>
      Leave(RefusalCall(q, Turned("media_artifact_unavailable", Rejected, true, true), replies(n)),
            RaisedRejection("media_artifact_unavailable"), t + q.mediaReads)
    case MediaReady => Try(EnvOf(q, maxAttempts, answers, replies), 0, t + q.mediaReads, n)
  }

  lemma {:induction false} HandleReachesRouting(q: Incoming, maxAttempts: nat, answers: nat -> bool, replies: nat -> bool,
                                                t: nat, n: nat)
    requires ValidIncoming(q) && ResolvesMedia(q, answers(t))
    ensures Handle(q, maxAttempts, answers, replies, t, n) == Routed(q, maxAttempts, answers, replies, t + 1, n)
  {
  }

  lemma {:induction false} HandleTurnsEarly(q: Incoming, maxAttempts: nat, answers: nat -> bool, replies: nat -> bool,
                                            t: nat, n: nat, v: Verdict)
    requires ValidIncoming(q) && ReadsEvent(q) && !ResolvesMedia(q, answers(t))
    requires v == Preflight(q, answers(t)) && !v.Crash?
    ensures v.Turned? && (v.parsed ==> q.parsed.Some?)
    ensures Handle(q, maxAttempts, answers, replies, t, n)
      == Leave(RefusalCall(q, v, replies(n)), if v.status == Cancelled then RaisedCancelled else RaisedRejection(v.errorType), t + 1)
  {
  }

  method RejectRequest(q: Incoming, v: Verdict, observer: Observer) returns (outcome: Outcome)
    requires v.Turned? && (v.parsed ==> q.parsed.Some?)
    modifies observer
    ensures observer.calls == old(observer.calls) + [RefusalCall(q, v, observer.replies(|old(observer.calls)|))]
    ensures outcome ==
      if !observer.replies(|old(observer.calls)|) then RaisedLifecycle
      else if v.status == Cancelled then RaisedCancelled else RaisedRejection(v.errorType)
  {
    var call := RefusalCall(q, v, true);
    var ok := observer.OnRequestRejected(call.requestId, call.principal, call.status, call.reason, call.model, call.stream);
    outcome := if !ok then RaisedLifecycle
      else if v.status == Cancelled then RaisedCancelled else RaisedRejection(v.errorType);
  }

  /** Both handlers: authenticate, check quota, parse, authorise, plan, resolve media, then try the candidates. */
  method HandleRequest(q: Incoming, maxAttempts: nat, flag: CancelFlag, observer: Observer) returns (outcome: Outcome)
    requires ValidIncoming(q)
    modifies flag, observer
    ensures |old(observer.calls)| <= |observer.calls| && observer.calls[..|old(observer.calls)|] == old(observer.calls)
    ensures Run(observer.calls[|old(observer.calls)|..], outcome, flag.readCount)
            == Handle(q, maxAttempts, flag.answers, observer.replies, old(flag.readCount), |old(observer.calls)|)
  {
    if q.principal.None? {
      outcome := RejectRequest(q, Turned("authentication_error", Rejected, false, false), observer);
      return;
    }
    match q.quota {
      case Exceeded =>
        outcome := RejectRequest(q, Turned("quota_exceeded", Rejected, true, false), observer);
        return;
      case QuotaUnavailable =>
        outcome := RejectRequest(q, Turned("quota_unavailable", Rejected, true, false), observer);
        return;
      case QuotaCrash(name) =>
        return Crashed(name);
      case _ =>
    }
    outcome := HandleAdmitted(q, maxAttempts, flag, observer);
  }

  /** The rest of the handler, for an authenticated principal within its quota. */
  method HandleAdmitted(q: Incoming, maxAttempts: nat, flag: CancelFlag, observer: Observer) returns (outcome: Outcome)
    requires ValidIncoming(q) && ReadsEvent(q)
    modifies flag, observer
    ensures |old(observer.calls)| <= |observer.calls| && observer.calls[..|old(observer.calls)|] == old(observer.calls)
    ensures Run(observer.calls[|old(observer.calls)|..], outcome, flag.readCount)
            == Handle(q, maxAttempts, flag.answers, observer.replies, old(flag.readCount), |old(observer.calls)|)
  {
    var verdict := Proceed;
    var cancelled := flag.IsSet();
    if cancelled {
      verdict := Turned(CANCELLED_TYPE, Cancelled, true, false);
    } else if q.parseCrash {
      return Crashed("TypeError");
    } else if q.parsed.None? {
      verdict := Turned("invalid_request_error", Rejected, true, false);
    } else if !q.permitted {
      verdict := Turned("model_not_permitted", Rejected, true, true);
    } else if q.plan.PlanFails? || q.plan.targets == [] {
      verdict := Turned("no_route", Rejected, true, true);
    }
    if verdict.Turned? {
      HandleTurnsEarly(q, maxAttempts, flag.answers, observer.replies, flag.readCount - 1, |observer.calls|, verdict);
      outcome := RejectRequest(q, verdict, observer);
      return;
    }
    HandleReachesRouting(q, maxAttempts, flag.answers, observer.replies, flag.readCount - 1, |observer.calls|);
    outcome := ResolveAndTry(q, maxAttempts, flag, observer);
  }

  /** Media resolution reads the event before and after each artifact; its verdict is an input here. */
  method ResolveMedia(mediaReads: nat, flag: CancelFlag)
    modifies flag
    ensures flag.readCount == old(flag.readCount) + mediaReads
  {
    for k := 0 to mediaReads
      invariant flag.readCount == old(flag.readCount) + k
    {
      var _ := flag.IsSet();
    }
  }

  method ResolveAndTry(q: Incoming, maxAttempts: nat, flag: CancelFlag, observer: Observer) returns (outcome: Outcome)
    requires ValidIncoming(q) && q.principal.Some? && q.parsed.Some? && q.plan.Planned?
    modifies flag, observer
    ensures |old(observer.calls)| <= |observer.calls| && observer.calls[..|old(observer.calls)|] == old(observer.calls)
    ensures Run(observer.calls[|old(observer.calls)|..], outcome, flag.readCount)
            == Routed(q, maxAttempts, flag.answers, observer.replies, old(flag.readCount), |old(observer.calls)|)
  {
    ResolveMedia(q.mediaReads, flag);
    if q.media == MediaCancelled {
      outcome := RejectRequest(q, Turned(CANCELLED_TYPE, Cancelled, true, true), observer);
    } else if q.media == MediaUnavailable {
      outcome := RejectRequest(q, Turned("media_artifact_unavailable", Rejected, true, true), observer);
    } else {
      var e := EnvOf(q, maxAttempts, flag.answers, observer.replies);
      outcome := TryCandidates(e, flag, observer);
    }
  }
}
