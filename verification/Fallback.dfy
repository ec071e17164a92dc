/**
 What the fallback over route candidates does with what the providers do
 (src/cyrene_exchange/gateway.py, `handle_openai_chat` and
 `handle_openai_embeddings`): which candidate answers, what is reported of the
 others, and every other way the loop ends, each as an exact condition.
 */
module Fallback {
  import opened Prelude
  import opened Capabilities
  import opened Assembly
  import opened Lifecycle
  import opened Gateway

  // ---- one attempt -----------------------------------------------------------------------

  /** A provider's own cancellation, which ends the request instead of the attempt. */
  predicate Cancels(f: Fault) {
    f.RequestCancelled? || f.InvocationCancelled?
  }

  /** The script cannot be answered: it ends in an error or cannot be assembled. */
  predicate Unanswerable(chunks: seq<Chunk>, end: Option<Fault>) {
    if end.Some? then !Cancels(end.value) else Assembled(chunks).None?
  }

  /** The report a cancelled collection is left with: that of the chunks collected before the event was seen set. */
  predicate CutShort(chunks: seq<Chunk>, i: nat, answers: nat -> bool, t: nat, usage: Option<Usage>)
    requires i <= |chunks|
  {
    exists k :: i <= k < |chunks| && answers(t + k - i) && usage == MergeAll(chunks[..k])
  }

  /** The provider itself cancels after its last chunk. */
  predicate CancelledAtEnd(chunks: seq<Chunk>, end: Option<Fault>, usage: Option<Usage>) {
    end == Some(RequestCancelled(usage)) || (end == Some(InvocationCancelled) && usage == MergeAll(chunks))
  }

  /**
   What the unary path makes of a script: an answer only from a complete,
   conflict-free script with no cancellation seen, and then with the assembled
   message and the merged usage of all chunks; a failure only from an
   unanswerable one; and otherwise a cancellation, with the usage known by then.
   */
  lemma {:induction false} CollectResult(chunks: seq<Chunk>, i: nat, end: Option<Fault>, answers: nat -> bool, t: nat)
    requires i <= |chunks|
    ensures var r := Collect(chunks, i, end, answers, t).result;
      var undisturbed := forall k :: t <= k < t + |chunks| - i ==> !answers(k);
      && (r.Answer? || r.Stopped? || r.Broke?)
      && (r.Answer? <==> undisturbed && end.None? && Assembled(chunks).Some?)
      && (r.Answer? ==> r.body == ChatBody(Assembled(chunks).value, UnaryFinish(chunks), MergeAll(chunks)))
      && (r.Broke? <==> undisturbed && Unanswerable(chunks, end))
      && (r.Broke? ==> r == Broke("provider_error", if end.Some? then MergeAll(chunks) else None))
      && (r.Stopped? ==> CutShort(chunks, i, answers, t, r.usage) || CancelledAtEnd(chunks, end, r.usage))
    ensures Collect(chunks, i, end, answers, t).t >= t
    ensures Collect(chunks, i, end, answers, t).result.Broke? ==> Collect(chunks, i, end, answers, t).t == t + |chunks| - i
    decreases |chunks| - i
  {
    if i < |chunks| && !answers(t) {
      CollectResult(chunks, i + 1, end, answers, t + 1);
      assert (forall k :: t <= k < t + |chunks| - i ==> !answers(k))
        <==> forall k :: t + 1 <= k < t + 1 + |chunks| - (i + 1) ==> !answers(k);
    } else if i < |chunks| {
      assert answers(t + i - i);
    }
  }

  /** A provider that yields a response if nobody cancels; a stream needs only its first chunk. */
  predicate Healthy(p: Provider, stream: bool) {
    match p
    case ChatProvider(refusal, chunks, end) =>
      refusal.None? && chunks != [] && (stream || (end.None? && Assembled(chunks).Some?))
    case EmbeddingProvider(fault, _, complete) => fault.None? && complete
  }

  /** A fault of a chat provider after which the next candidate is tried. */
  predicate GivesWay(f: Fault) {
    f.OtherError? || f.EmbeddingRefusal?
  }

  /** A provider whose attempt is given up in favour of the next candidate, if nobody cancels. */
  predicate Fails(p: Provider, stream: bool) {
    match p
    case ChatProvider(refusal, chunks, end) =>
      if refusal.Some? then GivesWay(refusal.value)
      else if chunks == [] then end.None? || GivesWay(end.value)
      else !stream && Unanswerable(chunks, end)
    case EmbeddingProvider(fault, _, complete) => if fault.Some? then fault.value.OtherError? else !complete
  }

  /** An embedding provider's typed refusal, which ends the request. */
  predicate Refuses(p: Provider) {
    p.EmbeddingProvider? && p.fault.Some? && p.fault.value.EmbeddingRefusal?
  }

  /** The provider raises this fault before it has responded. */
  predicate RaisesFirst(p: Provider, f: Fault) {
    match p
    case ChatProvider(refusal, chunks, end) => refusal == Some(f) || (refusal.None? && chunks == [] && end == Some(f))
    case EmbeddingProvider(fault, _, _) => fault == Some(f)
  }

  /** The usage a fault of a chat provider carries, and the error type it is reported with. */
  function UsageOn(f: Fault): Option<Usage> {
    if f.OtherError? then f.usage else None
  }

  function BlamedOn(f: Fault): string {
    if f.OtherError? then f.name else "ProviderEmbeddingError"
  }

  /** The usage and the error type a failed or refusing provider is reported with, read off its script. */
  function UsageOfFailure(p: Provider): Option<Usage> {
    match p
    case ChatProvider(refusal, chunks, end) =>
      if refusal.Some? then UsageOn(refusal.value)
      else if end.None? then None
      else if chunks == [] then UsageOn(end.value)
      else MergeAll(chunks)
    case EmbeddingProvider(_, _, _) => None
  }

  function ErrorOfFailure(p: Provider): string {
    match p
    case ChatProvider(refusal, chunks, end) =>
      if refusal.Some? then BlamedOn(refusal.value)
      else if chunks != [] then "provider_error"
      else if end.Some? then BlamedOn(end.value)
      else "StopIteration"
    case EmbeddingProvider(fault, _, _) =>
      if fault.None? then "provider_error"
      else if fault.value.OtherError? then fault.value.name
      else if fault == Some(EmbeddingRefusal(1)) then "invalid_request_error"
      else if fault == Some(EmbeddingRefusal(2)) then "model_not_found"
      else if fault == Some(EmbeddingRefusal(5)) then "rate_limit_error"
      else "provider_error"
  }

  /** A cancelled attempt with this usage: the provider cancelled, or the event was seen set. */
  predicate CancelledWith(p: Provider, usage: Option<Usage>, answers: nat -> bool, t: nat) {
    || (RaisesFirst(p, InvocationCancelled) && usage.None?)
    || match p
       case ChatProvider(_, chunks, end) =>
         || RaisesFirst(p, RequestCancelled(usage))
         || (chunks != [] && (CutShort(chunks, 1, answers, t, usage) || CancelledAtEnd(chunks, end, usage)))
       case EmbeddingProvider(fault, _, _) =>
         usage.None? && (if fault.Some? then fault.value.RequestCancelled? else answers(t))
  }

  function AnswerOf(p: Provider): Body
    requires Healthy(p, false)
  {
    match p
    case ChatProvider(_, chunks, _) => ChatBody(Assembled(chunks).value, UnaryFinish(chunks), MergeAll(chunks))
    case EmbeddingProvider(_, model, _) => EmbeddingBody(model)
  }

  predicate Responds(r: AttemptResult) {
    r.Answer? || r.Open?
  }

  /** Checks of the event an attempt makes before its response is complete, if none sees it set. */
  function ChecksOf(p: Provider, stream: bool): nat {
    match p
    case ChatProvider(refusal, chunks, _) => if refusal.Some? || chunks == [] || stream then 0 else |chunks| - 1
    case EmbeddingProvider(fault, _, complete) => if fault.None? && complete then 1 else 0
  }

  /** None of them sees it set; they are the reads from `t` on. */
  predicate Unseen(p: Provider, stream: bool, answers: nat -> bool, t: nat) {
    forall k :: t <= k < t + ChecksOf(p, stream) ==> !answers(k)
  }

  /** What the result of an attempt says about its provider, whatever the event did. */
  lemma {:induction false} AttemptTells(p: Provider, stream: bool, answers: nat -> bool, t: nat)
    ensures var a := AttemptWith(p, stream, answers, t);
      && a.t >= t
      && (a.result.Broke? <==> Fails(p, stream) && Unseen(p, stream, answers, t))
      && (a.result.Broke? ==> a == Attempt(Broke(ErrorOfFailure(p), UsageOfFailure(p)), t + ChecksOf(p, stream)))
      && (Responds(a.result) ==> Healthy(p, stream))
      && (a.result.Answer? <==> Healthy(p, false) && !(stream && p.ChatProvider?) && Unseen(p, stream, answers, t))
      && (a.result.Answer? ==> a.result.body == AnswerOf(p))
      && (a.result.Open? <==> stream && p.ChatProvider? && Healthy(p, true))
      && (a.result.Open? ==> a.result.chunks == p.chunks != [] && a.result.end == p.end)
      && (a.result.Escaped? <==> RaisesFirst(p, LifecycleError))
      && (a.result.RefusedBy? <==> Refuses(p))
      && (a.result.RefusedBy? ==> a.result.code == p.fault.value.code && EmbeddingErrorType(a.result.code) == ErrorOfFailure(p))
      && (a.result.Stopped? ==> CancelledWith(p, a.result.usage, answers, t))
  {
    if EarlyFault(p).None? && p.ChatProvider? {
      CollectResult(p.chunks, 1, p.end, answers, t);
    }
  }

  /** Without cancellation the result says exactly that. */
  lemma {:induction false} CalmAttemptTells(p: Provider, stream: bool, answers: nat -> bool, t: nat)
    requires forall k :: k >= t ==> !answers(k)
    ensures var a := AttemptWith(p, stream, answers, t);
      && (a.result.Broke? <==> Fails(p, stream))
      && (Responds(a.result) <==> Healthy(p, stream))
  {
    AttemptTells(p, stream, answers, t);
    if EarlyFault(p).None? && p.ChatProvider? {
      CollectResult(p.chunks, 1, p.end, answers, t);
    }
  }

  // ---- the way through the candidates ---------------------------------------------------------

  /** Reads of the event before candidate `k`, when every earlier candidate was given up. */
  function Arrival(e: Env, k: nat, t: nat): nat
    requires ValidEnv(e) && k <= |e.targets|
    decreases k, 0
  {
    if k == 0 then t else AttemptAt(e, k - 1, t).t + 1
  }

  function AttemptAt(e: Env, k: nat, t: nat): Attempt
    requires ValidEnv(e) && k < |e.targets|
    decreases k, 1
  {
    AttemptWith(e.providers[k], e.stream, e.answers, Arrival(e, k, t) + 1)
  }

  /** The event is not set when candidate `k` is reached, and its admission succeeds. */
  predicate Admitted(e: Env, k: nat, t: nat, n: nat)
    requires ValidEnv(e) && k < |e.targets|
  {
    !e.answers(Arrival(e, k, t)) && e.replies(n + 2 * k)
  }

  /** Candidate `k` is admitted, fails undisturbed, and its failure report succeeds. */
  predicate GivenUp(e: Env, k: nat, t: nat, n: nat)
    requires ValidEnv(e) && k < |e.targets|
  {
    && Admitted(e, k, t, n)
    && AttemptAt(e, k, t).result.Broke? && !e.answers(AttemptAt(e, k, t).t) && e.replies(n + 2 * k + 1)
  }

  predicate Reached(e: Env, k: nat, t: nat, n: nat)
    requires ValidEnv(e) && k <= |e.targets|
  {
    forall j :: 0 <= j < k ==> GivenUp(e, j, t, n)
  }

  function FailureReport(e: Env, j: nat, t: nat): Call
    requires ValidEnv(e) && j < |e.targets| && AttemptAt(e, j, t).result.Broke?
  {
    var r := AttemptAt(e, j, t).result;
    Finished(MetaAt(e, j), Failed, r.usage, Some(r.name), true)
  }

  /** Admission and failure report of each candidate before `k`. */
  function GivenUpCalls(e: Env, k: nat, t: nat, n: nat): (calls: seq<Call>)
    requires ValidEnv(e) && k <= |e.targets| && Reached(e, k, t, n)
    ensures |calls| == 2 * k
    ensures forall j :: 0 <= j < k && GivenUp(e, j, t, n) ==>
      calls[2 * j] == Started(MetaAt(e, j), true) && calls[2 * j + 1] == FailureReport(e, j, t)
    decreases k
  {
    if k == 0 then []
    else
      assert GivenUp(e, k - 1, t, n);
      GivenUpCalls(e, k - 1, t, n) + [Started(MetaAt(e, k - 1), true), FailureReport(e, k - 1, t)]
  }

  lemma {:induction false} OneMoreGivenUp(e: Env, k: nat, t: nat, n: nat)
    requires ValidEnv(e) && k < |e.targets| && GivenUp(e, k, t, n)
    ensures Try(e, k, Arrival(e, k, t), n + 2 * k)
      == After([Started(MetaAt(e, k), true), FailureReport(e, k, t)], Try(e, k + 1, Arrival(e, k + 1, t), n + 2 * (k + 1)))
  {
    AfterTwice([Started(MetaAt(e, k), true)], [FailureReport(e, k, t)],
      Try(e, k + 1, Arrival(e, k + 1, t), n + 2 * (k + 1)));
  }

  lemma {:induction false} JoinGivenUp(e: Env, k: nat, t: nat, n: nat, rest: Run)
    requires ValidEnv(e) && k < |e.targets| && Reached(e, k, t, n) && GivenUp(e, k, t, n)
    ensures Reached(e, k + 1, t, n)
    ensures After(GivenUpCalls(e, k, t, n), After([Started(MetaAt(e, k), true), FailureReport(e, k, t)], rest))
      == After(GivenUpCalls(e, k + 1, t, n), rest)
  {
    AfterTwice(GivenUpCalls(e, k, t, n), [Started(MetaAt(e, k), true), FailureReport(e, k, t)], rest);
  }

  /** A run that reaches candidate `k` has reported the earlier ones failed and goes on from there. */
  lemma {:induction false} TryUnrolls(e: Env, k: nat, t: nat, n: nat)
    requires ValidEnv(e) && k <= |e.targets| && Reached(e, k, t, n)
    ensures Try(e, 0, t, n) == After(GivenUpCalls(e, k, t, n), Try(e, k, Arrival(e, k, t), n + 2 * k))
  {
    var whole := Try(e, 0, t, n);
    AfterNone(whole);
    UnrollsFrom(e, 0, k, t, n, whole);
  }

  lemma {:induction false} UnrollsFrom(e: Env, i: nat, k: nat, t: nat, n: nat, whole: Run)
    requires ValidEnv(e) && i <= k <= |e.targets| && Reached(e, k, t, n)
    requires Reached(e, i, t, n) && Continues(e, i, t, n, whole)
    ensures Continues(e, k, t, n, whole)
    decreases k - i
  {
    if i < k {
      UnrollOnce(e, i, t, n, whole);
      UnrollsFrom(e, i + 1, k, t, n, whole);
    }
  }

  /** `whole` is what candidates before `k` left behind, followed by the run from `k` on. */
  predicate Continues(e: Env, k: nat, t: nat, n: nat, whole: Run)
    requires ValidEnv(e) && k <= |e.targets| && Reached(e, k, t, n)
  {
    whole == After(GivenUpCalls(e, k, t, n), Try(e, k, Arrival(e, k, t), n + 2 * k))
  }

  lemma {:induction false} AfterNone(run: Run)
    ensures After([], run) == run
  {
    assert [] + run.calls == run.calls;
  }

  lemma {:induction false} UnrollOnce(e: Env, k: nat, t: nat, n: nat, whole: Run)
    requires ValidEnv(e) && k < |e.targets| && Reached(e, k + 1, t, n)
    requires Reached(e, k, t, n) && Continues(e, k, t, n, whole)
    ensures Continues(e, k + 1, t, n, whole)
  {
    assert GivenUp(e, k, t, n);
    OneMoreGivenUp(e, k, t, n);
    JoinGivenUp(e, k, t, n, Try(e, k + 1, Arrival(e, k + 1, t), n + 2 * (k + 1)));
  }

  /** The run stops at the first candidate that is not given up, or runs out of candidates. */
  lemma {:induction false} StopsFrom(e: Env, from: nat, t: nat, n: nat) returns (k: nat)
    requires ValidEnv(e) && from <= |e.targets| && Reached(e, from, t, n)
    ensures k <= |e.targets| && Reached(e, k, t, n) && (k < |e.targets| ==> !GivenUp(e, k, t, n))
    decreases |e.targets| - from
  {
    k := from;
    if from < |e.targets| && GivenUp(e, from, t, n) {
      k := StopsFrom(e, from + 1, t, n);
    }
  }

  /** Candidate `k` is where the run ends, and this is how. */
  ghost predicate EndsAt(e: Env, k: nat, t: nat, n: nat, outcome: Outcome)
    requires ValidEnv(e) && k < |e.targets|
  {
    var r := AttemptAt(e, k, t).result;
    match outcome
    case Answered(j, body) => j == k && Admitted(e, k, t, n) && r == Answer(body) && e.replies(n + 2 * k + 1)
    case Opened(j, chunks, end) => j == k && Admitted(e, k, t, n) && r == Open(chunks, end)
    case LeftUnreported(j) => j == k && Admitted(e, k, t, n) && r == Escaped
    case RaisedRefusal(code) => Admitted(e, k, t, n) && r == RefusedBy(code) && e.replies(n + 2 * k + 1)
    case RaisedCancelled =>
      || (e.answers(Arrival(e, k, t)) && e.replies(n + 2 * k))
      || (&& Admitted(e, k, t, n) && e.replies(n + 2 * k + 1)
          && (r.Stopped? || (r.Broke? && e.answers(AttemptAt(e, k, t).t))))
    case RaisedLifecycle =>
      || !e.replies(n + 2 * k)
      || (Admitted(e, k, t, n) && !r.Open? && !r.Escaped? && !e.replies(n + 2 * k + 1))
    case _ => false
  }

  lemma {:induction false} StopShows(e: Env, k: nat, t: nat, n: nat)
    requires ValidEnv(e) && k < |e.targets| && !GivenUp(e, k, t, n)
    ensures EndsAt(e, k, t, n, Try(e, k, Arrival(e, k, t), n + 2 * k).outcome)
  {
  }

  /** The end of a run is decided at exactly one candidate, or the candidates run out. */
  lemma {:induction false} OutcomeShowsWhere(e: Env, t: nat, n: nat) returns (k: nat)
    requires ValidEnv(e)
    ensures k <= |e.targets| && Reached(e, k, t, n)
    ensures k == |e.targets| ==> Try(e, 0, t, n).outcome == RaisedFailure
    ensures k < |e.targets| ==> !GivenUp(e, k, t, n) && EndsAt(e, k, t, n, Try(e, 0, t, n).outcome)
  {
    k := StopsFrom(e, 0, t, n);
    TryUnrolls(e, k, t, n);
    if k < |e.targets| {
      StopShows(e, k, t, n);
    }
  }

  lemma {:induction false} DecidedAt(e: Env, k: nat, t: nat, n: nat)
    requires ValidEnv(e) && k < |e.targets| && Reached(e, k, t, n) && !GivenUp(e, k, t, n)
    ensures EndsAt(e, k, t, n, Try(e, 0, t, n).outcome)
  {
    TryUnrolls(e, k, t, n);
    StopShows(e, k, t, n);
  }

  /** The attempt on candidate `k` breaks off exactly when its provider fails and no check sees the event set. */
  lemma {:induction false} BreaksOffExactly(e: Env, k: nat, t: nat)
    requires ValidEnv(e) && k < |e.targets|
    ensures var p, a, start := e.providers[k], AttemptAt(e, k, t), Arrival(e, k, t) + 1;
      && (a.result.Broke? <==> Fails(p, e.stream) && Unseen(p, e.stream, e.answers, start))
      && (a.result.Broke? ==> a.t == start + ChecksOf(p, e.stream))
  {
    AttemptTells(e.providers[k], e.stream, e.answers, Arrival(e, k, t) + 1);
  }

  /**
   A candidate is given up exactly when it is admitted, its provider fails, no
   check sees the event set, neither during the attempt nor after it, and its
   failure report succeeds; the next candidate is then reached one read later.
   */
  lemma {:induction false} GivenUpExactly(e: Env, k: nat, t: nat, n: nat, start: nat)
    requires ValidEnv(e) && k < |e.targets| && start == Arrival(e, k, t) + 1
    ensures GivenUp(e, k, t, n) <==>
      && !e.answers(start - 1) && e.replies(n + 2 * k)
      && Fails(e.providers[k], e.stream) && Unseen(e.providers[k], e.stream, e.answers, start)
      && !e.answers(start + ChecksOf(e.providers[k], e.stream)) && e.replies(n + 2 * k + 1)
    ensures GivenUp(e, k, t, n) ==> Arrival(e, k + 1, t) == start + ChecksOf(e.providers[k], e.stream) + 1
  {
    BreaksOffExactly(e, k, t);
  }

  // ---- exact outcomes -------------------------------------------------------------------------

  /**
   A request is answered by candidate `k` exactly when every earlier candidate
   failed and was reported failed, and `k` was admitted, answered and reported
   completed. The answer is the one its script makes.
   */
  lemma {:induction false} AnsweredExactly(e: Env, k: nat, t: nat, n: nat)
    requires ValidEnv(e)
    ensures var outcome := Try(e, 0, t, n).outcome;
      && (outcome.Answered? && outcome.index == k <==>
           && k < |e.targets| && Reached(e, k, t, n) && Admitted(e, k, t, n)
           && Healthy(e.providers[k], false) && !(e.stream && e.providers[k].ChatProvider?)
           && Unseen(e.providers[k], e.stream, e.answers, Arrival(e, k, t) + 1) && e.replies(n + 2 * k + 1))
      && (outcome.Answered? && outcome.index == k ==>
           && k < |e.targets| && Healthy(e.providers[k], false) && outcome.body == AnswerOf(e.providers[k]))
  {
    AnsweredMeans(e, k, t, n);
    if k < |e.targets| {
      AnswersExactly(e, k, t);
      AnswerDecides(e, k, t, n);
    }
  }

  /** The attempt on candidate `k` is answered exactly when its script is healthy and no check sees the event set. */
  lemma {:induction false} AnswersExactly(e: Env, k: nat, t: nat)
    requires ValidEnv(e) && k < |e.targets|
    ensures var p, r := e.providers[k], AttemptAt(e, k, t).result;
      && (r.Answer? <==>
           Healthy(p, false) && !(e.stream && p.ChatProvider?) && Unseen(p, e.stream, e.answers, Arrival(e, k, t) + 1))
      && (r.Answer? ==> r.body == AnswerOf(p))
  {
    AttemptTells(e.providers[k], e.stream, e.answers, Arrival(e, k, t) + 1);
  }

  lemma {:induction false} AnswerDecides(e: Env, k: nat, t: nat, n: nat)
    requires ValidEnv(e) && k < |e.targets|
    ensures Reached(e, k, t, n) && Admitted(e, k, t, n) && AttemptAt(e, k, t).result.Answer? && e.replies(n + 2 * k + 1) ==>
      Try(e, 0, t, n).outcome.Answered? && Try(e, 0, t, n).outcome.index == k
  {
    if Reached(e, k, t, n) && AttemptAt(e, k, t).result.Answer? {
      DecidedAt(e, k, t, n);
    }
  }

  lemma {:induction false} AnsweredMeans(e: Env, k: nat, t: nat, n: nat)
    requires ValidEnv(e)
    ensures var outcome := Try(e, 0, t, n).outcome;
      outcome.Answered? && outcome.index == k ==>
        && k < |e.targets| && Reached(e, k, t, n) && Admitted(e, k, t, n)
        && AttemptAt(e, k, t).result == Answer(outcome.body) && e.replies(n + 2 * k + 1)
  {
    var stop := OutcomeShowsWhere(e, t, n);
  }

  /** A stream is opened on candidate `k` exactly when it is reached, admitted and yields a first chunk. */
  lemma {:induction false} OpenedExactly(e: Env, k: nat, t: nat, n: nat)
    requires ValidEnv(e)
    ensures var outcome := Try(e, 0, t, n).outcome;
      && (outcome.Opened? && outcome.index == k <==>
           && k < |e.targets| && Reached(e, k, t, n) && Admitted(e, k, t, n)
           && e.stream && e.providers[k].ChatProvider? && Healthy(e.providers[k], true))
      && (outcome.Opened? && outcome.index == k ==>
           outcome.chunks == e.providers[k].chunks != [] && outcome.end == e.providers[k].end)
  {
    var stop := OutcomeShowsWhere(e, t, n);
    if k < |e.targets| {
      AttemptTells(e.providers[k], e.stream, e.answers, Arrival(e, k, t) + 1);
      if Reached(e, k, t, n) && AttemptAt(e, k, t).result.Open? {
        DecidedAt(e, k, t, n);
      }
    }
  }

  /**
   An attempt is left unreported exactly when its candidate is reached and
   admitted and its provider raises the gateway's own lifecycle error before a
   first chunk.
   */
  lemma {:induction false} LeftUnreportedExactly(e: Env, k: nat, t: nat, n: nat)
    requires ValidEnv(e)
    ensures Try(e, 0, t, n).outcome == LeftUnreported(k) <==>
      && k < |e.targets| && Reached(e, k, t, n) && Admitted(e, k, t, n)
      && RaisesFirst(e.providers[k], LifecycleError)
  {
    var stop := OutcomeShowsWhere(e, t, n);
    if k < |e.targets| {
      AttemptTells(e.providers[k], e.stream, e.answers, Arrival(e, k, t) + 1);
      if Reached(e, k, t, n) && AttemptAt(e, k, t).result.Escaped? {
        DecidedAt(e, k, t, n);
      }
    }
  }

  /** The request fails for want of candidates exactly when every one was given up. */
  lemma {:induction false} FailureExactly(e: Env, t: nat, n: nat)
    requires ValidEnv(e)
    ensures Try(e, 0, t, n).outcome == RaisedFailure <==> Reached(e, |e.targets|, t, n)
  {
    var stop := OutcomeShowsWhere(e, t, n);
    if Reached(e, |e.targets|, t, n) {
      TryUnrolls(e, |e.targets|, t, n);
    }
  }

  // ---- reports tell the truth -------------------------------------------------------------------

  /** A terminal report of candidate `j` is what its provider's script and the reads of the event make it. */
  ghost predicate ReportIsTrue(e: Env, j: nat, t: nat, call: Call, last: bool)
    requires ValidEnv(e) && j < |e.targets|
  {
    var p := e.providers[j];
    && call.Finished? && call.meta == MetaAt(e, j)
    && match call.status
       case Failed =>
         && (Fails(p, e.stream) || (Refuses(p) && last))
         && call.errorType == Some(ErrorOfFailure(p)) && call.usage == UsageOfFailure(p)
       case Completed =>
         && Healthy(p, false) && !(e.stream && p.ChatProvider?) && last
         && call.usage == (if p.ChatProvider? then MergeAll(p.chunks) else None) && call.errorType.None?
       case Cancelled =>
         && call.errorType == Some("request_cancelled") && last
         && (|| CancelledWith(p, call.usage, e.answers, Arrival(e, j, t) + 1)
             || (Fails(p, e.stream) && call.usage == UsageOfFailure(p) && e.answers(AttemptAt(e, j, t).t)))
       case Rejected => false
  }

  /**
   A candidate is reported failed only if its provider failed, completed only if
   it answered, cancelled only if a cancellation was seen; and only a reported
   failure is followed by another candidate.
   */
  lemma {:induction false} ReportsAreTrue(e: Env, j: nat, t: nat, n: nat)
    requires ValidEnv(e) && 2 * j + 1 < |Try(e, 0, t, n).calls|
    ensures j < |e.targets| && Reached(e, j, t, n) && Admitted(e, j, t, n)
    ensures ReportIsTrue(e, j, t, Try(e, 0, t, n).calls[2 * j + 1], 2 * j + 2 == |Try(e, 0, t, n).calls|)
  {
    var k := StopsFrom(e, 0, t, n);
    var tail := Try(e, k, Arrival(e, k, t), n + 2 * k).calls;
    TryUnrolls(e, k, t, n);
    assert Try(e, 0, t, n).calls == GivenUpCalls(e, k, t, n) + tail;
    if k < |e.targets| {
      LastReport(e, k, t, n);
    }
    if j < k {
      EarlyReport(e, j, k, t, n, 2 * j + 2 == |Try(e, 0, t, n).calls|);
    }
  }

  lemma {:induction false} EarlyReport(e: Env, j: nat, k: nat, t: nat, n: nat, last: bool)
    requires ValidEnv(e) && j < k <= |e.targets| && Reached(e, k, t, n)
    ensures Admitted(e, j, t, n) && ReportIsTrue(e, j, t, GivenUpCalls(e, k, t, n)[2 * j + 1], last)
  {
    assert GivenUp(e, j, t, n);
    AttemptTells(e.providers[j], e.stream, e.answers, Arrival(e, j, t) + 1);
  }

  lemma {:induction false} LastReport(e: Env, k: nat, t: nat, n: nat)
    requires ValidEnv(e) && k < |e.targets| && !GivenUp(e, k, t, n)
    ensures var tail := Try(e, k, Arrival(e, k, t), n + 2 * k).calls;
      && |tail| <= 2
      && (|tail| == 2 ==> Admitted(e, k, t, n) && ReportIsTrue(e, k, t, tail[1], true))
  {
    AttemptTells(e.providers[k], e.stream, e.answers, Arrival(e, k, t) + 1);
  }

  // ---- undisturbed requests ---------------------------------------------------------------------

  lemma {:induction false} ArrivalGrows(e: Env, k: nat, t: nat)
    requires ValidEnv(e) && k <= |e.targets|
    ensures Arrival(e, k, t) >= t
    decreases k
  {
    if k > 0 {
      ArrivalGrows(e, k - 1, t);
      AttemptTells(e.providers[k - 1], e.stream, e.answers, Arrival(e, k - 1, t) + 1);
    }
  }

  /** Nobody cancels and every callback succeeds. */
  ghost predicate Calm(e: Env, t: nat, n: nat) {
    (forall j :: j >= t ==> !e.answers(j)) && (forall j :: j >= n ==> e.replies(j))
  }

  lemma {:induction false} CalmCandidate(e: Env, k: nat, t: nat, n: nat)
    requires ValidEnv(e) && k < |e.targets| && Calm(e, t, n)
    ensures Admitted(e, k, t, n) && e.replies(n + 2 * k + 1)
    ensures GivenUp(e, k, t, n) <==> Fails(e.providers[k], e.stream)
    ensures Responds(AttemptAt(e, k, t).result) <==> Healthy(e.providers[k], e.stream)
  {
    ArrivalGrows(e, k, t);
    AttemptTells(e.providers[k], e.stream, e.answers, Arrival(e, k, t) + 1);
    CalmAttemptTells(e.providers[k], e.stream, e.answers, Arrival(e, k, t) + 1);
  }

  /**
   Undisturbed, the request is answered by candidate `k` exactly when `k` is
   healthy and every earlier candidate fails: the first candidate that does not
   fail is the one that answers, with the answer its own script makes, or the
   one whose stream is opened.
   */
  lemma {:induction false} FirstHealthyAnswers(e: Env, k: nat, t: nat, n: nat)
    requires ValidEnv(e) && Calm(e, t, n)
    ensures var outcome := Try(e, 0, t, n).outcome;
      var first := && k < |e.targets| && Healthy(e.providers[k], e.stream)
                   && forall j :: 0 <= j < k ==> Fails(e.providers[j], e.stream);
      && ((outcome.Answered? || outcome.Opened?) && outcome.index == k <==> first)
      && (first && e.stream && e.providers[k].ChatProvider? ==>
           outcome == Opened(k, e.providers[k].chunks, e.providers[k].end))
      && (first && !(e.stream && e.providers[k].ChatProvider?) ==> outcome == Answered(k, AnswerOf(e.providers[k])))
  {
    AnsweredExactly(e, k, t, n);
    OpenedExactly(e, k, t, n);
    if k < |e.targets| {
      CalmCandidate(e, k, t, n);
      AttemptTells(e.providers[k], e.stream, e.answers, Arrival(e, k, t) + 1);
      forall j | 0 <= j < k ensures GivenUp(e, j, t, n) <==> Fails(e.providers[j], e.stream) {
        CalmCandidate(e, j, t, n);
      }
    }
  }

  /** Undisturbed, the request fails for want of candidates exactly when every candidate fails. */
  lemma {:induction false} AllFailedExactly(e: Env, t: nat, n: nat)
    requires ValidEnv(e) && Calm(e, t, n)
    ensures Try(e, 0, t, n).outcome == RaisedFailure
      <==> forall j :: 0 <= j < |e.targets| ==> Fails(e.providers[j], e.stream)
  {
    FailureExactly(e, t, n);
    forall j | 0 <= j < |e.targets| ensures GivenUp(e, j, t, n) <==> Fails(e.providers[j], e.stream) {
      CalmCandidate(e, j, t, n);
    }
  }
}
