/**
 Whole handler runs, from the request to the way the handler leaves
 (src/cyrene_exchange/gateway.py, `handle_openai_chat` and
 `handle_openai_embeddings`), stated over the request and the plan the router
 returned: which candidates of the plan are tried, in which order and how many,
 what is reported about each, and what a request that is turned away is told.
 */
module HandlerLaws {
  import opened Prelude
  import opened Capabilities
  import opened Lifecycle
  import opened Gateway
  import opened Fallback
  import opened GatewayLaws

  /** Every check before the candidates passes; `cancelled` is what the early read of the event returned. */
  predicate PassesChecks(q: Incoming, cancelled: bool) {
    && q.principal.Some? && (q.quota == NoQuota || q.quota == Within) && !cancelled
    && q.parsed.Some? && q.permitted && q.plan.Planned? && q.plan.targets != [] && q.media == MediaReady
  }

  /** These are the facts of the plan's candidate `k` for this request. */
  predicate Describes(q: Incoming, k: nat, meta: Metadata) {
    && q.plan.Planned? && k < |q.plan.targets| && q.parsed.Some?
    && meta.requestId == q.requestId && q.principal == Some(meta.principal)
    && meta.model == q.parsed.value.model && meta.stream == q.parsed.value.stream
    && meta.providerRef == q.plan.targets[k].providerRef
    && meta.routeId == (if q.plan.targets[k].routeId == "" then q.plan.targets[k].providerRef else q.plan.targets[k].routeId)
  }

  /** A report about the plan's candidate `k`: failures are the provider's own, with its own error type and usage. */
  predicate Reports(q: Incoming, k: nat, report: Call)
    requires ValidIncoming(q) && q.plan.Planned? && k < |q.plan.targets| && q.parsed.Some?
  {
    && report.Finished?
    && (report.status == Failed ==>
         && (Fails(q.plan.providers[k], q.parsed.value.stream) || Refuses(q.plan.providers[k]))
         && report.errorType == Some(ErrorOfFailure(q.plan.providers[k]))
         && report.usage == UsageOfFailure(q.plan.providers[k]))
    && (report.status == Completed ==>
         && Healthy(q.plan.providers[k], false) && report.errorType.None?
         && report.usage == if q.plan.providers[k].ChatProvider? then MergeAll(q.plan.providers[k].chunks) else None)
    && (report.status == Cancelled ==> report.errorType == Some("request_cancelled"))
  }

  /** Callback `c` of a run is about candidate `c / 2` of the plan: first its admission, then its report. */
  predicate AboutPlan(q: Incoming, maxAttempts: nat, calls: seq<Call>, c: nat)
    requires ValidIncoming(q) && c < |calls|
  {
    calls[c].Refused? ||
    (&& c / 2 < maxAttempts && Describes(q, c / 2, calls[c].meta)
     && (if c % 2 == 0 then calls[c].Started? else Reports(q, c / 2, calls[c]))
     && (c % 2 == 1 && c + 1 < |calls| ==> calls[c].status == Failed && calls[c].ok))
  }

  /** The candidates before `k` of the plan all fail. */
  predicate FailBefore(q: Incoming, k: nat)
    requires ValidIncoming(q) && q.plan.Planned? && k <= |q.plan.targets| && q.parsed.Some?
  {
    forall j :: 0 <= j < k ==> Fails(q.plan.providers[j], q.parsed.value.stream)
  }

  /** Candidate `k` of the plan may be tried, and is the first that does not fail. */
  predicate FirstToRespond(q: Incoming, maxAttempts: nat, k: nat)
    requires ValidIncoming(q)
  {
    && q.plan.Planned? && q.parsed.Some? && k < maxAttempts && k < |q.plan.targets|
    && Healthy(q.plan.providers[k], q.parsed.value.stream) && FailBefore(q, k)
  }

  /** Every candidate that may be tried fails. */
  predicate NoneResponds(q: Incoming, maxAttempts: nat)
    requires ValidIncoming(q)
  {
    && q.plan.Planned? && q.parsed.Some?
    && FailBefore(q, if |q.plan.targets| <= maxAttempts then |q.plan.targets| else maxAttempts)
  }

  // ---- what is tried ----------------------------------------------------------------------------

  lemma {:induction false} ProceedsExactly(q: Incoming, answers: nat -> bool, t: nat)
    requires ValidIncoming(q)
    ensures Proceeds(q, answers, t) <==> PassesChecks(q, answers(t))
  {
  }

  /** A candidate is admitted only for a request that passed every check, so none is tried for one turned away. */
  lemma {:induction false} NothingIsTriedUnchecked(q: Incoming, maxAttempts: nat, answers: nat -> bool, replies: nat -> bool,
                                                   t: nat, n: nat)
    requires ValidIncoming(q)
    ensures var run := Handle(q, maxAttempts, answers, replies, t, n);
      !PassesChecks(q, answers(t)) ==>
        && |run.calls| <= 1 && (forall c :: 0 <= c < |run.calls| ==> run.calls[c].Refused?)
        && (run.outcome.RaisedCancelled? || run.outcome.RaisedLifecycle? || run.outcome.RaisedRejection? || run.outcome.Crashed?)
  {
    HandleTries(q, maxAttempts, answers, replies, t, n);
    ProceedsExactly(q, answers, t);
  }

  /**
   The plan is tried in its own order, from its first candidate on and never
   beyond the configured number of attempts. Each candidate is admitted and then
   reported under its own route and provider, the next one is tried only after
   its failure was reported, and what is reported is what its provider did.
   */
  lemma {:induction false} PlanIsTriedInOrder(q: Incoming, maxAttempts: nat, answers: nat -> bool, replies: nat -> bool,
                                              t: nat, n: nat)
    requires ValidIncoming(q)
    ensures var calls := Handle(q, maxAttempts, answers, replies, t, n).calls;
      forall c :: 0 <= c < |calls| ==> AboutPlan(q, maxAttempts, calls, c)
  {
    var run := Handle(q, maxAttempts, answers, replies, t, n);
    ProceedsExactly(q, answers, t);
    NothingIsTriedUnchecked(q, maxAttempts, answers, replies, t, n);
    if PassesChecks(q, answers(t)) {
      var e := EnvOf(q, maxAttempts, answers, replies);
      HandleTries(q, maxAttempts, answers, replies, t, n);
      forall c | 0 <= c < |run.calls| ensures AboutPlan(q, maxAttempts, run.calls, c) {
        CallIsAboutPlan(q, maxAttempts, e, TriesFrom(q, t), n, c);
      }
    }
  }

  lemma {:induction false} CallIsAboutPlan(q: Incoming, maxAttempts: nat, e: Env, t: nat, n: nat, c: nat)
    requires ValidIncoming(q) && q.principal.Some? && q.parsed.Some? && q.plan.Planned?
    requires e == EnvOf(q, maxAttempts, e.answers, e.replies) && c < |Try(e, 0, t, n).calls|
    ensures AboutPlan(q, maxAttempts, Try(e, 0, t, n).calls, c)
  {
    var calls := Try(e, 0, t, n).calls;
    TryObeysLaw(e, 0, t, n);
    var j := c / 2;
    if c % 2 == 0 {
      assert c == 2 * j;
      if !calls[2 * j].Refused? {
        MetaDescribes(q, maxAttempts, e, j);
      }
    } else {
      assert c == 2 * j + 1;
      assert calls[2 * j + 1].Finished? && calls[2 * j + 1].meta == MetaAt(e, j);
      MetaDescribes(q, maxAttempts, e, j);
      ReportIsAboutPlan(q, maxAttempts, e, t, n, j);
    }
  }

  lemma {:induction false} MetaDescribes(q: Incoming, maxAttempts: nat, e: Env, j: nat)
    requires ValidIncoming(q) && q.principal.Some? && q.parsed.Some? && q.plan.Planned?
    requires e == EnvOf(q, maxAttempts, e.answers, e.replies) && j < |e.targets|
    ensures j < maxAttempts && Describes(q, j, MetaAt(e, j))
  {
  }

  lemma {:induction false} ReportIsAboutPlan(q: Incoming, maxAttempts: nat, e: Env, t: nat, n: nat, j: nat)
    requires ValidIncoming(q) && q.principal.Some? && q.parsed.Some? && q.plan.Planned?
    requires e == EnvOf(q, maxAttempts, e.answers, e.replies) && 2 * j + 1 < |Try(e, 0, t, n).calls|
    ensures j < |q.plan.targets| && Reports(q, j, Try(e, 0, t, n).calls[2 * j + 1])
  {
    ReportsAreTrue(e, j, t, n);
    var calls := Try(e, 0, t, n).calls;
    assert ReportIsTrue(e, j, t, calls[2 * j + 1], 2 * j + 2 == |calls|);
  }

  /** A request is answered by, or streams from, the first candidate of the plan that does not fail, as far as it is tried. */
  lemma {:induction false} OutcomeFollowsPlan(q: Incoming, maxAttempts: nat, answers: nat -> bool, replies: nat -> bool,
                                              t: nat, n: nat)
    requires ValidIncoming(q)
    ensures var run := Handle(q, maxAttempts, answers, replies, t, n);
      match run.outcome
      case Answered(k, body) =>
        && FirstToRespond(q, maxAttempts, k) && |run.calls| == 2 * k + 2
        && Healthy(q.plan.providers[k], false) && body == AnswerOf(q.plan.providers[k])
      case Opened(k, chunks, end) =>
        && FirstToRespond(q, maxAttempts, k) && |run.calls| == 2 * k + 1
        && q.plan.providers[k].ChatProvider? && chunks == q.plan.providers[k].chunks && end == q.plan.providers[k].end
      case LeftUnreported(k) =>
        && q.plan.Planned? && k < maxAttempts && k < |q.plan.targets|
        && RaisesFirst(q.plan.providers[k], LifecycleError) && |run.calls| == 2 * k + 1
      case RaisedFailure => NoneResponds(q, maxAttempts)
      case _ => true
  {
    ProceedsExactly(q, answers, t);
    NothingIsTriedUnchecked(q, maxAttempts, answers, replies, t, n);
    if PassesChecks(q, answers(t)) {
      HandleTries(q, maxAttempts, answers, replies, t, n);
      TriedOutcome(q, maxAttempts, EnvOf(q, maxAttempts, answers, replies), TriesFrom(q, t), n);
    }
  }

  lemma {:induction false} TriedOutcome(q: Incoming, maxAttempts: nat, e: Env, t: nat, n: nat)
    requires ValidIncoming(q) && q.principal.Some? && q.parsed.Some? && q.plan.Planned?
    requires e == EnvOf(q, maxAttempts, e.answers, e.replies)
    ensures var run := Try(e, 0, t, n);
      match run.outcome
      case Answered(k, body) =>
        && FirstToRespond(q, maxAttempts, k) && |run.calls| == 2 * k + 2
        && Healthy(q.plan.providers[k], false) && body == AnswerOf(q.plan.providers[k])
      case Opened(k, chunks, end) =>
        && FirstToRespond(q, maxAttempts, k) && |run.calls| == 2 * k + 1
        && q.plan.providers[k].ChatProvider? && chunks == q.plan.providers[k].chunks && end == q.plan.providers[k].end
      case LeftUnreported(k) =>
        && k < maxAttempts && k < |q.plan.targets|
        && RaisesFirst(q.plan.providers[k], LifecycleError) && |run.calls| == 2 * k + 1
      case RaisedFailure => NoneResponds(q, maxAttempts)
      case _ => true
  {
    TryObeysLaw(e, 0, t, n);
    DisciplineIsReal(e, t, n);
    match Try(e, 0, t, n).outcome {
      case Opened(k, _, _) => OpenedExactly(e, k, t, n);
      case LeftUnreported(k) => LeftUnreportedExactly(e, k, t, n);
      case _ =>
    }
  }

  /**
   Undisturbed, the plan's candidate `k` answers or streams exactly when the
   request passes every check, `k` is among the first `maxAttempts` of the plan,
   `k` is healthy and every candidate before it fails.
   */
  lemma {:induction false} FirstHealthyOfPlanAnswers(q: Incoming, maxAttempts: nat, answers: nat -> bool, replies: nat -> bool,
                                                     t: nat, n: nat, k: nat)
    requires ValidIncoming(q)
    requires (forall j :: j >= t ==> !answers(j)) && (forall j :: j >= n ==> replies(j))
    ensures var outcome := Handle(q, maxAttempts, answers, replies, t, n).outcome;
      && ((outcome.Answered? || outcome.Opened?) && outcome.index == k
          <==> PassesChecks(q, false) && FirstToRespond(q, maxAttempts, k))
      && (outcome == RaisedFailure <==> PassesChecks(q, false) && NoneResponds(q, maxAttempts))
  {
    ProceedsExactly(q, answers, t);
    NothingIsTriedUnchecked(q, maxAttempts, answers, replies, t, n);
    if PassesChecks(q, false) {
      var e := EnvOf(q, maxAttempts, answers, replies);
      HandleTries(q, maxAttempts, answers, replies, t, n);
      FirstHealthyAnswers(e, k, TriesFrom(q, t), n);
      AllFailedExactly(e, TriesFrom(q, t), n);
      SamePlan(q, maxAttempts, e, k);
    }
  }

  lemma {:induction false} SamePlan(q: Incoming, maxAttempts: nat, e: Env, k: nat)
    requires ValidIncoming(q) && q.principal.Some? && q.parsed.Some? && q.plan.Planned?
    requires e == EnvOf(q, maxAttempts, e.answers, e.replies)
    ensures k < |e.targets| && Healthy(e.providers[k], e.stream) && (forall j :: 0 <= j < k ==> Fails(e.providers[j], e.stream))
      <==> FirstToRespond(q, maxAttempts, k)
    ensures (forall j :: 0 <= j < |e.targets| ==> Fails(e.providers[j], e.stream)) <==> NoneResponds(q, maxAttempts)
  {
    assert forall j :: 0 <= j < |e.targets| ==> e.providers[j] == q.plan.providers[j];
  }

  // ---- what a request that is turned away is told -------------------------------------------------

  /** The run made this one callback, and left as stated or, if the callback failed, with its failure. */
  predicate ToldOnce(run: Run, call: Call, outcome: Outcome) {
    run.calls == [call] && run.outcome == if call.ok then outcome else RaisedLifecycle
  }

  /** A refusal before the body is parsed carries the raw model; embeddings never stream. */
  predicate RefusedRaw(q: Incoming, run: Run, principal: Option<Principal>, errorType: string, ok: bool) {
    ToldOnce(run,
      Refused(q.requestId, principal, Rejected, errorType, q.rawModel, if q.kind == EmbeddingRequest then Some(false) else q.rawStream, ok),
      RaisedRejection(errorType))
  }

  predicate RefusedParsed(q: Incoming, run: Run, errorType: string, ok: bool) {
    q.parsed.Some? &&
    ToldOnce(run,
      Refused(q.requestId, q.principal, Rejected, errorType, Some(q.parsed.value.model), Some(q.parsed.value.stream), ok),
      RaisedRejection(errorType))
  }

  /**
   What each request that does not reach a candidate is told, once: the first
   check it fails decides, under the stable error type of that check, and
   whatever is not yet known of the request is left out.
   */
  lemma {:induction false} RefusalTable(q: Incoming, maxAttempts: nat, answers: nat -> bool, replies: nat -> bool, t: nat, n: nat)
    requires ValidIncoming(q)
    ensures var run, ok := Handle(q, maxAttempts, answers, replies, t, n), replies(n);
      var admitted := q.principal.Some? && (q.quota == NoQuota || q.quota == Within);
      var parsed := admitted && !answers(t) && q.parsed.Some?;
      var planned := parsed && q.permitted && q.plan.Planned? && q.plan.targets != [];
      && (q.principal.None? ==> RefusedRaw(q, run, None, "authentication_error", ok))
      && (q.principal.Some? && q.quota == Exceeded ==> RefusedRaw(q, run, q.principal, "quota_exceeded", ok))
      && (q.principal.Some? && q.quota == QuotaUnavailable ==> RefusedRaw(q, run, q.principal, "quota_unavailable", ok))
      && (q.principal.Some? && q.quota.QuotaCrash? ==> run.calls == [] && run.outcome == Crashed(q.quota.name))
      && (admitted && answers(t) ==>
           ToldOnce(run, Refused(q.requestId, q.principal, Cancelled, "request_cancelled", q.rawModel,
                                 if q.kind == EmbeddingRequest then Some(false) else q.rawStream, ok), RaisedCancelled))
      && (admitted && !answers(t) && q.parseCrash ==> run.calls == [] && run.outcome == Crashed("TypeError"))
      && (admitted && !answers(t) && !q.parseCrash && q.parsed.None? ==> RefusedRaw(q, run, q.principal, "invalid_request_error", ok))
      && (parsed && !q.permitted ==> RefusedParsed(q, run, "model_not_permitted", ok))
      && (parsed && q.permitted && !planned ==> RefusedParsed(q, run, "no_route", ok))
      && (planned && q.media == MediaUnavailable ==> RefusedParsed(q, run, "media_artifact_unavailable", ok))
      && (planned && q.media == MediaCancelled ==>
           ToldOnce(run, Refused(q.requestId, q.principal, Cancelled, "request_cancelled", Some(q.parsed.value.model),
                                 Some(q.parsed.value.stream), ok), RaisedCancelled))
  {
    var v := Preflight(q, ReadsEvent(q) && answers(t));
    if v.Turned? {
      assert RefusalCall(q, v, replies(n)).ok == replies(n);
    }
  }
}
