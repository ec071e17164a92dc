/** What a whole request run owes its observer and its client. */
module GatewayLaws {
  import opened Prelude
  import opened Capabilities
  import opened Lifecycle
  import opened Streaming
  import opened StreamLaws
  import opened Gateway
  import opened Fallback

  /**
   Every admitted attempt has exactly one terminal report, made before anything
   else is reported; no report follows a failed admission; and a callback that
   failed is the last one, so nothing is retried.
   */
  ghost predicate Paired(calls: seq<Call>) {
    && (forall a :: 0 <= a < |calls| && calls[a].Started? && calls[a].ok ==>
         a + 1 < |calls| && calls[a + 1].Finished? && calls[a + 1].meta == calls[a].meta)
    && (forall f :: 0 <= f < |calls| && calls[f].Finished? ==> f > 0 && calls[f - 1] == Started(calls[f].meta, true))
    && (forall k :: 0 <= k < |calls| - 1 ==> calls[k].ok)
  }

  /** `calls` is paired up to a last, successful admission of `meta`. */
  ghost predicate Pending(calls: seq<Call>, meta: Metadata) {
    && calls != [] && calls[|calls| - 1] == Started(meta, true)
    && Paired(calls[..|calls| - 1]) && (forall k :: 0 <= k < |calls| ==> calls[k].ok)
  }

  /** Candidate-by-candidate shape of the callbacks from candidate `i` on. */
  ghost predicate InOrder(e: Env, i: nat, calls: seq<Call>)
    requires i <= |e.targets|
  {
    && (forall j {:trigger calls[2 * j]} :: 0 <= j && 2 * j < |calls| && !calls[2 * j].Refused? ==>
         i + j < |e.targets| && calls[2 * j].Started? && calls[2 * j].meta == MetaAt(e, i + j))
    && (forall j {:trigger calls[2 * j + 1]} :: 0 <= j && 2 * j + 1 < |calls| ==>
         i + j < |e.targets| && calls[2 * j + 1].Finished? && calls[2 * j + 1].meta == MetaAt(e, i + j))
    && (forall j {:trigger calls[2 * j + 1]} :: 0 <= j && 2 * j + 2 < |calls| ==>
         calls[2 * j + 1].status == Failed && calls[2 * j + 1].ok)
  }

  /** How the way a handler leaves shows in the callbacks it made. */
  ghost predicate OutcomeShows(e: Env, i: nat, run: Run)
    requires i <= |e.targets|
  {
    var calls := run.calls;
    match run.outcome
    case Answered(k, body) =>
      && i <= k < |e.targets| && |calls| == 2 * (k - i) + 2
      && calls[|calls| - 1] == Finished(MetaAt(e, k), Completed, BodyUsage(body), None, true)
    case Opened(k, _, _) => i <= k < |e.targets| && |calls| == 2 * (k - i) + 1 && Pending(calls, MetaAt(e, k))
    case LeftUnreported(k) => i <= k < |e.targets| && |calls| == 2 * (k - i) + 1 && Pending(calls, MetaAt(e, k))
    case RaisedCancelled =>
      && calls != [] && calls[|calls| - 1].ok
      && (calls[|calls| - 1].Finished? || calls[|calls| - 1].Refused?)
      && calls[|calls| - 1].status == Cancelled
    case RaisedLifecycle => calls != [] && !calls[|calls| - 1].ok
    case RaisedRefusal(_) => calls != [] && calls[|calls| - 1].Finished? && calls[|calls| - 1].status == Failed
    case RaisedFailure =>
      && |calls| == 2 * (|e.targets| - i)
      && (forall k :: 0 <= k < |calls| ==> calls[k].ok)
      && (calls != [] ==> calls[|calls| - 1].Finished? && calls[|calls| - 1].status == Failed)
    case RaisedRejection(_) => false
    case Crashed(_) => false
  }

  ghost predicate TryLaw(e: Env, i: nat, run: Run)
    requires i <= |e.targets|
  {
    && InOrder(e, i, run.calls)
    && OutcomeShows(e, i, run)
    && (run.outcome.Opened? || run.outcome.LeftUnreported? || Paired(run.calls))
  }

  /** A reported failure in front of the next candidate's run keeps every law. */
  lemma {:induction false} FailureInFront(e: Env, i: nat, u: Option<Usage>, name: string, rest: Run)
    requires i < |e.targets| && TryLaw(e, i + 1, rest)
    ensures TryLaw(e, i, After([Started(MetaAt(e, i), true)],
                               After([Finished(MetaAt(e, i), Failed, u, Some(name), true)], rest)))
  {
    var started, finished := Started(MetaAt(e, i), true), Finished(MetaAt(e, i), Failed, u, Some(name), true);
    var run := After([started], After([finished], rest));
    assert run.calls == [started, finished] + rest.calls;
    if !rest.outcome.Opened? && !rest.outcome.LeftUnreported? {
      PairInFront(started, finished, rest.calls);
    }
    InOrderInFront(e, i, started, finished, rest.calls);
    OutcomeInFront(e, i, started, finished, rest);
  }

  lemma {:induction false} OutcomeInFront(e: Env, i: nat, started: Call, finished: Call, rest: Run)
    requires i < |e.targets| && OutcomeShows(e, i + 1, rest)
    requires started == Started(MetaAt(e, i), true)
    requires finished.Finished? && finished.meta == MetaAt(e, i) && finished.status == Failed && finished.ok
    ensures OutcomeShows(e, i, rest.(calls := [started, finished] + rest.calls))
  {
    var calls := [started, finished] + rest.calls;
    assert forall k :: 2 <= k < |calls| ==> calls[k] == rest.calls[k - 2];
    if rest.outcome.Opened? || rest.outcome.LeftUnreported? {
      assert calls[..|calls| - 1] == [started, finished] + rest.calls[..|rest.calls| - 1];
      PairInFront(started, finished, rest.calls[..|rest.calls| - 1]);
    }
  }

  lemma {:induction false} PairInFront(started: Call, finished: Call, rest: seq<Call>)
    requires started.Started? && started.ok && finished.Finished? && finished.ok && finished.meta == started.meta
    requires Paired(rest)
    ensures Paired([started, finished] + rest)
  {
    var calls := [started, finished] + rest;
    assert forall k :: 2 <= k < |calls| ==> calls[k] == rest[k - 2];
    forall a | 0 <= a < |calls| && calls[a].Started? && calls[a].ok
      ensures a + 1 < |calls| && calls[a + 1].Finished? && calls[a + 1].meta == calls[a].meta
    {
      if a >= 2 {
        assert rest[a - 2].Started? && rest[a - 2].ok;
        assert calls[a + 1] == rest[a - 1];
      }
    }
    forall f | 0 <= f < |calls| && calls[f].Finished?
      ensures f > 0 && calls[f - 1] == Started(calls[f].meta, true)
    {
      if f >= 2 {
        assert rest[f - 2].Finished?;
        assert calls[f - 1] == rest[f - 3];
      }
    }
  }

  lemma {:induction false} InOrderInFront(e: Env, i: nat, started: Call, finished: Call, rest: seq<Call>)
    requires i < |e.targets| && InOrder(e, i + 1, rest)
    requires started == Started(MetaAt(e, i), true)
    requires finished.Finished? && finished.meta == MetaAt(e, i) && finished.status == Failed && finished.ok
    ensures InOrder(e, i, [started, finished] + rest)
  {
    var calls := [started, finished] + rest;
    forall j | 0 <= j && 2 * j < |calls| && !calls[2 * j].Refused?
      ensures i + j < |e.targets| && calls[2 * j].Started? && calls[2 * j].meta == MetaAt(e, i + j)
    {
      if j > 0 { assert calls[2 * j] == rest[2 * (j - 1)]; }
    }
    forall j | 0 <= j && 2 * j + 1 < |calls|
      ensures i + j < |e.targets| && calls[2 * j + 1].Finished? && calls[2 * j + 1].meta == MetaAt(e, i + j)
    {
      if j > 0 { assert calls[2 * j + 1] == rest[2 * (j - 1) + 1]; }
    }
    forall j | 0 <= j && 2 * j + 2 < |calls|
      ensures calls[2 * j + 1].status == Failed && calls[2 * j + 1].ok
    {
      if j > 0 { assert calls[2 * j + 1] == rest[2 * (j - 1) + 1]; }
    }
  }

  /** An admission followed by its report, then leaving the handler. */
  lemma {:induction false} ReportAndLeave(e: Env, i: nat, report: Call, outcome: Outcome, t: nat)
    requires i < |e.targets| && report.Finished? && report.meta == MetaAt(e, i)
    requires match outcome
      case Answered(k, body) =>
        k == i && report.status == Completed && report.usage == BodyUsage(body) && report.errorType.None?
      case RaisedCancelled => report.status == Cancelled
      case RaisedRefusal(_) => report.status == Failed
      case RaisedLifecycle => !report.ok
      case _ => false
    ensures TryLaw(e, i, After([Started(MetaAt(e, i), true)], Leave(report, outcome, t)))
  {
    var run := After([Started(MetaAt(e, i), true)], Leave(report, outcome, t));
    assert run.calls == [Started(MetaAt(e, i), true), report];
  }

  /** An admission after which nothing more is reported by the handler. */
  lemma {:induction false} AdmitOnly(e: Env, i: nat, outcome: Outcome, t: nat)
    requires i < |e.targets|
    requires outcome == LeftUnreported(i) || (outcome.Opened? && outcome.index == i)
    ensures TryLaw(e, i, After([Started(MetaAt(e, i), true)], Run([], outcome, t)))
  {
    var calls := [Started(MetaAt(e, i), true)];
    assert calls[..|calls| - 1] == [];
    assert calls + [] == calls;
  }

  lemma {:induction false} SettledObeysLaw(e: Env, i: nat, r: AttemptResult, t: nat, n: nat)
    requires ValidEnv(e) && i < |e.targets|
    requires r.Broke? && !e.answers(t) && e.replies(n) ==> TryLaw(e, i + 1, Try(e, i + 1, t + 1, n + 1))
    ensures TryLaw(e, i, After([Started(MetaAt(e, i), true)], Settle(e, i, r, t, n)))
  {
    var meta, ok := MetaAt(e, i), e.replies(n);
    match r {
      case Answer(body) =>
        ReportAndLeave(e, i, Finished(meta, Completed, BodyUsage(body), None, ok), Answered(i, body), t);
      case Open(chunks, end) => AdmitOnly(e, i, Opened(i, chunks, end), t);
      case Stopped(u) =>
        ReportAndLeave(e, i, Finished(meta, Cancelled, u, Some(CANCELLED_TYPE), ok), Outcome.RaisedCancelled, t);
      case RefusedBy(code) =>
        ReportAndLeave(e, i, Finished(meta, Failed, None, Some(EmbeddingErrorType(code)), ok), RaisedRefusal(code), t);
      case Escaped => AdmitOnly(e, i, LeftUnreported(i), t);
      case Broke(name, u) =>
        if e.answers(t) {
          ReportAndLeave(e, i, Finished(meta, Cancelled, u, Some(CANCELLED_TYPE), ok), Outcome.RaisedCancelled, t + 1);
        } else if ok {
          FailureInFront(e, i, u, name, Try(e, i + 1, t + 1, n + 1));
        } else {
          ReportAndLeave(e, i, Finished(meta, Failed, u, Some(name), ok), Outcome.RaisedLifecycle, t + 1);
        }
    }
  }

  lemma {:induction false} TryObeysLaw(e: Env, i: nat, t: nat, n: nat)
    requires ValidEnv(e) && i <= |e.targets|
    ensures TryLaw(e, i, Try(e, i, t, n))
    decreases |e.targets| - i
  {
    if i < |e.targets| && !e.answers(t) && e.replies(n) {
      var a := AttemptWith(e.providers[i], e.stream, e.answers, t + 1);
      if a.result.Broke? {
        TryObeysLaw(e, i + 1, a.t + 1, n + 2);
      }
      SettledObeysLaw(e, i, a.result, a.t, n + 1);
    } else {
      TurnedAwayObeysLaw(e, i, t, n);
    }
  }

  lemma {:induction false} TurnedAwayObeysLaw(e: Env, i: nat, t: nat, n: nat)
    requires ValidEnv(e) && i <= |e.targets| && (i < |e.targets| ==> e.answers(t) || !e.replies(n))
    ensures TryLaw(e, i, Try(e, i, t, n))
  {
  }

  /** A typed refusal ends the request with its own code. */
  predicate RefusedFor(p: Provider, outcome: Outcome) {
    Refuses(p) && (outcome == RaisedRefusal(p.fault.value.code) || outcome.RaisedLifecycle?)
  }

  /** The reports and the outcome of a run agree with what the providers' scripts do. */
  ghost predicate FailuresAreReal(e: Env, run: Run)
    requires ValidEnv(e)
  {
    && (forall j: nat {:trigger run.calls[2 * j + 1]} ::
         2 * j + 1 < |run.calls| && run.calls[2 * j + 1].Finished? && run.calls[2 * j + 1].status == Failed ==>
           && j < |e.targets| && (Fails(e.providers[j], e.stream) || RefusedFor(e.providers[j], run.outcome))
           && run.calls[2 * j + 1].errorType == Some(ErrorOfFailure(e.providers[j]))
           && run.calls[2 * j + 1].usage == UsageOfFailure(e.providers[j]))
    && (run.outcome.Answered? || run.outcome.Opened? ==>
         && run.outcome.index < |e.targets| && Healthy(e.providers[run.outcome.index], e.stream)
         && forall j :: 0 <= j < run.outcome.index ==> Fails(e.providers[j], e.stream))
    && (run.outcome.Answered? ==>
         Healthy(e.providers[run.outcome.index], false) && run.outcome.body == AnswerOf(e.providers[run.outcome.index]))
    && (run.outcome.RaisedFailure? ==> forall j :: 0 <= j < |e.targets| ==> Fails(e.providers[j], e.stream))
  }

  lemma {:induction false} DisciplineIsReal(e: Env, t: nat, n: nat)
    requires ValidEnv(e)
    ensures FailuresAreReal(e, Try(e, 0, t, n))
  {
    var run := Try(e, 0, t, n);
    forall j: nat | 2 * j + 1 < |run.calls| && run.calls[2 * j + 1].Finished? && run.calls[2 * j + 1].status == Failed
      ensures j < |e.targets| && (Fails(e.providers[j], e.stream) || RefusedFor(e.providers[j], run.outcome))
      ensures run.calls[2 * j + 1].errorType == Some(ErrorOfFailure(e.providers[j]))
      ensures run.calls[2 * j + 1].usage == UsageOfFailure(e.providers[j])
    {
      ReportsAreTrue(e, j, t, n);
      AttemptTells(e.providers[j], e.stream, e.answers, Arrival(e, j, t) + 1);
      if AttemptAt(e, j, t).result.RefusedBy? {
        DecidedAt(e, j, t, n);
      }
    }
    if run.outcome.Answered? || run.outcome.Opened? {
      AnsweredExactly(e, run.outcome.index, t, n);
      OpenedExactly(e, run.outcome.index, t, n);
      GivenUpMeansFails(e, run.outcome.index, t, n);
      AttemptTells(e.providers[run.outcome.index], e.stream, e.answers, Arrival(e, run.outcome.index, t) + 1);
    }
    if run.outcome.RaisedFailure? {
      FailureExactly(e, t, n);
      GivenUpMeansFails(e, |e.targets|, t, n);
    }
  }

  lemma {:induction false} GivenUpMeansFails(e: Env, k: nat, t: nat, n: nat)
    requires ValidEnv(e) && k <= |e.targets| && Reached(e, k, t, n)
    ensures forall j :: 0 <= j < k ==> Fails(e.providers[j], e.stream)
  {
    forall j | 0 <= j < k ensures Fails(e.providers[j], e.stream) {
      assert GivenUp(e, j, t, n);
      AttemptTells(e.providers[j], e.stream, e.answers, Arrival(e, j, t) + 1);
    }
  }

  /**
   Fallback discipline. Candidates are admitted in plan order, each after its
   predecessors were reported failed, and a candidate is reported failed only if
   its provider failed or refused the request; the request is answered by, or
   its stream opened on, a candidate that responds, after every earlier one
   failed; and a provider failure is raised only after every candidate failed.
   `FirstHealthyAnswers` adds the converse for undisturbed requests.
   */
  lemma {:induction false} FallbackDiscipline(e: Env, t: nat, n: nat)
    requires ValidEnv(e)
    ensures var run := Try(e, 0, t, n);
      && InOrder(e, 0, run.calls)
      && |run.calls| <= 2 * |e.targets|
      && (run.outcome.Answered? || run.outcome.Opened? ==>
           && run.outcome.index < |e.targets| && |run.calls| > 2 * run.outcome.index
           && (forall j {:trigger MetaAt(e, j)} :: 0 <= j < run.outcome.index ==>
                && run.calls[2 * j] == Started(MetaAt(e, j), true)
                && run.calls[2 * j + 1].Finished? && run.calls[2 * j + 1].meta == MetaAt(e, j)
                && run.calls[2 * j + 1].status == Failed))
      && (run.outcome.RaisedFailure? ==> |run.calls| == 2 * |e.targets|)
    ensures FailuresAreReal(e, Try(e, 0, t, n))
  {
    TryObeysLaw(e, 0, t, n);
    DisciplineIsReal(e, t, n);
    var run := Try(e, 0, t, n);
    if |run.calls| > 2 * |e.targets| {
      assert run.calls[2 * |e.targets|].Refused?;
      RefusalOnlyBeforeExhaustion(e, 0, t, n);
    }
    if run.outcome.Answered? || run.outcome.Opened? {
      forall j {:trigger MetaAt(e, j)} | 0 <= j < run.outcome.index
        ensures run.calls[2 * j] == Started(MetaAt(e, j), true)
        ensures run.calls[2 * j + 1].Finished? && run.calls[2 * j + 1].meta == MetaAt(e, j)
        ensures run.calls[2 * j + 1].status == Failed
      {
        assert 2 * j + 2 < |run.calls|;
        assert run.calls[2 * j + 1].Finished?;
        assert run.calls[2 * j + 1 - 1] == Started(MetaAt(e, j), true) by {
          if run.outcome.Opened? {
            var front := run.calls[..|run.calls| - 1];
            assert front[2 * j + 1] == run.calls[2 * j + 1] && front[2 * j + 1 - 1] == run.calls[2 * j];
          }
        }
      }
    }
  }

  lemma {:induction false} RefusalOnlyBeforeExhaustion(e: Env, i: nat, t: nat, n: nat)
    requires ValidEnv(e) && i <= |e.targets|
    ensures |Try(e, i, t, n).calls| <= 2 * (|e.targets| - i)
    decreases |e.targets| - i
  {
    if i < |e.targets| && !e.answers(t) && e.replies(n) {
      var a := AttemptWith(e.providers[i], e.stream, e.answers, t + 1);
      if a.result.Broke? && !e.answers(a.t) && e.replies(n + 1) {
        RefusalOnlyBeforeExhaustion(e, i + 1, a.t + 1, n + 2);
      }
    }
  }

  // ---- whole requests, streams included ----------------------------------------------

  /** The handler gets past its checks to the candidates; `TriesFrom` reads of the event precede them. */
  predicate Proceeds(q: Incoming, answers: nat -> bool, t: nat) {
    Preflight(q, ReadsEvent(q) && answers(t)).Proceed?
  }

  function TriesFrom(q: Incoming, t: nat): nat {
    t + 1 + q.mediaReads
  }

  lemma {:induction false} HandleTries(q: Incoming, maxAttempts: nat, answers: nat -> bool, replies: nat -> bool, t: nat, n: nat)
    requires ValidIncoming(q)
    ensures var run := Handle(q, maxAttempts, answers, replies, t, n);
      if Proceeds(q, answers, t) then run == Try(EnvOf(q, maxAttempts, answers, replies), 0, TriesFrom(q, t), n)
      else !run.outcome.LeftUnreported? && !run.outcome.Opened?
  {
  }

  /** The observer callbacks of a request whose stream, if any, is read for `budget` items. */
  function RequestCalls(q: Incoming, maxAttempts: nat, includeUsage: bool, answers: nat -> bool, replies: nat -> bool,
                        t: nat, n: nat, budget: nat): seq<Call>
    requires ValidIncoming(q)
  {
    var run := Handle(q, maxAttempts, answers, replies, t, n);
    if run.outcome.Opened? then
      run.calls + StreamOf(q, maxAttempts, includeUsage, answers, replies, t, n, budget).calls
    else run.calls
  }

  /** The stream a handler opened, read for `budget` items. */
  function StreamOf(q: Incoming, maxAttempts: nat, includeUsage: bool, answers: nat -> bool, replies: nat -> bool,
                    t: nat, n: nat, budget: nat): StreamRun
    requires ValidIncoming(q) && Handle(q, maxAttempts, answers, replies, t, n).outcome.Opened?
  {
    var run := Handle(q, maxAttempts, answers, replies, t, n);
    HandleObeysLaw(q, maxAttempts, answers, replies, t, n);
    Stream(Setup(run.calls[|run.calls| - 1].meta, includeUsage, answers, replies),
      run.outcome.chunks, run.outcome.end, run.t, n + |run.calls|, budget)
  }

  lemma {:induction false} HandleObeysLaw(q: Incoming, maxAttempts: nat, answers: nat -> bool, replies: nat -> bool, t: nat, n: nat)
    requires ValidIncoming(q)
    ensures var run := Handle(q, maxAttempts, answers, replies, t, n);
      && |run.calls| <= 2 * maxAttempts + 1
      && (run.outcome.Opened? || run.outcome.LeftUnreported? ==>
           run.calls != [] && run.calls[|run.calls| - 1].Started? && Pending(run.calls, run.calls[|run.calls| - 1].meta))
      && (!run.outcome.Opened? && !run.outcome.LeftUnreported? ==> Paired(run.calls))
  {
    HandleTries(q, maxAttempts, answers, replies, t, n);
    if Proceeds(q, answers, t) {
      var e := EnvOf(q, maxAttempts, answers, replies);
      TryObeysLaw(e, 0, TriesFrom(q, t), n);
      RefusalOnlyBeforeExhaustion(e, 0, TriesFrom(q, t), n);
    }
  }

  /** Some candidate is reached and admitted, and its provider raises the lifecycle error before a first chunk. */
  ghost predicate Escapes(q: Incoming, maxAttempts: nat, answers: nat -> bool, replies: nat -> bool, t: nat, n: nat)
    requires ValidIncoming(q)
  {
    Proceeds(q, answers, t) &&
    var e := EnvOf(q, maxAttempts, answers, replies);
    exists k :: 0 <= k < |e.targets| && EscapesAt(e, k, TriesFrom(q, t), n)
  }

  predicate EscapesAt(e: Env, k: nat, t: nat, n: nat)
    requires ValidEnv(e) && k < |e.targets|
  {
    Reached(e, k, t, n) && Admitted(e, k, t, n) && RaisesFirst(e.providers[k], LifecycleError)
  }

  /** Some candidate is reached and admitted, and its provider yields a first chunk to a streaming request. */
  ghost predicate Opens(q: Incoming, maxAttempts: nat, answers: nat -> bool, replies: nat -> bool, t: nat, n: nat)
    requires ValidIncoming(q)
  {
    Proceeds(q, answers, t) &&
    var e := EnvOf(q, maxAttempts, answers, replies);
    exists k :: 0 <= k < |e.targets| && OpensAt(e, k, TriesFrom(q, t), n)
  }

  predicate OpensAt(e: Env, k: nat, t: nat, n: nat)
    requires ValidEnv(e) && k < |e.targets|
  {
    && Reached(e, k, t, n) && Admitted(e, k, t, n)
    && e.stream && e.providers[k].ChatProvider? && Healthy(e.providers[k], true)
  }

  /** The two ways a handler run leaves an admission without a report, as conditions on its input. */
  lemma {:induction false} PendingExactly(q: Incoming, maxAttempts: nat, answers: nat -> bool, replies: nat -> bool, t: nat, n: nat)
    requires ValidIncoming(q)
    ensures var outcome := Handle(q, maxAttempts, answers, replies, t, n).outcome;
      && (outcome.LeftUnreported? <==> Escapes(q, maxAttempts, answers, replies, t, n))
      && (outcome.Opened? <==> Opens(q, maxAttempts, answers, replies, t, n))
  {
    HandleTries(q, maxAttempts, answers, replies, t, n);
    if Proceeds(q, answers, t) {
      TryPendingExactly(EnvOf(q, maxAttempts, answers, replies), TriesFrom(q, t), n);
    }
  }

  lemma {:induction false} TryPendingExactly(e: Env, t: nat, n: nat)
    requires ValidEnv(e)
    ensures var outcome := Try(e, 0, t, n).outcome;
      && (outcome.LeftUnreported? <==> exists k :: 0 <= k < |e.targets| && EscapesAt(e, k, t, n))
      && (outcome.Opened? <==> exists k :: 0 <= k < |e.targets| && OpensAt(e, k, t, n))
  {
    var outcome := Try(e, 0, t, n).outcome;
    forall k | 0 <= k < |e.targets|
      ensures EscapesAt(e, k, t, n) <==> outcome == LeftUnreported(k)
      ensures OpensAt(e, k, t, n) <==> outcome.Opened? && outcome.index == k
    {
      LeftUnreportedExactly(e, k, t, n);
      OpenedExactly(e, k, t, n);
    }
    if outcome.LeftUnreported? {
      LeftUnreportedExactly(e, outcome.index, t, n);
    }
    if outcome.Opened? {
      OpenedExactly(e, outcome.index, t, n);
      assert OpensAt(e, outcome.index, t, n);
    }
  }

  /**
   Exactly one terminal report per admitted attempt, for every provider script,
   cancellation timing, observer failure and abandonment point, unless the
   stream is never advanced, or a provider that is reached and admitted raises
   the gateway's own lifecycle error before a first chunk, which the handler
   re-raises unreported. Those are exactly the exceptions.
   */
  lemma {:induction false} ExactlyOneTerminalReport(
    q: Incoming, maxAttempts: nat, includeUsage: bool, answers: nat -> bool, replies: nat -> bool, t: nat, n: nat, budget: nat)
    requires ValidIncoming(q)
    ensures Paired(RequestCalls(q, maxAttempts, includeUsage, answers, replies, t, n, budget)) <==>
      && !Escapes(q, maxAttempts, answers, replies, t, n)
      && (Opens(q, maxAttempts, answers, replies, t, n) ==> budget > 0)
  {
    var run := Handle(q, maxAttempts, answers, replies, t, n);
    HandleObeysLaw(q, maxAttempts, answers, replies, t, n);
    PendingExactly(q, maxAttempts, answers, replies, t, n);
    if run.outcome.LeftUnreported? {
      PendingIsUnpaired(run.calls);
    } else if run.outcome.Opened? {
      var stream := StreamOf(q, maxAttempts, includeUsage, answers, replies, t, n, budget);
      var s := Setup(run.calls[|run.calls| - 1].meta, includeUsage, answers, replies);
      ExactlyOneReport(s, run.outcome.chunks, run.outcome.end, run.t, n + |run.calls|, budget);
      if budget == 0 {
        assert run.calls + stream.calls == run.calls;
        PendingIsUnpaired(run.calls);
      } else {
        assert stream.calls == [stream.calls[0]];
        ReportCloses(run.calls, stream.calls[0]);
      }
    }
  }

  /** No planned provider raises the lifecycle error before its first chunk. */
  predicate WellBehaved(q: Incoming) {
    q.plan.Planned? ==> forall k :: 0 <= k < |q.plan.providers| ==> !RaisesFirst(q.plan.providers[k], LifecycleError)
  }

  /** With such providers the pairing fails only for a stream that is opened and never advanced. */
  lemma {:induction false} WellBehavedProvidersArePaired(
    q: Incoming, maxAttempts: nat, includeUsage: bool, answers: nat -> bool, replies: nat -> bool, t: nat, n: nat, budget: nat)
    requires ValidIncoming(q) && WellBehaved(q)
    ensures Paired(RequestCalls(q, maxAttempts, includeUsage, answers, replies, t, n, budget)) <==>
      (Opens(q, maxAttempts, answers, replies, t, n) ==> budget > 0)
  {
    ExactlyOneTerminalReport(q, maxAttempts, includeUsage, answers, replies, t, n, budget);
    WellBehavedNeverEscapes(q, maxAttempts, answers, replies, t, n);
  }

  lemma {:induction false} WellBehavedNeverEscapes(
    q: Incoming, maxAttempts: nat, answers: nat -> bool, replies: nat -> bool, t: nat, n: nat)
    requires ValidIncoming(q)
    ensures Escapes(q, maxAttempts, answers, replies, t, n) ==> !WellBehaved(q)
  {
    if Escapes(q, maxAttempts, answers, replies, t, n) {
      var e := EnvOf(q, maxAttempts, answers, replies);
      var k :| 0 <= k < |e.targets| && EscapesAt(e, k, TriesFrom(q, t), n);
      assert e.providers[k] == q.plan.providers[k];
    }
  }

  lemma {:induction false} PendingIsUnpaired(calls: seq<Call>)
    requires calls != [] && calls[|calls| - 1].Started? && Pending(calls, calls[|calls| - 1].meta)
    ensures !Paired(calls)
  {
    var a := |calls| - 1;
    assert calls[a].Started? && calls[a].ok;
  }

  lemma {:induction false} ReportCloses(calls: seq<Call>, report: Call)
    requires calls != [] && calls[|calls| - 1].Started? && Pending(calls, calls[|calls| - 1].meta)
    requires report.Finished? && report.meta == calls[|calls| - 1].meta
    ensures Paired(calls + [report])
  {
    var front := calls[..|calls| - 1];
    var whole := calls + [report];
    assert forall k :: 0 <= k < |front| ==> whole[k] == front[k];
    forall f | 0 <= f < |whole| && whole[f].Finished? ensures f > 0 && whole[f - 1] == Started(whole[f].meta, true) {
      if f < |front| { assert front[f].Finished?; }
    }
  }
}
