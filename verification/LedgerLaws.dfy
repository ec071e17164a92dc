/** The ledger refines the gateway: one run leaves one row, and interleaved runs never touch each other's rows. */
module LedgerLaws {
  import opened Prelude
  import opened Capabilities
  import opened Lifecycle
  import opened Streaming
  import opened StreamLaws
  import opened Gateway
  import opened GatewayLaws
  import opened HandlerLaws
  import opened AuditLedger

  /** The constructor's check: an observer that does not allow several attempts gets exactly one. */
  predicate ConfigAccepted(maxAttempts: nat, allowMultipleAttempts: bool) {
    maxAttempts > 0 && (maxAttempts == 1 || allowMultipleAttempts)
  }

  // ---- the protocol of a single-attempt run ---------------------------------------

  datatype Phase = Fresh | Busy(meta: Metadata) | Over

  /** The callbacks a run may make, and where they take it. */
  function Next(p: Phase, call: Call): Option<Phase> {
    match p
    case Fresh =>
      if call.Started? then Some(if call.ok then Busy(call.meta) else Over)
      else if call.Refused? then Some(Over) else None
    case Busy(meta) => if call.Finished? && call.meta == meta then Some(Over) else None
    case Over => None
  }

  predicate Accepts(p: Phase, calls: seq<Call>)
    decreases |calls|
  {
    calls == [] || (Next(p, calls[0]).Some? && Accepts(Next(p, calls[0]).value, calls[1..]))
  }

  /** With one attempt a run reports one refusal, or one admission and at most one terminal outcome for it. */
  ghost predicate SingleShape(id: string, calls: seq<Call>) {
    || calls == []
    || (|calls| == 1 && calls[0].Refused? && calls[0].requestId == id && (calls[0].status == Rejected || calls[0].status == Cancelled))
    || (|calls| == 1 && calls[0].Started? && calls[0].meta.requestId == id)
    || (|calls| == 2 && calls[0].Started? && calls[0].ok && calls[0].meta.requestId == id
        && calls[1].Finished? && calls[1].meta == calls[0].meta && calls[1].status != Rejected)
  }

  lemma {:induction false} SingleTry(e: Env, t: nat, n: nat)
    requires ValidEnv(e) && |e.targets| == 1
    ensures var run := Try(e, 0, t, n);
      && SingleShape(e.requestId, run.calls) && run.calls != [] && !run.outcome.Crashed?
      && (run.outcome.Opened? || run.outcome.LeftUnreported? ==> |run.calls| == 1 && run.calls[0].Started? && run.calls[0].ok)
      && (!run.outcome.Opened? && !run.outcome.LeftUnreported? && |run.calls| == 1 && run.calls[0].Started? ==> !run.calls[0].ok)
  {
    if !e.answers(t) && e.replies(n) {
      var a := AttemptWith(e.providers[0], e.stream, e.answers, t + 1);
      var rest := Try(e, 1, a.t + 1, n + 2);
      assert rest.calls == [];
    }
  }

  lemma {:induction false} SingleHandle(q: Incoming, answers: nat -> bool, replies: nat -> bool, t: nat, n: nat)
    requires ValidIncoming(q)
    ensures var run := Handle(q, 1, answers, replies, t, n);
      && SingleShape(q.requestId, run.calls)
      && (run.calls == [] <==> run.outcome.Crashed?)
      && (run.outcome.Opened? || run.outcome.LeftUnreported? ==> |run.calls| == 1 && run.calls[0].Started? && run.calls[0].ok)
      && (!run.outcome.Opened? && !run.outcome.LeftUnreported? && |run.calls| == 1 && run.calls[0].Started? ==> !run.calls[0].ok)
  {
    var cancelled := ReadsEvent(q) && answers(t);
    if Preflight(q, cancelled).Proceed? {
      SingleTry(EnvOf(q, 1, answers, replies), t + 1 + q.mediaReads, n);
    }
  }

  /** Every request of a gateway with a durable recorder follows the protocol. */
  lemma {:induction false} RequestsFollowProtocol(
    q: Incoming, maxAttempts: nat, includeUsage: bool, answers: nat -> bool, replies: nat -> bool, t: nat, n: nat, budget: nat)
    requires ValidIncoming(q) && ConfigAccepted(maxAttempts, false)
    ensures var calls := RequestCalls(q, maxAttempts, includeUsage, answers, replies, t, n, budget);
      SingleShape(q.requestId, calls) && Accepts(Fresh, calls)
  {
    SingleHandle(q, answers, replies, t, n);
    var run := Handle(q, 1, answers, replies, t, n);
    var calls := RequestCalls(q, 1, includeUsage, answers, replies, t, n, budget);
    if run.outcome.Opened? {
      var s := Setup(run.calls[0].meta, includeUsage, answers, replies);
      StreamReports(s, run.outcome.chunks, run.outcome.end, run.t, n + 1, budget);
      var stream := StreamOf(q, 1, includeUsage, answers, replies, t, n, budget);
      assert calls == run.calls + stream.calls;
    }
    ShapeAccepted(q.requestId, calls);
  }

  lemma {:induction false} StreamReports(s: Setup, chunks: seq<Chunk>, end: Option<Fault>, t: nat, n: nat, budget: nat)
    ensures var run := Stream(s, chunks, end, t, n, budget);
      run.calls != [] ==>
        |run.calls| == 1 && run.calls[0].Finished? && run.calls[0].meta == s.meta && run.calls[0].status != Rejected
  {
    if budget > 0 {
      PumpObeysLaw(s, chunks, end, 0, t, n, budget);
    }
  }

  lemma {:induction false} ShapeAccepted(id: string, calls: seq<Call>)
    requires SingleShape(id, calls)
    ensures Accepts(Fresh, calls)
  {
    if |calls| == 2 {
      assert calls[1..] == [calls[1]];
      assert Accepts(Busy(calls[0].meta), calls[1..]);
    }
  }

  // ---- one run against the ledger -----------------------------------------------------

  /** The identity columns of an admitted request. */
  predicate Identifies(row: Row, meta: Metadata) {
    && row.routeId == Some(meta.routeId) && row.bindingId == Some(meta.providerRef)
    && row.model == Some(meta.model) && row.stream == Some(meta.stream) && row.principal == Some(meta.principal)
  }

  /** The usage columns hold the reported facts; the class is final once both parts are known. */
  predicate UsageColumns(row: Row, usage: Option<Usage>) {
    && (usage.None? ==>
         && row.prompt == None && row.completion == None && row.total == None && row.source == None)
    && (usage.Some? ==>
         && row.prompt == usage.value.prompt && row.completion == usage.value.completion
         && row.total == usage.value.total && row.source == Some(usage.value.source))
    && (row.usageState == Final <==> row.prompt != None && row.completion != None)
    && (row.usageState == Unknown <==> row.prompt == None && row.completion == None && row.total == None)
  }

  predicate InProgress(row: Row, meta: Metadata) {
    Identifies(row, meta) && row.status == InFlight && UsageColumns(row, None) && row.errorType == None
  }

  predicate Concluded(row: Row, meta: Metadata, status: Status, usage: Option<Usage>, errorType: Option<string>) {
    Identifies(row, meta) && row.status == Terminal(status) && UsageColumns(row, usage) && row.errorType == errorType
  }

  /** A refusal names no route and no provider. */
  predicate TurnedDown(row: Row, refusal: Call)
    requires refusal.Refused?
  {
    && row.routeId == None && row.bindingId == None
    && row.model == refusal.model && row.stream == refusal.stream && row.principal == refusal.principal
    && row.status == Terminal(refusal.status) && UsageColumns(row, None) && row.errorType == Some(refusal.reason)
  }

  /** The bill of one outcome: none without a token fact, else one for the principal's actor with exactly those facts. */
  predicate BilledFor(bills: seq<Bill>, meta: Metadata, status: Status, usage: Option<Usage>) {
    if usage.None? || (usage.value.prompt == None && usage.value.completion == None && usage.value.total == None) then bills == []
    else
      && |bills| == 1
      && bills[0].requestId == meta.requestId && bills[0].status == status && bills[0].model == meta.model
      && bills[0].tenantId == meta.principal.actorId && bills[0].workspaceId == meta.principal.workspaceId
      && bills[0].prompt == usage.value.prompt && bills[0].completion == usage.value.completion
      && bills[0].total == usage.value.total && bills[0].source == usage.value.source
  }

  /** What one run leaves in the ledger it started from: its own row and at most one bill, column by column. */
  ghost predicate Leaves(before: Ledger, id: string, calls: seq<Call>, after: Ledger)
    requires SingleShape(id, calls) && calls != []
  {
    && id in after.rows && after.rows - {id} == before.rows - {id}
    && before.bills <= after.bills
    && match calls[0]
       case Refused(_, _, status, _, _, _, _) =>
         && TurnedDown(after.rows[id], calls[0]) && after.bills == before.bills
         && (status == Rejected || status == Cancelled)
       case Started(meta, _) =>
         if |calls| == 1 then InProgress(after.rows[id], meta) && after.bills == before.bills
         else
           && calls[1].status in {Completed, Failed, Cancelled}
           && Concluded(after.rows[id], meta, calls[1].status, calls[1].usage, calls[1].errorType)
           && BilledFor(after.bills[|before.bills|..], meta, calls[1].status, calls[1].usage)
       case Finished(_, _, _, _, _) => false
  }

  lemma {:induction false} ShapeLeaves(before: Ledger, id: string, calls: seq<Call>)
    requires SingleShape(id, calls) && calls != [] && FaithfulAll(before, calls)
    ensures id !in before.rows ==> Leaves(before, id, calls, RecordAll(before, calls))
    ensures id in before.rows ==> RecordAll(before, calls) == before
  {
    var first := Record(before, calls[0]);
    assert RecordAll(before, calls) == RecordAll(first, calls[1..]);
    if |calls| == 2 {
      assert calls[1..] == [calls[1]];
      assert RecordAll(first, [calls[1]]) == Record(first, calls[1]) by {
        assert [calls[1]][1..] == [];
      }
    } else {
      assert calls[1..] == [];
    }
  }

  lemma {:induction false} FirstCallDescribes(q: Incoming, answers: nat -> bool, replies: nat -> bool, t: nat, n: nat)
    requires ValidIncoming(q)
    ensures var calls := Handle(q, 1, answers, replies, t, n).calls;
      calls != [] && calls[0].Started? ==> Describes(q, 0, calls[0].meta)
  {
    PlanIsTriedInOrder(q, 1, answers, replies, t, n);
    var calls := Handle(q, 1, answers, replies, t, n).calls;
    if calls != [] {
      assert AboutPlan(q, 1, calls, 0);
    }
  }

  /**
   Ledger refinement. From a ledger without the request's row, a run leaves
   exactly one new row and alters no other. The row is a rejection or
   cancellation if no attempt was admitted; else it is terminal exactly when
   the run reported its end. A run whose id is already present changes nothing.
   */
  lemma {:induction false} LedgerRefinement(
    q: Incoming, maxAttempts: nat, includeUsage: bool, answers: nat -> bool, replies: nat -> bool, t: nat, n: nat, budget: nat,
    before: Ledger)
    requires ValidIncoming(q) && ConfigAccepted(maxAttempts, false)
    requires !Handle(q, maxAttempts, answers, replies, t, n).outcome.Crashed?
    requires FaithfulAll(before, RequestCalls(q, maxAttempts, includeUsage, answers, replies, t, n, budget))
    ensures var calls := RequestCalls(q, maxAttempts, includeUsage, answers, replies, t, n, budget);
      var after := RecordAll(before, calls);
      && (q.requestId in before.rows ==> after == before)
      && (q.requestId !in before.rows ==>
           && calls != [] && SingleShape(q.requestId, calls) && Leaves(before, q.requestId, calls, after)
           && (calls[0].Started? ==> Describes(q, 0, calls[0].meta))
           && (after.rows[q.requestId].status.Terminal? <==>
                && !Escapes(q, maxAttempts, answers, replies, t, n)
                && (Opens(q, maxAttempts, answers, replies, t, n) ==> budget > 0)))
  {
    PendingExactly(q, maxAttempts, answers, replies, t, n);
    SingleHandle(q, answers, replies, t, n);
    FirstCallDescribes(q, answers, replies, t, n);
    RequestsFollowProtocol(q, maxAttempts, includeUsage, answers, replies, t, n, budget);
    var run := Handle(q, 1, answers, replies, t, n);
    var calls := RequestCalls(q, 1, includeUsage, answers, replies, t, n, budget);
    if run.outcome.Opened? {
      var s := Setup(run.calls[0].meta, includeUsage, answers, replies);
      ExactlyOneReport(s, run.outcome.chunks, run.outcome.end, run.t, n + 1, budget);
      assert |calls| == 1 + |StreamOf(q, 1, includeUsage, answers, replies, t, n, budget).calls|;
    }
    ShapeLeaves(before, q.requestId, calls);
  }

  /** The answers of a recorder to a run that makes its callbacks from number `n` on. */
  function RecorderReplies(n: nat, first: bool, second: bool): nat -> bool {
    k => if k == n then first else second
  }

  /** The run ends with a report that has token facts to bill. */
  predicate Billable(calls: seq<Call>) {
    |calls| == 2 && calls[1].Finished? && HasFacts(calls[1].usage)
  }

  /** Whether a run opens with an admission is decided before the observer answers anything. */
  lemma {:induction false} AdmissionIsDecidedFirst(q: Incoming, answers: nat -> bool, t: nat, n: nat, second: bool)
    requires ValidIncoming(q)
    ensures var calls := Handle(q, 1, answers, RecorderReplies(n, true, second), t, n).calls;
      calls != [] && calls[0].Started? ==>
        && Handle(q, 1, answers, RecorderReplies(n, false, second), t, n).calls == [Started(calls[0].meta, false)]
        && !Handle(q, 1, answers, RecorderReplies(n, false, second), t, n).outcome.Opened?
  {
  }

  /**
   The recorder can answer every run faithfully, whatever its ledger holds: an
   admission is refused exactly when the id is known, a refusal is taken, and a
   terminal report succeeds, or fails for its billing if it has token facts.
   Hence the hypothesis of the ledger theorems excludes no request.
   */
  lemma {:induction false} RecorderAnswersFaithfully(
    q: Incoming, includeUsage: bool, answers: nat -> bool, t: nat, n: nat, budget: nat, before: Ledger, second: bool)
    requires ValidIncoming(q)
    ensures var admitted := RequestCalls(q, 1, includeUsage, answers, RecorderReplies(n, true, second), t, n, budget);
      var refused := RequestCalls(q, 1, includeUsage, answers, RecorderReplies(n, false, second), t, n, budget);
      if admitted != [] && admitted[0].Started? && q.requestId in before.rows then FaithfulAll(before, refused)
      else (second || Billable(admitted) ==> FaithfulAll(before, admitted))
  {
    var replies := RecorderReplies(n, true, second);
    RequestsFollowProtocol(q, 1, includeUsage, answers, replies, t, n, budget);
    RequestsFollowProtocol(q, 1, includeUsage, answers, RecorderReplies(n, false, second), t, n, budget);
    SingleHandle(q, answers, replies, t, n);
    AdmissionIsDecidedFirst(q, answers, t, n, second);
    var calls := RequestCalls(q, 1, includeUsage, answers, replies, t, n, budget);
    FirstReplies(q, includeUsage, answers, replies, t, n, budget);
    if |calls| == 2 {
      assert calls[1..] == [calls[1]];
    }
  }

  /** The callbacks of a run carry the replies in their order. */
  lemma {:induction false} FirstReplies(
    q: Incoming, includeUsage: bool, answers: nat -> bool, replies: nat -> bool, t: nat, n: nat, budget: nat)
    requires ValidIncoming(q)
    ensures var calls := RequestCalls(q, 1, includeUsage, answers, replies, t, n, budget);
      && (|calls| > 0 ==> calls[0].ok == replies(n))
      && (|calls| > 1 ==> calls[1].ok == replies(n + 1))
  {
    SingleHandle(q, answers, replies, t, n);
    var run := Handle(q, 1, answers, replies, t, n);
    if run.outcome.Opened? {
      var s := Setup(run.calls[0].meta, includeUsage, answers, replies);
      if budget > 0 {
        PumpObeysLaw(s, run.outcome.chunks, run.outcome.end, 0, run.t, n + 1, budget);
      }
    }
    if Proceeds(q, answers, t) {
      SingleReplies(EnvOf(q, 1, answers, replies), TriesFrom(q, t), n);
    }
  }

  lemma {:induction false} SingleReplies(e: Env, t: nat, n: nat)
    requires ValidEnv(e) && |e.targets| == 1
    ensures var calls := Try(e, 0, t, n).calls;
      && (|calls| > 0 ==> calls[0].ok == e.replies(n))
      && (|calls| > 1 ==> calls[1].ok == e.replies(n + 1))
  {
  }

  /** Done means committed: when the client sees `[DONE]`, its row is completed and carries the usage of every chunk. */
  lemma {:induction false} DoneMeansCommittedRow(
    q: Incoming, includeUsage: bool, answers: nat -> bool, replies: nat -> bool, t: nat, n: nat, budget: nat, before: Ledger)
    requires ValidIncoming(q) && Handle(q, 1, answers, replies, t, n).outcome.Opened?
    requires FaithfulAll(before, RequestCalls(q, 1, includeUsage, answers, replies, t, n, budget))
    requires Done in StreamOf(q, 1, includeUsage, answers, replies, t, n, budget).items
    ensures var run := Handle(q, 1, answers, replies, t, n);
      var after := RecordAll(before, RequestCalls(q, 1, includeUsage, answers, replies, t, n, budget));
      var usage := MergeAll(run.outcome.chunks);
      && |run.calls| == 1 && run.calls[0].Started? && Describes(q, 0, run.calls[0].meta)
      && q.requestId !in before.rows && q.requestId in after.rows
      && Concluded(after.rows[q.requestId], run.calls[0].meta, Completed, usage, None)
      && before.bills <= after.bills && BilledFor(after.bills[|before.bills|..], run.calls[0].meta, Completed, usage)
  {
    SingleHandle(q, answers, replies, t, n);
    FirstCallDescribes(q, answers, replies, t, n);
    var run := Handle(q, 1, answers, replies, t, n);
    var s := Setup(run.calls[0].meta, includeUsage, answers, replies);
    DoneMeansCommitted(s, run.outcome.chunks, run.outcome.end, run.t, n + 1, budget);
    RequestsFollowProtocol(q, 1, includeUsage, answers, replies, t, n, budget);
    var calls := RequestCalls(q, 1, includeUsage, answers, replies, t, n, budget);
    assert calls == [run.calls[0], Finished(s.meta, Completed, MergeAll(run.outcome.chunks), None, true)];
    ShapeLeaves(before, q.requestId, calls);
  }

  // ---- interleaved runs -------------------------------------------------------------------

  /** Any number of runs share one ledger; `owner` remembers which run inserted a row. */
  datatype World = World(ledger: Ledger, phases: map<nat, Phase>, owner: map<string, nat>)

  datatype Event = Event(run: nat, call: Call)

  function PhaseOf(w: World, run: nat): Phase {
    if run in w.phases then w.phases[run] else Fresh
  }

  ghost predicate Legal(w: World, ev: Event) {
    Next(PhaseOf(w, ev.run), ev.call).Some? && Faithful(w.ledger, ev.call)
  }

  function CallId(call: Call): string {
    if call.Refused? then call.requestId else call.meta.requestId
  }

  function StepWorld(w: World, ev: Event): World
    requires Next(PhaseOf(w, ev.run), ev.call).Some?
  {
    var inserted := !ev.call.Finished? && CallId(ev.call) !in w.ledger.rows;
    World(Record(w.ledger, ev.call),
      w.phases[ev.run := Next(PhaseOf(w, ev.run), ev.call).value],
      if inserted then w.owner[CallId(ev.call) := ev.run] else w.owner)
  }

  ghost predicate LegalAll(w: World, evs: seq<Event>)
    decreases |evs|
  {
    evs != [] ==> Legal(w, evs[0]) && LegalAll(StepWorld(w, evs[0]), evs[1..])
  }

  ghost function RunWorld(w: World, evs: seq<Event>): World
    requires LegalAll(w, evs)
    decreases |evs|
  {
    if evs == [] then w else RunWorld(StepWorld(w, evs[0]), evs[1..])
  }

  const EMPTY_WORLD := World(Ledger(map[], []), map[], map[])

  /** A billing event agrees with a terminal row. */
  ghost predicate BillMatches(bill: Bill, rows: map<string, Row>) {
    && bill.requestId in rows
    && var row := rows[bill.requestId];
       && row.status == Terminal(bill.status)
       && row.prompt == bill.prompt && row.completion == bill.completion && row.total == bill.total
       && row.source == Some(bill.source) && row.model == Some(bill.model)
       && row.principal.Some? && row.principal.value.actorId == bill.tenantId && row.principal.value.workspaceId == bill.workspaceId
  }

  /** A busy run's row is in flight and its own. */
  ghost predicate BusyOwn(w: World) {
    forall r :: r in w.phases && w.phases[r].Busy? ==>
      var id := w.phases[r].meta.requestId;
      id in w.ledger.rows && id in w.owner && w.owner[id] == r && w.ledger.rows[id] == StartedRow(w.phases[r].meta)
  }

  /** A row in flight belongs to a busy run. */
  ghost predicate InFlightBusy(w: World) {
    forall id :: id in w.ledger.rows && w.ledger.rows[id].status == InFlight ==>
      && id in w.owner && w.owner[id] in w.phases
      && w.phases[w.owner[id]].Busy? && w.phases[w.owner[id]].meta.requestId == id
  }

  ghost predicate BillsMatch(l: Ledger) {
    && (forall i :: 0 <= i < |l.bills| ==> BillMatches(l.bills[i], l.rows))
    && (forall i, j :: 0 <= i < j < |l.bills| ==> l.bills[i].requestId != l.bills[j].requestId)
  }

  ghost predicate WorldInv(w: World) {
    w.owner.Keys == w.ledger.rows.Keys && BusyOwn(w) && InFlightBusy(w) && BillsMatch(w.ledger)
  }

  /** No step alters a row that another run inserted, and no step alters a terminal row. */
  lemma {:induction false} OnlyOwnersAlterRows(w: World, ev: Event, id: string)
    requires WorldInv(w) && Legal(w, ev) && id in w.ledger.rows
    ensures var w' := StepWorld(w, ev);
      && id in w'.ledger.rows && w'.owner[id] == w.owner[id]
      && (w'.ledger.rows[id] != w.ledger.rows[id] ==>
           && w.owner[id] == ev.run && w.ledger.rows[id].status == InFlight && w'.ledger.rows[id].status.Terminal?)
  {
  }

  lemma {:induction false} StepKeepsBusy(w: World, ev: Event)
    requires WorldInv(w) && Legal(w, ev)
    ensures StepWorld(w, ev).owner.Keys == StepWorld(w, ev).ledger.rows.Keys
    ensures BusyOwn(StepWorld(w, ev)) && InFlightBusy(StepWorld(w, ev))
  {
    if ev.call.Finished? {
      assert PhaseOf(w, ev.run) == Busy(ev.call.meta);
    }
  }

  /** A terminal report bills a row that was in flight, so no earlier event can have billed it. */
  lemma {:induction false} StepKeepsBills(w: World, ev: Event)
    requires WorldInv(w) && Legal(w, ev)
    ensures BillsMatch(StepWorld(w, ev).ledger)
  {
    var l, l', id := w.ledger, StepWorld(w, ev).ledger, CallId(ev.call);
    forall i | 0 <= i < |l.bills|
      ensures BillMatches(l.bills[i], l'.rows)
      ensures ev.call.Finished? ==> l.bills[i].requestId != id
    {
      assert BillMatches(l.bills[i], l.rows);
      if ev.call.Finished? {
        assert PhaseOf(w, ev.run) == Busy(ev.call.meta);
        assert l.rows[id] == StartedRow(ev.call.meta);
      }
    }
    if ev.call.Finished? {
      assert PhaseOf(w, ev.run) == Busy(ev.call.meta);
      assert l'.bills == l.bills + BillOf(ev.call.meta, ev.call.status, ev.call.usage);
    }
  }

  lemma {:induction false} StepKeepsWorldInv(w: World, ev: Event)
    requires WorldInv(w) && Legal(w, ev)
    ensures WorldInv(StepWorld(w, ev))
  {
    StepKeepsBusy(w, ev);
    StepKeepsBills(w, ev);
  }

  /** Over all interleavings: every bill matches its terminal row, at most one per request, and in-flight rows are the busy runs'. */
  lemma {:induction false} WorldStaysConsistent(w: World, evs: seq<Event>)
    requires WorldInv(w) && LegalAll(w, evs)
    ensures WorldInv(RunWorld(w, evs))
    decreases |evs|
  {
    if evs != [] {
      StepKeepsWorldInv(w, evs[0]);
      WorldStaysConsistent(StepWorld(w, evs[0]), evs[1..]);
    }
  }

  /** Over all interleavings: rows never disappear, change owner, or change after their terminal outcome. */
  lemma {:induction false} RowsAreFinal(w: World, evs: seq<Event>, id: string)
    requires WorldInv(w) && LegalAll(w, evs) && id in w.ledger.rows
    ensures var w' := RunWorld(w, evs);
      && id in w'.ledger.rows && id in w'.owner && w'.owner[id] == w.owner[id]
      && (w.ledger.rows[id].status.Terminal? ==> w'.ledger.rows[id] == w.ledger.rows[id])
    decreases |evs|
  {
    if evs != [] {
      OnlyOwnersAlterRows(w, evs[0], id);
      StepKeepsWorldInv(w, evs[0]);
      RowsAreFinal(StepWorld(w, evs[0]), evs[1..], id);
    }
  }

  /** The tasks reported for reconciliation are exactly the requests of the runs that are still busy. */
  lemma {:induction false} ActiveTasksAreBusyRuns(evs: seq<Event>, id: string)
    requires LegalAll(EMPTY_WORLD, evs)
    ensures var w := RunWorld(EMPTY_WORLD, evs);
      (id in w.ledger.rows && w.ledger.rows[id].status == InFlight)
      <==> exists r :: r in w.phases && w.phases[r].Busy? && w.phases[r].meta.requestId == id
  {
    WorldStaysConsistent(EMPTY_WORLD, evs);
    var w := RunWorld(EMPTY_WORLD, evs);
    if id in w.ledger.rows && w.ledger.rows[id].status == InFlight {
      assert w.phases[w.owner[id]].Busy?;
    }
  }
}
