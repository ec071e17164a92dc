/**
 One worker of the authorization/cloud runner
 (product/src/cyrene_exchange_product/integrations/authorization_cloud.py,
 `AuthorizationCloudRunner`) against the fenced claim table
 (product/src/cyrene_exchange_product/integrations/store.py). Shutdown may be
 requested at any read of the flags, any store operation may fail, and a
 provider may answer or fail in every way the code distinguishes; all three are
 oracles. The table's history is the list of operations it performed.
 */
module ClaimRunner {
  import opened Prelude

  datatype Kind = Monitor | Refresh | Email

  datatype RefreshState = Succeeded | Failed | RefreshUnknown

  datatype EmailStatus = Accepted | Rejected | EmailUnknown

  /** What the mail adapter reports; the first two prove that nothing was sent. */
  datatype EmailReply = NotAuthorized | RetryableBeforeSend | Failure | Evidence(sameRequest: bool, status: EmailStatus)

  datatype CloudReply = Observed(inScope: bool) | ObservationUnavailable | ObservationFailed

  /** An operation of the claim table, a provider call, or a store operation that failed. */
  datatype Op =
    | Claim(kind: Kind, fence: nat)
    | Release(kind: Kind, fence: nat)
    | CallMonitor(fence: nat)
    | CompleteMonitor(fence: nat, observed: bool)
    | CallRefresh(fence: nat, cloud: CloudReply)
    | CompleteRefresh(fence: nat, state: RefreshState)
    | MarkSending(fence: nat)
    | Send(fence: nat, reply: EmailReply)
    | ReleaseUnsent(fence: nat)
    | Finish(fence: nat, status: EmailStatus)
    | Faulted

  // ---- the discipline a claim history must follow ------------------------------------

  datatype Held =
    | Nothing
    | Holding(kind: Kind, fence: nat)
    | Watched(fence: nat)
    | Queried(fence: nat, reply: CloudReply)
    | Marked(fence: nat)
    | Sent(fence: nat, answer: EmailReply)

  /** A cloud answer whose effect is known to be complete. */
  predicate Trusted(r: CloudReply) {
    r.Observed? && r.inScope
  }

  /** The email state that may be recorded for an answer; None when nothing was sent. */
  function Recordable(r: EmailReply): Option<EmailStatus> {
    match r
    case NotAuthorized => None
    case RetryableBeforeSend => None
    case Failure => Some(EmailUnknown)
    case Evidence(same, status) => Some(if same then status else EmailUnknown)
  }

  /**
   The only operations allowed while a claim is held: it is settled once, an
   email is sent only after its SENDING mark and only once, a job whose outcome
   is unknown is never released, and a failed store operation ends the claim's
   handling.
   */
  function Track(h: Held, op: Op): Option<Held> {
    if op.Faulted? then Some(Nothing)
    else
      match h
      case Nothing => if op.Claim? then Some(Holding(op.kind, op.fence)) else None
      case Holding(kind, fence) =>
        if op == Release(kind, fence) then Some(Nothing)
        else if kind == Monitor && op == CallMonitor(fence) then Some(Watched(fence))
        else if kind == Monitor && op == CompleteMonitor(fence, false) then Some(Nothing)
        else if kind == Refresh && op == CompleteRefresh(fence, Failed) then Some(Nothing)
        else if kind == Refresh && op.CallRefresh? && op.fence == fence then Some(Queried(fence, op.cloud))
        else if kind == Email && op == MarkSending(fence) then Some(Marked(fence))
        else None
      case Watched(fence) => if op.CompleteMonitor? && op.fence == fence then Some(Nothing) else None
      case Queried(fence, reply) =>
        if op == CompleteRefresh(fence, if Trusted(reply) then Succeeded else RefreshUnknown) then Some(Nothing) else None
      case Marked(fence) =>
        if op == ReleaseUnsent(fence) then Some(Nothing)
        else if op.Send? && op.fence == fence then Some(Sent(fence, op.reply))
        else None
      case Sent(fence, reply) =>
        var outcome := Recordable(reply);
        if outcome.None? then if op == ReleaseUnsent(fence) then Some(Nothing) else None
        else if op == Finish(fence, outcome.value) then Some(Nothing)
        else None
  }

  function TrackAll(h: Held, ops: seq<Op>): Option<Held> {
    if ops == [] then Some(h)
    else
      var before := TrackAll(h, ops[..|ops| - 1]);
      if before.None? then None else Track(before.value, ops[|ops| - 1])
  }

  /** A complete history: the discipline holds and no claim is left unsettled. */
  predicate Disciplined(ops: seq<Op>) {
    TrackAll(Nothing, ops) == Some(Nothing)
  }

  predicate Settles(op: Op, kind: Kind, fence: nat) {
    || op == Release(kind, fence)
    || (kind == Monitor && op.CompleteMonitor? && op.fence == fence)
    || (kind == Refresh && op.CompleteRefresh? && op.fence == fence)
    || (kind == Email && op == ReleaseUnsent(fence))
    || (kind == Email && op.Finish? && op.fence == fence)
  }

  predicate IsSettlement(op: Op) {
    op.Release? || op.CompleteMonitor? || op.CompleteRefresh? || op.ReleaseUnsent? || op.Finish?
  }

  function HeldFence(h: Held): nat
    requires h != Nothing
  {
    h.fence
  }

  function HeldKind(h: Held): Kind
    requires h != Nothing
  {
    match h
    case Holding(kind, _) => kind
    case Watched(_) => Monitor
    case Queried(_, _) => Refresh
    case Marked(_) => Email
    case Sent(_, _) => Email
  }

  lemma {:induction false} TrackSplits(h: Held, a: seq<Op>, b: seq<Op>)
    ensures TrackAll(h, a + b) == if TrackAll(h, a).None? then None else TrackAll(TrackAll(h, a).value, b)
  {
    if b == [] {
      assert a + b == a;
    } else {
      assert (a + b)[..|a + b| - 1] == a + b[..|b| - 1];
      TrackSplits(h, a, b[..|b| - 1]);
    }
  }

  lemma {:induction false} TrackPrefix(ops: seq<Op>, i: nat)
    requires i <= |ops| && TrackAll(Nothing, ops).Some?
    ensures TrackAll(Nothing, ops[..i]).Some?
  {
    assert ops == ops[..i] + ops[i..];
    TrackSplits(Nothing, ops[..i], ops[i..]);
  }

  /** While something is held there is one open claim, of that kind and fence, with no settlement since. */
  lemma {:induction false} HeldMeansOpenClaim(ops: seq<Op>) returns (c: int)
    requires TrackAll(Nothing, ops).Some?
    ensures var h := TrackAll(Nothing, ops).value;
      h != Nothing ==>
        && 0 <= c < |ops| && ops[c] == Claim(HeldKind(h), HeldFence(h))
        && forall k :: c < k < |ops| ==> !ops[k].Claim? && !IsSettlement(ops[k]) && !ops[k].Faulted?
  {
    c := -1;
    if ops != [] {
      var n := |ops| - 1;
      TrackPrefix(ops, n);
      var before := TrackAll(Nothing, ops[..n]).value;
      c := HeldMeansOpenClaim(ops[..n]);
      if before == Nothing {
        c := n;
      }
    }
  }

  /** The claim at `i` is settled, or given up after a store failure, at `j` and not before. */
  predicate SettledAt(ops: seq<Op>, i: nat, j: nat)
    requires i < j < |ops| && ops[i].Claim?
  {
    && (Settles(ops[j], ops[i].kind, ops[i].fence) || ops[j].Faulted?)
    && (forall k :: i < k < j ==> !ops[k].Claim? && !IsSettlement(ops[k]) && !ops[k].Faulted?)
  }

  /** What is held stays held, with its kind and fence, until it is settled or a store operation fails. */
  lemma {:induction false} HeldGoesOn(ops: seq<Op>, j: nat)
    requires TrackAll(Nothing, ops).Some? && j < |ops| && !IsSettlement(ops[j]) && !ops[j].Faulted?
    requires TrackAll(Nothing, ops[..j]).Some? && TrackAll(Nothing, ops[..j]).value != Nothing
    ensures TrackAll(Nothing, ops[..j + 1]).Some? && TrackAll(Nothing, ops[..j + 1]).value != Nothing
    ensures HeldKind(TrackAll(Nothing, ops[..j + 1]).value) == HeldKind(TrackAll(Nothing, ops[..j]).value)
    ensures HeldFence(TrackAll(Nothing, ops[..j + 1]).value) == HeldFence(TrackAll(Nothing, ops[..j]).value)
    ensures !ops[j].Claim?
  {
    TrackPrefix(ops, j + 1);
    assert ops[..j + 1][..j] == ops[..j];
  }

  /** The claim at `i` is still open before operation `j`, and nothing was claimed or settled since. */
  predicate OpenAt(ops: seq<Op>, i: nat, j: nat)
    requires i < j <= |ops| && ops[i].Claim?
  {
    && TrackAll(Nothing, ops[..j]).Some? && TrackAll(Nothing, ops[..j]).value != Nothing
    && HeldKind(TrackAll(Nothing, ops[..j]).value) == ops[i].kind
    && HeldFence(TrackAll(Nothing, ops[..j]).value) == ops[i].fence
    && forall k :: i < k < j ==> !ops[k].Claim? && !IsSettlement(ops[k]) && !ops[k].Faulted?
  }

  lemma {:induction false} OpenUntilSettled(ops: seq<Op>, i: nat, j: nat) returns (k: nat)
    requires Disciplined(ops) && i < j <= |ops| && ops[i].Claim? && OpenAt(ops, i, j)
    ensures i < k < |ops| && SettledAt(ops, i, k)
    decreases |ops| - j
  {
    assert ops[..|ops|] == ops;
    if IsSettlement(ops[j]) || ops[j].Faulted? {
      k := j;
      TrackPrefix(ops, j + 1);
      assert ops[..j + 1][..j] == ops[..j];
    } else {
      HeldGoesOn(ops, j);
      k := OpenUntilSettled(ops, i, j + 1);
    }
  }

  /**
   Every claim of a complete history is settled exactly once, by an operation
   of its own kind and fence, unless a store operation failed first; nothing is
   claimed or settled in between.
   */
  lemma {:induction false} EveryClaimSettledOnce(ops: seq<Op>, i: nat)
    requires Disciplined(ops) && i < |ops| && ops[i].Claim?
    ensures exists j :: i < j < |ops| && SettledAt(ops, i, j)
  {
    TrackPrefix(ops, i);
    TrackPrefix(ops, i + 1);
    assert ops[..i + 1][..i] == ops[..i];
    var j := OpenUntilSettled(ops, i, i + 1);
  }

  /** Every settlement belongs to a claim that was open: nothing is settled twice or without a claim. */
  lemma {:induction false} SettlementsBelongToClaims(ops: seq<Op>, j: nat)
    requires TrackAll(Nothing, ops).Some? && j < |ops| && IsSettlement(ops[j])
    ensures exists i :: 0 <= i < j && ops[i].Claim? && SettledAt(ops, i, j)
  {
    TrackPrefix(ops, j);
    TrackPrefix(ops, j + 1);
    assert ops[..j + 1][..j] == ops[..j];
    var c := HeldMeansOpenClaim(ops[..j]);
    var h := TrackAll(Nothing, ops[..j]).value;
    assert ops[c] == ops[..j][c] == Claim(HeldKind(h), HeldFence(h));
    forall k | c < k < j ensures !ops[k].Claim? && !IsSettlement(ops[k]) && !ops[k].Faulted? {
      assert ops[k] == ops[..j][k];
    }
    assert SettledAt(ops, c, j);
  }

  /** An email is sent only right after its SENDING mark, and what follows the send is fixed by the answer. */
  lemma {:induction false} SendDiscipline(ops: seq<Op>, j: nat)
    requires Disciplined(ops) && j < |ops| && ops[j].Send?
    ensures j > 0 && ops[j - 1] == MarkSending(ops[j].fence)
    ensures j + 1 < |ops|
    ensures match ops[j].reply
      case NotAuthorized => ops[j + 1] == ReleaseUnsent(ops[j].fence) || ops[j + 1].Faulted?
      case RetryableBeforeSend => ops[j + 1] == ReleaseUnsent(ops[j].fence) || ops[j + 1].Faulted?
      case Failure => ops[j + 1] == Finish(ops[j].fence, EmailUnknown) || ops[j + 1].Faulted?
      case Evidence(same, status) =>
        ops[j + 1] == Finish(ops[j].fence, if same then status else EmailUnknown) || ops[j + 1].Faulted?
  {
    TrackPrefix(ops, j);
    TrackPrefix(ops, j + 1);
    assert ops[..j + 1][..j] == ops[..j];
    MarkedMeansJustMarked(ops[..j]);
    assert ops[..|ops|] == ops;
    if j + 1 < |ops| {
      TrackPrefix(ops, j + 2);
      assert ops[..j + 2][..j + 1] == ops[..j + 1];
    }
  }

  lemma {:induction false} MarkedMeansJustMarked(ops: seq<Op>)
    requires TrackAll(Nothing, ops).Some? && TrackAll(Nothing, ops).value.Marked?
    ensures ops != [] && ops[|ops| - 1] == MarkSending(TrackAll(Nothing, ops).value.fence)
  {
    assert ops[..|ops| - 1] + [ops[|ops| - 1]] == ops;
  }

  /**
   A refresh answer is recorded as succeeded exactly when it is an observation
   in scope; every other answer, of unknown effect, is recorded as unknown and
   never released.
   */
  lemma {:induction false} UnknownIsNeverReleased(ops: seq<Op>, j: nat)
    requires Disciplined(ops) && j < |ops| && ops[j].CallRefresh?
    ensures j + 1 < |ops|
    ensures match ops[j].cloud
      case Observed(inScope) =>
        ops[j + 1] == CompleteRefresh(ops[j].fence, if inScope then Succeeded else RefreshUnknown) || ops[j + 1].Faulted?
      case ObservationUnavailable => ops[j + 1] == CompleteRefresh(ops[j].fence, RefreshUnknown) || ops[j + 1].Faulted?
      case ObservationFailed => ops[j + 1] == CompleteRefresh(ops[j].fence, RefreshUnknown) || ops[j + 1].Faulted?
  {
    TrackPrefix(ops, j);
    TrackPrefix(ops, j + 1);
    assert ops[..j + 1][..j] == ops[..j];
    assert ops[..|ops|] == ops;
    if j + 1 < |ops| {
      TrackPrefix(ops, j + 2);
      assert ops[..j + 2][..j + 1] == ops[..j + 1];
    }
  }

  /** A healthy observation is recorded only right after a call to the provider. */
  lemma {:induction false} ObservationsAreReal(ops: seq<Op>, j: nat)
    requires TrackAll(Nothing, ops).Some? && j < |ops| && ops[j].CompleteMonitor? && ops[j].observed
    ensures j > 0 && ops[j - 1] == CallMonitor(ops[j].fence)
  {
    TrackPrefix(ops, j);
    TrackPrefix(ops, j + 1);
    assert ops[..j + 1][..j] == ops[..j];
    WatchedMeansJustCalled(ops[..j]);
  }

  lemma {:induction false} WatchedMeansJustCalled(ops: seq<Op>)
    requires TrackAll(Nothing, ops).Some? && TrackAll(Nothing, ops).value.Watched?
    ensures ops != [] && ops[|ops| - 1] == CallMonitor(TrackAll(Nothing, ops).value.fence)
  {
  }

  // ---- fences --------------------------------------------------------------------------

  /** Claims have increasing fences, none above the last one given out. */
  predicate FreshFences(ops: seq<Op>, last: nat) {
    if ops == [] then true
    else
      var op := ops[|ops| - 1];
      if op.Claim? then 0 < op.fence <= last && FreshFences(ops[..|ops| - 1], op.fence - 1)
      else FreshFences(ops[..|ops| - 1], last)
  }

  lemma {:induction false} FreshAfterOne(ops: seq<Op>, last: nat, op: Op)
    requires FreshFences(ops, last)
    ensures !op.Claim? ==> FreshFences(ops + [op], last)
    ensures op.Claim? && op.fence == last + 1 ==> FreshFences(ops + [op], last + 1)
  {
    assert (ops + [op])[..|ops|] == ops;
  }

  lemma {:induction false} FencesIncrease(ops: seq<Op>, last: nat, i: nat, j: nat)
    requires FreshFences(ops, last) && i < |ops| && ops[i].Claim?
    ensures ops[i].fence <= last
    ensures i < j < |ops| && ops[j].Claim? ==> ops[i].fence < ops[j].fence
  {
    var n := |ops| - 1;
    var front := ops[..n];
    var below := if ops[n].Claim? then ops[n].fence - 1 else last;
    if i < n {
      assert front[i] == ops[i];
      FencesIncrease(front, below, i, j);
      if j < n {
        assert front[j] == ops[j];
      }
    }
  }

  /** The claim at `i` is the only one in the history with its fence. */
  ghost predicate OnlyClaim(ops: seq<Op>, i: nat)
    requires i < |ops| && ops[i].Claim?
  {
    forall k :: 0 <= k < |ops| && ops[k].Claim? && ops[k].fence == ops[i].fence ==> k == i
  }

  /**
   A settlement names one claim of the whole history: the open one just before
   it, and no other claim ever has its fence.
   */
  lemma {:induction false} SettlementNamesOneClaim(ops: seq<Op>, last: nat, j: nat)
    requires TrackAll(Nothing, ops).Some? && FreshFences(ops, last) && j < |ops| && IsSettlement(ops[j])
    ensures exists i :: 0 <= i < j && ops[i].Claim? && SettledAt(ops, i, j) && OnlyClaim(ops, i)
  {
    SettlementsBelongToClaims(ops, j);
    var i :| 0 <= i < j && ops[i].Claim? && SettledAt(ops, i, j);
    forall k | 0 <= k < |ops| && ops[k].Claim? ensures ops[k].fence == ops[i].fence ==> k == i {
      FencesIncrease(ops, last, i, k);
      FencesIncrease(ops, last, k, i);
    }
    assert OnlyClaim(ops, i);
  }

  // ---- the environment of the worker ----------------------------------------------------

  /** Reads of the draining flag and the stop event, each with its own arbitrary answer. */
  class Signals {
    const answers: nat -> bool
    var readCount: nat

    constructor (answers: nat -> bool)
      ensures this.answers == answers && readCount == 0
    {
      this.answers := answers;
      readCount := 0;
    }

    method DrainRequested() returns (b: bool)
      modifies this
      ensures b == answers(old(readCount)) && readCount == old(readCount) + 1
    {
      b := answers(readCount);
      readCount := readCount + 1;
    }
  }

  /** The claim table. The k-th operation fails if `faults(k)`; a claim finds work if `work(k)`. */
  class IntegrationStore {
    const faults: nat -> bool
    const work: nat -> bool
    var count: nat
    var nextFence: nat
    var log: seq<Op>

    constructor (faults: nat -> bool, work: nat -> bool)
      ensures this.faults == faults && this.work == work && count == 0 && nextFence == 0 && log == []
    {
      this.faults, this.work := faults, work;
      count, nextFence, log := 0, 0, [];
    }

    /** Performs and records one mutation, or fails and records that. */
    method Perform(op: Op) returns (ok: bool)
      requires !op.Faulted?
      modifies this
      ensures ok == !faults(old(count)) && count == old(count) + 1 && nextFence == old(nextFence)
      ensures log == old(log) + [if ok then op else Faulted]
    {
      ok := !faults(count);
      count := count + 1;
      log := log + [if ok then op else Faulted];
    }

    /** A read of the store; only its failure leaves a trace. */
    method Lookup() returns (ok: bool)
      modifies this
      ensures ok == !faults(old(count)) && count == old(count) + 1 && nextFence == old(nextFence)
      ensures log == if ok then old(log) else old(log) + [Faulted]
    {
      ok := !faults(count);
      count := count + 1;
      if !ok {
        log := log + [Faulted];
      }
    }

    /** Claims one due job under a fresh fence, if there is one. */
    method ClaimJob(kind: Kind) returns (ok: bool, fence: Option<nat>)
      modifies this
      ensures ok == !faults(old(count)) && count == old(count) + 1
      ensures !ok ==> fence.None? && log == old(log) + [Faulted]
      ensures ok && fence.None? ==> log == old(log)
      ensures fence.Some? ==> ok && log == old(log) + [Claim(kind, fence.value)]
      ensures ok ==> fence == if work(old(count)) then Some(old(nextFence) + 1) else None
      ensures nextFence == fence.GetOr(old(nextFence))
    {
      ok, fence := true, None;
      if faults(count) {
        ok := false;
        log := log + [Faulted];
      } else if work(count) {
        nextFence := nextFence + 1;
        fence := Some(nextFence);
        log := log + [Claim(kind, nextFence)];
      }
      count := count + 1;
    }

    /** A provider call is remembered in the history without touching the table. */
    method Note(op: Op)
      modifies this`log
      ensures log == old(log) + [op]
    {
      log := log + [op];
    }
  }

  /** What the collaborators answer for one job of each kind. */
  datatype MonitorScript = MonitorScript(authorized: bool, observed: bool)
  datatype RefreshScript = RefreshScript(authorized: bool, reauthorize: bool, reply: CloudReply)
  datatype EmailScript = EmailScript(authorized: bool, reply: EmailReply)

  datatype Counts = Counts(done: nat, deferred: nat, unknown: nat)

  const NONE := Counts(0, 0, 0)

  datatype RunResult = RunResult(checks: nat, refreshes: nat, emails: nat, deferred: nat, unknown: nat)

  function Summary(checks: nat, r: Counts, e: Counts): RunResult {
    RunResult(checks, r.done, e.done, r.deferred + e.deferred, r.unknown + e.unknown)
  }

  // ---- an undisturbed cycle, as a function of where work is found ------------------------

  /** What one job adds to the history, and where it leaves the operation and fence counters. */
  datatype JobRun = JobRun(ops: seq<Op>, count: nat, fence: nat)

  function MonitorOps(f: nat, s: MonitorScript): seq<Op> {
    (if s.authorized then [CallMonitor(f)] else []) + [CompleteMonitor(f, s.authorized && s.observed)]
  }

  function RefreshOps(f: nat, s: RefreshScript): seq<Op> {
    if !s.authorized || s.reauthorize then [CompleteRefresh(f, Failed)]
    else [CallRefresh(f, s.reply), CompleteRefresh(f, if Trusted(s.reply) then Succeeded else RefreshUnknown)]
  }

  function AnswerOp(f: nat, reply: EmailReply): Op {
    if Recordable(reply).None? then ReleaseUnsent(f) else Finish(f, Recordable(reply).value)
  }

  function EmailOps(f: nat, s: EmailScript): seq<Op> {
    if !s.authorized then [Release(Email, f)] else [MarkSending(f), Send(f, s.reply), AnswerOp(f, s.reply)]
  }

  function RefreshCounts(s: RefreshScript): Counts {
    Counts(1, 0, if s.authorized && !s.reauthorize && !Trusted(s.reply) then 1 else 0)
  }

  function EmailCounts(s: EmailScript): Counts {
    if !s.authorized || Recordable(s.reply).None? then Counts(0, 1, 0)
    else Counts(1, 0, if Recordable(s.reply) == Some(EmailUnknown) then 1 else 0)
  }

  function MonitorRun(work: nat -> bool, count: nat, fence: nat, s: MonitorScript): JobRun {
    if !work(count) then JobRun([], count + 1, fence)
    else JobRun([Claim(Monitor, fence + 1)] + MonitorOps(fence + 1, s), count + 4, fence + 1)
  }

  function RefreshRun(work: nat -> bool, count: nat, fence: nat, s: RefreshScript): JobRun {
    if !work(count) then JobRun([], count + 1, fence)
    else JobRun([Claim(Refresh, fence + 1)] + RefreshOps(fence + 1, s),
                count + (if s.authorized then 4 else 3), fence + 1)
  }

  function EmailRun(hasEmail: bool, work: nat -> bool, count: nat, fence: nat, s: EmailScript): JobRun {
    if !hasEmail then JobRun([], count, fence)
    else if !work(count) then JobRun([], count + 1, fence)
    else JobRun([Claim(Email, fence + 1)] + EmailOps(fence + 1, s), count + (if s.authorized then 3 else 2), fence + 1)
  }

  /**
   What the undisturbed jobs do, script by script: nothing is called or sent
   without authority, a refresh of a connection that must be authorised anew is
   failed without a call, and every answer has its own record.
   */
  lemma {:induction false} UndisturbedJobs(work: nat -> bool, count: nat, fence: nat, m: MonitorScript, r: RefreshScript, e: EmailScript)
    ensures var f, ops := fence + 1, MonitorRun(work, count, fence, m).ops;
      if !work(count) then ops == []
      else if !m.authorized then ops == [Claim(Monitor, f), CompleteMonitor(f, false)]
      else ops == [Claim(Monitor, f), CallMonitor(f), CompleteMonitor(f, m.observed)]
    ensures var f, ops := fence + 1, RefreshRun(work, count, fence, r).ops;
      if !work(count) then ops == []
      else if !r.authorized || r.reauthorize then ops == [Claim(Refresh, f), CompleteRefresh(f, Failed)]
      else if r.reply == Observed(true) then
        ops == [Claim(Refresh, f), CallRefresh(f, r.reply), CompleteRefresh(f, Succeeded)]
      else ops == [Claim(Refresh, f), CallRefresh(f, r.reply), CompleteRefresh(f, RefreshUnknown)]
    ensures var f, ops := fence + 1, EmailRun(true, work, count, fence, e).ops;
      if !work(count) then ops == []
      else if !e.authorized then ops == [Claim(Email, f), Release(Email, f)]
      else if e.reply == NotAuthorized || e.reply == RetryableBeforeSend then
        ops == [Claim(Email, f), MarkSending(f), Send(f, e.reply), ReleaseUnsent(f)]
      else if e.reply.Evidence? && e.reply.sameRequest then
        ops == [Claim(Email, f), MarkSending(f), Send(f, e.reply), Finish(f, e.reply.status)]
      else ops == [Claim(Email, f), MarkSending(f), Send(f, e.reply), Finish(f, EmailUnknown)]
    ensures EmailRun(false, work, count, fence, e).ops == []
  {
  }

  function Then(a: JobRun, b: JobRun): JobRun {
    JobRun(a.ops + b.ops, b.count, b.fence)
  }

  lemma {:induction false} AppendRuns(log: seq<Op>, a: JobRun, b: JobRun)
    ensures log + Then(a, b).ops == log + a.ops + b.ops
  {
  }

  /** A claim followed by what is done with it. */
  lemma {:induction false} AppendClaim(log: seq<Op>, claim: Op, ops: seq<Op>)
    ensures log + ([claim] + ops) == log + [claim] + ops
  {
  }

  function RefreshThenEmailRun(work: nat -> bool, hasEmail: bool, count: nat, fence: nat,
                               r: RefreshScript, e: EmailScript): JobRun {
    var first := RefreshRun(work, count, fence, r);
    Then(first, EmailRun(hasEmail, work, first.count, first.fence, e))
  }

  /** Monitors, then the refresh, then the email, one job of each. */
  function CycleRun(work: nat -> bool, hasEmail: bool, count: nat, fence: nat,
                    m: MonitorScript, r: RefreshScript, e: EmailScript): JobRun {
    var first := MonitorRun(work, count, fence, m);
    Then(first, RefreshThenEmailRun(work, hasEmail, first.count, first.fence, r, e))
  }

  function RefreshThenEmailCounts(work: nat -> bool, hasEmail: bool, count: nat, fence: nat,
                                  r: RefreshScript, e: EmailScript): (Counts, Counts) {
    var first := RefreshRun(work, count, fence, r);
    (if work(count) then RefreshCounts(r) else NONE, if hasEmail && work(first.count) then EmailCounts(e) else NONE)
  }

  function CycleResult(work: nat -> bool, hasEmail: bool, count: nat, fence: nat,
                       m: MonitorScript, r: RefreshScript, e: EmailScript): RunResult {
    var first := MonitorRun(work, count, fence, m);
    var counts := RefreshThenEmailCounts(work, hasEmail, first.count, first.fence, r, e);
    Summary(if work(count) then 1 else 0, counts.0, counts.1)
  }

  /** Whether an answer to a sent email tells that nothing was sent, and whether it leaves the effect unknown. */
  predicate NothingSent(reply: EmailReply) {
    reply == NotAuthorized || reply == RetryableBeforeSend
  }

  predicate LeavesUnknown(reply: EmailReply) {
    reply == Failure || (reply.Evidence? && (!reply.sameRequest || reply.status == EmailUnknown))
  }

  /** The store operations and the fences an undisturbed job uses up. */
  lemma {:induction false} JobOperations(work: nat -> bool, count: nat, fence: nat, m: MonitorScript, r: RefreshScript, e: EmailScript)
    ensures MonitorRun(work, count, fence, m).count == if work(count) then count + 4 else count + 1
    ensures RefreshRun(work, count, fence, r).count == if !work(count) then count + 1 else if r.authorized then count + 4 else count + 3
    ensures EmailRun(true, work, count, fence, e).count == if !work(count) then count + 1 else if e.authorized then count + 3 else count + 2
    ensures MonitorRun(work, count, fence, m).fence == RefreshRun(work, count, fence, r).fence
         == EmailRun(true, work, count, fence, e).fence == if work(count) then fence + 1 else fence
  {
  }

  /** The jobs of an undisturbed cycle follow one another: the monitor, the refresh and the email. */
  lemma {:induction false} CycleOrder(work: nat -> bool, hasEmail: bool, count: nat, fence: nat,
                                      m: MonitorScript, r: RefreshScript, e: EmailScript)
    ensures var first := MonitorRun(work, count, fence, m);
      var second := RefreshRun(work, first.count, first.fence, r);
      var third := EmailRun(hasEmail, work, second.count, second.fence, e);
      CycleRun(work, hasEmail, count, fence, m, r, e) == JobRun(first.ops + second.ops + third.ops, third.count, third.fence)
  {
    var first := MonitorRun(work, count, fence, m);
    var second := RefreshRun(work, first.count, first.fence, r);
    AppendRuns(first.ops, second, EmailRun(hasEmail, work, second.count, second.fence, e));
  }

  /** What became of a refresh: done, and of unknown effect unless it was not called or observed in scope. */
  predicate CountsRefresh(c: Counts, found: bool, r: RefreshScript) {
    && c.done == (if found then 1 else 0) && c.deferred == 0
    && c.unknown == (if found && r.authorized && !r.reauthorize && r.reply != Observed(true) then 1 else 0)
  }

  /** What became of an email: given back if it was not sent, else done, and of unknown effect unless its evidence says otherwise. */
  predicate CountsEmail(c: Counts, found: bool, e: EmailScript) {
    var sent := found && e.authorized && !NothingSent(e.reply);
    && c.done == (if sent then 1 else 0) && c.deferred == (if found && !sent then 1 else 0)
    && c.unknown == (if sent && LeavesUnknown(e.reply) then 1 else 0)
  }

  predicate AddsUp(result: RunResult, monitor: bool, a: Counts, b: Counts) {
    && result.checks == (if monitor then 1 else 0) && result.refreshes == a.done && result.emails == b.done
    && result.deferred == a.deferred + b.deferred && result.unknown == a.unknown + b.unknown
  }

  lemma {:induction false} JobsAreCounted(refresh: bool, email: bool, r: RefreshScript, e: EmailScript)
    ensures CountsRefresh(if refresh then RefreshCounts(r) else NONE, refresh, r)
    ensures CountsEmail(if email then EmailCounts(e) else NONE, email, e)
  {
  }

  lemma {:induction false} SummaryAddsUp(monitor: bool, a: Counts, b: Counts)
    ensures AddsUp(Summary(if monitor then 1 else 0, a, b), monitor, a, b)
  {
  }

  lemma {:induction false} CycleResultIs(work: nat -> bool, hasEmail: bool, count: nat, fence: nat,
                                         m: MonitorScript, r: RefreshScript, e: EmailScript)
    ensures var first := MonitorRun(work, count, fence, m);
      var counts := RefreshThenEmailCounts(work, hasEmail, first.count, first.fence, r, e);
      AddsUp(CycleResult(work, hasEmail, count, fence, m, r, e), work(count), counts.0, counts.1)
  {
    var first := MonitorRun(work, count, fence, m);
    var counts := RefreshThenEmailCounts(work, hasEmail, first.count, first.fence, r, e);
    SummaryAddsUp(work(count), counts.0, counts.1);
  }

  /** The result of an undisturbed cycle adds up its jobs, each one that was found counted once, under what became of it. */
  lemma {:induction false} CycleCountsJobs(work: nat -> bool, hasEmail: bool, count: nat, fence: nat,
                                           m: MonitorScript, r: RefreshScript, e: EmailScript)
      returns (a: Counts, b: Counts)
    ensures var first := MonitorRun(work, count, fence, m);
      var second := RefreshRun(work, first.count, first.fence, r);
      && CountsRefresh(a, work(first.count), r) && CountsEmail(b, hasEmail && work(second.count), e)
      && AddsUp(CycleResult(work, hasEmail, count, fence, m, r, e), work(count), a, b)
  {
    var first := MonitorRun(work, count, fence, m);
    var second := RefreshRun(work, first.count, first.fence, r);
    var counts := RefreshThenEmailCounts(work, hasEmail, first.count, first.fence, r, e);
    a, b := counts.0, counts.1;
    JobsAreCounted(work(first.count), hasEmail && work(second.count), r, e);
    CycleResultIs(work, hasEmail, count, fence, m, r, e);
  }

  /** As many undisturbed cycles, one after the other. */
  function CyclesRun(work: nat -> bool, hasEmail: bool, cycles: nat, count: nat, fence: nat,
                     m: nat -> MonitorScript, r: nat -> RefreshScript, e: nat -> EmailScript): JobRun
    decreases cycles
  {
    if cycles == 0 then JobRun([], count, fence)
    else
      var before := CyclesRun(work, hasEmail, cycles - 1, count, fence, m, r, e);
      Then(before, CycleRun(work, hasEmail, before.count, before.fence, m(cycles - 1), r(cycles - 1), e(cycles - 1)))
  }

  /** Extending a history whose tracking is known by one operation. */
  lemma {:induction false} TrackOne(h: Held, ops: seq<Op>, op: Op)
    ensures TrackAll(h, ops + [op]) == if TrackAll(h, ops).None? then None else Track(TrackAll(h, ops).value, op)
  {
    assert (ops + [op])[..|ops|] == ops;
  }

  /** Where the history of a store stands; None if it broke the discipline or reused a fence. */
  ghost function Standing(store: IntegrationStore): Option<Held>
    reads store
  {
    if FreshFences(store.log, store.nextFence) then TrackAll(Nothing, store.log) else None
  }

  class AuthorizationCloudRunner {
    const store: IntegrationStore
    const signals: Signals
    const hasEmail: bool

    constructor (store: IntegrationStore, signals: Signals, hasEmail: bool)
      ensures this.store == store && this.signals == signals && this.hasEmail == hasEmail
    {
      this.store, this.signals, this.hasEmail := store, signals, hasEmail;
    }

    /** From here on no flag is set and no store operation fails. */
    ghost predicate Calm()
      reads store, signals
    {
      && (forall k :: k >= signals.readCount ==> !signals.answers(k))
      && (forall k :: k >= store.count ==> !store.faults(k))
    }

    /** The store has gone on by exactly this job. */
    ghost predicate Advanced(log: seq<Op>, run: JobRun)
      reads store
    {
      store.log == log + run.ops && store.count == run.count && store.nextFence == run.fence
    }

    /** A mutation of the table, with the claim state it leads to. */
    method Do(op: Op) returns (ok: bool)
      requires Standing(store).Some? && Track(Standing(store).value, op).Some? && !op.Faulted? && !op.Claim?
      modifies store
      ensures Standing(store) == if ok then Track(old(Standing(store)).value, op) else Some(Nothing)
      ensures ok == !old(store.faults(store.count))
      ensures store.log == old(store.log) + [if ok then op else Faulted]
      ensures old(Calm()) ==> ok && Calm() && Advanced(old(store.log), JobRun([op], old(store.count) + 1, old(store.nextFence)))
    {
      ghost var before := store.log;
      ok := store.Perform(op);
      TrackOne(Nothing, before, if ok then op else Faulted);
      FreshAfterOne(before, store.nextFence, if ok then op else Faulted);
    }

    method Look() returns (ok: bool)
      requires Standing(store).Some?
      modifies store
      ensures Standing(store) == if ok then old(Standing(store)) else Some(Nothing)
      ensures old(Calm()) ==> ok && Calm() && Advanced(old(store.log), JobRun([], old(store.count) + 1, old(store.nextFence)))
    {
      ghost var before := store.log;
      ok := store.Lookup();
      TrackOne(Nothing, before, Faulted);
      FreshAfterOne(before, store.nextFence, Faulted);
    }

    method Call(op: Op)
      requires Standing(store).Some? && Track(Standing(store).value, op).Some? && !op.Claim?
      modifies store
      ensures Standing(store) == Track(old(Standing(store)).value, op)
      ensures old(Calm()) ==> Calm()
      ensures Advanced(old(store.log), JobRun([op], old(store.count), old(store.nextFence)))
    {
      ghost var before := store.log;
      store.Note(op);
      TrackOne(Nothing, before, op);
      FreshAfterOne(before, store.nextFence, op);
    }

    /** Claiming under the gate: no claim once a flag is seen. */
    method ClaimUnderGate(kind: Kind) returns (ok: bool, fence: Option<nat>)
      requires Standing(store) == Some(Nothing)
      modifies store, signals
      ensures Standing(store) == Some(if fence.Some? then Holding(kind, fence.value) else Nothing)
      ensures !ok ==> fence.None?
      ensures old(signals.answers(signals.readCount)) ==> fence.None? && store.log == old(store.log)
      ensures old(Calm()) ==>
        && ok && Calm()
        && fence == (if store.work(old(store.count)) then Some(old(store.nextFence) + 1) else None)
        && Advanced(old(store.log), JobRun(if fence.Some? then [Claim(kind, fence.value)] else [],
                                           old(store.count) + 1, fence.GetOr(old(store.nextFence))))
    {
      var refused := signals.DrainRequested();
      if refused {
        return true, None;
      }
      ok, fence := ClaimNow(kind);
    }

    /** A job begins with a check, and claims under the gate only after it. */
    method ClaimUnlessStopped(kind: Kind) returns (ok: bool, fence: Option<nat>)
      requires Standing(store) == Some(Nothing)
      modifies store, signals
      ensures Standing(store) == Some(if fence.Some? then Holding(kind, fence.value) else Nothing)
      ensures !ok ==> fence.None?
      ensures old(signals.answers(signals.readCount)) ==> fence.None? && store.log == old(store.log)
      ensures old(Calm()) ==>
        && ok && Calm()
        && fence == (if store.work(old(store.count)) then Some(old(store.nextFence) + 1) else None)
        && Advanced(old(store.log), JobRun(if fence.Some? then [Claim(kind, fence.value)] else [],
                                           old(store.count) + 1, fence.GetOr(old(store.nextFence))))
    {
      var drain := signals.DrainRequested();
      if drain {
        return true, None;
      }
      ok, fence := ClaimUnderGate(kind);
    }

    method ClaimNow(kind: Kind) returns (ok: bool, fence: Option<nat>)
      requires Standing(store) == Some(Nothing)
      modifies store
      ensures Standing(store) == Some(if fence.Some? then Holding(kind, fence.value) else Nothing)
      ensures ok == !store.faults(old(store.count)) && store.count == old(store.count) + 1
      ensures fence == if ok && store.work(old(store.count)) then Some(old(store.nextFence) + 1) else None
      ensures store.nextFence == fence.GetOr(old(store.nextFence))
      ensures ok ==> store.log == old(store.log) + if fence.Some? then [Claim(kind, fence.value)] else []
    {
      ghost var before := store.log;
      ok, fence := store.ClaimJob(kind);
      if fence.Some? {
        TrackOne(Nothing, before, Claim(kind, fence.value));
        FreshAfterOne(before, fence.value - 1, Claim(kind, fence.value));
      } else if !ok {
        TrackOne(Nothing, before, Faulted);
        FreshAfterOne(before, store.nextFence, Faulted);
      }
    }

    /** A check at which a claimed job is given back if shutdown was requested. */
    method StopAndRelease(op: Op) returns (stop: bool, ok: bool)
      requires Standing(store).Some? && !op.Faulted? && !op.Claim? && Track(Standing(store).value, op) == Some(Nothing)
      modifies store, signals
      ensures Standing(store) == if stop then Some(Nothing) else old(Standing(store))
      ensures stop <==> old(signals.answers(signals.readCount))
      ensures !stop ==> ok
      ensures stop && ok ==> store.log == old(store.log) + [op]
      ensures old(Calm()) ==> Calm() && Advanced(old(store.log), JobRun([], old(store.count), old(store.nextFence)))
    {
      ok := true;
      stop := signals.DrainRequested();
      if stop {
        ok := Do(op);
      }
    }

    /** A failed lookup leaves the cycle; a set flag gives the job back. */
    method LookThenCheck(op: Op) returns (stop: bool, ok: bool)
      requires Standing(store).Some? && !op.Faulted? && !op.Claim? && Track(Standing(store).value, op) == Some(Nothing)
      modifies store, signals
      ensures Standing(store) == if stop then Some(Nothing) else old(Standing(store))
      ensures !stop ==> ok
      ensures old(Calm()) ==>
        !stop && Calm() && Advanced(old(store.log), JobRun([], old(store.count) + 1, old(store.nextFence)))
    {
      ok := Look();
      if !ok {
        return true, false;
      }
      stop, ok := StopAndRelease(op);
    }

    /**
     Due monitors; the batch size is 1, so the loop over claims has one turn.
     `ok` is false when a store failure leaves the cycle.
     */
    method RunAuthorizationChecks(script: MonitorScript) returns (ok: bool, completed: nat)
      requires Standing(store) == Some(Nothing)
      modifies store, signals
      ensures Standing(store) == Some(Nothing)
      ensures old(signals.answers(signals.readCount)) ==> store.log == old(store.log)
      ensures old(Calm()) ==>
        && ok && Calm() && completed == (if store.work(old(store.count)) then 1 else 0)
        && Advanced(old(store.log), MonitorRun(store.work, old(store.count), old(store.nextFence), script))
    {
      completed := 0;
      var fence;
      ghost var calm, start := Calm(), store.log;
      ghost var run := MonitorRun(store.work, store.count, store.nextFence, script);
      ok, fence := ClaimUnlessStopped(Monitor);
      if ok && fence.Some? {
        ok, completed := CheckMonitor(fence.value, script);
        if calm {
          AppendClaim(start, Claim(Monitor, fence.value), MonitorOps(fence.value, script));
          assert Advanced(start, run);
        }
      }
    }

    method CheckMonitor(f: nat, script: MonitorScript) returns (ok: bool, completed: nat)
      requires Standing(store) == Some(Holding(Monitor, f))
      modifies store, signals
      ensures Standing(store) == Some(Nothing)
      ensures old(signals.answers(signals.readCount)) && ok ==> store.log == old(store.log) + [Release(Monitor, f)]
      ensures old(Calm()) ==>
        && ok && Calm() && completed == 1
        && Advanced(old(store.log), JobRun(MonitorOps(f, script), old(store.count) + 3, old(store.nextFence)))
    {
      completed := 0;
      var stop;
      stop, ok := StopAndRelease(Release(Monitor, f));
      if stop {
        return;
      }
      stop, ok := LookThenCheck(Release(Monitor, f));
      if stop {
        return;
      }
      // Resolving the current principal raises nothing.
      stop, ok := StopAndRelease(Release(Monitor, f));
      if stop {
        return;
      }
      if script.authorized {
        stop, ok := WatchUnlessStopped(f);
        if stop {
          return;
        }
      }
      ok, completed := RecordMonitor(f, script);
    }

    method WatchUnlessStopped(f: nat) returns (stop: bool, ok: bool)
      requires Standing(store) == Some(Holding(Monitor, f))
      modifies store, signals
      ensures Standing(store) == Some(if stop then Nothing else Watched(f))
      ensures !stop ==> ok
      ensures old(Calm()) ==>
        !stop && Calm() && Advanced(old(store.log), JobRun([CallMonitor(f)], old(store.count), old(store.nextFence)))
    {
      stop, ok := StopAndRelease(Release(Monitor, f));
      if !stop {
        Call(CallMonitor(f));
      }
    }

    method RecordMonitor(f: nat, script: MonitorScript) returns (ok: bool, completed: nat)
      requires Standing(store) == Some(if script.authorized then Watched(f) else Holding(Monitor, f))
      modifies store
      ensures Standing(store) == Some(Nothing)
      ensures completed == if ok then 1 else 0
      ensures old(Calm()) ==>
        && ok && Calm()
        && Advanced(old(store.log), JobRun([CompleteMonitor(f, script.authorized && script.observed)],
                                           old(store.count) + 2, old(store.nextFence)))
    {
      completed := 0;
      ok := Look();
      if !ok {
        return;
      }
      ok := Do(CompleteMonitor(f, script.authorized && script.observed));
      completed := if ok then 1 else 0;
    }

    /** One cloud refresh job. */
    method RunCloudRefresh(script: RefreshScript) returns (ok: bool, counts: Counts)
      requires Standing(store) == Some(Nothing)
      modifies store, signals
      ensures Standing(store) == Some(Nothing)
      ensures old(signals.answers(signals.readCount)) ==> store.log == old(store.log)
      ensures old(Calm()) ==>
        && ok && Calm() && counts == (if store.work(old(store.count)) then RefreshCounts(script) else NONE)
        && Advanced(old(store.log), RefreshRun(store.work, old(store.count), old(store.nextFence), script))
    {
      counts := NONE;
      var fence;
      ghost var calm, start := Calm(), store.log;
      ghost var run := RefreshRun(store.work, store.count, store.nextFence, script);
      ok, fence := ClaimUnlessStopped(Refresh);
      if ok && fence.Some? {
        ok, counts := RefreshClaimed(fence.value, script);
        if calm {
          AppendClaim(start, Claim(Refresh, fence.value), RefreshOps(fence.value, script));
          assert Advanced(start, run);
        }
      }
    }

    method RefreshClaimed(f: nat, script: RefreshScript) returns (ok: bool, counts: Counts)
      requires Standing(store) == Some(Holding(Refresh, f))
      modifies store, signals
      ensures Standing(store) == Some(Nothing)
      ensures old(signals.answers(signals.readCount)) && ok ==> store.log == old(store.log) + [Release(Refresh, f)]
      ensures old(Calm()) ==>
        && ok && Calm() && counts == RefreshCounts(script)
        && Advanced(old(store.log), JobRun(RefreshOps(f, script), old(store.count) + (if script.authorized then 3 else 2),
                                           old(store.nextFence)))
    {
      counts := NONE;
      var stop;
      stop, ok := StopAndRelease(Release(Refresh, f));
      if stop {
        return;
      }
      stop, ok := LookThenCheck(Release(Refresh, f));
      if stop {
        return;
      }
      stop, ok := StopAndRelease(Release(Refresh, f));
      if stop {
        return;
      }
      if !script.authorized {
        ok := Do(CompleteRefresh(f, Failed));
        counts := Counts(1, 0, 0);
        return;
      }
      ok, counts := RefreshAuthorized(f, script);
    }

    method RefreshAuthorized(f: nat, script: RefreshScript) returns (ok: bool, counts: Counts)
      requires Standing(store) == Some(Holding(Refresh, f)) && script.authorized
      modifies store, signals
      ensures Standing(store) == Some(Nothing)
      ensures old(Calm()) ==>
        && ok && Calm() && counts == RefreshCounts(script)
        && Advanced(old(store.log), JobRun(RefreshOps(f, script), old(store.count) + 2, old(store.nextFence)))
    {
      counts := NONE;
      var stop;
      stop, ok := LookThenCheck(Release(Refresh, f));
      if stop {
        return;
      }
      if script.reauthorize {
        ok := Do(CompleteRefresh(f, Failed));
        counts := Counts(1, 0, 0);
        return;
      }
      ok, counts := CallUnlessStopped(f, script.reply);
    }

    /** The last check before the provider is called, and the record of its answer. */
    method CallUnlessStopped(f: nat, reply: CloudReply) returns (ok: bool, counts: Counts)
      requires Standing(store) == Some(Holding(Refresh, f))
      modifies store, signals
      ensures Standing(store) == Some(Nothing)
      ensures old(signals.answers(signals.readCount)) && ok ==> store.log == old(store.log) + [Release(Refresh, f)]
      ensures old(Calm()) ==>
        && ok && Calm() && counts == Counts(1, 0, if reply == Observed(true) then 0 else 1)
        && Advanced(old(store.log), JobRun([CallRefresh(f, reply),
                                            CompleteRefresh(f, if reply == Observed(true) then Succeeded else RefreshUnknown)],
                                           old(store.count) + 1, old(store.nextFence)))
    {
      counts := NONE;
      var stop;
      stop, ok := StopAndRelease(Release(Refresh, f));
      if stop {
        return;
      }
      Call(CallRefresh(f, reply));
      ok, counts := RecordRefresh(f, reply);
    }

    method RecordRefresh(f: nat, reply: CloudReply) returns (ok: bool, counts: Counts)
      requires Standing(store) == Some(Queried(f, reply))
      modifies store
      ensures Standing(store) == Some(Nothing)
      ensures counts == Counts(1, 0, if reply == Observed(true) then 0 else 1)
      ensures old(Calm()) ==>
        && ok && Calm()
        && Advanced(old(store.log), JobRun([CompleteRefresh(f, if reply == Observed(true) then Succeeded else RefreshUnknown)],
                                           old(store.count) + 1, old(store.nextFence)))
    {
      match reply {
        case Observed(inScope) =>
          ok := Do(CompleteRefresh(f, if inScope then Succeeded else RefreshUnknown));
          counts := Counts(1, 0, if inScope then 0 else 1);
        case ObservationUnavailable =>
          ok := Do(CompleteRefresh(f, RefreshUnknown));
          counts := Counts(1, 0, 1);
        case ObservationFailed =>
          ok := Do(CompleteRefresh(f, RefreshUnknown));
          counts := Counts(1, 0, 1);
      }
    }

    /** One email job. */
    method RunEmailNotification(script: EmailScript) returns (ok: bool, counts: Counts)
      requires Standing(store) == Some(Nothing)
      modifies store, signals
      ensures Standing(store) == Some(Nothing)
      ensures !hasEmail || old(signals.answers(signals.readCount)) ==> store.log == old(store.log) && counts == NONE
      ensures old(Calm()) ==>
        && ok && Calm()
        && counts == (if hasEmail && store.work(old(store.count)) then EmailCounts(script) else NONE)
        && Advanced(old(store.log), EmailRun(hasEmail, store.work, old(store.count), old(store.nextFence), script))
    {
      counts := NONE;
      if !hasEmail {
        return true, NONE;
      }
      var fence;
      ghost var calm, start := Calm(), store.log;
      ghost var run := EmailRun(hasEmail, store.work, store.count, store.nextFence, script);
      ok, fence := ClaimUnlessStopped(Email);
      if ok && fence.Some? {
        ok, counts := SendClaimed(fence.value, script);
        if calm {
          AppendClaim(start, Claim(Email, fence.value), EmailOps(fence.value, script));
          assert Advanced(start, run);
        }
      }
    }

    method SendClaimed(f: nat, script: EmailScript) returns (ok: bool, counts: Counts)
      requires Standing(store) == Some(Holding(Email, f))
      modifies store, signals
      ensures Standing(store) == Some(Nothing)
      ensures old(signals.answers(signals.readCount)) && ok ==> store.log == old(store.log) + [Release(Email, f)]
      ensures old(Calm()) ==>
        && ok && Calm() && counts == EmailCounts(script)
        && Advanced(old(store.log), JobRun(EmailOps(f, script), old(store.count) + (if script.authorized then 2 else 1),
                                           old(store.nextFence)))
    {
      counts := NONE;
      var stop;
      stop, ok := StopAndRelease(Release(Email, f));
      if stop {
        return;
      }
      stop, ok := StopAndRelease(Release(Email, f));
      if stop {
        return;
      }
      if !script.authorized {
        ok := Do(Release(Email, f));
        counts := Counts(0, 1, 0);
        return;
      }
      ok, counts := MarkThenSend(f, script.reply);
    }

    /** A failed SENDING mark is swallowed; the claim is then left to expire. */
    method MarkThenSend(f: nat, reply: EmailReply) returns (ok: bool, counts: Counts)
      requires Standing(store) == Some(Holding(Email, f))
      modifies store, signals
      ensures Standing(store) == Some(Nothing)
      ensures old(store.faults(store.count)) ==> ok && counts == NONE && store.log == old(store.log) + [Faulted]
      ensures counts != NONE ==>
        counts == if NothingSent(reply) then Counts(0, 1, 0) else Counts(1, 0, if LeavesUnknown(reply) then 1 else 0)
      ensures old(Calm()) ==>
        && ok && Calm() && counts == EmailCounts(EmailScript(true, reply))
        && Advanced(old(store.log), JobRun(EmailOps(f, EmailScript(true, reply)), old(store.count) + 2, old(store.nextFence)))
    {
      counts := NONE;
      var marked := Do(MarkSending(f));
      if !marked {
        return true, NONE;
      }
      var stop;
      stop, ok := StopAndRelease(ReleaseUnsent(f));
      if stop {
        return;
      }
      ok, counts := SendMarked(f, reply);
    }

    method SendMarked(f: nat, reply: EmailReply) returns (ok: bool, counts: Counts)
      requires Standing(store) == Some(Marked(f))
      modifies store
      ensures Standing(store) == Some(Nothing)
      ensures match reply
        case NotAuthorized => counts == Counts(0, 1, 0)
        case RetryableBeforeSend => counts == Counts(0, 1, 0)
        case Failure => counts == Counts(1, 0, 1)
        case Evidence(same, status) => counts == Counts(1, 0, if same && status != EmailUnknown then 0 else 1)
      ensures old(Calm()) ==>
        && ok && Calm()
        && Advanced(old(store.log), JobRun([Send(f, reply), AnswerOp(f, reply)], old(store.count) + 1, old(store.nextFence)))
    {
      Call(Send(f, reply));
      match reply {
        case NotAuthorized =>
          ok := Do(ReleaseUnsent(f));
          counts := Counts(0, 1, 0);
        case RetryableBeforeSend =>
          ok := Do(ReleaseUnsent(f));
          counts := Counts(0, 1, 0);
        case Failure =>
          ok := Do(Finish(f, EmailUnknown));
          counts := Counts(1, 0, 1);
        case Evidence(sameRequest, status) =>
          if !sameRequest {
            ok := Do(Finish(f, EmailUnknown));
            counts := Counts(1, 0, 1);
          } else {
            ok := Do(Finish(f, status));
            counts := Counts(1, 0, if status == EmailUnknown then 1 else 0);
          }
      }
    }

    /** The refresh of a cycle, unless shutdown was requested after the monitors. */
    method RefreshUnlessStopped(script: RefreshScript) returns (ok: bool, counts: Counts)
      requires Standing(store) == Some(Nothing)
      modifies store, signals
      ensures Standing(store) == Some(Nothing)
      ensures old(signals.answers(signals.readCount)) ==> ok && store.log == old(store.log)
      ensures old(Calm()) ==>
        && ok && Calm() && counts == (if store.work(old(store.count)) then RefreshCounts(script) else NONE)
        && Advanced(old(store.log), RefreshRun(store.work, old(store.count), old(store.nextFence), script))
    {
      ok, counts := true, NONE;
      var drain := signals.DrainRequested();
      if !drain {
        ok, counts := RunCloudRefresh(script);
      }
    }

    method EmailUnlessStopped(script: EmailScript) returns (ok: bool, counts: Counts)
      requires Standing(store) == Some(Nothing)
      modifies store, signals
      ensures Standing(store) == Some(Nothing)
      ensures old(signals.answers(signals.readCount)) ==> ok && store.log == old(store.log)
      ensures old(Calm()) ==>
        && ok && Calm()
        && counts == (if hasEmail && store.work(old(store.count)) then EmailCounts(script) else NONE)
        && Advanced(old(store.log), EmailRun(hasEmail, store.work, old(store.count), old(store.nextFence), script))
    {
      ok, counts := true, NONE;
      var drain := signals.DrainRequested();
      if !drain {
        ok, counts := RunEmailNotification(script);
      }
    }

    method RefreshThenEmail(r: RefreshScript, e: EmailScript) returns (ok: bool, refreshes: Counts, emails: Counts)
      requires Standing(store) == Some(Nothing)
      modifies store, signals
      ensures Standing(store) == Some(Nothing)
      ensures old(Calm()) ==>
        && ok && Calm()
        && Advanced(old(store.log), RefreshThenEmailRun(store.work, hasEmail, old(store.count), old(store.nextFence), r, e))
        && (refreshes, emails) == RefreshThenEmailCounts(store.work, hasEmail, old(store.count), old(store.nextFence), r, e)
    {
      emails := NONE;
      ok, refreshes := RefreshUnlessStopped(r);
      if !ok {
        return;
      }
      ok, emails := EmailUnlessStopped(e);
    }

    /** One worker cycle; `ok` is false when a store failure propagates out of it. */
    method RunOnce(m: MonitorScript, r: RefreshScript, e: EmailScript) returns (ok: bool, result: RunResult)
      requires Standing(store) == Some(Nothing)
      modifies store, signals
      ensures Standing(store) == Some(Nothing)
      ensures old(Calm()) ==>
        && ok && Calm()
        && Advanced(old(store.log), CycleRun(store.work, hasEmail, old(store.count), old(store.nextFence), m, r, e))
        && result == CycleResult(store.work, hasEmail, old(store.count), old(store.nextFence), m, r, e)
    {
      ghost var calm, start := Calm(), store.log;
      ghost var first := MonitorRun(store.work, store.count, store.nextFence, m);
      var checks;
      result := Summary(0, NONE, NONE);
      ok, checks := RunAuthorizationChecks(m);
      if !ok {
        return;
      }
      ghost var middle := store.log;
      ghost var second := RefreshThenEmailRun(store.work, hasEmail, store.count, store.nextFence, r, e);
      var refreshes, emails;
      ok, refreshes, emails := RefreshThenEmail(r, e);
      result := Summary(checks, refreshes, emails);
      if calm {
        AppendRuns(start, first, second);
        assert store.log == middle + second.ops;
      }
    }

    /** `cycles` undisturbed cycles have been made since the history was `start`. */
    ghost predicate Made(start: seq<Op>, cycles: nat, count: nat, fence: nat,
                         m: nat -> MonitorScript, r: nat -> RefreshScript, e: nat -> EmailScript)
      reads store, signals
    {
      Calm() && Advanced(start, CyclesRun(store.work, hasEmail, cycles, count, fence, m, r, e))
    }

    /** The check before each cycle; it never ends an undisturbed run. */
    method StopBetweenCycles(ghost i: nat, ghost m: nat -> MonitorScript, ghost r: nat -> RefreshScript, ghost e: nat -> EmailScript,
                             ghost calm: bool, ghost start: seq<Op>, ghost count: nat, ghost fence: nat)
      returns (drain: bool)
      requires calm ==> Made(start, i, count, fence, m, r, e)
      modifies signals
      ensures drain == old(signals.answers(signals.readCount))
      ensures calm ==> !drain && Made(start, i, count, fence, m, r, e)
    {
      drain := signals.DrainRequested();
    }

    /** One more cycle of a run that has made `i` of them. */
    method NextCycle(i: nat, m: nat -> MonitorScript, r: nat -> RefreshScript, e: nat -> EmailScript,
                     ghost calm: bool, ghost start: seq<Op>, ghost count: nat, ghost fence: nat)
      returns (ok: bool)
      requires Standing(store) == Some(Nothing)
      requires calm ==> Made(start, i, count, fence, m, r, e)
      modifies store, signals
      ensures Standing(store) == Some(Nothing)
      ensures calm ==> ok && Made(start, i + 1, count, fence, m, r, e)
    {
      ghost var before := CyclesRun(store.work, hasEmail, i, count, fence, m, r, e);
      ghost var next := CycleRun(store.work, hasEmail, before.count, before.fence, m(i), r(i), e(i));
      AppendRuns(start, before, next);
      var result;
      ok, result := RunOnce(m(i), r(i), e(i));
    }

    /** Cycles until shutdown is requested, a store failure escapes, or `limit` cycles have run. */
    method RunForever(limit: nat, m: nat -> MonitorScript, r: nat -> RefreshScript, e: nat -> EmailScript)
      requires Standing(store) == Some(Nothing)
      modifies store, signals
      ensures Disciplined(store.log) && FreshFences(store.log, store.nextFence)
      ensures limit > 0 && old(signals.answers(signals.readCount)) ==> store.log == old(store.log)
      ensures old(Calm()) ==> Made(old(store.log), limit, old(store.count), old(store.nextFence), m, r, e)
    {
      ghost var calm, start, count, fence := Calm(), store.log, store.count, store.nextFence;
      for i := 0 to limit
        invariant Standing(store) == Some(Nothing)
        invariant i == 0 ==> signals.readCount == old(signals.readCount) && store.log == old(store.log)
        invariant old(signals.answers(signals.readCount)) ==> i == 0
        invariant calm ==> Made(start, i, count, fence, m, r, e)
      {
        var drain := StopBetweenCycles(i, m, r, e, calm, start, count, fence);
        if drain {
          return;
        }
        var ok := NextCycle(i, m, r, e, calm, start, count, fence);
        if !ok {
          return;
        }
      }
    }
  }
}
