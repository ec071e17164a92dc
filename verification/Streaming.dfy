/**
 The streamed answer (src/cyrene_exchange/gateway.py, `_stream_body`): a lazy
 generator whose consumer may close it after any item, whose provider may fail
 at any chunk, and whose terminal report is owed to the observer on every path.
 `Pump` is the specification; `StreamBody` is the generator's own loop.
 */
module Streaming {
  import opened Prelude
  import opened Capabilities
  import opened Assembly
  import opened Lifecycle

  datatype EmittedCall = EmittedCall(index: nat, id: Option<string>, kind: Option<string>, function_: Option<OutFunction>)

  datatype Choice = Choice(
    role: Option<string>, content: Option<string>, toolCalls: Option<seq<EmittedCall>>, finish: Option<string>)

  /** One item of the response body: a chunk event, or the closing `[DONE]` marker. */
  datatype StreamItem = Event(choice: Option<Choice>, usage: Option<UsageReport>) | Done

  /** The flags the generator keeps while it runs. */
  datatype Locals = Locals(emittedFinish: bool, sawToolCalls: bool, usage: Option<Usage>, usageEmitted: bool)

  /** How a generator run ends for its consumer. */
  datatype Exit = Exhausted | Closed | RaisedCancelled | RaisedLifecycle | RaisedFault(errorType: string)

  /** The exception in flight when the generator leaves its loop. */
  datatype Pending = Running | CancelRaised | FaultRaised(errorType: string) | ConsumerClosed

  datatype Setup = Setup(meta: Metadata, includeUsage: bool, answers: nat -> bool, replies: nat -> bool)

  datatype StreamRun = StreamRun(items: seq<StreamItem>, calls: seq<Call>, exit: Exit)

  /** `ToolCallDelta.to_openai_delta`: absent members are omitted. */
  function ToOpenAiDelta(d: ToolCallDelta): EmittedCall {
    EmittedCall(d.index, d.id, d.kind,
      if d.name.None? && d.arguments.None? then None else Some(OutFunction(d.name, d.arguments)))
  }

  function EmittedCalls(calls: seq<ToolCallDelta>): (r: seq<EmittedCall>)
    ensures |r| == |calls|
  {
    seq(|calls|, i requires 0 <= i < |calls| => ToOpenAiDelta(calls[i]))
  }

  function Absorb(l: Locals, c: Chunk, includeUsage: bool): Locals {
    var usage := MergeUsage(l.usage, c.usage);
    Locals(
      l.emittedFinish || c.finish.Some?,
      l.sawToolCalls || c.calls != [],
      usage,
      l.usageEmitted || (includeUsage && HasFacts(usage)))
  }

  /** The event of one chunk, given the usage merged so far (that chunk included). */
  function ChunkEvent(c: Chunk, usage: Option<Usage>, includeUsage: bool): StreamItem {
    Event(
      if c.role.None? && c.delta == "" && c.calls == [] && c.finish.None? then None
      else Some(Choice(
        c.role,
        if c.delta == "" then None else Some(c.delta),
        if c.calls == [] then None else Some(EmittedCalls(c.calls)),
        c.finish)),
      if includeUsage && HasFacts(usage) then Some(ToReport(usage.value)) else None)
  }

  function DefaultFinishEvent(sawToolCalls: bool): StreamItem {
    Event(Some(Choice(None, None, None, Some(DefaultFinish(sawToolCalls)))), None)
  }

  function LocalsAfter(chunks: seq<Chunk>, includeUsage: bool): Locals {
    if chunks == [] then Locals(false, false, None, false)
    else Absorb(LocalsAfter(chunks[..|chunks| - 1], includeUsage), chunks[|chunks| - 1], includeUsage)
  }

  // ---- specification of a run --------------------------------------------------

  function Prepend(items: seq<StreamItem>, run: StreamRun): StreamRun {
    run.(items := items + run.items)
  }

  /** The single terminal report, and what the consumer sees if that report fails. */
  function Report(s: Setup, n: nat, status: Status, usage: Option<Usage>, error: Option<string>, exit: Exit): StreamRun {
    StreamRun([], [Finished(s.meta, status, usage, error, s.replies(n))], if s.replies(n) then exit else RaisedLifecycle)
  }

  /**
   The `except` and `finally` clauses for an exception in flight. An exception
   other than a cancellation reads the event twice: once for the status and
   once for the error type.
   */
  function Finally(s: Setup, p: Pending, usage: Option<Usage>, t: nat, n: nat): StreamRun
    requires p != Running
  {
    if p == CancelRaised then
      Report(s, n, Cancelled, usage, Some(CANCELLED_TYPE), RaisedCancelled)
    else
      var error := if p.FaultRaised? then p.errorType else "stream_closed";
      Report(s, n,
        if s.answers(t) then Cancelled else Failed,
        usage,
        Some(if s.answers(t + 1) then CANCELLED_TYPE else error),
        if p.FaultRaised? then RaisedFault(p.errorType) else Closed)
  }

  /** What the provider's exception becomes inside the generator. */
  function PendingOf(f: Fault): Pending {
    if f.RequestCancelled? || f.InvocationCancelled? then CancelRaised else FaultRaised(AuditErrorType(f))
  }

  /** Terminal commit first, `[DONE]` only after it succeeded. */
  function Commit(s: Setup, usage: Option<Usage>, n: nat, left: nat): StreamRun {
    var run := Report(s, n, Completed, usage, None, if left == 1 then Closed else Exhausted);
    if s.replies(n) then run.(items := [Done]) else run
  }

  /** The usage-only event, if usage is wanted, known and was not yet sent. */
  function TrailUsage(s: Setup, l: Locals, t: nat, n: nat, left: nat): StreamRun {
    if s.includeUsage && !l.usageEmitted && HasFacts(l.usage) then
      var item := Event(None, Some(ToReport(l.usage.value)));
      if left == 1 then Prepend([item], Finally(s, ConsumerClosed, l.usage, t, n))
      else Prepend([item], Commit(s, l.usage, n, if left > 0 then left - 1 else 0))
    else Commit(s, l.usage, n, left)
  }

  /** After the last chunk. */
  function WindUp(s: Setup, end: Option<Fault>, l: Locals, t: nat, n: nat, left: nat): StreamRun {
    if end.Some? then Finally(s, PendingOf(end.value), l.usage, t, n)
    else if s.answers(t) then Finally(s, CancelRaised, l.usage, t + 1, n)
    else if l.emittedFinish then TrailUsage(s, l, t + 1, n, left)
    else
      var item := DefaultFinishEvent(l.sawToolCalls);
      if left == 1 then Prepend([item], Finally(s, ConsumerClosed, l.usage, t + 1, n))
      else Prepend([item], TrailUsage(s, l, t + 1, n, if left > 0 then left - 1 else 0))
  }

  /**
   The run from chunk `i` on: `t` reads of the event and `n` callbacks have
   happened, and the consumer takes `left` further items before it closes.
   */
  function Pump(s: Setup, chunks: seq<Chunk>, end: Option<Fault>, i: nat, t: nat, n: nat, left: nat): StreamRun
    requires i <= |chunks|
    decreases |chunks| - i
  {
    var l := LocalsAfter(chunks[..i], s.includeUsage);
    if i == |chunks| then WindUp(s, end, l, t, n, left)
    else if s.answers(t) then Finally(s, CancelRaised, l.usage, t + 1, n)
    else
      var usage := MergeUsage(l.usage, chunks[i].usage);
      var item := ChunkEvent(chunks[i], usage, s.includeUsage);
      if left == 1 then Prepend([item], Finally(s, ConsumerClosed, usage, t + 1, n))
      else Prepend([item], Pump(s, chunks, end, i + 1, t + 1, n, if left > 0 then left - 1 else 0))
  }

  /** A generator that is never advanced runs no code at all, not even its `finally` clause. */
  function Stream(s: Setup, chunks: seq<Chunk>, end: Option<Fault>, t: nat, n: nat, budget: nat): StreamRun {
    if budget == 0 then StreamRun([], [], Closed) else Pump(s, chunks, end, 0, t, n, budget)
  }

  // ---- the generator itself ------------------------------------------------------

  lemma {:induction false} PrependTwice(a: seq<StreamItem>, b: seq<StreamItem>, run: StreamRun)
    ensures Prepend(a, Prepend(b, run)) == Prepend(a + b, run)
  {
    assert a + (b + run.items) == (a + b) + run.items;
  }

  /** One iteration of the loop, seen from the specification. */
  lemma {:induction false} PumpUnfolds(s: Setup, chunks: seq<Chunk>, end: Option<Fault>, i: nat, t: nat, n: nat, left: nat, sent: seq<StreamItem>)
    requires i < |chunks| && left > 0
    ensures chunks[..i + 1][..i] == chunks[..i]
    ensures var l := LocalsAfter(chunks[..i], s.includeUsage);
      var l' := LocalsAfter(chunks[..i + 1], s.includeUsage);
      var sent' := sent + [ChunkEvent(chunks[i], l'.usage, s.includeUsage)];
      && l' == Absorb(l, chunks[i], s.includeUsage)
      && Prepend(sent, Pump(s, chunks, end, i, t, n, left)) ==
        if s.answers(t) then Prepend(sent, Finally(s, CancelRaised, l.usage, t + 1, n))
        else if left == 1 then Prepend(sent', Finally(s, ConsumerClosed, l'.usage, t + 1, n))
        else Prepend(sent', Pump(s, chunks, end, i + 1, t + 1, n, left - 1))
  {
    assert chunks[..i + 1][..i] == chunks[..i];
    var usage := MergeUsage(LocalsAfter(chunks[..i], s.includeUsage).usage, chunks[i].usage);
    var item := ChunkEvent(chunks[i], usage, s.includeUsage);
    PrependTwice(sent, [item], Finally(s, ConsumerClosed, usage, t + 1, n));
    if left > 1 {
      PrependTwice(sent, [item], Pump(s, chunks, end, i + 1, t + 1, n, left - 1));
    }
  }

  /** The loop over the provider's chunks. */
  method PumpChunks(includeUsage: bool, chunks: seq<Chunk>, flag: CancelFlag, budget: nat,
                    ghost s: Setup, ghost end: Option<Fault>, ghost n: nat)
    returns (pending: Pending, items: seq<StreamItem>, l: Locals)
    requires s.includeUsage == includeUsage && s.answers == flag.answers && budget > 0
    modifies flag
    ensures pending == Running ==>
      && |items| == |chunks| < budget && l == LocalsAfter(chunks, includeUsage)
      && Pump(s, chunks, end, 0, old(flag.readCount), n, budget)
         == Prepend(items, WindUp(s, end, l, flag.readCount, n, budget - |chunks|))
    ensures pending != Running ==>
      Pump(s, chunks, end, 0, old(flag.readCount), n, budget)
      == Prepend(items, Finally(s, pending, l.usage, flag.readCount, n))
  {
    ghost var whole := Pump(s, chunks, end, 0, flag.readCount, n, budget);
    var emittedFinish, sawToolCalls, usageEmitted := false, false, false;
    var usage: Option<Usage> := None;
    items := [];
    for i := 0 to |chunks|
      invariant |items| == i < budget
      invariant Locals(emittedFinish, sawToolCalls, usage, usageEmitted) == LocalsAfter(chunks[..i], includeUsage)
      invariant whole == Prepend(items, Pump(s, chunks, end, i, flag.readCount, n, budget - i))
    {
      PumpUnfolds(s, chunks, end, i, flag.readCount, n, budget - i, items);
      var cancelled := flag.IsSet();
      if cancelled {
        return CancelRaised, items, Locals(emittedFinish, sawToolCalls, usage, usageEmitted);
      }
      var chunk := chunks[i];
      emittedFinish := emittedFinish || chunk.finish.Some?;
      sawToolCalls := sawToolCalls || chunk.calls != [];
      usage := MergeUsage(usage, chunk.usage);
      usageEmitted := usageEmitted || (includeUsage && HasFacts(usage));
      items := items + [ChunkEvent(chunk, usage, includeUsage)];
      if |items| == budget {
        return ConsumerClosed, items, Locals(emittedFinish, sawToolCalls, usage, usageEmitted);
      }
    }
    assert chunks[..|chunks|] == chunks;
    return Running, items, Locals(emittedFinish, sawToolCalls, usage, usageEmitted);
  }

  /** Body of the generator; `budget` items are taken before the consumer closes it. */
  method StreamBody(meta: Metadata, includeUsage: bool, chunks: seq<Chunk>, end: Option<Fault>,
                    flag: CancelFlag, observer: Observer, budget: nat)
    returns (items: seq<StreamItem>, exit: Exit)
    modifies flag, observer
    ensures var run := Stream(Setup(meta, includeUsage, flag.answers, observer.replies), chunks, end,
                              old(flag.readCount), |old(observer.calls)|, budget);
      items == run.items && exit == run.exit && observer.calls == old(observer.calls) + run.calls
  {
    if budget == 0 {
      return [], Closed;
    }
    ghost var s := Setup(meta, includeUsage, flag.answers, observer.replies);
    ghost var n := |observer.calls|;
    var pending, l;
    pending, items, l := PumpChunks(includeUsage, chunks, flag, budget, s, end, n);
    if pending == Running {
      pending, items, exit := FinishStream(meta, includeUsage, end, l, flag, observer, budget, items);
      if pending == Running {
        return;
      }
    }
    exit := CloseStream(meta, includeUsage, pending, l.usage, flag, observer);
  }

  /** After the loop: end of the provider, default finish reason, trailing usage and terminal commit. */
  method FinishStream(meta: Metadata, includeUsage: bool, end: Option<Fault>, l: Locals,
                      flag: CancelFlag, observer: Observer, budget: nat, sent: seq<StreamItem>)
    returns (pending: Pending, items: seq<StreamItem>, exit: Exit)
    requires |sent| < budget
    modifies flag, observer
    ensures var s := Setup(meta, includeUsage, flag.answers, observer.replies);
      var run := Prepend(sent, WindUp(s, end, l, old(flag.readCount), |old(observer.calls)|, budget - |sent|));
      if pending == Running then
        items == run.items && exit == run.exit && observer.calls == old(observer.calls) + run.calls
      else
        && observer.calls == old(observer.calls)
        && run == Prepend(items, Finally(s, pending, l.usage, flag.readCount, |old(observer.calls)|))
  {
    items, exit := sent, Closed;
    if end.Some? {
      return PendingOf(end.value), items, exit;
    }
    var cancelled := flag.IsSet();
    if cancelled {
      return CancelRaised, items, exit;
    }
    if !l.emittedFinish {
      items := items + [DefaultFinishEvent(l.sawToolCalls)];
      if |items| == budget {
        return ConsumerClosed, items, exit;
      }
    }
    if includeUsage && !l.usageEmitted && HasFacts(l.usage) {
      items := items + [Event(None, Some(ToReport(l.usage.value)))];
      if |items| == budget {
        return ConsumerClosed, items, exit;
      }
    }
    pending := Running;
    var ok := observer.OnRequestFinished(meta, Completed, l.usage, None);
    if ok {
      items := items + [Done];
      exit := if |items| == budget then Closed else Exhausted;
    } else {
      exit := RaisedLifecycle;
    }
  }

  /** The `except` and `finally` clauses of a run that did not commit. */
  method CloseStream(meta: Metadata, includeUsage: bool, pending: Pending, usage: Option<Usage>,
                     flag: CancelFlag, observer: Observer)
    returns (exit: Exit)
    requires pending != Running
    modifies flag, observer
    ensures var s := Setup(meta, includeUsage, flag.answers, observer.replies);
      var run := Finally(s, pending, usage, old(flag.readCount), |old(observer.calls)|);
      exit == run.exit && observer.calls == old(observer.calls) + run.calls
  {
    var status, error;
    match pending {
      case CancelRaised =>
        status, error, exit := Cancelled, CANCELLED_TYPE, RaisedCancelled;
      case FaultRaised(errorType) =>
        var first := flag.IsSet();
        var second := flag.IsSet();
        status := if first then Cancelled else Failed;
        error := if second then CANCELLED_TYPE else errorType;
        exit := RaisedFault(errorType);
      case ConsumerClosed =>
        var first := flag.IsSet();
        var second := flag.IsSet();
        status := if first then Cancelled else Failed;
        error := if second then CANCELLED_TYPE else "stream_closed";
        exit := Closed;
    }
    var ok := observer.OnRequestFinished(meta, status, usage, Some(error));
    if !ok {
      exit := RaisedLifecycle;
    }
  }
}
