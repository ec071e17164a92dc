/**
 How a streamed answer ends and what each of its events carries, read off the
 provider's script, the reads of the cancellation event and the item at which
 the consumer closes (src/cyrene_exchange/gateway.py, `_stream_body`).
 */
module StreamReports {
  import opened Prelude
  import opened Capabilities
  import opened Assembly
  import opened Lifecycle
  import opened Streaming
  import opened StreamLaws

  /** None of the `count` reads of the event from `t` on sees it set. */
  predicate Unset(s: Setup, t: nat, count: nat) {
    forall k :: t <= k < t + count ==> !s.answers(k)
  }

  /** The run makes this one report, and leaves as stated unless the report fails. */
  predicate EndsWith(s: Setup, run: StreamRun, n: nat, status: Status, usage: Option<Usage>, error: Option<string>, exit: Exit) {
    run.calls == [Finished(s.meta, status, usage, error, s.replies(n))] && run.exit == if s.replies(n) then exit else RaisedLifecycle
  }

  /** The consumer closed, or the provider failed, and the event is read once for the status and once for the error type. */
  predicate EndsUnfinished(s: Setup, run: StreamRun, t: nat, n: nat, usage: Option<Usage>, error: string, exit: Exit) {
    EndsWith(s, run, n, if s.answers(t) then Cancelled else Failed, usage,
      Some(if s.answers(t + 1) then "request_cancelled" else error), exit)
  }

  /** Where a run stands after `i` chunks: the rest decides its report and its exit. */
  predicate GoesOn(s: Setup, chunks: seq<Chunk>, end: Option<Fault>, t: nat, n: nat, budget: nat, i: nat)
    requires i <= |chunks| && i <= budget
  {
    var whole, rest := Pump(s, chunks, end, 0, t, n, budget), Pump(s, chunks, end, i, t + i, n, budget - i);
    whole.calls == rest.calls && whole.exit == rest.exit && |whole.items| == i + |rest.items|
  }

  lemma {:induction false} GoesOnUnset(s: Setup, chunks: seq<Chunk>, end: Option<Fault>, t: nat, n: nat, budget: nat, i: nat)
    requires i <= |chunks| && i < budget && Unset(s, t, i)
    ensures GoesOn(s, chunks, end, t, n, budget, i)
  {
    if i > 0 {
      GoesOnUnset(s, chunks, end, t, n, budget, i - 1);
      assert !s.answers(t + i - 1);
    }
  }

  lemma {:induction false} UsageAfter(s: Setup, chunks: seq<Chunk>, i: nat)
    requires i < |chunks|
    ensures LocalsAfter(chunks[..i], s.includeUsage).usage == MergeAll(chunks[..i])
    ensures MergeUsage(MergeAll(chunks[..i]), chunks[i].usage) == MergeAll(chunks[..i + 1])
  {
    LocalsMeaning(chunks[..i], s.includeUsage);
    assert chunks[..i + 1][..i] == chunks[..i];
  }

  /** A cancellation seen before chunk `i` ends the stream there, with the usage of the chunks already sent. */
  lemma {:induction false} CancelledBeforeChunk(s: Setup, chunks: seq<Chunk>, end: Option<Fault>, t: nat, n: nat, budget: nat, i: nat)
    requires i < |chunks| && i < budget && Unset(s, t, i) && s.answers(t + i)
    ensures var run := Stream(s, chunks, end, t, n, budget);
      && |run.items| == i
      && EndsWith(s, run, n, Cancelled, MergeAll(chunks[..i]), Some("request_cancelled"), Exit.RaisedCancelled)
  {
    GoesOnUnset(s, chunks, end, t, n, budget, i);
    UsageAfter(s, chunks, i);
  }

  /** A consumer that closes after a chunk event leaves the usage of the chunks it took. */
  lemma {:induction false} ClosedAfterChunk(s: Setup, chunks: seq<Chunk>, end: Option<Fault>, t: nat, n: nat, budget: nat)
    requires 0 < budget <= |chunks| && Unset(s, t, budget)
    ensures var run := Stream(s, chunks, end, t, n, budget);
      && |run.items| == budget
      && EndsUnfinished(s, run, t + budget, n, MergeAll(chunks[..budget]), "stream_closed", Closed)
  {
    GoesOnUnset(s, chunks, end, t, n, budget, budget - 1);
    UsageAfter(s, chunks, budget - 1);
    assert !s.answers(t + budget - 1);
  }

  /** The error type under which a provider's own failure is reported. */
  function FailureName(f: Fault): string {
    match f
    case LifecycleError => "gateway_lifecycle_error"
    case EmbeddingRefusal(_) => "ProviderEmbeddingError"
    case OtherError(name, _) => name
    case _ => ""
  }

  /**
   How a stream ends whose chunks were all taken. A provider that cancels, or a
   cancellation seen after the last chunk, makes it cancelled; a provider that
   fails, and a consumer that closes on the default finish event, make it failed
   or, if the event is set by then, cancelled; otherwise it is completed.
   */
  lemma {:induction false} EndsAfterChunks(s: Setup, chunks: seq<Chunk>, end: Option<Fault>, t: nat, n: nat, budget: nat)
    requires budget > |chunks| && Unset(s, t, |chunks|)
    ensures var run, usage, t' := Stream(s, chunks, end, t, n, budget), MergeAll(chunks), t + |chunks|;
      var finishSent := exists i :: 0 <= i < |chunks| && chunks[i].finish.Some?;
      if end.Some? && (end.value.RequestCancelled? || end.value.InvocationCancelled?) then
        |run.items| == |chunks| && EndsWith(s, run, n, Cancelled, usage, Some("request_cancelled"), Exit.RaisedCancelled)
      else if end.Some? then
        |run.items| == |chunks| && EndsUnfinished(s, run, t', n, usage, FailureName(end.value), RaisedFault(FailureName(end.value)))
      else if s.answers(t') then
        |run.items| == |chunks| && EndsWith(s, run, n, Cancelled, usage, Some("request_cancelled"), Exit.RaisedCancelled)
      else if !finishSent && budget == |chunks| + 1 then
        |run.items| == budget && EndsUnfinished(s, run, t' + 1, n, usage, "stream_closed", Closed)
      else
        && |run.items| == |chunks| + (if finishSent then 0 else 1) + (if s.replies(n) then 1 else 0)
        && EndsWith(s, run, n, Completed, usage, None, if |run.items| == budget then Closed else Exhausted)
  {
    GoesOnUnset(s, chunks, end, t, n, budget, |chunks|);
    assert chunks[..|chunks|] == chunks;
    LocalsMeaning(chunks, s.includeUsage);
    FinishSent(chunks);
    var left, t' := budget - |chunks|, t + |chunks|;
    NoUsageLeftOver(s, chunks, t' + 1, n, left);
    if left > 1 {
      NoUsageLeftOver(s, chunks, t' + 1, n, left - 1);
    }
  }

  lemma {:induction false} FinishSent(chunks: seq<Chunk>)
    ensures LastKnown(Finishes(chunks)).Some? <==> exists i :: 0 <= i < |chunks| && chunks[i].finish.Some?
  {
    if chunks != [] {
      var n := |chunks| - 1;
      FinishSent(chunks[..n]);
      assert Finishes(chunks)[..n] == Finishes(chunks[..n]);
      if exists i :: 0 <= i < n && chunks[i].finish.Some? {
        var i :| 0 <= i < n && chunks[i].finish.Some?;
        assert chunks[..n][i].finish.Some?;
      }
    }
  }

  // ---- what each event carries --------------------------------------------------------------------

  /** The first item of the run from chunk `i` on is its event, and the others are those of the run from the next chunk on. */
  lemma {:induction false} PumpSendsOne(s: Setup, chunks: seq<Chunk>, end: Option<Fault>, i: nat, t: nat, n: nat, left: nat)
    requires i < |chunks| && |Pump(s, chunks, end, i, t, n, left).items| > 0
    ensures var items := Pump(s, chunks, end, i, t, n, left).items;
      && items[0] == ChunkEvent(chunks[i], MergeAll(chunks[..i + 1]), s.includeUsage)
      && (|items| > 1 ==> items[1..] == Pump(s, chunks, end, i + 1, t + 1, n, if left > 0 then left - 1 else 0).items)
  {
    UsageAfter(s, chunks, i);
  }

  /** Item `j` of the run from chunk `i` on is the event of chunk `i + j`. */
  lemma {:induction false} PumpSendsChunks(s: Setup, chunks: seq<Chunk>, end: Option<Fault>, i: nat, t: nat, n: nat, left: nat, j: nat)
    requires i + j < |chunks| && j < |Pump(s, chunks, end, i, t, n, left).items|
    ensures Pump(s, chunks, end, i, t, n, left).items[j]
      == ChunkEvent(chunks[i + j], MergeAll(chunks[..i + j + 1]), s.includeUsage)
    decreases |chunks| - i
  {
    PumpSendsOne(s, chunks, end, i, t, n, left);
    if j > 0 {
      assert Pump(s, chunks, end, i, t, n, left).items[j] == Pump(s, chunks, end, i, t, n, left).items[1..][j - 1];
      PumpSendsChunks(s, chunks, end, i + 1, t + 1, n, if left > 0 then left - 1 else 0, j - 1);
    }
  }

  /** The event carries the role, text, calls and finish reason of the chunk, each absent exactly when the chunk has none. */
  predicate CarriesChoice(item: StreamItem, c: Chunk) {
    && item.Event?
    && (item.choice.None? <==> c.role.None? && c.delta == "" && c.calls == [] && c.finish.None?)
    && (item.choice.Some? ==>
         && item.choice.value.role == c.role && item.choice.value.finish == c.finish
         && item.choice.value.content == (if c.delta == "" then None else Some(c.delta))
         && (item.choice.value.toolCalls.None? <==> c.calls == [])
         && (item.choice.value.toolCalls.Some? ==> CarriesCalls(item.choice.value.toolCalls.value, c.calls)))
  }

  /**
   The event carries usage exactly when it is wanted and some fact was reported
   by then: the last known facts, with the total filled in from the two parts if
   nobody reported it.
   */
  predicate CarriesUsage(item: StreamItem, seen: seq<Chunk>, wanted: bool)
    requires item.Event?
  {
    var prompt, completion, total := LastKnown(PromptFacts(seen)), LastKnown(CompletionFacts(seen)), LastKnown(TotalFacts(seen));
    item.usage ==
      if wanted && (prompt.Some? || completion.Some? || total.Some?) then
        Some(UsageReport(prompt, completion,
          if total.None? && prompt.Some? && completion.Some? then Some(prompt.value + completion.value) else total))
      else None
  }

  lemma {:induction false} EventSays(c: Chunk, seen: seq<Chunk>, wanted: bool)
    ensures CarriesChoice(ChunkEvent(c, MergeAll(seen), wanted), c)
    ensures CarriesUsage(ChunkEvent(c, MergeAll(seen), wanted), seen, wanted)
  {
    MergeAllIsLastKnown(seen);
  }

  /** What event `j` of any run carries: chunk `j`, and the usage of the chunks up to `j`. */
  lemma {:induction false} EventCarriesItsChunk(s: Setup, chunks: seq<Chunk>, end: Option<Fault>, t: nat, n: nat, budget: nat, j: nat)
    requires j < |chunks| && j < |Stream(s, chunks, end, t, n, budget).items|
    ensures CarriesChoice(Stream(s, chunks, end, t, n, budget).items[j], chunks[j])
    ensures CarriesUsage(Stream(s, chunks, end, t, n, budget).items[j], chunks[..j + 1], s.includeUsage)
  {
    PumpSendsChunks(s, chunks, end, 0, t, n, budget, j);
    EventSays(chunks[j], chunks[..j + 1], s.includeUsage);
  }

  /** The emitted fragments, member by member; a function object appears exactly when it has a member. */
  predicate CarriesCalls(emitted: seq<EmittedCall>, calls: seq<ToolCallDelta>) {
    |emitted| == |calls| &&
    forall i :: 0 <= i < |calls| ==>
      && emitted[i].index == calls[i].index && emitted[i].id == calls[i].id && emitted[i].kind == calls[i].kind
      && (emitted[i].function_.None? <==> calls[i].name.None? && calls[i].arguments.None?)
      && (emitted[i].function_.Some? ==>
           emitted[i].function_.value.name == calls[i].name && emitted[i].function_.value.arguments == calls[i].arguments)
  }
}
