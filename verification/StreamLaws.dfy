/** What the streamed answer promises: theorems about `Streaming.Stream` for every script, oracle and budget. */
module StreamLaws {
  import opened Prelude
  import opened Capabilities
  import opened Assembly
  import opened Lifecycle
  import opened Streaming

  /** The generator's flags, read off the chunks it has consumed. */
  lemma {:induction false} LocalsMeaning(chunks: seq<Chunk>, includeUsage: bool)
    ensures var l := LocalsAfter(chunks, includeUsage);
      && l.usage == MergeAll(chunks)
      && (l.emittedFinish <==> LastKnown(Finishes(chunks)).Some?)
      && (l.sawToolCalls <==> AllCalls(chunks) != [])
      && (l.usageEmitted <==> includeUsage && HasFacts(MergeAll(chunks)))
  {
    if chunks != [] {
      var front := chunks[..|chunks| - 1];
      LocalsMeaning(front, includeUsage);
      assert Finishes(chunks)[..|chunks| - 1] == Finishes(front);
    }
  }

  /** The terminal report of a run. */
  function Terminal(run: StreamRun): Call
    requires |run.calls| == 1
  {
    run.calls[0]
  }

  /** How many chunks the consumer received from a run of `total` chunks. */
  function Delivered(run: StreamRun, total: nat): (r: nat)
    ensures r <= total
  {
    if |run.items| < total then |run.items| else total
  }

  /** The trailing usage-only event is dead code: wanted usage has always been sent with a chunk. */
  lemma {:induction false} NoUsageLeftOver(s: Setup, chunks: seq<Chunk>, t: nat, n: nat, left: nat)
    ensures var l := LocalsAfter(chunks, s.includeUsage);
      TrailUsage(s, l, t, n, left) == Commit(s, MergeAll(chunks), n, left)
  {
    LocalsMeaning(chunks, s.includeUsage);
  }

  /** Where usage and `[DONE]` may stand among the items of a run that still has `total` chunks to send. */
  ghost predicate ItemsLaw(run: StreamRun, total: nat) {
    && |run.items| <= total + 2
    && (forall j :: 0 <= j < |run.items| && run.items[j].Event? && run.items[j].usage.Some? ==> j < total)
    && (forall j :: 0 <= j < |run.items| && run.items[j] == Done ==> j == |run.items| - 1)
  }

  /** The one report of a run that starts at chunk `i`. */
  ghost predicate ReportLaw(s: Setup, chunks: seq<Chunk>, end: Option<Fault>, i: nat, n: nat, run: StreamRun)
    requires i <= |chunks|
  {
    var total := |chunks| - i;
    && |run.calls| == 1 && run.calls[0].Finished? && run.calls[0].meta == s.meta
    && run.calls[0].ok == s.replies(n) && run.calls[0].status != Rejected
    && run.calls[0].usage == MergeAll(chunks[..i + Delivered(run, total)])
    && (Done in run.items <==> run.calls[0].status == Completed && run.calls[0].ok)
    && (run.calls[0].status == Completed <==> run.calls[0].errorType.None?)
    && (run.calls[0].status == Completed ==> end.None? && |run.items| >= total)
  }

  ghost predicate PumpLaw(s: Setup, chunks: seq<Chunk>, end: Option<Fault>, i: nat, n: nat, run: StreamRun)
    requires i <= |chunks|
  {
    ItemsLaw(run, |chunks| - i) && ReportLaw(s, chunks, end, i, n, run)
  }

  lemma {:induction false} FinallyObeysLaw(s: Setup, chunks: seq<Chunk>, end: Option<Fault>, p: Pending, i: nat, t: nat, n: nat)
    requires i <= |chunks| && p != Running
    ensures PumpLaw(s, chunks, end, i, n, Finally(s, p, MergeAll(chunks[..i]), t, n))
  {
  }

  lemma {:induction false} CommitObeysLaw(s: Setup, chunks: seq<Chunk>, n: nat, left: nat)
    ensures PumpLaw(s, chunks, None, |chunks|, n, Commit(s, MergeAll(chunks), n, left))
    ensures |Commit(s, MergeAll(chunks), n, left).items| <= 1
  {
    assert chunks[..|chunks|] == chunks;
  }

  /** Sending one more chunk event in front of a run keeps the law. */
  lemma {:induction false} ChunkInFront(s: Setup, chunks: seq<Chunk>, end: Option<Fault>, i: nat, n: nat, item: StreamItem, rest: StreamRun)
    requires i < |chunks| && item.Event? && PumpLaw(s, chunks, end, i + 1, n, rest)
    ensures PumpLaw(s, chunks, end, i, n, Prepend([item], rest))
  {
    var run := Prepend([item], rest);
    assert forall j :: 1 <= j < |run.items| ==> run.items[j] == rest.items[j - 1];
    assert Done in run.items <==> Done in rest.items;
    assert i + Delivered(run, |chunks| - i) == i + 1 + Delivered(rest, |chunks| - i - 1);
  }

  /** So does the default finish event in front of a short tail. */
  lemma {:induction false} FinishInFront(s: Setup, chunks: seq<Chunk>, end: Option<Fault>, n: nat, item: StreamItem, rest: StreamRun)
    requires item.Event? && item.usage.None? && |rest.items| <= 1
    requires PumpLaw(s, chunks, end, |chunks|, n, rest)
    ensures PumpLaw(s, chunks, end, |chunks|, n, Prepend([item], rest))
  {
    var run := Prepend([item], rest);
    assert forall j :: 1 <= j < |run.items| ==> run.items[j] == rest.items[j - 1];
    assert Done in run.items <==> Done in rest.items;
  }

  lemma {:induction false} WindUpObeysLaw(s: Setup, chunks: seq<Chunk>, end: Option<Fault>, t: nat, n: nat, left: nat)
    requires left > 0
    ensures PumpLaw(s, chunks, end, |chunks|, n, WindUp(s, end, LocalsAfter(chunks, s.includeUsage), t, n, left))
  {
    LocalsMeaning(chunks, s.includeUsage);
    assert chunks[..|chunks|] == chunks;
    if end.Some? {
      FinallyObeysLaw(s, chunks, end, PendingOf(end.value), |chunks|, t, n);
    } else if s.answers(t) {
      FinallyObeysLaw(s, chunks, end, CancelRaised, |chunks|, t + 1, n);
    } else if LocalsAfter(chunks, s.includeUsage).emittedFinish {
      NoUsageLeftOver(s, chunks, t + 1, n, left);
      CommitObeysLaw(s, chunks, n, left);
    } else {
      var item := DefaultFinishEvent(LocalsAfter(chunks, s.includeUsage).sawToolCalls);
      if left == 1 {
        FinallyObeysLaw(s, chunks, end, ConsumerClosed, |chunks|, t + 1, n);
        FinishInFront(s, chunks, end, n, item, Finally(s, ConsumerClosed, MergeAll(chunks), t + 1, n));
      } else {
        NoUsageLeftOver(s, chunks, t + 1, n, left - 1);
        CommitObeysLaw(s, chunks, n, left - 1);
        FinishInFront(s, chunks, end, n, item, Commit(s, MergeAll(chunks), n, left - 1));
      }
    }
  }

  lemma {:induction false} PumpObeysLaw(s: Setup, chunks: seq<Chunk>, end: Option<Fault>, i: nat, t: nat, n: nat, left: nat)
    requires i <= |chunks| && left > 0
    ensures PumpLaw(s, chunks, end, i, n, Pump(s, chunks, end, i, t, n, left))
    decreases |chunks| - i
  {
    LocalsMeaning(chunks[..i], s.includeUsage);
    if i == |chunks| {
      assert chunks[..i] == chunks;
      WindUpObeysLaw(s, chunks, end, t, n, left);
    } else if s.answers(t) {
      FinallyObeysLaw(s, chunks, end, CancelRaised, i, t + 1, n);
    } else {
      assert chunks[..i + 1][..i] == chunks[..i];
      var usage := MergeAll(chunks[..i + 1]);
      var item := ChunkEvent(chunks[i], usage, s.includeUsage);
      if left == 1 {
        FinallyObeysLaw(s, chunks, end, ConsumerClosed, i + 1, t + 1, n);
        ChunkInFront(s, chunks, end, i, n, item, Finally(s, ConsumerClosed, usage, t + 1, n));
      } else {
        PumpObeysLaw(s, chunks, end, i + 1, t + 1, n, left - 1);
        ChunkInFront(s, chunks, end, i, n, item, Pump(s, chunks, end, i + 1, t + 1, n, left - 1));
      }
    }
  }

  /**
   Exactly one terminal report, however the run ends; it carries the merge of
   the usage of exactly the chunks the consumer received. A generator that is
   never advanced reports nothing.
   */
  lemma {:induction false} ExactlyOneReport(s: Setup, chunks: seq<Chunk>, end: Option<Fault>, t: nat, n: nat, budget: nat)
    ensures var run := Stream(s, chunks, end, t, n, budget);
      && |run.calls| == (if budget == 0 then 0 else 1)
      && (budget > 0 ==>
        && Terminal(run).Finished? && Terminal(run).meta == s.meta
        && Terminal(run).usage == MergeAll(chunks[..Delivered(run, |chunks|)]))
  {
    if budget > 0 {
      PumpObeysLaw(s, chunks, end, 0, t, n, budget);
    }
  }

  /**
   `[DONE]` is published exactly when the completed report was accepted, after
   it and as the last item; the report then carries the usage of all chunks.
   */
  lemma {:induction false} DoneMeansCommitted(s: Setup, chunks: seq<Chunk>, end: Option<Fault>, t: nat, n: nat, budget: nat)
    ensures var run := Stream(s, chunks, end, t, n, budget);
      && (Done in run.items <==> run.calls == [Finished(s.meta, Completed, MergeAll(chunks), None, true)])
      && (Done in run.items ==> end.None? && run.items[|run.items| - 1] == Done)
  {
    if budget > 0 {
      PumpObeysLaw(s, chunks, end, 0, t, n, budget);
      var run := Stream(s, chunks, end, t, n, budget);
      assert chunks[..|chunks|] == chunks;
      if Done in run.items {
        var j :| 0 <= j < |run.items| && run.items[j] == Done;
      }
    }
  }

  /** Usage reaches the client only on chunk events; at most the default finish event and `[DONE]` follow the chunks. */
  lemma {:induction false} UsageOnlyOnChunkEvents(s: Setup, chunks: seq<Chunk>, end: Option<Fault>, t: nat, n: nat, budget: nat, j: nat)
    ensures var run := Stream(s, chunks, end, t, n, budget);
      && |run.items| <= |chunks| + 2
      && (j < |run.items| && run.items[j].Event? && run.items[j].usage.Some? ==> j < |chunks|)
  {
    if budget > 0 {
      PumpObeysLaw(s, chunks, end, 0, t, n, budget);
    }
  }

  // ---- the uninterrupted stream ------------------------------------------------

  function ChunkEvents(chunks: seq<Chunk>, includeUsage: bool): (r: seq<StreamItem>)
    ensures |r| == |chunks|
  {
    seq(|chunks|, i requires 0 <= i < |chunks| =>
      ChunkEvent(chunks[i], MergeAll(chunks[..i + 1]), includeUsage))
  }

  /** Everything an undisturbed stream yields. */
  function CleanItems(chunks: seq<Chunk>, includeUsage: bool): seq<StreamItem> {
    ChunkEvents(chunks, includeUsage)
    + (if LastKnown(Finishes(chunks)).Some? then [] else [DefaultFinishEvent(AllCalls(chunks) != [])])
    + [Done]
  }

  lemma {:induction false} CleanWindUp(s: Setup, chunks: seq<Chunk>, t: nat, n: nat, left: nat)
    requires left > 2 && s.replies(n) && !s.answers(t)
    ensures var run := WindUp(s, None, LocalsAfter(chunks, s.includeUsage), t, n, left);
      run.items == CleanItems(chunks, s.includeUsage)[|chunks|..] && run.exit == Exhausted
  {
    LocalsMeaning(chunks, s.includeUsage);
    NoUsageLeftOver(s, chunks, t + 1, n, left);
    NoUsageLeftOver(s, chunks, t + 1, n, left - 1);
  }

  lemma {:induction false} CleanTail(chunks: seq<Chunk>, includeUsage: bool, i: nat)
    requires i < |chunks|
    ensures var clean := CleanItems(chunks, includeUsage);
      clean[i..] == [ChunkEvents(chunks, includeUsage)[i]] + clean[i + 1..]
  {
  }

  lemma {:induction false} CleanStep(s: Setup, chunks: seq<Chunk>, i: nat, t: nat, n: nat, left: nat)
    requires i < |chunks| && left > 1 && !s.answers(t)
    ensures var run, rest := Pump(s, chunks, None, i, t, n, left), Pump(s, chunks, None, i + 1, t + 1, n, left - 1);
      run.items == [ChunkEvents(chunks, s.includeUsage)[i]] + rest.items && run.exit == rest.exit
  {
    assert chunks[..i + 1][..i] == chunks[..i];
    LocalsMeaning(chunks[..i], s.includeUsage);
  }

  lemma {:induction false} CleanPump(s: Setup, chunks: seq<Chunk>, i: nat, t: nat, n: nat, left: nat)
    requires i <= |chunks| && left > |chunks| - i + 2
    requires s.replies(n) && forall k :: k >= t ==> !s.answers(k)
    ensures Pump(s, chunks, None, i, t, n, left).items == CleanItems(chunks, s.includeUsage)[i..]
    ensures Pump(s, chunks, None, i, t, n, left).exit == Exhausted
    decreases |chunks| - i
  {
    if i == |chunks| {
      assert chunks[..i] == chunks;
      CleanWindUp(s, chunks, t, n, left);
    } else {
      CleanStep(s, chunks, i, t, n, left);
      CleanPump(s, chunks, i + 1, t + 1, n, left - 1);
      CleanTail(chunks, s.includeUsage, i);
    }
  }

  /** Without cancellation, failure or early close the stream yields the clean items and ends normally. */
  lemma {:induction false} UndisturbedStream(s: Setup, chunks: seq<Chunk>, t: nat, n: nat, budget: nat)
    requires budget > |chunks| + 2
    requires s.replies(n) && forall k :: k >= t ==> !s.answers(k)
    ensures var run := Stream(s, chunks, None, t, n, budget);
      && run.items == CleanItems(chunks, s.includeUsage)
      && run.exit == Exhausted
      && run.calls == [Finished(s.meta, Completed, MergeAll(chunks), None, true)]
  {
    CleanPump(s, chunks, 0, t, n, budget);
    assert CleanItems(chunks, s.includeUsage)[0..] == CleanItems(chunks, s.includeUsage);
    var run := Stream(s, chunks, None, t, n, budget);
    assert run.items[|run.items| - 1] == Done;
    DoneMeansCommitted(s, chunks, None, t, n, budget);
  }

  // ---- a client that folds the stream --------------------------------------------

  datatype Client = Client(
    text: string, role: Option<string>, calls: map<nat, CallState>, finish: Option<string>, closed: bool)

  const NEW_CLIENT := Client("", None, map[], None, false)

  /** A client keeps the first identity it sees for a call and appends the text fragments. */
  function ClientCall(st: CallState, c: EmittedCall): CallState {
    var f := c.function_.GetOr(OutFunction(None, None));
    CallState(
      if st.id.Some? then st.id else c.id,
      if st.kind.Some? then st.kind else c.kind,
      if f.name.Some? then Some(st.name.GetOr("") + f.name.value) else st.name,
      if f.arguments.Some? then Some(st.arguments.GetOr("") + f.arguments.value) else st.arguments)
  }

  function ClientCalls(calls: map<nat, CallState>, more: seq<EmittedCall>): map<nat, CallState> {
    if more == [] then calls
    else
      var before := ClientCalls(calls, more[..|more| - 1]);
      var c := more[|more| - 1];
      before[c.index := ClientCall(StateAt(before, c.index), c)]
  }

  function ClientStep(c: Client, item: StreamItem): Client {
    match item
    case Done => c.(closed := true)
    case Event(choice, _) =>
      if choice.None? then c
      else
        var ch := choice.value;
        c.(text := c.text + ch.content.GetOr(""),
           role := if c.role.Some? then c.role else ch.role,
           calls := ClientCalls(c.calls, ch.toolCalls.GetOr([])),
           finish := if ch.finish.Some? then ch.finish else c.finish)
  }

  function Fold(items: seq<StreamItem>): Client {
    if items == [] then NEW_CLIENT else ClientStep(Fold(items[..|items| - 1]), items[|items| - 1])
  }

  function ClientMessage(c: Client): Message {
    BuildMessage(c.text, c.role, c.calls)
  }

  lemma {:induction false} ClientCallsFollow(seen: seq<ToolCallDelta>, calls: seq<ToolCallDelta>)
    requires Accumulate(seen + calls).Some?
    ensures Accumulate(seen).Some?
    ensures ClientCalls(Accumulate(seen).value, EmittedCalls(calls)) == Accumulate(seen + calls).value
  {
    if calls == [] {
      assert seen + calls == seen;
    } else {
      var n := |calls| - 1;
      assert (seen + calls)[..|seen| + n] == seen + calls[..n];
      ClientCallsFollow(seen, calls[..n]);
      assert EmittedCalls(calls)[..n] == EmittedCalls(calls[..n]);
    }
  }

  /** What the first chunks of an answer tell a client. */
  function Told(chunks: seq<Chunk>): Client
    requires Accumulate(AllCalls(chunks)).Some?
  {
    Client(Text(chunks), FirstKnown(Roles(chunks)), Accumulate(AllCalls(chunks)).value, LastKnown(Finishes(chunks)), false)
  }

  lemma {:induction false} LastChunkTells(chunks: seq<Chunk>)
    requires chunks != [] && Accumulate(AllCalls(chunks)).Some?
    ensures var n := |chunks| - 1;
      && Accumulate(AllCalls(chunks[..n])).Some?
      && ClientCalls(Accumulate(AllCalls(chunks[..n])).value, EmittedCalls(chunks[n].calls))
         == Accumulate(AllCalls(chunks)).value
      && Roles(chunks)[..n] == Roles(chunks[..n]) && Finishes(chunks)[..n] == Finishes(chunks[..n])
  {
    var n := |chunks| - 1;
    ClientCallsFollow(AllCalls(chunks[..n]), chunks[n].calls);
  }

  lemma {:induction false} OneEventTells(chunks: seq<Chunk>, usage: Option<Usage>, includeUsage: bool)
    requires chunks != [] && Accumulate(AllCalls(chunks)).Some?
    ensures var n := |chunks| - 1;
      && Accumulate(AllCalls(chunks[..n])).Some?
      && ClientStep(Told(chunks[..n]), ChunkEvent(chunks[n], usage, includeUsage)) == Told(chunks)
  {
    var n := |chunks| - 1;
    var front, c := chunks[..n], chunks[n];
    LastChunkTells(chunks);
    var after := ClientStep(Told(front), ChunkEvent(c, usage, includeUsage));
    assert after.text == Text(chunks) by {
      assert Text(front) + "" == Text(front);
    }
    assert after.calls == Accumulate(AllCalls(chunks)).value by {
      assert c.calls == [] ==> EmittedCalls(c.calls) == [];
    }
    assert after.role == FirstKnown(Roles(chunks)) && after.finish == LastKnown(Finishes(chunks));
  }

  /** After `i` events the client knows what the first `i` chunks say. */
  lemma {:induction false} FoldFollowsChunks(chunks: seq<Chunk>, includeUsage: bool, i: nat)
    requires i <= |chunks| && Accumulate(AllCalls(chunks[..i])).Some?
    ensures Fold(ChunkEvents(chunks, includeUsage)[..i]) == Told(chunks[..i])
  {
    if i > 0 {
      var events := ChunkEvents(chunks, includeUsage);
      assert events[..i][..i - 1] == events[..i - 1];
      assert chunks[..i][..i - 1] == chunks[..i - 1];
      OneEventTells(chunks[..i], MergeAll(chunks[..i]), includeUsage);
      FoldFollowsChunks(chunks, includeUsage, i - 1);
    }
  }

  lemma {:induction false} TruthyIsLastUnlessEmpty(xs: seq<Option<string>>)
    ensures LastKnown(xs) != Some("") ==> LastTruthy(xs) == LastKnown(xs)
    ensures LastTruthy(xs) != Some("")
  {
    if xs != [] {
      TruthyIsLastUnlessEmpty(xs[..|xs| - 1]);
    }
  }

  /** The finish reason and the open state of a client do not depend on tool calls. */
  lemma {:induction false} FinishFollowsChunks(chunks: seq<Chunk>, includeUsage: bool, i: nat)
    requires i <= |chunks|
    ensures Fold(ChunkEvents(chunks, includeUsage)[..i]).finish == LastKnown(Finishes(chunks[..i]))
  {
    if i > 0 {
      var events := ChunkEvents(chunks, includeUsage);
      assert events[..i][..i - 1] == events[..i - 1];
      assert chunks[..i][..i - 1] == chunks[..i - 1];
      assert Finishes(chunks[..i])[..i - 1] == Finishes(chunks[..i - 1]);
      FinishFollowsChunks(chunks, includeUsage, i - 1);
    }
  }

  /** After the last chunk a client learns at most the default finish reason, and that the stream is over. */
  lemma {:induction false} FoldEnds(chunks: seq<Chunk>, includeUsage: bool)
    ensures var before, client := Fold(ChunkEvents(chunks, includeUsage)), Fold(CleanItems(chunks, includeUsage));
      client == before.(closed := true,
        finish := if LastKnown(Finishes(chunks)).Some? then before.finish else Some(DefaultFinish(AllCalls(chunks) != [])))
  {
    var events := ChunkEvents(chunks, includeUsage);
    var items := CleanItems(chunks, includeUsage);
    if LastKnown(Finishes(chunks)).Some? {
      assert items == events + [Done];
      assert items[..|items| - 1] == events;
    } else {
      var finish := DefaultFinishEvent(AllCalls(chunks) != []);
      assert items == (events + [finish]) + [Done];
      assert items[..|items| - 1] == events + [finish];
      assert (events + [finish])[..|events|] == events;
      var c := Fold(events);
      assert c.text + "" == c.text;
      assert ClientStep(c, finish) == c.(finish := finish.choice.value.finish);
    }
  }

  /**
   Streamed and unary answers agree. If no tool-call identity conflicts, the
   client that folds the stream holds exactly the message the unary path
   assembles; on a conflict the unary path has no answer. The client's finish
   reason is the unary one exactly when the last finish reason the provider sent
   is not the empty string.
   */
  lemma {:induction false} StreamedEqualsUnary(chunks: seq<Chunk>, includeUsage: bool)
    ensures var client := Fold(CleanItems(chunks, includeUsage));
      && client.closed
      && Assembled(chunks) == (if ConflictFree(AllCalls(chunks)) then Some(ClientMessage(client)) else None)
      && (client.finish == Some(UnaryFinish(chunks)) <==> LastKnown(Finishes(chunks)) != Some(""))
  {
    AssemblySucceedsIffConflictFree(AllCalls(chunks));
    var events := ChunkEvents(chunks, includeUsage);
    assert chunks[..|chunks|] == chunks && events[..|chunks|] == events;
    FinishFollowsChunks(chunks, includeUsage, |chunks|);
    TruthyIsLastUnlessEmpty(Finishes(chunks));
    FoldEnds(chunks, includeUsage);
    if ConflictFree(AllCalls(chunks)) {
      FoldFollowsChunks(chunks, includeUsage, |chunks|);
    }
  }
}
