/**
 The provider-neutral facts the gateway consumes
 (src/cyrene_exchange/capabilities.py), and the merging of token-usage reports.
 Token counts are unbounded, as in the source language.
 */
module Capabilities {
  import opened Prelude

  datatype ToolCallDelta = ToolCallDelta(
    index: nat, id: Option<string>, kind: Option<string>, name: Option<string>, arguments: Option<string>)

  /** Exact token facts reported by the upstream provider; a missing count stays missing. */
  datatype Usage = Usage(prompt: Option<nat>, completion: Option<nat>, total: Option<nat>, source: string)

  datatype Chunk = Chunk(
    delta: string, finish: Option<string>, role: Option<string>, calls: seq<ToolCallDelta>, usage: Option<Usage>)

  /** The public usage object: only known members are present, a total is derived from two known parts. */
  datatype UsageReport = UsageReport(prompt: Option<nat>, completion: Option<nat>, total: Option<nat>)

  function ToReport(u: Usage): UsageReport {
    var total :=
      if u.total.None? && u.prompt.Some? && u.completion.Some? then Some(u.prompt.value + u.completion.value)
      else u.total;
    UsageReport(u.prompt, u.completion, total)
  }

  predicate IsEmptyReport(r: UsageReport) {
    r.prompt.None? && r.completion.None? && r.total.None?
  }

  /** Whether a usage report carries at least one token fact. */
  predicate HasFacts(u: Option<Usage>) {
    u.Some? && !IsEmptyReport(ToReport(u.value))
  }

  function Prefer<T>(observed: Option<T>, current: Option<T>): Option<T> {
    if observed.Some? then observed else current
  }

  /** One merge step: a newer report overrides the facts it carries and keeps the others. */
  function MergeUsage(current: Option<Usage>, observed: Option<Usage>): Option<Usage> {
    if observed.None? then current
    else if current.None? then observed
    else
      Some(Usage(
        Prefer(observed.value.prompt, current.value.prompt),
        Prefer(observed.value.completion, current.value.completion),
        Prefer(observed.value.total, current.value.total),
        observed.value.source))
  }

  /** The loop that merges the reports of a sequence of chunks, as a function of the chunks. */
  function MergeAll(chunks: seq<Chunk>): Option<Usage> {
    if chunks == [] then None
    else MergeUsage(MergeAll(chunks[..|chunks| - 1]), chunks[|chunks| - 1].usage)
  }

  method MergeChunkUsage(chunks: seq<Chunk>) returns (usage: Option<Usage>)
    ensures usage == MergeAll(chunks)
  {
    usage := None;
    for i := 0 to |chunks|
      invariant usage == MergeAll(chunks[..i])
    {
      assert chunks[..i + 1][..i] == chunks[..i];
      usage := MergeUsage(usage, chunks[i].usage);
    }
    assert chunks[..|chunks|] == chunks;
  }

  // ---- what merging means -------------------------------------------------

  lemma {:induction false} MergeIsMonoid(a: Option<Usage>, b: Option<Usage>, c: Option<Usage>)
    ensures MergeUsage(MergeUsage(a, b), c) == MergeUsage(a, MergeUsage(b, c))
    ensures MergeUsage(a, None) == a && MergeUsage(None, a) == a
  {
  }

  /** Any split of the chunks may be merged part by part: streamed running usage and unary usage agree. */
  lemma {:induction false} MergeAllSplits(xs: seq<Chunk>, ys: seq<Chunk>)
    ensures MergeAll(xs + ys) == MergeUsage(MergeAll(xs), MergeAll(ys))
  {
    if ys == [] {
      assert xs + ys == xs;
    } else {
      var front := ys[..|ys| - 1];
      assert (xs + ys)[..|xs + ys| - 1] == xs + front;
      MergeAllSplits(xs, front);
      MergeIsMonoid(MergeAll(xs), MergeAll(front), ys[|ys| - 1].usage);
    }
  }

  function Reports(chunks: seq<Chunk>): (r: seq<Option<Usage>>)
    ensures |r| == |chunks|
  {
    seq(|chunks|, i requires 0 <= i < |chunks| => chunks[i].usage)
  }

  function PromptFacts(chunks: seq<Chunk>): seq<Option<nat>> {
    seq(|chunks|, i requires 0 <= i < |chunks| => if chunks[i].usage.Some? then chunks[i].usage.value.prompt else None)
  }

  function CompletionFacts(chunks: seq<Chunk>): seq<Option<nat>> {
    seq(|chunks|, i requires 0 <= i < |chunks| => if chunks[i].usage.Some? then chunks[i].usage.value.completion else None)
  }

  function TotalFacts(chunks: seq<Chunk>): seq<Option<nat>> {
    seq(|chunks|, i requires 0 <= i < |chunks| => if chunks[i].usage.Some? then chunks[i].usage.value.total else None)
  }

  /** Merging invents nothing and forgets nothing: every field is the last fact any chunk reported for it. */
  lemma {:induction false} MergeAllIsLastKnown(chunks: seq<Chunk>)
    ensures var m := MergeAll(chunks);
      && (m.None? <==> LastKnown(Reports(chunks)).None?)
      && (m.Some? ==>
        && m.value.prompt == LastKnown(PromptFacts(chunks))
        && m.value.completion == LastKnown(CompletionFacts(chunks))
        && m.value.total == LastKnown(TotalFacts(chunks))
        && m.value.source == LastKnown(Reports(chunks)).value.source)
      && (m.None? ==>
        && LastKnown(PromptFacts(chunks)).None?
        && LastKnown(CompletionFacts(chunks)).None?
        && LastKnown(TotalFacts(chunks)).None?)
  {
    if chunks != [] {
      var n := |chunks| - 1;
      var front := chunks[..n];
      MergeAllIsLastKnown(front);
      assert Reports(chunks)[..n] == Reports(front);
      assert PromptFacts(chunks)[..n] == PromptFacts(front);
      assert CompletionFacts(chunks)[..n] == CompletionFacts(front);
      assert TotalFacts(chunks)[..n] == TotalFacts(front);
    }
  }

  // ---- completeness of a usage record ---------------------------------------

  datatype UsageState = Unknown | Partial | Final

  /** The completeness class stored with an audit row (product store, `_usage_values`). */
  function UsageStateOf(u: Option<Usage>): UsageState {
    if u.None? then Unknown
    else
      var present := (if u.value.prompt.Some? then 1 else 0)
        + (if u.value.completion.Some? then 1 else 0)
        + (if u.value.total.Some? then 1 else 0);
      if present == 0 then Unknown
      else if u.value.prompt.Some? && u.value.completion.Some? then Final
      else Partial
  }

  function Rank(s: UsageState): nat {
    match s
    case Unknown => 0
    case Partial => 1
    case Final => 2
  }

  /** The stored class is Unknown exactly when no billing event would be built from the same usage. */
  lemma {:induction false} UnknownIffNoFacts(u: Option<Usage>)
    ensures UsageStateOf(u) == Unknown <==> !HasFacts(u)
  {
  }

  /** Along a stream the recorded class only moves unknown -> partial -> final, and a known fact stays known. */
  lemma {:induction false} UsageOnlyGrows(chunks: seq<Chunk>, i: nat, j: nat)
    requires i <= j <= |chunks|
    ensures var a, b := MergeAll(chunks[..i]), MergeAll(chunks[..j]);
      && Rank(UsageStateOf(a)) <= Rank(UsageStateOf(b))
      && (a.Some? ==>
        && b.Some?
        && (a.value.prompt.Some? ==> b.value.prompt.Some?)
        && (a.value.completion.Some? ==> b.value.completion.Some?)
        && (a.value.total.Some? ==> b.value.total.Some?))
  {
    assert chunks[..j] == chunks[..i] + chunks[i..j];
    MergeAllSplits(chunks[..i], chunks[i..j]);
  }
}
