/**
 Assembly of a completed assistant message from provider chunks
 (src/cyrene_exchange/gateway.py, `_ToolCallAccumulator` and `_assemble_message`).
 */
module Assembly {
  import opened Prelude
  import opened Capabilities

  /** The value of one accumulator: absent text means that no fragment was seen. */
  datatype CallState = CallState(id: Option<string>, kind: Option<string>, name: Option<string>, arguments: Option<string>)

  const NO_CALL := CallState(None, None, None, None)

  predicate Compatible(st: CallState, d: ToolCallDelta) {
    && (d.id.Some? && st.id.Some? ==> st.id == d.id)
    && (d.kind.Some? && st.kind.Some? ==> st.kind == d.kind)
  }

  function AppendText(text: Option<string>, more: Option<string>): Option<string> {
    if more.None? then text else Some(text.GetOr("") + more.value)
  }

  function Extend(st: CallState, d: ToolCallDelta): CallState {
    CallState(
      Prefer(d.id, st.id), Prefer(d.kind, st.kind),
      AppendText(st.name, d.name), AppendText(st.arguments, d.arguments))
  }

  /** Mutable assembly state for one indexed provider tool call. */
  class ToolCallAccumulator {
    const index: nat
    var callId: Option<string>
    var callType: Option<string>
    var functionName: string
    var functionArguments: string
    var functionNameSeen: bool
    var functionArgumentsSeen: bool

    ghost predicate Valid()
      reads this
    {
      (!functionNameSeen ==> functionName == "") && (!functionArgumentsSeen ==> functionArguments == "")
    }

    function State(): CallState
      reads this
    {
      CallState(callId, callType,
        if functionNameSeen then Some(functionName) else None,
        if functionArgumentsSeen then Some(functionArguments) else None)
    }

    constructor (index: nat)
      ensures Valid() && this.index == index && State() == NO_CALL
    {
      this.index := index;
      callId, callType, functionName, functionArguments := None, None, "", "";
      functionNameSeen, functionArgumentsSeen := false, false;
    }

    /** Appends one fragment; refuses a fragment of another index or with a conflicting identity. */
    method Merge(delta: ToolCallDelta) returns (ok: bool)
      requires Valid()
      modifies this
      ensures Valid()
      ensures ok <==> delta.index == index && Compatible(old(State()), delta)
      ensures ok ==> State() == Extend(old(State()), delta)
      ensures !ok ==> State().name == old(State()).name && State().arguments == old(State()).arguments
    {
      if delta.index != index {
        return false;
      }
      if delta.id.Some? {
        if callId.Some? && callId != delta.id {
          return false;
        }
        callId := delta.id;
      }
      if delta.kind.Some? {
        if callType.Some? && callType != delta.kind {
          return false;
        }
        callType := delta.kind;
      }
      if delta.name.Some? {
        functionNameSeen := true;
        functionName := functionName + delta.name.value;
      }
      if delta.arguments.Some? {
        functionArgumentsSeen := true;
        functionArguments := functionArguments + delta.arguments.value;
      }
      return true;
    }
  }

  datatype OutFunction = OutFunction(name: Option<string>, arguments: Option<string>)
  datatype OutCall = OutCall(id: Option<string>, kind: Option<string>, function_: Option<OutFunction>)
  datatype Message = Message(role: string, content: Option<string>, toolCalls: Option<seq<OutCall>>)

  /** A completed call omits what no fragment supplied, and its index. */
  function RenderCall(st: CallState): OutCall {
    OutCall(st.id, st.kind,
      if st.name.None? && st.arguments.None? then None else Some(OutFunction(st.name, st.arguments)))
  }

  lemma {:induction false} MinimumExists(s: set<nat>)
    requires s != {}
    ensures exists m :: m in s && forall x :: x in s ==> m <= x
  {
    var least :| least in s;
    var rest := s - {least};
    while rest != {}
      invariant least in s && rest <= s
      invariant forall x :: x in s ==> x in rest || least <= x
      decreases rest
    {
      var x :| x in rest;
      rest := rest - {x};
      if x < least { least := x; }
    }
  }

  function Least(s: set<nat>): (m: nat)
    requires s != {}
    ensures m in s && forall x :: x in s ==> m <= x
  {
    MinimumExists(s);
    var m :| m in s && forall x :: x in s ==> m <= x;
    m
  }

  /** Python's `sorted` over the keys of a dictionary. */
  function SortedKeys(s: set<nat>): (r: seq<nat>)
    ensures forall x :: x in r <==> x in s
    ensures forall i, j :: 0 <= i < j < |r| ==> r[i] < r[j]
  {
    if s == {} then []
    else
      var m := Least(s);
      [m] + SortedKeys(s - {m})
  }

  function RenderCalls(keys: seq<nat>, calls: map<nat, CallState>): (r: seq<OutCall>)
    requires forall k :: k in keys ==> k in calls
    ensures |r| == |keys|
  {
    seq(|keys|, i requires 0 <= i < |keys| => RenderCall(calls[keys[i]]))
  }

  function BuildMessage(text: string, role: Option<string>, calls: map<nat, CallState>): Message {
    Message(
      role.GetOr("assistant"),
      if text != "" || calls == map[] then Some(text) else None,
      if calls == map[] then None else Some(RenderCalls(SortedKeys(calls.Keys), calls)))
  }

  // ---- what the chunks of one answer say -----------------------------------

  function Text(chunks: seq<Chunk>): string {
    if chunks == [] then "" else Text(chunks[..|chunks| - 1]) + chunks[|chunks| - 1].delta
  }

  function Roles(chunks: seq<Chunk>): (r: seq<Option<string>>)
    ensures |r| == |chunks|
  {
    seq(|chunks|, i requires 0 <= i < |chunks| => chunks[i].role)
  }

  function Finishes(chunks: seq<Chunk>): (r: seq<Option<string>>)
    ensures |r| == |chunks|
  {
    seq(|chunks|, i requires 0 <= i < |chunks| => chunks[i].finish)
  }

  function AllCalls(chunks: seq<Chunk>): seq<ToolCallDelta> {
    if chunks == [] then [] else AllCalls(chunks[..|chunks| - 1]) + chunks[|chunks| - 1].calls
  }

  function DefaultFinish(sawToolCalls: bool): string {
    if sawToolCalls then "tool_calls" else "stop"
  }

  /** The finish reason of the unary answer: the last non-empty one, else a default. */
  function UnaryFinish(chunks: seq<Chunk>): string {
    LastTruthy(Finishes(chunks)).GetOr(DefaultFinish(AllCalls(chunks) != []))
  }

  function LastTruthy(xs: seq<Option<string>>): Option<string> {
    if xs == [] then None
    else if xs[|xs| - 1].Some? && xs[|xs| - 1].value != "" then xs[|xs| - 1]
    else LastTruthy(xs[..|xs| - 1])
  }

  /** The accumulators after a sequence of fragments; None once a fragment was refused. */
  function Accumulate(calls: seq<ToolCallDelta>): Option<map<nat, CallState>> {
    if calls == [] then Some(map[])
    else
      var before := Accumulate(calls[..|calls| - 1]);
      var d := calls[|calls| - 1];
      if before.None? then None
      else
        var st := StateAt(before.value, d.index);
        if Compatible(st, d) then Some(before.value[d.index := Extend(st, d)]) else None
  }

  function StateAt(calls: map<nat, CallState>, k: nat): CallState {
    if k in calls then calls[k] else NO_CALL
  }

  /** The specification of `AssembleMessage`: None stands for the conflicting-identity failure. */
  function Assembled(chunks: seq<Chunk>): Option<Message> {
    var calls := Accumulate(AllCalls(chunks));
    if calls.None? then None
    else Some(BuildMessage(Text(chunks), FirstKnown(Roles(chunks)), calls.value))
  }

  lemma {:induction false} RefusalIsFinal(a: seq<ToolCallDelta>, b: seq<ToolCallDelta>)
    requires Accumulate(a).None?
    ensures Accumulate(a + b).None?
  {
    if b == [] {
      assert a + b == a;
    } else {
      assert (a + b)[..|a + b| - 1] == a + b[..|b| - 1];
      RefusalIsFinal(a, b[..|b| - 1]);
    }
  }

  lemma {:induction false} AllCallsSplits(xs: seq<Chunk>, ys: seq<Chunk>)
    ensures AllCalls(xs + ys) == AllCalls(xs) + AllCalls(ys)
  {
    if ys == [] {
      assert xs + ys == xs;
    } else {
      assert (xs + ys)[..|xs + ys| - 1] == xs + ys[..|ys| - 1];
      AllCallsSplits(xs, ys[..|ys| - 1]);
    }
  }

  // ---- the imperative assembly ----------------------------------------------

  /** The accumulators of a dictionary do not alias, sit under their own index and hold the states `m`. */
  ghost predicate Holds(accs: map<nat, ToolCallAccumulator>, m: map<nat, CallState>)
    reads accs.Values
  {
    && accs.Keys == m.Keys
    && (forall k :: k in accs ==> accs[k].index == k && accs[k].Valid() && accs[k].State() == m[k])
  }

  /** Python's `setdefault`: an index without an accumulator gets an empty one. */
  method SetDefault(accs: map<nat, ToolCallAccumulator>, index: nat, ghost m: map<nat, CallState>)
    returns (accs': map<nat, ToolCallAccumulator>)
    requires Holds(accs, m)
    ensures index in accs' && Holds(accs', m[index := StateAt(m, index)])
    ensures forall k :: k in accs' ==> (k in accs && accs'[k] == accs[k]) || fresh(accs'[k])
  {
    if index in accs {
      accs' := accs;
      assert m == m[index := StateAt(m, index)];
    } else {
      var created := new ToolCallAccumulator(index);
      accs' := accs[index := created];
    }
  }

  /** One iteration of the inner loop: `setdefault` followed by `merge`. */
  method MergeInto(accs: map<nat, ToolCallAccumulator>, call: ToolCallDelta, ghost m: map<nat, CallState>)
    returns (ok: bool, accs': map<nat, ToolCallAccumulator>)
    requires Holds(accs, m)
    modifies accs.Values
    ensures forall k :: k in accs' ==> (k in accs && accs'[k] == accs[k]) || fresh(accs'[k])
    ensures ok <==> Compatible(StateAt(m, call.index), call)
    ensures ok ==> Holds(accs', m[call.index := Extend(StateAt(m, call.index), call)])
  {
    accs' := SetDefault(accs, call.index, m);
    var target := accs'[call.index];
    assert forall k :: k in accs' && k != call.index ==> accs'[k].index != target.index;
    ok := target.Merge(call);
  }

  /** Accumulates the fragments of one chunk on top of those already `seen`. */
  method MergeChunk(accs: map<nat, ToolCallAccumulator>, calls: seq<ToolCallDelta>,
                    ghost seen: seq<ToolCallDelta>, ghost before: map<nat, CallState>)
    returns (ok: bool, accs': map<nat, ToolCallAccumulator>)
    requires Holds(accs, before) && Accumulate(seen) == Some(before)
    modifies accs.Values
    ensures forall k :: k in accs' ==> (k in accs && accs'[k] == accs[k]) || fresh(accs'[k])
    ensures ok <==> Accumulate(seen + calls).Some?
    ensures ok ==> Holds(accs', Accumulate(seen + calls).value)
  {
    accs' := accs;
    ghost var m := before;
    assert seen + calls[..0] == seen;
    for j := 0 to |calls|
      invariant forall k :: k in accs' ==> (k in accs && accs'[k] == accs[k]) || fresh(accs'[k])
      invariant Holds(accs', m) && Accumulate(seen + calls[..j]) == Some(m)
    {
      ghost var longer := seen + calls[..j + 1];
      assert longer[..|longer| - 1] == seen + calls[..j];
      ok, accs' := MergeInto(accs', calls[j], m);
      if !ok {
        assert seen + calls == longer + calls[j + 1..];
        RefusalIsFinal(longer, calls[j + 1..]);
        return;
      }
      m := Accumulate(longer).value;
    }
    assert seen + calls[..|calls|] == seen + calls;
    ok := true;
  }

  /** Joins text and indexed tool-call fragments into one assistant message. */
  method AssembleMessage(chunks: seq<Chunk>) returns (r: Option<Message>)
    ensures r == Assembled(chunks)
  {
    var content := JoinText(chunks);
    var accs: map<nat, ToolCallAccumulator> := map[];
    ghost var m: map<nat, CallState> := map[];
    for i := 0 to |chunks|
      invariant forall k :: k in accs ==> fresh(accs[k])
      invariant Holds(accs, m) && Accumulate(AllCalls(chunks[..i])) == Some(m)
    {
      assert chunks[..i + 1][..i] == chunks[..i];
      var ok;
      ok, accs := MergeChunk(accs, chunks[i].calls, AllCalls(chunks[..i]), m);
      if !ok {
        assert chunks == chunks[..i + 1] + chunks[i + 1..];
        AllCallsSplits(chunks[..i + 1], chunks[i + 1..]);
        RefusalIsFinal(AllCalls(chunks[..i + 1]), AllCalls(chunks[i + 1..]));
        return None;
      }
      m := Accumulate(AllCalls(chunks[..i + 1])).value;
    }
    assert chunks[..|chunks|] == chunks;
    var calls := map k | k in accs :: accs[k].State();
    assert calls == m;
    return Some(BuildMessage(content, FirstKnown(Roles(chunks)), calls));
  }

  method JoinText(chunks: seq<Chunk>) returns (text: string)
    ensures text == Text(chunks)
  {
    text := "";
    for i := 0 to |chunks|
      invariant text == Text(chunks[..i])
    {
      assert chunks[..i + 1][..i] == chunks[..i];
      text := text + chunks[i].delta;
    }
    assert chunks[..|chunks|] == chunks;
  }

  // ---- when assembly succeeds -------------------------------------------------

  /** No two fragments of one index name different ids or different types. */
  ghost predicate ConflictFree(calls: seq<ToolCallDelta>) {
    forall i, j :: 0 <= i < j < |calls| && calls[i].index == calls[j].index ==>
      && (calls[i].id.Some? && calls[j].id.Some? ==> calls[i].id == calls[j].id)
      && (calls[i].kind.Some? && calls[j].kind.Some? ==> calls[i].kind == calls[j].kind)
  }

  /** What an accumulator remembers of the identity carried by the fragments of its index. */
  ghost predicate Remembers(calls: seq<ToolCallDelta>, m: map<nat, CallState>) {
    && (forall i :: 0 <= i < |calls| ==>
         && calls[i].index in m
         && (calls[i].id.Some? ==> m[calls[i].index].id == calls[i].id)
         && (calls[i].kind.Some? ==> m[calls[i].index].kind == calls[i].kind))
    && (forall k :: k in m ==>
         && (m[k].id.Some? ==> exists i :: 0 <= i < |calls| && calls[i].index == k && calls[i].id == m[k].id)
         && (m[k].kind.Some? ==> exists i :: 0 <= i < |calls| && calls[i].index == k && calls[i].kind == m[k].kind))
  }

  lemma {:induction false} AccumulatorsRemember(calls: seq<ToolCallDelta>)
    requires Accumulate(calls).Some?
    ensures Remembers(calls, Accumulate(calls).value)
  {
    if calls != [] {
      var n := |calls| - 1;
      var front, d := calls[..n], calls[n];
      AccumulatorsRemember(front);
      var m, m' := Accumulate(front).value, Accumulate(calls).value;
      forall k | k in m'
        ensures m'[k].id.Some? ==> exists i :: 0 <= i < |calls| && calls[i].index == k && calls[i].id == m'[k].id
        ensures m'[k].kind.Some? ==> exists i :: 0 <= i < |calls| && calls[i].index == k && calls[i].kind == m'[k].kind
      {
        if m'[k].id.Some? && !(k == d.index && d.id.Some?) {
          var i :| 0 <= i < |front| && front[i].index == k && front[i].id == m[k].id;
          assert calls[i].index == k && calls[i].id == m'[k].id;
        }
        if m'[k].kind.Some? && !(k == d.index && d.kind.Some?) {
          var i :| 0 <= i < |front| && front[i].index == k && front[i].kind == m[k].kind;
          assert calls[i].index == k && calls[i].kind == m'[k].kind;
        }
      }
    }
  }

  /** Assembly fails exactly on a conflicting tool-call identity, wherever the two fragments are. */
  lemma {:induction false} AssemblySucceedsIffConflictFree(calls: seq<ToolCallDelta>)
    ensures Accumulate(calls).Some? <==> ConflictFree(calls)
  {
    if calls != [] {
      var n := |calls| - 1;
      var front, d := calls[..n], calls[n];
      AssemblySucceedsIffConflictFree(front);
      if Accumulate(front).None? {
        var i, j :| 0 <= i < j < |front| && front[i].index == front[j].index
          && !((front[i].id.Some? && front[j].id.Some? ==> front[i].id == front[j].id)
               && (front[i].kind.Some? && front[j].kind.Some? ==> front[i].kind == front[j].kind));
        assert calls[i] == front[i] && calls[j] == front[j];
      } else {
        AccumulatorsRemember(front);
        assert forall i :: 0 <= i < n ==> front[i] == calls[i];
      }
    }
  }
}
