/**
 What an assembled answer contains, read off the provider's chunks
 (src/cyrene_exchange/gateway.py, `_ToolCallAccumulator.to_openai_message`,
 `_assemble_message` and the finish reason of `_collect_response`).
 */
module AssemblyLaws {
  import opened Prelude
  import opened Capabilities
  import opened Assembly

  // ---- the fragments of one call ----------------------------------------------------------

  /** The fragments of index `k`, in the order in which they were sent. */
  function Fragments(calls: seq<ToolCallDelta>, k: nat): seq<ToolCallDelta> {
    if calls == [] then []
    else
      Fragments(calls[..|calls| - 1], k)
      + if calls[|calls| - 1].index == k then [calls[|calls| - 1]] else []
  }

  lemma {:induction false} FragmentsAre(calls: seq<ToolCallDelta>, k: nat, d: ToolCallDelta)
    ensures d in Fragments(calls, k) <==> d in calls && d.index == k
  {
    if calls != [] {
      FragmentsAre(calls[..|calls| - 1], k, d);
      assert calls == calls[..|calls| - 1] + [calls[|calls| - 1]];
    }
  }

  function NameParts(ds: seq<ToolCallDelta>): (r: seq<Option<string>>)
    ensures |r| == |ds|
  {
    seq(|ds|, i requires 0 <= i < |ds| => ds[i].name)
  }

  function ArgumentParts(ds: seq<ToolCallDelta>): (r: seq<Option<string>>)
    ensures |r| == |ds|
  {
    seq(|ds|, i requires 0 <= i < |ds| => ds[i].arguments)
  }

  /** The texts that were sent, joined; absent exactly when none was. */
  function Joined(parts: seq<Option<string>>): (r: Option<string>)
    ensures r.None? <==> forall i :: 0 <= i < |parts| ==> parts[i].None?
  {
    if parts == [] then None
    else
      var before, last := Joined(parts[..|parts| - 1]), parts[|parts| - 1];
      if last.None? then before
      else if before.None? then last
      else Some(before.value + last.value)
  }

  lemma {:induction false} JoinedOneMore(ds: seq<ToolCallDelta>, d: ToolCallDelta)
    ensures Joined(NameParts(ds + [d])) == AppendText(Joined(NameParts(ds)), d.name)
    ensures Joined(ArgumentParts(ds + [d])) == AppendText(Joined(ArgumentParts(ds)), d.arguments)
  {
    assert NameParts(ds + [d]) == NameParts(ds) + [d.name];
    assert (NameParts(ds) + [d.name])[..|ds|] == NameParts(ds);
    assert ArgumentParts(ds + [d]) == ArgumentParts(ds) + [d.arguments];
    assert (ArgumentParts(ds) + [d.arguments])[..|ds|] == ArgumentParts(ds);
    if d.name.Some? {
      assert "" + d.name.value == d.name.value;
    }
    if d.arguments.Some? {
      assert "" + d.arguments.value == d.arguments.value;
    }
  }

  lemma {:induction false} AccumulatedText(calls: seq<ToolCallDelta>, k: nat)
    requires Accumulate(calls).Some?
    ensures var m, ds := Accumulate(calls).value, Fragments(calls, k);
      && (k in m <==> ds != [])
      && (k in m ==> m[k].name == Joined(NameParts(ds)) && m[k].arguments == Joined(ArgumentParts(ds)))
  {
    if calls != [] {
      var n := |calls| - 1;
      AccumulatedText(calls[..n], k);
      var before := Fragments(calls[..n], k);
      assert before == [] ==> NameParts(before) == [] && ArgumentParts(before) == [];
      if calls[n].index == k {
        JoinedOneMore(before, calls[n]);
      } else {
        assert Fragments(calls, k) == before;
      }
    }
  }

  // ---- the message ------------------------------------------------------------------------

  /** `out` is the completed call made of the fragments `ds`. */
  ghost predicate CompletedFrom(ds: seq<ToolCallDelta>, out: OutCall) {
    && (forall i :: 0 <= i < |ds| && ds[i].id.Some? ==> out.id == ds[i].id)
    && (out.id.Some? ==> exists i :: 0 <= i < |ds| && ds[i].id == out.id)
    && (forall i :: 0 <= i < |ds| && ds[i].kind.Some? ==> out.kind == ds[i].kind)
    && (out.kind.Some? ==> exists i :: 0 <= i < |ds| && ds[i].kind == out.kind)
    && (out.function_.None? <==> forall i :: 0 <= i < |ds| ==> ds[i].name.None? && ds[i].arguments.None?)
    && (out.function_.Some? ==>
         && out.function_.value.name == Joined(NameParts(ds))
         && out.function_.value.arguments == Joined(ArgumentParts(ds)))
  }

  lemma {:induction false} RenderedFrom(calls: seq<ToolCallDelta>, k: nat)
    requires Accumulate(calls).Some? && k in Accumulate(calls).value
    ensures CompletedFrom(Fragments(calls, k), RenderCall(Accumulate(calls).value[k]))
  {
    var ds, st := Fragments(calls, k), Accumulate(calls).value[k];
    AccumulatedText(calls, k);
    AccumulatorsRemember(calls);
    forall i | 0 <= i < |ds|
      ensures ds[i].id.Some? ==> st.id == ds[i].id
      ensures ds[i].kind.Some? ==> st.kind == ds[i].kind
    {
      FragmentsAre(calls, k, ds[i]);
      var j :| 0 <= j < |calls| && calls[j] == ds[i];
      assert calls[j].index in Accumulate(calls).value;
    }
    if st.id.Some? {
      var j :| 0 <= j < |calls| && calls[j].index == k && calls[j].id == st.id;
      FragmentsAre(calls, k, calls[j]);
    }
    if st.kind.Some? {
      var j :| 0 <= j < |calls| && calls[j].index == k && calls[j].kind == st.kind;
      FragmentsAre(calls, k, calls[j]);
    }
    assert NameParts(ds) == seq(|ds|, i requires 0 <= i < |ds| => ds[i].name);
    if st.name.None? && st.arguments.None? {
      forall i | 0 <= i < |ds| ensures ds[i].name.None? && ds[i].arguments.None? {
        assert NameParts(ds)[i].None? && ArgumentParts(ds)[i].None?;
      }
    }
    if forall i :: 0 <= i < |ds| ==> ds[i].name.None? && ds[i].arguments.None? {
      assert forall i :: 0 <= i < |ds| ==> NameParts(ds)[i].None? && ArgumentParts(ds)[i].None?;
    }
  }

  /** The calls of the message are those of `keys`, in that order. */
  ghost predicate ListsCalls(m: Message, calls: seq<ToolCallDelta>, keys: seq<nat>) {
    && (forall i, j :: 0 <= i < j < |keys| ==> keys[i] < keys[j])
    && (forall k :: k in keys <==> exists i :: 0 <= i < |calls| && calls[i].index == k)
    && (m.toolCalls.None? <==> calls == [])
    && (m.toolCalls.Some? ==>
         && |m.toolCalls.value| == |keys|
         && forall k :: 0 <= k < |keys| ==> CompletedFrom(Fragments(calls, keys[k]), m.toolCalls.value[k]))
  }

  /**
   What an assembled message is made of: the first role that was sent, else
   "assistant"; the whole text, or null exactly when it is empty and there are
   calls; and one call for each index, by increasing index, with the identity
   its fragments carry and their names and arguments joined.
   */
  lemma {:induction false} MessageIsWhatWasSent(chunks: seq<Chunk>) returns (keys: seq<nat>)
    requires ConflictFree(AllCalls(chunks))
    ensures Assembled(chunks).Some?
    ensures var m := Assembled(chunks).value;
      && m.content == (if Text(chunks) == "" && AllCalls(chunks) != [] then None else Some(Text(chunks)))
      && ListsCalls(m, AllCalls(chunks), keys)
      && RoleIsFirst(m.role, chunks)
  {
    var calls := AllCalls(chunks);
    AssemblySucceedsIffConflictFree(calls);
    AccumulatorsRemember(calls);
    var m := Accumulate(calls).value;
    keys := SortedKeys(m.Keys);
    forall k ensures k in keys <==> exists i :: 0 <= i < |calls| && calls[i].index == k {
      AccumulatedText(calls, k);
      if k in m {
        FragmentsAre(calls, k, Fragments(calls, k)[0]);
      }
    }
    assert m == map[] <==> calls == [] by {
      if calls != [] { assert calls[0].index in m; }
    }
    forall k | 0 <= k < |keys| ensures CompletedFrom(Fragments(calls, keys[k]), RenderCall(m[keys[k]])) {
      RenderedFrom(calls, keys[k]);
    }
    FirstRole(chunks);
  }

  predicate FirstAt(role: string, chunks: seq<Chunk>, i: nat)
    requires i < |chunks|
  {
    chunks[i].role == Some(role) && forall j :: 0 <= j < i ==> chunks[j].role.None?
  }

  /** `role` is the first role among the chunks, or the default if none has one. */
  ghost predicate RoleIsFirst(role: string, chunks: seq<Chunk>) {
    || (role == "assistant" && forall i :: 0 <= i < |chunks| ==> chunks[i].role.None?)
    || (exists i: nat :: i < |chunks| && FirstAt(role, chunks, i))
  }

  lemma {:induction false} FirstRole(chunks: seq<Chunk>)
    ensures var first := FirstKnown(Roles(chunks));
      && (first.None? ==> forall i :: 0 <= i < |chunks| ==> chunks[i].role.None?)
      && (first.Some? ==> exists i: nat :: i < |chunks| && FirstAt(first.value, chunks, i))
  {
    if chunks != [] {
      var n := |chunks| - 1;
      FirstRole(chunks[..n]);
      assert Roles(chunks)[..n] == Roles(chunks[..n]);
      assert forall j :: 0 <= j < n ==> chunks[j] == chunks[..n][j];
      var before := FirstKnown(Roles(chunks[..n]));
      if before.Some? {
        var i: nat :| i < n && FirstAt(before.value, chunks[..n], i);
        assert FirstAt(before.value, chunks, i);
      } else if chunks[n].role.Some? {
        assert FirstAt(chunks[n].role.value, chunks, n);
      }
    }
  }

  // ---- the finish reason --------------------------------------------------------------------

  predicate SaysFinish(c: Chunk) {
    c.finish.Some? && c.finish.value != ""
  }

  /** The last non-empty finish reason stands at `i`. */
  predicate LastSaidAt(finish: string, chunks: seq<Chunk>, i: nat)
    requires i < |chunks|
  {
    && chunks[i].finish == Some(finish) && finish != ""
    && forall j :: i < j < |chunks| ==> !SaysFinish(chunks[j])
  }

  /** The finish reason is the last non-empty one sent; without one it tells whether there were tool calls. */
  lemma {:induction false} FinishIsWhatWasSent(chunks: seq<Chunk>)
    ensures var finish := UnaryFinish(chunks);
      || (exists i: nat :: i < |chunks| && LastSaidAt(finish, chunks, i))
      || (&& (forall i :: 0 <= i < |chunks| ==> !SaysFinish(chunks[i]))
          && finish == if SendsCalls(chunks) then "tool_calls" else "stop")
  {
    LastFinish(chunks);
    CallsSomewhere(chunks);
    if LastTruthy(Finishes(chunks)).Some? {
      var i: nat :| i < |chunks| && LastSaidAt(UnaryFinish(chunks), chunks, i);
    }
  }

  ghost predicate SendsCalls(chunks: seq<Chunk>) {
    exists i :: 0 <= i < |chunks| && chunks[i].calls != []
  }

  lemma {:induction false} LastFinish(chunks: seq<Chunk>)
    ensures var last := LastTruthy(Finishes(chunks));
      && (last.None? ==> forall i :: 0 <= i < |chunks| ==> !SaysFinish(chunks[i]))
      && (last.Some? ==> exists i: nat :: i < |chunks| && LastSaidAt(last.value, chunks, i))
  {
    if chunks != [] {
      var n := |chunks| - 1;
      LastFinish(chunks[..n]);
      assert Finishes(chunks)[..n] == Finishes(chunks[..n]);
      assert forall j :: 0 <= j < n ==> chunks[j] == chunks[..n][j];
      var before := LastTruthy(Finishes(chunks[..n]));
      if SaysFinish(chunks[n]) {
        assert LastSaidAt(chunks[n].finish.value, chunks, n);
      } else if before.Some? {
        var i: nat :| i < n && LastSaidAt(before.value, chunks[..n], i);
        assert LastSaidAt(before.value, chunks, i);
      }
    }
  }

  lemma {:induction false} CallsSomewhere(chunks: seq<Chunk>)
    ensures AllCalls(chunks) != [] <==> SendsCalls(chunks)
  {
    if chunks != [] {
      var n := |chunks| - 1;
      CallsSomewhere(chunks[..n]);
      if AllCalls(chunks[..n]) != [] {
        var i :| 0 <= i < n && chunks[..n][i].calls != [];
        assert chunks[i].calls != [];
      }
      if exists i :: 0 <= i < n && chunks[i].calls != [] {
        var i :| 0 <= i < n && chunks[i].calls != [];
        assert chunks[..n][i].calls != [];
      }
    }
  }
}
