/**
 The signature by which a host's Hugging Face repository scope is compared with
 the Account Center's (`_hf_scope_signature` in
 product/src/cyrene_exchange_product/cli.py). Two sides spell the keys
 differently; the signature must not depend on that or on any order.
 */
module ScopeSignature {
  import opened Values
  import opened Sorting

  datatype Entry = Entry(repoType: string, repoId: string, permissions: seq<string>)

  // ---- the order in which Python sorts tuples of strings ---------------------------------

  predicate TupleLe(a: seq<string>, b: seq<string>) {
    a == [] || (b != [] && (if a[0] == b[0] then TupleLe(a[1..], b[1..]) else StringLe(a[0], b[0])))
  }

  predicate EntryLe(a: Entry, b: Entry) {
    if a.repoType != b.repoType then StringLe(a.repoType, b.repoType)
    else if a.repoId != b.repoId then StringLe(a.repoId, b.repoId)
    else TupleLe(a.permissions, b.permissions)
  }

  lemma {:induction false} TupleLeTotal(a: seq<string>, b: seq<string>)
    ensures TupleLe(a, b) || TupleLe(b, a)
    ensures TupleLe(a, b) && TupleLe(b, a) ==> a == b
  {
    if a != [] && b != [] {
      StringLeTotal(a[0], b[0]);
      TupleLeTotal(a[1..], b[1..]);
      assert a == [a[0]] + a[1..] && b == [b[0]] + b[1..];
    }
  }

  lemma {:induction false} TupleLeTransitive(a: seq<string>, b: seq<string>, c: seq<string>)
    requires TupleLe(a, b) && TupleLe(b, c)
    ensures TupleLe(a, c)
  {
    if a != [] && b != [] && c != [] {
      if a[0] == b[0] && b[0] == c[0] {
        TupleLeTransitive(a[1..], b[1..], c[1..]);
      } else if a[0] != b[0] && b[0] != c[0] {
        StringLeTransitive(a[0], b[0], c[0]);
        StringLeTotal(a[0], b[0]);
      }
    }
  }

  lemma {:induction false} EntryLeTransitive(a: Entry, b: Entry, c: Entry)
    requires EntryLe(a, b) && EntryLe(b, c)
    ensures EntryLe(a, c)
  {
    if a.repoType != b.repoType && b.repoType != c.repoType {
      StringLeTransitive(a.repoType, b.repoType, c.repoType);
      StringLeTotal(a.repoType, b.repoType);
    } else if a.repoType == b.repoType && b.repoType == c.repoType {
      if a.repoId != b.repoId && b.repoId != c.repoId {
        StringLeTransitive(a.repoId, b.repoId, c.repoId);
        StringLeTotal(a.repoId, b.repoId);
      } else if a.repoId == b.repoId && b.repoId == c.repoId {
        TupleLeTransitive(a.permissions, b.permissions, c.permissions);
      }
    }
  }

  lemma {:induction false} EntryOrder()
    ensures TotalOrder(EntryLe)
  {
    forall x: Entry, y: Entry
      ensures EntryLe(x, y) || EntryLe(y, x)
      ensures EntryLe(x, y) && EntryLe(y, x) ==> x == y
    {
      StringLeTotal(x.repoType, y.repoType);
      StringLeTotal(x.repoId, y.repoId);
      TupleLeTotal(x.permissions, y.permissions);
    }
    forall x: Entry, y: Entry, z: Entry | EntryLe(x, y) && EntryLe(y, z) ensures EntryLe(x, z) {
      EntryLeTransitive(x, y, z);
    }
  }

  // ---- the signature ---------------------------------------------------------------------

  predicate Distinct<T(==)>(s: seq<T>) {
    forall i, j :: 0 <= i < j < |s| ==> s[i] != s[j]
  }

  predicate AcceptablePermissions(v: Value) {
    && v.List? && v.items != []
    && (forall i :: 0 <= i < |v.items| ==> v.items[i] == Str("read") || v.items[i] == Str("write"))
    && Str("read") in v.items
    && Distinct(v.items)
  }

  function TypeKey(camelCase: bool): string {
    if camelCase then "repoType" else "repo_type"
  }

  function IdKey(camelCase: bool): string {
    if camelCase then "repoId" else "repo_id"
  }

  predicate RepoType(v: Value) {
    v == Str("model") || v == Str("dataset") || v == Str("space")
  }

  predicate AcceptableRow(row: Value, camelCase: bool) {
    && row.Dict?
    && RepoType(Get(row.fields, TypeKey(camelCase)))
    && Get(row.fields, IdKey(camelCase)).Str? && Get(row.fields, IdKey(camelCase)).s != ""
    && AcceptablePermissions(Get(row.fields, "permissions"))
  }

  function Permissions(v: Value): seq<string>
    requires AcceptablePermissions(v)
  {
    seq(|v.items|, i requires 0 <= i < |v.items| => v.items[i].s)
  }

  function EntryOf(row: Value, camelCase: bool): Result<Entry> {
    if row.Dict? && !Hashable(Get(row.fields, TypeKey(camelCase))) then Err(TypeError)
    else if !AcceptableRow(row, camelCase) then Err(Refused)
    else Ok(Entry(Get(row.fields, TypeKey(camelCase)).s, Get(row.fields, IdKey(camelCase)).s,
                  Sort(Permissions(Get(row.fields, "permissions")), StringLe)))
  }

  function RowStep(camelCase: bool): Value -> Result<Entry> {
    row => EntryOf(row, camelCase)
  }

  function Signature(v: Value, camelCase: bool): Result<seq<Entry>> {
    if !v.List? || v.items == [] then Err(Refused)
    else
      var entries := Each(RowStep(camelCase), v.items);
      if entries.Err? then entries
      else if !Distinct(entries.value) then Err(Refused)
      else Ok(Sort(entries.value, EntryLe))
  }

  lemma {:induction false} DistinctTail<T>(s: seq<T>)
    requires s != []
    ensures Distinct(s) <==> s[0] !in s[1..] && Distinct(s[1..])
  {
    var tail := s[1..];
    if s[0] in tail {
      var j :| 0 <= j < |tail| && tail[j] == s[0];
      assert s[j + 1] == s[0];
    }
    if Distinct(s) {
      forall i, j | 0 <= i < j < |tail| ensures tail[i] != tail[j] {
        assert s[i + 1] != s[j + 1];
      }
    }
    if s[0] !in tail && Distinct(tail) {
      forall i, j | 0 <= i < j < |s| ensures s[i] != s[j] {
        assert s[j] == tail[j - 1];
        if i > 0 {
          assert tail[i - 1] != tail[j - 1];
        }
      }
    }
  }

  /** A sequence repeats nothing exactly when it has as many elements as its set. */
  lemma {:induction false} DistinctIffSetSize<T>(s: seq<T>)
    ensures |set x | x in s| <= |s|
    ensures |set x | x in s| == |s| <==> Distinct(s)
  {
    if s != [] {
      DistinctIffSetSize(s[1..]);
      DistinctTail(s);
      var all, rest := set x | x in s, set x | x in s[1..];
      assert s == [s[0]] + s[1..];
      assert all == rest + {s[0]};
      assert s[0] in rest ==> all == rest;
    }
  }

  method CheckRow(row: Value, camelCase: bool) returns (r: Result<Entry>)
    ensures r == EntryOf(row, camelCase)
  {
    if !row.Dict? {
      return Err(Refused);
    }
    var repoType, repoId := Get(row.fields, TypeKey(camelCase)), Get(row.fields, IdKey(camelCase));
    var permissions := Get(row.fields, "permissions");
    if !Hashable(repoType) {
      return Err(TypeError);
    }
    if !RepoType(repoType) || !repoId.Str? || repoId.s == "" || !permissions.List? || permissions.items == [] {
      return Err(Refused);
    }
    var items := permissions.items;
    if exists i :: 0 <= i < |items| && items[i] != Str("read") && items[i] != Str("write") {
      return Err(Refused);
    }
    DistinctIffSetSize(items);
    if Str("read") !in items || |items| != |set x | x in items| {
      return Err(Refused);
    }
    return Ok(Entry(repoType.s, repoId.s, Sort(Permissions(permissions), StringLe)));
  }

  method HfScopeSignature(value: Value, camelCase: bool) returns (r: Result<seq<Entry>>)
    ensures r == Signature(value, camelCase)
  {
    if !value.List? || value.items == [] {
      return Err(Refused);
    }
    var entries := CheckRows(value.items, camelCase);
    if entries.Err? {
      return entries;
    }
    var signature := entries.value;
    DistinctIffSetSize(signature);
    if |signature| != |set e | e in signature| {
      return Err(Refused);
    }
    return Ok(Sort(signature, EntryLe));
  }

  method CheckRows(rows: seq<Value>, camelCase: bool) returns (r: Result<seq<Entry>>)
    ensures r == Each(RowStep(camelCase), rows)
  {
    var signature: seq<Entry> := [];
    ghost var step := RowStep(camelCase);
    assert rows[0..] == rows;
    AfterEachNothing(Each(step, rows));
    for i := 0 to |rows|
      invariant Each(step, rows) == AfterEach(signature, Each(step, rows[i..]))
    {
      assert rows[i..][0] == rows[i] && rows[i..][1..] == rows[i + 1..];
      var entry := CheckRow(rows[i], camelCase);
      assert step(rows[i]) == entry;
      if entry.Err? {
        return Err(entry.failure);
      }
      assert Each(step, rows[i..]) == AfterEach([entry.value], Each(step, rows[i + 1..]));
      AfterEachOneMore(signature, entry.value, Each(step, rows[i + 1..]));
      signature := signature + [entry.value];
    }
    assert rows[|rows|..] == [] && signature + [] == signature;
    return Ok(signature);
  }

  // ---- it is a canonical form ----------------------------------------------------------------

  /** What a scope says, with no order left in it. */
  datatype Target = Target(repoType: string, repoId: string, permissions: multiset<string>)

  function TargetOf(row: Value, camelCase: bool): Target
    requires AcceptableRow(row, camelCase)
  {
    Target(Get(row.fields, TypeKey(camelCase)).s, Get(row.fields, IdKey(camelCase)).s,
           multiset(Permissions(Get(row.fields, "permissions"))))
  }

  function Meaning(e: Entry): Target {
    Target(e.repoType, e.repoId, multiset(e.permissions))
  }

  function Meanings(s: seq<Entry>): (r: seq<Target>)
    ensures |r| == |s| && forall i :: 0 <= i < |s| ==> r[i] == Meaning(s[i])
  {
    if s == [] then [] else [Meaning(s[0])] + Meanings(s[1..])
  }

  /** The rows of an accepted scope, read without their order. */
  function Targets(v: Value, camelCase: bool): seq<Target>
    requires v.List? && forall i :: 0 <= i < |v.items| ==> AcceptableRow(v.items[i], camelCase)
  {
    seq(|v.items|, i requires 0 <= i < |v.items| => TargetOf(v.items[i], camelCase))
  }

  ghost predicate Canonical(e: Entry) {
    Sorted(e.permissions, StringLe)
  }

  lemma {:induction false} MeaningInjective(d: Entry, e: Entry)
    requires Canonical(d) && Canonical(e)
    ensures Meaning(d) == Meaning(e) <==> d == e
  {
    if Meaning(d) == Meaning(e) {
      StringOrder();
      SortedUnique(d.permissions, e.permissions, StringLe);
    }
  }

  lemma {:induction false} FirstOfBag<T>(s: seq<T>)
    requires s != []
    ensures multiset(s) == multiset{s[0]} + multiset(s[1..])
  {
    assert s == [s[0]] + s[1..];
  }

  lemma {:induction false} MeaningCount(s: seq<Entry>, e: Entry)
    requires Canonical(e) && forall i :: 0 <= i < |s| ==> Canonical(s[i])
    ensures multiset(Meanings(s))[Meaning(e)] == multiset(s)[e]
    decreases |s|
  {
    if s != [] {
      MeaningCount(s[1..], e);
      MeaningInjective(s[0], e);
      FirstOfBag(s);
      assert Meanings(s)[1..] == Meanings(s[1..]);
      FirstOfBag(Meanings(s));
    }
  }

  lemma {:induction false} SameMeaning(a: seq<Entry>, b: seq<Entry>, t: Target)
    requires forall i :: 0 <= i < |a| ==> Canonical(a[i])
    requires forall i :: 0 <= i < |b| ==> Canonical(b[i])
    requires multiset(a) == multiset(b)
    ensures multiset(Meanings(a))[t] == multiset(Meanings(b))[t]
  {
    if exists e :: Canonical(e) && Meaning(e) == t {
      var e :| Canonical(e) && Meaning(e) == t;
      MeaningCount(a, e);
      MeaningCount(b, e);
    } else {
      assert t !in Meanings(a) && t !in Meanings(b);
    }
  }

  /** Entries with sorted permissions have the same elements exactly when their meanings do. */
  lemma {:induction false} SameMeanings(a: seq<Entry>, b: seq<Entry>)
    requires forall i :: 0 <= i < |a| ==> Canonical(a[i])
    requires forall i :: 0 <= i < |b| ==> Canonical(b[i])
    ensures multiset(a) == multiset(b) <==> multiset(Meanings(a)) == multiset(Meanings(b))
  {
    if multiset(a) == multiset(b) {
      forall t: Target ensures multiset(Meanings(a))[t] == multiset(Meanings(b))[t] {
        SameMeaning(a, b, t);
      }
    }
    if multiset(Meanings(a)) == multiset(Meanings(b)) {
      forall e: Entry ensures multiset(a)[e] == multiset(b)[e] {
        if Canonical(e) {
          MeaningCount(a, e);
          MeaningCount(b, e);
        } else {
          assert e !in a && e !in b;
        }
      }
    }
  }

  lemma {:induction false} SortedSame(a: seq<Entry>, b: seq<Entry>)
    requires forall i :: 0 <= i < |a| ==> Canonical(a[i])
    requires forall i :: 0 <= i < |b| ==> Canonical(b[i])
    ensures Sort(a, EntryLe) == Sort(b, EntryLe) <==> multiset(Meanings(a)) == multiset(Meanings(b))
  {
    SameMeanings(a, b);
    EntryOrder();
    SortCanonical(a, b, EntryLe);
  }

  lemma {:induction false} DistinctMeanings(s: seq<Entry>)
    requires forall i :: 0 <= i < |s| ==> Canonical(s[i])
    ensures Distinct(s) <==> Distinct(Meanings(s))
  {
    forall i, j | 0 <= i < j < |s| ensures s[i] == s[j] <==> Meanings(s)[i] == Meanings(s)[j] {
      MeaningInjective(s[i], s[j]);
    }
  }

  lemma {:induction false} RowsMean(v: Value, camelCase: bool)
    requires v.List? && forall i :: 0 <= i < |v.items| ==> AcceptableRow(v.items[i], camelCase)
    ensures Each(RowStep(camelCase), v.items).Ok?
    ensures var entries := Each(RowStep(camelCase), v.items).value;
      && (forall i :: 0 <= i < |entries| ==> Canonical(entries[i]))
      && Meanings(entries) == Targets(v, camelCase)
  {
    var step := RowStep(camelCase);
    assert forall i :: 0 <= i < |v.items| ==> step(v.items[i]).Ok?;
    var entries := Each(step, v.items).value;
    StringOrder();
    forall i | 0 <= i < |entries|
      ensures Canonical(entries[i]) && Meaning(entries[i]) == TargetOf(v.items[i], camelCase)
    {
      assert step(v.items[i]) == Ok(entries[i]);
      SortSorted(Permissions(Get(v.items[i].fields, "permissions")), StringLe);
    }
  }

  lemma {:induction false} RowsAcceptable(v: Value, camelCase: bool)
    requires v.List? && Each(RowStep(camelCase), v.items).Ok?
    ensures forall i :: 0 <= i < |v.items| ==> AcceptableRow(v.items[i], camelCase)
  {
    forall i | 0 <= i < |v.items| ensures AcceptableRow(v.items[i], camelCase) {
      assert RowStep(camelCase)(v.items[i]).Ok?;
    }
  }

  lemma {:induction false} EntriesMean(v: Value, camelCase: bool)
    requires Signature(v, camelCase).Ok?
    ensures forall i :: 0 <= i < |v.items| ==> AcceptableRow(v.items[i], camelCase)
    ensures var entries := Each(RowStep(camelCase), v.items).value;
      && (forall i :: 0 <= i < |entries| ==> Canonical(entries[i]))
      && Meanings(entries) == Targets(v, camelCase)
  {
    RowsAcceptable(v, camelCase);
    RowsMean(v, camelCase);
  }

  /**
   Two accepted scopes, each in either spelling, have the same signature
   exactly when they differ at most in the order of rows and of the permissions
   within rows.
   */
  lemma {:induction false} SignatureIsCanonical(v: Value, camelV: bool, w: Value, camelW: bool)
    requires Signature(v, camelV).Ok? && Signature(w, camelW).Ok?
    ensures forall i :: 0 <= i < |v.items| ==> AcceptableRow(v.items[i], camelV)
    ensures forall i :: 0 <= i < |w.items| ==> AcceptableRow(w.items[i], camelW)
    ensures Signature(v, camelV) == Signature(w, camelW)
      <==> multiset(Targets(v, camelV)) == multiset(Targets(w, camelW))
  {
    EntriesMean(v, camelV);
    EntriesMean(w, camelW);
    SortedSame(Each(RowStep(camelV), v.items).value, Each(RowStep(camelW), w.items).value);
  }

  /** A scope is accepted exactly when its rows are, and no two of them say the same. */
  lemma {:induction false} AcceptedExactly(v: Value, camelCase: bool)
    requires v.List?
    ensures Signature(v, camelCase).Ok? <==>
      && v.items != []
      && (forall i :: 0 <= i < |v.items| ==> AcceptableRow(v.items[i], camelCase))
      && Distinct(Targets(v, camelCase))
  {
    if Each(RowStep(camelCase), v.items).Ok? {
      RowsAcceptable(v, camelCase);
      RowsMean(v, camelCase);
      DistinctMeanings(Each(RowStep(camelCase), v.items).value);
    } else if forall i :: 0 <= i < |v.items| ==> AcceptableRow(v.items[i], camelCase) {
      RowsMean(v, camelCase);
    }
  }

  /** What a row says, member by member, under the keys of its spelling. */
  predicate RowSays(row: Value, camelCase: bool, repoType: string, repoId: string, permissions: seq<string>) {
    && row.Dict?
    && Get(row.fields, if camelCase then "repoType" else "repo_type") == Str(repoType)
    && Get(row.fields, if camelCase then "repoId" else "repo_id") == Str(repoId)
    && repoType in {"model", "dataset", "space"} && repoId != ""
    && Permits(Get(row.fields, "permissions"), permissions)
  }

  lemma {:induction false} ThreeRepeat(s: seq<Value>)
    requires |s| > 2 && forall i :: 0 <= i < |s| ==> s[i] == Str("read") || s[i] == Str("write")
    ensures !Distinct(s)
  {
    assert s[0] == s[1] || s[0] == s[2] || s[1] == s[2];
  }

  lemma {:induction false} PermissionsExactly(v: Value)
    ensures AcceptablePermissions(v) <==>
      v == List([Str("read")]) || v == List([Str("read"), Str("write")]) || v == List([Str("write"), Str("read")])
  {
    if v.List? && |v.items| > 2 && forall i :: 0 <= i < |v.items| ==> v.items[i] == Str("read") || v.items[i] == Str("write") {
      ThreeRepeat(v.items);
    }
    if AcceptablePermissions(v) {
      var s := v.items;
      assert |s| == 1 ==> s == [s[0]];
      assert |s| == 2 ==> s == [s[0], s[1]] && s[0] != s[1];
    }
    assert Distinct([Str("read")]) && Distinct([Str("read"), Str("write")]) && Distinct([Str("write"), Str("read")]);
  }

  lemma {:induction false} ReadBeforeWrite()
    ensures Sort(["read", "write"], StringLe) == ["read", "write"] && Sort(["write", "read"], StringLe) == ["read", "write"]
  {
    StringOrder();
    assert "read"[0] < "write"[0];
    SortPair("read", "write", StringLe);
  }

  lemma {:induction false} SortedPermissions(v: Value)
    requires AcceptablePermissions(v)
    ensures Sort(Permissions(v), StringLe) == if v == List([Str("read")]) then ["read"] else ["read", "write"]
  {
    PermissionsExactly(v);
    var s := Permissions(v);
    if v == List([Str("read")]) {
      assert s == ["read"];
    } else {
      assert s == if v == List([Str("read"), Str("write")]) then ["read", "write"] else ["write", "read"];
      ReadBeforeWrite();
    }
  }

  /** What the permissions of a row say. */
  predicate Permits(v: Value, permissions: seq<string>) {
    || (v == List([Str("read")]) && permissions == ["read"])
    || ((v == List([Str("read"), Str("write")]) || v == List([Str("write"), Str("read")])) && permissions == ["read", "write"])
  }

  lemma {:induction false} PermitsExactly(v: Value, permissions: seq<string>)
    ensures Permits(v, permissions) <==> AcceptablePermissions(v) && permissions == Sort(Permissions(v), StringLe)
  {
    PermissionsExactly(v);
    if AcceptablePermissions(v) {
      SortedPermissions(v);
    }
    assert List([Str("read")]).items != List([Str("read"), Str("write")]).items;
    assert List([Str("read")]).items != List([Str("write"), Str("read")]).items;
  }

  /** Exactly which rows are accepted, and the entry each becomes. */
  lemma {:induction false} RowExactly(row: Value, camelCase: bool, e: Entry)
    ensures EntryOf(row, camelCase) == Ok(e) <==> RowSays(row, camelCase, e.repoType, e.repoId, e.permissions)
    ensures EntryOf(row, camelCase) == Err(TypeError) <==>
      row.Dict? && !Hashable(Get(row.fields, if camelCase then "repoType" else "repo_type"))
  {
    if row.Dict? {
      PermitsExactly(Get(row.fields, "permissions"), e.permissions);
    }
  }

  /** Some row of the scope says what the entry says. */
  ghost predicate Said(v: Value, camelCase: bool, e: Entry)
    requires v.List?
  {
    exists i :: 0 <= i < |v.items| && RowSays(v.items[i], camelCase, e.repoType, e.repoId, e.permissions)
  }

  lemma {:induction false} EntriesSay(v: Value, camelCase: bool, e: Entry)
    requires v.List? && Each(RowStep(camelCase), v.items).Ok?
    ensures e in Each(RowStep(camelCase), v.items).value <==> Said(v, camelCase, e)
  {
    var step := RowStep(camelCase);
    var entries := Each(step, v.items).value;
    forall i | 0 <= i < |v.items|
      ensures entries[i] == e <==> RowSays(v.items[i], camelCase, e.repoType, e.repoId, e.permissions)
    {
      assert step(v.items[i]) == Ok(entries[i]);
      RowExactly(v.items[i], camelCase, e);
    }
  }

  lemma {:induction false} SortKeepsMembers<T>(s: seq<T>, le: (T, T) -> bool, x: T)
    ensures x in Sort(s, le) <==> x in s
  {
    assert x in Sort(s, le) <==> x in multiset(Sort(s, le));
    assert x in s <==> x in multiset(s);
  }

  /** An accepted scope's signature has one entry for each row, saying what the row says, in order and without repetition. */
  lemma {:induction false} SignatureSays(v: Value, camelCase: bool)
    requires Signature(v, camelCase).Ok?
    ensures v.List? && |Signature(v, camelCase).value| == |v.items|
    ensures Sorted(Signature(v, camelCase).value, EntryLe)
    ensures forall e :: e in Signature(v, camelCase).value <==> Said(v, camelCase, e)
  {
    var entries := Each(RowStep(camelCase), v.items).value;
    EntryOrder();
    SortSorted(entries, EntryLe);
    forall e: Entry ensures e in Signature(v, camelCase).value <==> Said(v, camelCase, e) {
      SortKeepsMembers(entries, EntryLe, e);
      EntriesSay(v, camelCase, e);
    }
  }

  /**
   The check against duplicates compares whole rows, so one repository listed
   twice with different permissions is accepted.
   */
  lemma {:induction false} RepeatedRepositoryIsAccepted(id: string)
    requires id != ""
    ensures var once := map["repo_type" := Str("model"), "repo_id" := Str(id), "permissions" := List([Str("read")])];
      var twice := once["permissions" := List([Str("read"), Str("write")])];
      Signature(List([Dict(once), Dict(twice)]), false).Ok?
  {
    var once := map["repo_type" := Str("model"), "repo_id" := Str(id), "permissions" := List([Str("read")])];
    var twice := once["permissions" := List([Str("read"), Str("write")])];
    var v := List([Dict(once), Dict(twice)]);
    assert AcceptableRow(v.items[0], false);
    assert AcceptableRow(v.items[1], false);
    assert |TargetOf(v.items[0], false).permissions| == 1;
    assert |TargetOf(v.items[1], false).permissions| == 2;
    AcceptedExactly(v, false);
  }
}
