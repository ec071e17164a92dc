/**
 What a bearer token resolves to, over every run of credential operations
 (product/src/cyrene_exchange_product/store.py): which rows resolve, how a
 credential comes to resolve or to stop resolving, and what a revocation is
 worth when an operator configures the revoked token again.
 */
module CredentialLaws {
  import opened Prelude
  import opened Credentials

  /** Exactly which rows a token resolves to: its own, enabled and unexpired, of the kind the plane admits. */
  lemma {:induction false} ResolvesExactly(t: Table, digest: string, now: nat, gateway: set<string>, r: string)
    ensures r in DataPlaneRefs(t, digest, now, gateway) <==>
      && r in t && t[r].digest == digest && t[r].enabled
      && (t[r].expiresAt == None || t[r].expiresAt.value > now)
      && (t[r].apiKeyId != None || digest in gateway)
    ensures r in ControlRefs(t, digest, now) <==>
      && r in t && t[r].digest == digest && t[r].enabled
      && (t[r].expiresAt == None || t[r].expiresAt.value > now)
      && t[r].apiKeyId == None
    ensures r in BearerRefs(t, digest, now) <==>
      && r in t && t[r].digest == digest && t[r].enabled
      && (t[r].expiresAt == None || t[r].expiresAt.value > now)
  {
  }

  /** No token resolves to this reference, on either plane and at any time. */
  ghost predicate Unresolvable(t: Table, r: string) {
    && (forall digest: string, now: nat, gateway: set<string> :: r !in DataPlaneRefs(t, digest, now, gateway))
    && (forall digest: string, now: nat :: r !in ControlRefs(t, digest, now))
    && (forall digest: string, now: nat :: r !in BearerRefs(t, digest, now))
  }

  lemma {:induction false} DisabledIsUnresolvable(t: Table, r: string)
    requires r in t ==> !t[r].enabled
    ensures Unresolvable(t, r)
  {
  }

  /** The list names this reference. */
  predicate Names(ps: seq<Prepared>, r: string) {
    exists i :: 0 <= i < |ps| && ps[i].ref == r
  }

  lemma {:induction false} NamesLast(ps: seq<Prepared>, r: string)
    ensures Names(ps, r) <==> LastFor(ps, r) >= 0
  {
  }

  // ---- one operation ------------------------------------------------------------------------------

  /**
   When an operation enables or disables a credential: only a fitting
   configuration that names it enables one, and only its own disabling, or the
   first revocation of its key, disables one.
   */
  lemma {:induction false} EnablingExactly(s: State, op: Op, r: string)
    requires OneToOne(s.rows) && r in s.rows
    ensures var s' := ApplyOp(s, op);
      && r in s'.rows
      && (!s.rows[r].enabled ==>
           (s'.rows[r].enabled <==> op.Configure? && Fits(s.rows, op.ps) && Names(op.ps, r)))
      && (s.rows[r].enabled ==>
           (!s'.rows[r].enabled <==>
             op == Disable(r) || (op.Revoke? && s.rows[r].apiKeyId == Some(op.id) && !s.rows[r].revoked)))
  {
    OpKeepsOneToOne(s, op);
    match op {
      case Configure(ps) =>
        if Fits(s.rows, ps) {
          ConfiguredRow(s.rows, ps, r);
          NamesLast(ps, r);
        }
      case _ =>
    }
  }

  /** Disabling a credential stops it at once, on both planes. */
  lemma {:induction false} DisablingStops(s: State, r: string)
    requires OneToOne(s.rows)
    ensures Unresolvable(ApplyOp(s, Disable(r)).rows, r)
  {
    DisabledIsUnresolvable(ApplyOp(s, Disable(r)).rows, r);
  }

  /**
   Revoking a key stops it exactly when its row was not marked revoked before;
   otherwise nothing changes, and a key that was configured again since its
   first revocation goes on resolving.
   */
  lemma {:induction false} RevokingStopsExactly(t: Table, id: string, r: string, digest: string, now: nat, gateway: set<string>)
    requires OneToOne(t) && r in t && t[r].apiKeyId == Some(id)
    ensures r !in ControlRefs(RevokeKey(t, id), digest, now)
    ensures r in DataPlaneRefs(RevokeKey(t, id), digest, now, gateway) <==>
      t[r].revoked && r in DataPlaneRefs(t, digest, now, gateway)
    ensures !t[r].revoked ==> Unresolvable(RevokeKey(t, id), r)
  {
    assert RefOfKey(t, id) == r;
    if !t[r].revoked {
      DisabledIsUnresolvable(RevokeKey(t, id), r);
    }
  }

  /** A new key resolves, to its own principal and nothing else, until it expires, and never on the control plane. */
  lemma {:induction false} CreatedKeyResolves(s: State, k: NewKey, scope: string, key: Option<string>, request: string,
                                              now: nat, gateway: set<string>)
    requires OneToOne(s.rows) && CreateKey(s, k, scope, key, request).1 == Created(k.ref)
    ensures var rows := CreateKey(s, k, scope, key, request).0.rows;
      && k.ref !in s.rows && k.ref in rows && rows[k.ref].who == k.who && rows[k.ref].digest == k.digest
      && rows[k.ref].apiKeyId == Some(k.id) && rows[k.ref].expiresAt == k.expiresAt
      && rows[k.ref].enabled && !rows[k.ref].revoked && rows[k.ref].version == 1
      && rows.Keys == s.rows.Keys + {k.ref} && (forall r :: r in s.rows ==> rows[r] == s.rows[r])
      && DataPlaneRefs(rows, k.digest, now, gateway)
         == (if k.expiresAt == None || k.expiresAt.value > now then {k.ref} else {})
      && ControlRefs(rows, k.digest, now) == {}
  {
  }

  /** A newly configured token resolves on the control plane, and on the data plane exactly when it is a gateway token. */
  lemma {:induction false} ConfiguredTokenResolves(t: Table, ps: seq<Prepared>, i: nat, now: nat, gateway: set<string>)
    requires OneToOne(t) && Fits(t, ps) && i < |ps| && ps[i].ref !in t
    ensures ControlRefs(ConfigureAll(t, ps), ps[i].digest, now) == {ps[i].ref}
    ensures DataPlaneRefs(ConfigureAll(t, ps), ps[i].digest, now, gateway) == if ps[i].digest in gateway then {ps[i].ref} else {}
  {
    ConfigureBindsAllOrNothing(t, ps, i);
    ConfiguredColumns(t, ps, ps[i].ref);
  }

  // ---- runs ------------------------------------------------------------------------------------------

  /** No configuration of the run names this reference. */
  predicate NeverConfigured(ops: seq<Op>, r: string) {
    forall i :: 0 <= i < |ops| && ops[i].Configure? ==> !Names(ops[i].ps, r)
  }

  /** A disabled or revoked credential never resolves again unless an operator configures it again. */
  lemma {:induction false} StoppedStaysStopped(s: State, ops: seq<Op>, r: string)
    requires OneToOne(s.rows) && r in s.rows && !s.rows[r].enabled && NeverConfigured(ops, r)
    ensures r in RunOps(s, ops).rows && !RunOps(s, ops).rows[r].enabled
    ensures Unresolvable(RunOps(s, ops).rows, r)
    decreases |ops|
  {
    if ops == [] {
      DisabledIsUnresolvable(s.rows, r);
    } else {
      OpKeepsOneToOne(s, ops[0]);
      EnablingExactly(s, ops[0], r);
      assert forall i :: 0 <= i < |ops| - 1 ==> ops[1..][i] == ops[i + 1];
      StoppedStaysStopped(ApplyOp(s, ops[0]), ops[1..], r);
    }
  }

  /** A live key stays live until it is disabled or revoked, or its time comes. */
  lemma {:induction false} LiveStaysLive(s: State, ops: seq<Op>, r: string)
    requires OneToOne(s.rows) && r in s.rows && s.rows[r].enabled
    requires Disable(r) !in ops
    requires forall i :: 0 <= i < |ops| && ops[i].Revoke? ==> s.rows[r].apiKeyId != Some(ops[i].id)
    ensures r in RunOps(s, ops).rows && RunOps(s, ops).rows[r].enabled
    ensures RunOps(s, ops).rows[r].digest == s.rows[r].digest && RunOps(s, ops).rows[r].expiresAt == s.rows[r].expiresAt
    decreases |ops|
  {
    if ops != [] {
      OpKeepsOneToOne(s, ops[0]);
      EnablingExactly(s, ops[0], r);
      ExpiryKept(s, ops[0], r);
      LiveStaysLive(ApplyOp(s, ops[0]), ops[1..], r);
    }
  }

  lemma {:induction false} ExpiryKept(s: State, op: Op, r: string)
    requires OneToOne(s.rows) && r in s.rows
    ensures r in ApplyOp(s, op).rows && ApplyOp(s, op).rows[r].expiresAt == s.rows[r].expiresAt
    ensures s.rows[r].revoked ==> ApplyOp(s, op).rows[r].revoked
  {
    if op.Configure? && Fits(s.rows, op.ps) {
      ConfiguredColumns(s.rows, op.ps, r);
    }
  }

  /** Configuring touches neither the expiry nor the revocation mark of an existing row, and a new row is no API key. */
  lemma {:induction false} ConfiguredColumns(t: Table, ps: seq<Prepared>, r: string)
    ensures r in t ==>
      && r in ConfigureAll(t, ps) && ConfigureAll(t, ps)[r].expiresAt == t[r].expiresAt
      && ConfigureAll(t, ps)[r].revoked == t[r].revoked && ConfigureAll(t, ps)[r].version == t[r].version
    ensures r !in t && r in ConfigureAll(t, ps) ==>
      && ConfigureAll(t, ps)[r].apiKeyId == None && ConfigureAll(t, ps)[r].expiresAt == None
      && !ConfigureAll(t, ps)[r].revoked && ConfigureAll(t, ps)[r].version == 1
    decreases |ps|
  {
    if ps != [] {
      ConfiguredColumns(t, ps[..|ps| - 1], r);
    }
  }

  /** The request a creation was made with replays it for ever; any other request under its key conflicts. */
  lemma {:induction false} KeysAreCreatedOnce(s: State, k: NewKey, scope: string, key: string, request: string, ops: seq<Op>,
                                              again: NewKey, other: string)
    requires Inv(s) && CreateKey(s, k, scope, Some(key), request).1 == Created(k.ref)
    ensures var s' := CreateKey(s, k, scope, Some(key), request).0;
      && OneToOne(s'.rows) && OneToOne(RunOps(s', ops).rows)
      && CreateKey(RunOps(s', ops), again, scope, Some(key), other)
         == (RunOps(s', ops), if other == request then Replayed(k.ref) else Conflict)
  {
    OpKeepsInv(s, Create(k, scope, Some(key), request));
    ReplayKept(CreateKey(s, k, scope, Some(key), request).0, ops, (scope, key), k.ref, k.id);
  }

  lemma {:induction false} ReplayKept(s: State, ops: seq<Op>, identity: (string, string), r: string, id: string)
    requires Inv(s) && identity in s.replays && r in s.rows && s.rows[r].apiKeyId == Some(id)
    ensures Inv(RunOps(s, ops))
    ensures identity in RunOps(s, ops).replays && RunOps(s, ops).replays[identity] == s.replays[identity]
    ensures r in RunOps(s, ops).rows && RunOps(s, ops).rows[r].apiKeyId == Some(id)
    decreases |ops|
  {
    if ops != [] {
      ReplayStep(s, ops[0], identity, r, id);
      ReplayKept(ApplyOp(s, ops[0]), ops[1..], identity, r, id);
    }
  }

  lemma {:induction false} ReplayStep(s: State, op: Op, identity: (string, string), r: string, id: string)
    requires Inv(s) && identity in s.replays && r in s.rows && s.rows[r].apiKeyId == Some(id)
    ensures var s' := ApplyOp(s, op);
      && Inv(s') && identity in s'.replays && s'.replays[identity] == s.replays[identity]
      && r in s'.rows && s'.rows[r].apiKeyId == Some(id)
  {
    OpKeepsInv(s, op);
  }

  /**
   A revoked key can come back: configuring the token of a revoked key under its
   reference enables its row again, and revoking the key a second time is then
   without effect, because the row is already marked revoked.
   */
  lemma {:induction false} RevokedKeyCanComeBack(k: NewKey, now: nat, gateway: set<string>)
    requires k.expiresAt == None
    ensures var start := State(map[], map[]);
      var ops := [Create(k, "create-api-key", None, "request"), Revoke(k.id), Configure([Prepared(k.digest, k.ref, k.who)]), Revoke(k.id)];
      && OneToOne(start.rows)
      && Unresolvable(RunOps(start, ops[..2]).rows, k.ref)
      && k.ref in DataPlaneRefs(RunOps(start, ops).rows, k.digest, now, gateway)
      && RunOps(start, ops).rows[k.ref].revoked
  {
    var start := State(map[], map[]);
    var create, revoke := Create(k, "create-api-key", None, "request"), Revoke(k.id);
    var configure := Configure([Prepared(k.digest, k.ref, k.who)]);
    var ops := [create, revoke, configure, revoke];
    var created := ApplyOp(start, create);
    assert created.rows == map[k.ref := KeyRow(k)];
    OneRow(k.ref, KeyRow(k), k.id);
    var off := KeyRow(k).(enabled := false, revoked := true, version := 2);
    var stopped := ApplyOp(created, revoke);
    assert stopped.rows == map[k.ref := off];
    OneRow(k.ref, off, k.id);
    var again := ApplyOp(stopped, configure);
    ConfigureOne(k, off);
    OneRow(k.ref, off.(enabled := true), k.id);
    assert ApplyOp(again, revoke) == again;
    assert ops[..2] == [create, revoke];
    RunTwo(start, create, revoke);
    DisabledIsUnresolvable(stopped.rows, k.ref);
    assert ops == [create, revoke] + [configure, revoke];
    RunSplits(start, [create, revoke], [configure, revoke]);
    RunTwo(stopped, configure, revoke);
  }

  lemma {:induction false} OneRow(r: string, row: Row, id: string)
    requires row.apiKeyId == Some(id)
    ensures OneToOne(map[r := row]) && HasKey(map[r := row], id) && RefOfKey(map[r := row], id) == r
  {
    assert map[r := row][r].apiKeyId == Some(id);
  }

  lemma {:induction false} ConfigureOne(k: NewKey, row: Row)
    requires row.digest == k.digest && row.who == k.who
    ensures var ps := [Prepared(k.digest, k.ref, k.who)];
      Fits(map[k.ref := row], ps) && ConfigureAll(map[k.ref := row], ps) == map[k.ref := row.(enabled := true)]
  {
    var ps := [Prepared(k.digest, k.ref, k.who)];
    assert ps[..0] == [];
    assert Binds(map[k.ref := row], ps[0]);
  }

  lemma {:induction false} RunTwo(s: State, a: Op, b: Op)
    requires OneToOne(s.rows)
    ensures OneToOne(ApplyOp(s, a).rows) && RunOps(s, [a, b]) == ApplyOp(ApplyOp(s, a), b)
  {
    OpKeepsOneToOne(s, a);
    var middle := ApplyOp(s, a);
    OpKeepsOneToOne(middle, b);
    assert [a, b][1..] == [b];
    assert RunOps(s, [a, b]) == RunOps(middle, [b]);
    assert [b][1..] == [];
    assert RunOps(middle, [b]) == RunOps(ApplyOp(middle, b), []);
  }

  lemma {:induction false} RunSplits(s: State, a: seq<Op>, b: seq<Op>)
    requires OneToOne(s.rows)
    ensures OneToOne(RunOps(s, a).rows) && RunOps(s, a + b) == RunOps(RunOps(s, a), b)
    decreases |a|
  {
    if a == [] {
      assert a + b == b;
    } else {
      OpKeepsOneToOne(s, a[0]);
      assert (a + b)[1..] == a[1..] + b;
      RunSplits(ApplyOp(s, a[0]), a[1..], b);
    }
  }
}
