/**
 The credential table of the Product store
 (product/src/cyrene_exchange_product/store.py): operator-configured tokens and
 server-generated API keys share one table in which the reference is the primary
 key and the token digest is unique. Hashing is the parameter `hash`.
 */
module Credentials {
  import opened Prelude

  datatype Identity = Identity(actorId: string, workspaceId: string, organizationId: Option<string>)

  datatype Row = Row(digest: string, who: Identity, enabled: bool, apiKeyId: Option<string>, expiresAt: Option<nat>,
                     revoked: bool, version: nat)

  type Table = map<string, Row>

  /** One configured credential: the digest of its token and the principal it belongs to. */
  datatype Prepared = Prepared(digest: string, ref: string, who: Identity)

  /** References and digests correspond one to one, and an API-key id names at most one row. */
  ghost predicate OneToOne(t: Table) {
    && (forall r, q :: r in t && q in t && t[r].digest == t[q].digest ==> r == q)
    && (forall r, q :: r in t && q in t && t[r].apiKeyId.Some? && t[r].apiKeyId == t[q].apiKeyId ==> r == q)
  }

  /** The row a configured credential writes; an existing row keeps its API-key columns. */
  function Configured(t: Table, p: Prepared): Row {
    if p.ref in t then t[p.ref].(digest := p.digest, who := p.who, enabled := true)
    else Row(p.digest, p.who, true, None, None, false, 1)
  }

  /** The checks before one upsert: the reference and the digest may only be bound to each other. */
  predicate Binds(t: Table, p: Prepared) {
    && (p.ref in t ==> t[p.ref].digest == p.digest)
    && (forall r :: r in t && t[r].digest == p.digest ==> r == p.ref)
  }

  function ConfigureAll(t: Table, ps: seq<Prepared>): Table {
    if ps == [] then t
    else
      var before := ConfigureAll(t, ps[..|ps| - 1]);
      before[ps[|ps| - 1].ref := Configured(before, ps[|ps| - 1])]
  }

  /** A list of credentials fits a table when, in any order, no reference and no digest is bound twice. */
  predicate Fits(t: Table, ps: seq<Prepared>) {
    && (forall i :: 0 <= i < |ps| ==> Binds(t, ps[i]))
    && (forall i, j :: 0 <= i < j < |ps| ==> (ps[i].ref == ps[j].ref <==> ps[i].digest == ps[j].digest))
  }

  /** The last listed credential for a reference, or -1. */
  function LastFor(ps: seq<Prepared>, r: string): (k: int)
    ensures -1 <= k < |ps|
    ensures k >= 0 ==> ps[k].ref == r
    ensures forall i :: k < i < |ps| ==> ps[i].ref != r
  {
    if ps == [] then -1
    else if ps[|ps| - 1].ref == r then |ps| - 1
    else LastFor(ps[..|ps| - 1], r)
  }

  /** What configuring leaves for one reference: the last listed principal, else the old row. */
  lemma {:induction false} ConfiguredRow(t: Table, ps: seq<Prepared>, r: string)
    ensures var now, k := ConfigureAll(t, ps), LastFor(ps, r);
      && (r in now <==> k >= 0 || r in t)
      && (k >= 0 ==> now[r].digest == ps[k].digest && now[r].who == ps[k].who && now[r].enabled)
      && (k < 0 && r in t ==> now[r] == t[r])
  {
    if ps != [] {
      ConfiguredRow(t, ps[..|ps| - 1], r);
    }
  }

  /** The digest bound to a reference after configuring a fitting list. */
  lemma {:induction false} ConfiguredDigest(t: Table, ps: seq<Prepared>, r: string)
    requires Fits(t, ps)
    ensures r in t ==> r in ConfigureAll(t, ps) && ConfigureAll(t, ps)[r].digest == t[r].digest
    ensures forall i :: 0 <= i < |ps| && ps[i].ref == r ==>
      r in ConfigureAll(t, ps) && ConfigureAll(t, ps)[r].digest == ps[i].digest
    ensures r in ConfigureAll(t, ps) && r !in t ==> exists i :: 0 <= i < |ps| && ps[i].ref == r
  {
    ConfiguredRow(t, ps, r);
    var k := LastFor(ps, r);
    if k >= 0 {
      assert Binds(t, ps[k]);
    }
  }

  lemma {:induction false} BindsBack(t: Table, ps: seq<Prepared>, p: Prepared)
    requires Fits(t, ps) && Binds(ConfigureAll(t, ps), p)
    ensures Fits(t, ps + [p])
  {
    var more := ps + [p];
    forall i | 0 <= i < |ps| ensures ps[i].ref == p.ref <==> ps[i].digest == p.digest {
      ConfiguredDigest(t, ps, ps[i].ref);
    }
    forall r | r in t ensures (r == p.ref ==> t[r].digest == p.digest) && (t[r].digest == p.digest ==> r == p.ref) {
      ConfiguredDigest(t, ps, r);
    }
    assert Binds(t, p);
    assert forall i :: 0 <= i < |ps| ==> more[i] == ps[i];
  }

  lemma {:induction false} BindsForward(t: Table, ps: seq<Prepared>, p: Prepared)
    requires Fits(t, ps) && Fits(t, ps + [p])
    ensures Binds(ConfigureAll(t, ps), p)
  {
    var now, more := ConfigureAll(t, ps), ps + [p];
    assert more[|ps|] == p && forall i :: 0 <= i < |ps| ==> more[i] == ps[i];
    forall r | r in now ensures (r == p.ref ==> now[r].digest == p.digest) && (now[r].digest == p.digest ==> r == p.ref) {
      ConfiguredDigest(t, ps, r);
      if r !in t {
        var i :| 0 <= i < |ps| && ps[i].ref == r;
        assert more[i] == ps[i];
      }
    }
  }

  /** The next upsert is accepted exactly when the list extended by it still fits. */
  lemma {:induction false} FitsOneMore(t: Table, ps: seq<Prepared>, p: Prepared)
    requires Fits(t, ps)
    ensures Fits(t, ps + [p]) <==> Binds(ConfigureAll(t, ps), p)
  {
    if Binds(ConfigureAll(t, ps), p) {
      BindsBack(t, ps, p);
    }
    if Fits(t, ps + [p]) {
      BindsForward(t, ps, p);
    }
  }

  lemma {:induction false} FitsPrefix(t: Table, ps: seq<Prepared>, k: nat)
    requires k <= |ps| && Fits(t, ps)
    ensures Fits(t, ps[..k])
  {
  }

  lemma {:induction false} ConfigureKeepsOneToOne(t: Table, ps: seq<Prepared>)
    requires OneToOne(t) && Fits(t, ps)
    ensures OneToOne(ConfigureAll(t, ps))
  {
    if ps != [] {
      var n := |ps| - 1;
      FitsPrefix(t, ps, n);
      assert ps == ps[..n] + [ps[n]];
      FitsOneMore(t, ps[..n], ps[n]);
      ConfigureKeepsOneToOne(t, ps[..n]);
    }
  }

  // ---- API keys ---------------------------------------------------------------------------

  datatype NewKey = NewKey(ref: string, digest: string, who: Identity, id: string, expiresAt: Option<nat>)

  /** The credentials together with the replay identities of API-key creations. */
  datatype State = State(rows: Table, replays: map<(string, string), (string, string)>)

  datatype KeyReply = Created(ref: string) | Replayed(ref: string) | Missing | Conflict | Integrity

  function KeyRow(k: NewKey): Row {
    Row(k.digest, k.who, true, Some(k.id), k.expiresAt, false, 1)
  }

  predicate HasKey(t: Table, id: string) {
    exists r :: r in t && t[r].apiKeyId == Some(id)
  }

  /** The reference of the row of an API key; unique in a one-to-one table. */
  function RefOfKey(t: Table, id: string): (r: string)
    requires OneToOne(t) && HasKey(t, id)
    ensures r in t && t[r].apiKeyId == Some(id)
  {
    var r :| r in t && t[r].apiKeyId == Some(id);
    r
  }

  /** The insert violates no uniqueness constraint. */
  predicate Insertable(t: Table, k: NewKey) {
    k.ref !in t && !HasKey(t, k.id) && forall r :: r in t ==> t[r].digest != k.digest
  }

  /** One server-generated key and its replay identity, in one mutation; `key` is the optional idempotency key. */
  function CreateKey(s: State, k: NewKey, scope: string, key: Option<string>, request: string): (State, KeyReply)
    requires OneToOne(s.rows)
  {
    if key.Some? && (scope, key.value) in s.replays then
      var (digest, id) := s.replays[(scope, key.value)];
      if digest != request then (s, Conflict)
      else if !HasKey(s.rows, id) then (s, Missing)
      else (s, Replayed(RefOfKey(s.rows, id)))
    else if !Insertable(s.rows, k) then (s, Integrity)
    else
      (State(s.rows[k.ref := KeyRow(k)],
             if key.Some? then s.replays[(scope, key.value) := (request, k.id)] else s.replays),
       Created(k.ref))
  }

  /** Revocation keeps the row and its metadata; a second revocation changes nothing. */
  function RevokeKey(t: Table, id: string): Table
    requires OneToOne(t)
  {
    if !HasKey(t, id) then t
    else
      var r := RefOfKey(t, id);
      if t[r].revoked then t
      else t[r := t[r].(enabled := false, revoked := true, version := t[r].version + 1)]
  }

  // ---- resolution ---------------------------------------------------------------------------

  predicate Usable(row: Row, digest: string, now: nat) {
    row.digest == digest && row.enabled && (row.expiresAt.None? || row.expiresAt.value > now)
  }

  /** The rows a bearer token resolves to when no plane is asked for. */
  function BearerRefs(t: Table, digest: string, now: nat): set<string> {
    set r | r in t && Usable(t[r], digest, now)
  }

  /** The rows a bearer token resolves to on the data plane: API keys and configured gateway tokens. */
  function DataPlaneRefs(t: Table, digest: string, now: nat, gateway: set<string>): set<string> {
    set r | r in t && Usable(t[r], digest, now) && (t[r].apiKeyId.Some? || digest in gateway)
  }

  /** The rows a bearer token resolves to on the control plane: never an API key. */
  function ControlRefs(t: Table, digest: string, now: nat): set<string> {
    set r | r in t && Usable(t[r], digest, now) && t[r].apiKeyId.None?
  }

  /** A token resolves to at most one identity, and the token of an API key never reaches the control plane. */
  lemma {:induction false} ResolutionIsUnambiguous(t: Table, digest: string, now: nat, gateway: set<string>, r: string, q: string)
    requires OneToOne(t)
    ensures r in BearerRefs(t, digest, now) && q in BearerRefs(t, digest, now) ==> r == q
    ensures r in DataPlaneRefs(t, digest, now, gateway) && q in DataPlaneRefs(t, digest, now, gateway) ==> r == q
    ensures r in ControlRefs(t, digest, now) && q in DataPlaneRefs(t, digest, now, gateway) ==>
      r == q && digest in gateway && t[r].apiKeyId.None?
  {
  }

  // ---- runs -----------------------------------------------------------------------------------

  datatype Op =
    | Configure(ps: seq<Prepared>)
    | Disable(ref: string)
    | Create(k: NewKey, scope: string, key: Option<string>, request: string)
    | Revoke(id: string)

  function ApplyOp(s: State, op: Op): State
    requires OneToOne(s.rows)
  {
    match op
    case Configure(ps) => if Fits(s.rows, ps) then s.(rows := ConfigureAll(s.rows, ps)) else s
    case Disable(ref) => if ref in s.rows then s.(rows := s.rows[ref := s.rows[ref].(enabled := false)]) else s
    case Create(k, scope, key, request) => CreateKey(s, k, scope, key, request).0
    case Revoke(id) => s.(rows := RevokeKey(s.rows, id))
  }

  /** Every replay identity points at a stored key, so the absent-key error cannot occur. */
  ghost predicate ReplaysPointAtKeys(s: State) {
    forall k :: k in s.replays ==> HasKey(s.rows, s.replays[k].1)
  }

  ghost predicate Inv(s: State) {
    OneToOne(s.rows) && ReplaysPointAtKeys(s)
  }

  /** No reference disappears, is bound to another token, or changes its API-key id. */
  ghost predicate Grows(a: Table, b: Table) {
    forall r :: r in a ==> r in b && b[r].digest == a[r].digest && b[r].apiKeyId == a[r].apiKeyId
  }

  lemma {:induction false} GrowthKeepsKeys(a: Table, b: Table, id: string)
    requires Grows(a, b) && HasKey(a, id)
    ensures HasKey(b, id)
  {
    var r :| r in a && a[r].apiKeyId == Some(id);
    assert b[r].apiKeyId == Some(id);
  }

  lemma {:induction false} ConfigureGrows(t: Table, ps: seq<Prepared>)
    requires Fits(t, ps)
    ensures Grows(t, ConfigureAll(t, ps))
  {
    forall r | r in t
      ensures r in ConfigureAll(t, ps) && ConfigureAll(t, ps)[r].digest == t[r].digest
      ensures ConfigureAll(t, ps)[r].apiKeyId == t[r].apiKeyId
    {
      ConfiguredDigest(t, ps, r);
      KeyIdKept(t, ps, r);
    }
  }

  lemma {:induction false} KeyIdKept(t: Table, ps: seq<Prepared>, r: string)
    ensures r in t ==> r in ConfigureAll(t, ps) && ConfigureAll(t, ps)[r].apiKeyId == t[r].apiKeyId
  {
    if ps != [] {
      KeyIdKept(t, ps[..|ps| - 1], r);
    }
  }

  lemma {:induction false} InsertKeepsOneToOne(t: Table, k: NewKey)
    requires OneToOne(t) && Insertable(t, k)
    ensures OneToOne(t[k.ref := KeyRow(k)]) && Grows(t, t[k.ref := KeyRow(k)])
  {
    forall r | r in t ensures t[r].apiKeyId != Some(k.id) && t[r].digest != k.digest { }
  }

  lemma {:induction false} OpKeepsOneToOne(s: State, op: Op)
    requires OneToOne(s.rows)
    ensures OneToOne(ApplyOp(s, op).rows) && Grows(s.rows, ApplyOp(s, op).rows)
  {
    match op {
      case Configure(ps) =>
        if Fits(s.rows, ps) {
          ConfigureKeepsOneToOne(s.rows, ps);
          ConfigureGrows(s.rows, ps);
        }
      case Create(k, _, _, _) =>
        if ApplyOp(s, op).rows != s.rows {
          InsertKeepsOneToOne(s.rows, k);
        }
      case Disable(_) =>
      case Revoke(_) =>
    }
  }

  lemma {:induction false} OpKeepsInv(s: State, op: Op)
    requires Inv(s)
    ensures Inv(ApplyOp(s, op)) && Grows(s.rows, ApplyOp(s, op).rows)
  {
    OpKeepsOneToOne(s, op);
    var s' := ApplyOp(s, op);
    forall k | k in s'.replays ensures HasKey(s'.rows, s'.replays[k].1) {
      if k in s.replays && s'.replays[k] == s.replays[k] {
        GrowthKeepsKeys(s.rows, s'.rows, s.replays[k].1);
      } else {
        assert s'.rows[op.k.ref].apiKeyId == Some(op.k.id);
      }
    }
  }

  function RunOps(s: State, ops: seq<Op>): State
    requires OneToOne(s.rows)
    decreases |ops|
  {
    if ops == [] then s
    else
      OpKeepsOneToOne(s, ops[0]);
      RunOps(ApplyOp(s, ops[0]), ops[1..])
  }

  /** The credential table is a growing one-to-one map over every sequence of operations. */
  lemma {:induction false} TableGrowsOneToOne(s: State, ops: seq<Op>, r: string)
    requires Inv(s)
    ensures Inv(RunOps(s, ops))
    ensures r in s.rows ==> r in RunOps(s, ops).rows && RunOps(s, ops).rows[r].digest == s.rows[r].digest
    decreases |ops|
  {
    if ops != [] {
      OpKeepsInv(s, ops[0]);
      TableGrowsOneToOne(ApplyOp(s, ops[0]), ops[1..], r);
    }
  }

  /**
   `configure_credentials` on any table: either every listed token is bound to
   its own principal's reference and enabled there, with the principal last
   listed for it, or the table is unchanged because the list does not fit.
   */
  lemma {:induction false} ConfigureBindsAllOrNothing(t: Table, ps: seq<Prepared>, i: nat)
    requires OneToOne(t) && i < |ps|
    ensures var t' := ApplyOp(State(t, map[]), Configure(ps)).rows;
      if Fits(t, ps) then
        && ps[i].ref in t' && t'[ps[i].ref].digest == ps[i].digest && t'[ps[i].ref].enabled
        && (forall q :: q in t' && t'[q].digest == ps[i].digest ==> q == ps[i].ref)
        && ((forall j :: i < j < |ps| ==> ps[j].digest != ps[i].digest) ==> t'[ps[i].ref].who == ps[i].who)
      else t' == t
  {
    if Fits(t, ps) {
      ConfigureKeepsOneToOne(t, ps);
      ConfiguredDigest(t, ps, ps[i].ref);
      ConfiguredRow(t, ps, ps[i].ref);
    }
  }

  // ---- the store ------------------------------------------------------------------------

  class CredentialStore {
    var rows: Table
    var replays: map<(string, string), (string, string)>

    function Tables(): State
      reads this
    {
      State(rows, replays)
    }

    constructor ()
      ensures rows == map[] && replays == map[]
    {
      rows, replays := map[], map[];
    }

    /** The reference a digest is bound to, if any: `SELECT ... WHERE token_digest = ?`. */
    method RefOfDigest(digest: string) returns (r: Option<string>)
      requires OneToOne(rows)
      ensures r.Some? ==> r.value in rows && rows[r.value].digest == digest
      ensures r.None? ==> forall q :: q in rows ==> rows[q].digest != digest
    {
      if q :| q in rows && rows[q].digest == digest {
        return Some(q);
      }
      return None;
    }

    /**
     Upserts a list of credentials in one mutation. It succeeds exactly when the
     list fits the table, a condition that does not depend on the order of the
     list; on the first conflict everything is rolled back.
     */
    method ConfigureCredentials(ps: seq<Prepared>) returns (ok: bool)
      requires OneToOne(rows)
      modifies this`rows
      ensures OneToOne(rows)
      ensures ok <==> Fits(old(rows), ps)
      ensures rows == if ok then ConfigureAll(old(rows), ps) else old(rows)
    {
      var saved := rows;
      for i := 0 to |ps|
        invariant OneToOne(rows) && Fits(saved, ps[..i]) && rows == ConfigureAll(saved, ps[..i])
      {
        var p := ps[i];
        var bound := RefOfDigest(p.digest);
        var fits := !(p.ref in rows && rows[p.ref].digest != p.digest) && (bound.Some? ==> bound.value == p.ref);
        assert fits <==> Binds(rows, p);
        assert ps[..i + 1] == ps[..i] + [p];
        FitsOneMore(saved, ps[..i], p);
        if !fits {
          if Fits(saved, ps) { FitsPrefix(saved, ps, i + 1); }
          rows := saved;
          return false;
        }
        ConfigureKeepsOneToOne(saved, ps[..i + 1]);
        assert ps[..i + 1][..i] == ps[..i];
        rows := rows[p.ref := Configured(rows, p)];
      }
      assert ps[..|ps|] == ps;
      return true;
    }

    method DisableCredential(ref: string) returns (changed: bool)
      requires OneToOne(rows)
      modifies this`rows
      ensures OneToOne(rows)
      ensures changed <==> ref in old(rows) && old(rows)[ref].enabled
      ensures rows == if changed then old(rows)[ref := old(rows)[ref].(enabled := false)] else old(rows)
    {
      changed := ref in rows && rows[ref].enabled;
      if changed {
        rows := rows[ref := rows[ref].(enabled := false)];
      }
    }

    method CreateApiKey(k: NewKey, scope: string, key: Option<string>, request: string) returns (reply: KeyReply)
      requires OneToOne(rows)
      modifies this
      ensures (Tables(), reply) == CreateKey(old(Tables()), k, scope, key, request)
    {
      if key.Some? && (scope, key.value) in replays {
        var (digest, id) := replays[(scope, key.value)];
        if digest != request {
          return Conflict;
        }
        if !HasKey(rows, id) {
          return Missing;
        }
        return Replayed(RefOfKey(rows, id));
      }
      if !Insertable(rows, k) {
        return Integrity;
      }
      rows := rows[k.ref := KeyRow(k)];
      if key.Some? {
        replays := replays[(scope, key.value) := (request, k.id)];
      }
      return Created(k.ref);
    }

    method RevokeApiKey(id: string) returns (found: bool)
      requires OneToOne(rows)
      modifies this`rows
      ensures found <==> HasKey(old(rows), id)
      ensures rows == RevokeKey(old(rows), id)
    {
      found := HasKey(rows, id);
      if found {
        var r := RefOfKey(rows, id);
        if !rows[r].revoked {
          rows := rows[r := rows[r].(enabled := false, revoked := true, version := rows[r].version + 1)];
        }
      }
    }
  }
}
