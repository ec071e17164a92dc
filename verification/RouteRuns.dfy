/**
 The Product service under concurrency: any number of requests, each split into
 its store reads, its external validation and its commit, in any interleaving.
 `Apply` executes one labelled step; a step that its request cannot take leaves
 the system unchanged, so every sequence of labels is a run.
 */
module RouteRuns {
  import opened Prelude
  import opened RouteStore

  /** Where a confirmation stands between its read of the draft and its commit. */
  datatype Stage = Read | Granted | EndpointSeen | Validated

  datatype Session =
    | Idle
    | Editing(read: Route, edit: EditCommand)
    | Confirming(read: Route, principal: Principal, scoped: bool, stage: Stage)

  /** An answer to a draft creation, as the caller sees it. */
  datatype Answer = Answer(scope: Scope, key: string, digest: string, reply: Reply<Route>)

  datatype Insertion = Insertion(scope: Scope, key: string, id: string)

  datatype System = System(db: Db, sessions: map<nat, Session>, answers: seq<Answer>, inserted: seq<Insertion>)

  datatype Step =
    | BeginEdit(sid: nat, id: string, edit: EditCommand, principal: Principal)
    | CommitEdit(sid: nat)
    | BeginConfirm(sid: nat, id: string, version: nat, principal: Principal, scoped: bool)
    | CheckGrant(sid: nat)
    | CheckEndpoint(sid: nat)
    | Validate(sid: nat, passes: bool)
    | CommitConfirm(sid: nat)
    | Create(id: string, command: DraftCommand, principal: Principal, scoped: bool, bindingRoute: bool,
             sourceEndpoint: Option<string>, scope: Scope, key: string, digest: string)
    | SaveActiveRoute(route: Route)
    | SaveEndpoint(endpointId: string, active: bool)
    | ConfigureGrants(grants: set<Grant>)
    | ConfigureSourceGrants(grants: set<Grant>)
    | Remember(name: string, key: string, entry: Entry)

  function SessionOf(s: System, sid: nat): Session {
    if sid in s.sessions then s.sessions[sid] else Idle
  }

  function SetSession(s: System, sid: nat, x: Session): System {
    s.(sessions := s.sessions[sid := x])
  }

  predicate IsDraftScope(scope: Scope) {
    !scope.OtherScope?
  }

  /** Draft creation: a scoped principal needs an organization; the rest is the store's mutation. */
  function ApplyCreate(s: System, st: Step): System
    requires st.Create?
  {
    if !IsDraftScope(st.scope) || (st.scoped && st.principal.organizationId.None?) then s
    else
      var r := NewDraft(st.id, st.command, st.principal, st.scoped);
      var (db, reply) := CreateDraft(s.db, r, st.scope, st.key, st.digest, st.sourceEndpoint, st.bindingRoute);
      s.(db := db,
         answers := s.answers + [Answer(st.scope, st.key, st.digest, reply)],
         inserted := if db != s.db then s.inserted + [Insertion(st.scope, st.key, st.id)] else s.inserted)
  }

  function ApplyCommit(s: System, sid: nat, r: Route, expected: nat): System {
    SetSession(s.(db := ReplaceVersion(s.db, r, expected).0), sid, Idle)
  }

  function Apply(s: System, st: Step): System {
    match st
    case BeginEdit(sid, id, edit, p) =>
      var read := OwnedDraft(s.db, id, p);
      if read.Ok? then SetSession(s, sid, Editing(read.value, edit)) else s
    case CommitEdit(sid) =>
      var x := SessionOf(s, sid);
      if x.Editing? then ApplyCommit(s, sid, Edited(x.read, x.edit), x.edit.version) else s
    case BeginConfirm(sid, id, version, p, scoped) =>
      var read := ReadDraft(s.db, id, p, scoped);
      if read.Ok? && read.value.version == version
      then SetSession(s, sid, Confirming(read.value, p, scoped, if scoped then Read else Granted)) else s
    case CheckGrant(sid) =>
      var x := SessionOf(s, sid);
      if x.Confirming? && x.stage == Read
      then SetSession(s, sid, if HasGrant(s.db, x.read, x.principal) then x.(stage := Granted) else Idle) else s
    case CheckEndpoint(sid) =>
      var x := SessionOf(s, sid);
      if x.Confirming? && x.stage == Granted
      then SetSession(s, sid, if EndpointError(s.db, x.read.endpointId).None? then x.(stage := EndpointSeen) else Idle) else s
    case Validate(sid, passes) =>
      var x := SessionOf(s, sid);
      if x.Confirming? && x.stage == EndpointSeen
      then SetSession(s, sid, if passes then x.(stage := Validated) else Idle) else s
    case CommitConfirm(sid) =>
      var x := SessionOf(s, sid);
      if x.Confirming? && x.stage == Validated
      then ApplyCommit(s, sid, Activated(x.read, x.read.version), x.read.version) else s
    case Create(_, _, _, _, _, _, _, _, _) => ApplyCreate(s, st)
    case SaveActiveRoute(route) =>
      if route.id !in s.db.routes && route.endpointId in s.db.endpoints
      then s.(db := s.db.(routes := s.db.routes[route.id := route.(state := Active, version := 1)])) else s
    case SaveEndpoint(id, active) => s.(db := s.db.(endpoints := s.db.endpoints[id := active]))
    case ConfigureGrants(grants) => s.(db := s.db.(grants := grants))
    case ConfigureSourceGrants(grants) => s.(db := s.db.(sourceGrants := grants))
    case Remember(name, key, entry) =>
      if (OtherScope(name), key) in s.db.ledger then s
      else s.(db := s.db.(ledger := s.db.ledger[(OtherScope(name), key) := entry]))
  }

  function Run(s: System, steps: seq<Step>): System
    decreases |steps|
  {
    if steps == [] then s else Run(Apply(s, steps[0]), steps[1..])
  }

  const START := System(Db(map[], map[], {}, {}, map[]), map[], [], [])

  // ---- versions -------------------------------------------------------------------------

  /** What no edit or confirmation may change. */
  predicate SameOrigin(a: Route, b: Route) {
    && a.id == b.id && a.endpointId == b.endpointId && a.source == b.source && a.createdBy == b.createdBy
    && a.workspaceId == b.workspaceId && a.organizationId == b.organizationId
  }

  /** The row `r` is still current, or the route has moved on to a higher version. */
  ghost predicate CurrentOrPast(db: Db, r: Route) {
    && r.id in db.routes
    && SameOrigin(r, db.routes[r.id])
    && (db.routes[r.id] == r || db.routes[r.id].version > r.version)
  }

  ghost predicate SessionsTrack(s: System) {
    forall sid :: sid in s.sessions && !s.sessions[sid].Idle? ==>
      CurrentOrPast(s.db, s.sessions[sid].read) && s.sessions[sid].read.state == Draft
  }

  ghost predicate Inv(s: System) {
    KeyedById(s.db) && SessionsTrack(s)
  }

  /** Between two states a row stays as it is or moves to the next version; its origin never changes. */
  ghost predicate Moves(before: Db, after: Db) {
    forall id :: id in before.routes ==>
      && id in after.routes && SameOrigin(before.routes[id], after.routes[id])
      && (after.routes[id] == before.routes[id] || after.routes[id].version == before.routes[id].version + 1)
  }

  lemma {:induction false} CommitMoves(s: System, sid: nat, r: Route, expected: nat)
    requires Inv(s) && !SessionOf(s, sid).Idle? && SameOrigin(r, SessionOf(s, sid).read) && r.version == expected + 1
    ensures Inv(ApplyCommit(s, sid, r, expected)) && Moves(s.db, ApplyCommit(s, sid, r, expected).db)
  {
    var s' := ApplyCommit(s, sid, r, expected);
    forall k | k in s'.sessions && !s'.sessions[k].Idle?
      ensures CurrentOrPast(s'.db, s'.sessions[k].read) && s'.sessions[k].read.state == Draft
    {
      assert k != sid && s'.sessions[k] == s.sessions[k];
      assert CurrentOrPast(s.db, s.sessions[k].read);
    }
  }

  lemma {:induction false} TablesOnlyGrow(s: System, s': System)
    requires Inv(s) && KeyedById(s'.db) && s'.sessions == s.sessions
    requires forall id :: id in s.db.routes ==> id in s'.db.routes && s'.db.routes[id] == s.db.routes[id]
    ensures Inv(s') && Moves(s.db, s'.db)
  {
    forall k | k in s'.sessions && !s'.sessions[k].Idle?
      ensures CurrentOrPast(s'.db, s'.sessions[k].read) && s'.sessions[k].read.state == Draft
    {
      assert CurrentOrPast(s.db, s.sessions[k].read);
    }
  }

  lemma {:induction false} CommitStepMoves(s: System, st: Step)
    requires Inv(s) && (st.CommitEdit? || st.CommitConfirm?)
    ensures Inv(Apply(s, st)) && Moves(s.db, Apply(s, st).db)
  {
    match st {
      case CommitEdit(sid) =>
        var x := SessionOf(s, sid);
        if x.Editing? { CommitMoves(s, sid, Edited(x.read, x.edit), x.edit.version); }
      case CommitConfirm(sid) =>
        var x := SessionOf(s, sid);
        if x.Confirming? && x.stage == Validated {
          CommitMoves(s, sid, Activated(x.read, x.read.version), x.read.version);
        }
      case _ =>
    }
  }

  /** Reading and checking changes no table, and remembers only rows that are current. */
  lemma {:induction false} SessionStepMoves(s: System, st: Step)
    requires Inv(s) && (st.BeginEdit? || st.BeginConfirm? || st.CheckGrant? || st.CheckEndpoint? || st.Validate?)
    ensures Inv(Apply(s, st)) && Moves(s.db, Apply(s, st).db)
  {
  }

  /** Every step keeps the invariant, and moves each route by at most one version. */
  lemma {:induction false} StepMoves(s: System, st: Step)
    requires Inv(s)
    ensures Inv(Apply(s, st)) && Moves(s.db, Apply(s, st).db)
  {
    var s' := Apply(s, st);
    match st {
      case CommitEdit(_) => CommitStepMoves(s, st);
      case CommitConfirm(_) => CommitStepMoves(s, st);
      case Create(_, _, _, _, _, _, _, _, _) => TablesOnlyGrow(s, s');
      case SaveActiveRoute(_) => TablesOnlyGrow(s, s');
      case SaveEndpoint(_, _) => TablesOnlyGrow(s, s');
      case ConfigureGrants(_) => TablesOnlyGrow(s, s');
      case ConfigureSourceGrants(_) => TablesOnlyGrow(s, s');
      case Remember(_, _, _) => TablesOnlyGrow(s, s');
      case _ => SessionStepMoves(s, st);
    }
  }

  lemma {:induction false} RunKeepsInv(s: System, steps: seq<Step>)
    requires Inv(s)
    ensures Inv(Run(s, steps))
    decreases |steps|
  {
    if steps != [] {
      StepMoves(s, steps[0]);
      RunKeepsInv(Apply(s, steps[0]), steps[1..]);
    }
  }

  /**
   Life cycle of a route over a whole run: it never disappears, its source,
   creator, organization and workspace never change, its version never falls,
   and a version number names one document for the life of the route.
   */
  lemma {:induction false} VersionNamesOneDocument(s: System, steps: seq<Step>, id: string)
    requires Inv(s) && id in s.db.routes
    ensures var later := Run(s, steps).db;
      && id in later.routes
      && SameOrigin(s.db.routes[id], later.routes[id])
      && later.routes[id].version >= s.db.routes[id].version
      && (later.routes[id].version == s.db.routes[id].version ==> later.routes[id] == s.db.routes[id])
    decreases |steps|
  {
    if steps != [] {
      StepMoves(s, steps[0]);
      VersionNamesOneDocument(Apply(s, steps[0]), steps[1..], id);
    }
  }

  /**
   What was validated is what goes live. In every reachable system, if the
   commit of a confirmation changes the tables, the row it replaces is exactly
   the draft that was read and passed to the validator, whatever edits and
   confirmations ran in between; the new row is that draft, activated.
   */
  lemma {:induction false} ValidatedDraftGoesLive(steps: seq<Step>, sid: nat)
    ensures var s := Run(START, steps);
      var s' := Apply(s, CommitConfirm(sid));
      var x := SessionOf(s, sid);
      s'.db != s.db ==>
        && x.Confirming? && x.stage == Validated && x.read.state == Draft
        && x.read.id in s.db.routes && s.db.routes[x.read.id] == x.read
        && x.read.id in s'.db.routes
        && var live := s'.db.routes[x.read.id];
          && live.state == Active && live.version == x.read.version + 1
          && live.(state := x.read.state, version := x.read.version) == x.read
          && s'.db == s.db.(routes := s.db.routes[x.read.id := live])
  {
    RunKeepsInv(START, steps);
    var s := Run(START, steps);
    var x := SessionOf(s, sid);
    if x.Confirming? {
      assert CurrentOrPast(s.db, x.read);
    }
  }

  /** A confirmation commits exactly when the draft it validated is still the current row. */
  lemma {:induction false} ConfirmCommitsIffUnchanged(steps: seq<Step>, sid: nat)
    ensures var s := Run(START, steps);
      var x := SessionOf(s, sid);
      x.Confirming? && x.stage == Validated ==>
        (Apply(s, CommitConfirm(sid)).db != s.db <==> x.read.id in s.db.routes && s.db.routes[x.read.id] == x.read)
  {
    RunKeepsInv(START, steps);
    var s := Run(START, steps);
    var x := SessionOf(s, sid);
    if x.Confirming? && x.stage == Validated && s.db.routes[x.read.id] == x.read {
      assert Apply(s, CommitConfirm(sid)).db.routes[x.read.id].state == Active;
    }
  }

  // ---- edits and the active state ---------------------------------------------------------

  /**
   An edit does not compare the version it read with the version in the
   command. When it commits, the row it overwrites is the row it read exactly
   when the command names the version that was read.
   */
  lemma {:induction false} EditOverwritesWhatItReadIff(steps: seq<Step>, sid: nat)
    ensures var s := Run(START, steps);
      var x := SessionOf(s, sid);
      x.Editing? && ReplaceVersion(s.db, Edited(x.read, x.edit), x.edit.version).1.Ok? ==>
        (s.db.routes[x.read.id] == x.read <==> x.edit.version == x.read.version)
  {
    RunKeepsInv(START, steps);
    var s := Run(START, steps);
    var x := SessionOf(s, sid);
    if x.Editing? {
      assert CurrentOrPast(s.db, x.read);
    }
  }

  /**
   What a committed edit leaves is what was commanded: its pattern, binding,
   model and priority, under the next version; everything else is as the
   command's author read it, and no other row changes.
   */
  lemma {:induction false} EditAppliesTheCommand(steps: seq<Step>, sid: nat)
    ensures var s := Run(START, steps);
      var s' := Apply(s, CommitEdit(sid));
      var x := SessionOf(s, sid);
      s'.db != s.db ==>
        && x.Editing? && x.read.id in s.db.routes && s.db.routes[x.read.id].version == x.edit.version
        && x.read.id in s'.db.routes
        && var row := s'.db.routes[x.read.id];
          && row.modelPattern == x.edit.modelPattern && row.bindingId == x.edit.bindingId
          && row.targetModel == Some(x.edit.targetModel) && row.priority == x.edit.priority
          && row.version == x.edit.version + 1 && row.state == Draft
          && row.id == x.read.id && row.endpointId == x.read.endpointId && row.source == x.read.source
          && row.createdBy == x.read.createdBy && row.workspaceId == x.read.workspaceId
          && row.organizationId == x.read.organizationId
          && s'.db == s.db.(routes := s.db.routes[x.read.id := row])
  {
    RunKeepsInv(START, steps);
    var s := Run(START, steps);
    var x := SessionOf(s, sid);
    if x.Editing? {
      assert CurrentOrPast(s.db, x.read) && x.read.state == Draft;
    }
  }

  /**
   A commit of an edit returns an active row to draft exactly when the row is
   active at that moment and has the version the edit commands; that version is
   then never the one the edit read.
   */
  lemma {:induction false} EditDemotesIff(steps: seq<Step>, sid: nat)
    ensures var s := Run(START, steps);
      var x := SessionOf(s, sid);
      x.Editing? ==>
        && x.read.id in s.db.routes && x.read.id in Apply(s, CommitEdit(sid)).db.routes
        && var row, after := s.db.routes[x.read.id], Apply(s, CommitEdit(sid)).db.routes[x.read.id];
          && (row.state == Active && after.state == Draft <==> row.state == Active && row.version == x.edit.version)
          && (row.state == Active && after.state == Draft ==> x.edit.version > x.read.version)
  {
    RunKeepsInv(START, steps);
    var s := Run(START, steps);
    var x := SessionOf(s, sid);
    if x.Editing? {
      assert CurrentOrPast(s.db, x.read) && x.read.state == Draft;
    }
  }

  /** Every edit that reads a draft names the version it reads. */
  ghost predicate EditsNameTheirRead(s: System, steps: seq<Step>)
    decreases |steps|
  {
    steps != [] ==>
      && (steps[0].BeginEdit? && OwnedDraft(s.db, steps[0].id, steps[0].principal).Ok? ==>
           steps[0].edit.version == s.db.routes[steps[0].id].version)
      && EditsNameTheirRead(Apply(s, steps[0]), steps[1..])
  }

  ghost predicate PendingEditsNameTheirRead(s: System) {
    forall sid :: sid in s.sessions && s.sessions[sid].Editing? ==> s.sessions[sid].edit.version == s.sessions[sid].read.version
  }

  /** With such edits an active row is frozen: nothing edits it, deactivates it or activates it again. */
  lemma {:induction false} ActiveStepFrozen(s: System, st: Step, id: string)
    requires Inv(s) && PendingEditsNameTheirRead(s)
    requires st.BeginEdit? && OwnedDraft(s.db, st.id, st.principal).Ok? ==> st.edit.version == s.db.routes[st.id].version
    ensures PendingEditsNameTheirRead(Apply(s, st))
    ensures id in s.db.routes && s.db.routes[id].state == Active ==>
      id in Apply(s, st).db.routes && Apply(s, st).db.routes[id] == s.db.routes[id]
  {
    if st.CommitEdit? && SessionOf(s, st.sid).Editing? {
      assert CurrentOrPast(s.db, SessionOf(s, st.sid).read);
    }
    if st.CommitConfirm? && SessionOf(s, st.sid).Confirming? {
      assert CurrentOrPast(s.db, SessionOf(s, st.sid).read);
    }
  }

  lemma {:induction false} ActiveStaysFrozen(s: System, steps: seq<Step>, id: string)
    requires Inv(s) && PendingEditsNameTheirRead(s) && EditsNameTheirRead(s, steps)
    requires id in s.db.routes && s.db.routes[id].state == Active
    ensures id in Run(s, steps).db.routes && Run(s, steps).db.routes[id] == s.db.routes[id]
    decreases |steps|
  {
    if steps != [] {
      StepMoves(s, steps[0]);
      ActiveStepFrozen(s, steps[0], id);
      ActiveStaysFrozen(Apply(s, steps[0]), steps[1..], id);
    }
  }

  /**
   Activation happens at most once: in a run whose edits name the versions they
   read, a route that is active after some prefix has exactly that row after
   every longer prefix.
   */
  lemma {:induction false} ActivatedAtMostOnce(first: seq<Step>, second: seq<Step>, id: string)
    requires EditsNameTheirRead(START, first + second)
    requires id in Run(START, first).db.routes && Run(START, first).db.routes[id].state == Active
    ensures id in Run(START, first + second).db.routes
    ensures Run(START, first + second).db.routes[id] == Run(START, first).db.routes[id]
  {
    RunSplits(START, first, second);
    ActiveStaysFrozen(Run(START, first), second, id);
  }

  lemma {:induction false} RunSplits(s: System, first: seq<Step>, second: seq<Step>)
    requires Inv(s) && PendingEditsNameTheirRead(s)
    ensures Run(s, first + second) == Run(Run(s, first), second)
    ensures EditsNameTheirRead(s, first + second) ==>
      Inv(Run(s, first)) && PendingEditsNameTheirRead(Run(s, first)) && EditsNameTheirRead(Run(s, first), second)
    decreases |first|
  {
    if first == [] {
      assert first + second == second;
    } else {
      assert (first + second)[1..] == first[1..] + second;
      StepMoves(s, first[0]);
      if EditsNameTheirRead(s, first + second) {
        ActiveStepFrozen(s, first[0], "");
        RunSplits(Apply(s, first[0]), first[1..], second);
      } else {
        RunSplitsOnly(Apply(s, first[0]), first[1..], second);
      }
    }
  }

  lemma {:induction false} RunSplitsOnly(s: System, first: seq<Step>, second: seq<Step>)
    ensures Run(s, first + second) == Run(Run(s, first), second)
    decreases |first|
  {
    if first == [] {
      assert first + second == second;
    } else {
      assert (first + second)[1..] == first[1..] + second;
      RunSplitsOnly(Apply(s, first[0]), first[1..], second);
    }
  }

  /** A draft is created; an edit and a confirmation both read version 1, but the edit commands version 2. */
  function CrossedReads(c: DraftCommand, p: Principal, id: string, key: string, digest: string, edit: EditCommand): seq<Step> {
    [SaveEndpoint(c.endpointId, true),
     Create(id, c, p, false, false, None, LegacyDraft, key, digest),
     BeginEdit(0, id, edit, p),
     BeginConfirm(1, id, 1, p, false)]
  }

  /** The confirmation commits first, then the edit. */
  function ConfirmThenEdit(): seq<Step> {
    [CheckEndpoint(1), Validate(1, true), CommitConfirm(1), CommitEdit(0)]
  }

  lemma {:induction false} CrossedReadsHappen(c: DraftCommand, p: Principal, id: string, key: string, digest: string, edit: EditCommand)
    ensures var s := Run(START, CrossedReads(c, p, id, key, digest, edit));
      var r := NewDraft(id, c, p, false);
      && s.db.routes == map[id := r] && s.db.endpoints == map[c.endpointId := true]
      && s.sessions == map[0 := Editing(r, edit), 1 := Confirming(r, p, false, Granted)]
    ensures edit.version != 1 ==> !EditsNameTheirRead(START, CrossedReads(c, p, id, key, digest, edit))
  {
    var steps := CrossedReads(c, p, id, key, digest, edit);
    assert steps[..4] == steps && steps[..0] == [];
    RunSnoc(START, steps, 0);
    RunSnoc(START, steps, 1);
    var s2 := Run(START, steps[..2]);
    assert s2.db.routes == map[id := NewDraft(id, c, p, false)];
    RunSnoc(START, steps, 2);
    RunSnoc(START, steps, 3);
    if EditsNameTheirRead(START, steps) {
      EditsNamedAt(START, steps, 2);
    }
  }

  /**
   Without the hypothesis on edits the life cycle fails: here a confirmed route
   falls back to DRAFT through an edit that read the older draft.
   */
  lemma {:induction false} EditCanDemoteActiveRoute(c: DraftCommand, p: Principal, id: string, key: string, digest: string, edit: EditCommand)
    requires edit.version == 2
    ensures var first := CrossedReads(c, p, id, key, digest, edit);
      var confirmed := Run(Run(START, first), ConfirmThenEdit()[..3]);
      var edited := Run(Run(START, first), ConfirmThenEdit());
      && id in confirmed.db.routes && confirmed.db.routes[id].state == Active && confirmed.db.routes[id].version == 2
      && id in edited.db.routes && edited.db.routes[id].state == Draft && edited.db.routes[id].version == 3
  {
    CrossedReadsHappen(c, p, id, key, digest, edit);
    var s := Run(START, CrossedReads(c, p, id, key, digest, edit));
    var steps := ConfirmThenEdit();
    assert steps[..4] == steps && steps[..0] == [];
    ConfirmationIsValidated(s, NewDraft(id, c, p, false), p, edit);
    RunSnoc(s, steps, 2);
    RunSnoc(s, steps, 3);
  }

  lemma {:induction false} ConfirmationIsValidated(s: System, r: Route, p: Principal, edit: EditCommand)
    requires s.db.endpoints == map[r.endpointId := true]
    requires s.sessions == map[0 := Editing(r, edit), 1 := Confirming(r, p, false, Granted)]
    ensures Run(s, ConfirmThenEdit()[..2])
      == s.(sessions := map[0 := Editing(r, edit), 1 := Confirming(r, p, false, Validated)])
  {
    var steps := ConfirmThenEdit();
    assert steps[..0] == [];
    RunSnoc(s, steps, 0);
    assert Run(s, steps[..1]).sessions == map[0 := Editing(r, edit), 1 := Confirming(r, p, false, EndpointSeen)];
    RunSnoc(s, steps, 1);
  }

  lemma {:induction false} RunSnoc(s: System, steps: seq<Step>, k: nat)
    requires k < |steps|
    ensures Run(s, steps[..k + 1]) == Apply(Run(s, steps[..k]), steps[k])
  {
    assert steps[..k + 1] == steps[..k] + [steps[k]];
    RunSplitsOnly(s, steps[..k], [steps[k]]);
    assert Run(Run(s, steps[..k]), [steps[k]]) == Run(Apply(Run(s, steps[..k]), steps[k]), []) by {
      assert [steps[k]][1..] == [];
    }
  }

  lemma {:induction false} EditsNamedAt(s: System, steps: seq<Step>, k: nat)
    requires k < |steps| && EditsNameTheirRead(s, steps)
    ensures var now := Run(s, steps[..k]);
      steps[k].BeginEdit? && OwnedDraft(now.db, steps[k].id, steps[k].principal).Ok? ==>
        steps[k].edit.version == now.db.routes[steps[k].id].version
    decreases k
  {
    if k > 0 {
      EditsNamedAt(Apply(s, steps[0]), steps[1..], k - 1);
      assert steps[..k][1..] == steps[1..][..k - 1];
    }
  }

  // ---- exactly-once draft creation --------------------------------------------------------

  /** Every draft entry of the ledger points at a stored route, so the absent-route error cannot occur. */
  ghost predicate LedgerPointsAtRoutes(db: Db) {
    forall k :: k in db.ledger && IsDraftScope(k.0) ==> db.ledger[k].resourceId in db.routes
  }

  /** Each inserted draft is the one its ledger entry names. */
  ghost predicate InsertionsLedgered(s: System) {
    && (forall i :: 0 <= i < |s.inserted| ==>
         var n := s.inserted[i];
         (n.scope, n.key) in s.db.ledger && s.db.ledger[(n.scope, n.key)].resourceId == n.id)
    && (forall i, j :: 0 <= i < j < |s.inserted| ==>
         (s.inserted[i].scope, s.inserted[i].key) != (s.inserted[j].scope, s.inserted[j].key))
  }

  /** Every answer agrees with the ledger: a success with its entry, a conflict with an entry of another digest. */
  ghost predicate AnswersLedgered(s: System) {
    forall i :: 0 <= i < |s.answers| ==>
      var a := s.answers[i];
      var known := (a.scope, a.key) in s.db.ledger;
      && (a.reply.Ok? ==> known && s.db.ledger[(a.scope, a.key)] == Entry(a.digest, a.reply.value.id))
      && (a.reply == Err(IdempotencyConflict) ==> known && s.db.ledger[(a.scope, a.key)].digest != a.digest)
      && a.reply != Err(AbsentRoute)
  }

  ghost predicate DraftInv(s: System) {
    Inv(s) && LedgerPointsAtRoutes(s.db) && InsertionsLedgered(s) && AnswersLedgered(s)
  }

  lemma {:induction false} LedgerOnlyGrows(s: System, st: Step)
    requires Inv(s)
    ensures forall k :: k in s.db.ledger ==> k in Apply(s, st).db.ledger && Apply(s, st).db.ledger[k] == s.db.ledger[k]
  {
  }

  lemma {:induction false} CreateKeepsDraftInv(s: System, st: Step)
    requires DraftInv(s) && st.Create?
    ensures DraftInv(Apply(s, st))
  {
    StepMoves(s, st);
    var s' := Apply(s, st);
    if s' != s {
      var r := NewDraft(st.id, st.command, st.principal, st.scoped);
      var a := s'.answers[|s.answers|];
      assert s'.answers == s.answers + [a];
      assert a.reply.Ok? && s'.db == s.db ==> s.db.routes[s.db.ledger[(st.scope, st.key)].resourceId] == a.reply.value;
      if s'.db != s.db {
        assert (st.scope, st.key) !in s.db.ledger;
        forall i | 0 <= i < |s.inserted| ensures (s.inserted[i].scope, s.inserted[i].key) != (st.scope, st.key) {
          assert (s.inserted[i].scope, s.inserted[i].key) in s.db.ledger;
        }
      }
    }
  }

  lemma {:induction false} StepKeepsDraftInv(s: System, st: Step)
    requires DraftInv(s)
    ensures DraftInv(Apply(s, st))
  {
    if st.Create? {
      CreateKeepsDraftInv(s, st);
    } else {
      StepMoves(s, st);
      LedgerOnlyGrows(s, st);
      var s' := Apply(s, st);
      assert s'.answers == s.answers && s'.inserted == s.inserted;
      forall k | k in s'.db.ledger && IsDraftScope(k.0) ensures s'.db.ledger[k].resourceId in s'.db.routes {
        assert k in s.db.ledger && s'.db.ledger[k] == s.db.ledger[k];
      }
    }
  }

  lemma {:induction false} RunKeepsDraftInv(s: System, steps: seq<Step>)
    requires DraftInv(s)
    ensures DraftInv(Run(s, steps))
    decreases |steps|
  {
    if steps != [] {
      StepKeepsDraftInv(s, steps[0]);
      RunKeepsDraftInv(Apply(s, steps[0]), steps[1..]);
    }
  }

  /**
   Exactly-once creation over all interleavings of retries: at most one draft
   is ever inserted for a scope and key; every successful answer with that
   scope and key has the same digest and returns that route's id; a conflict is
   answered only to a different digest; and no answer is the absent-route error.
   */
  lemma {:induction false} DraftsAreCreatedOnce(steps: seq<Step>, i: nat, j: nat)
    ensures var s := Run(START, steps);
      && (i < j < |s.inserted| ==> (s.inserted[i].scope, s.inserted[i].key) != (s.inserted[j].scope, s.inserted[j].key))
      && (i < |s.answers| && j < |s.answers|
          && s.answers[i].scope == s.answers[j].scope && s.answers[i].key == s.answers[j].key
          && s.answers[i].reply.Ok? ==>
            && (s.answers[j].reply.Ok? ==>
                 && s.answers[j].digest == s.answers[i].digest
                 && s.answers[j].reply.value.id == s.answers[i].reply.value.id)
            && (s.answers[j].reply == Err(IdempotencyConflict) ==> s.answers[j].digest != s.answers[i].digest))
      && (i < |s.answers| ==> s.answers[i].reply != Err(AbsentRoute))
  {
    RunKeepsDraftInv(START, steps);
  }

  /**
   One creation step in a reachable system: with its grants in place it answers
   a known key with the recorded route or, for another digest, with a conflict,
   changing nothing; it inserts exactly for a new key and id whose endpoint
   exists and whose grants hold at that step; and the row it inserts is the
   commanded draft under its author's own scope.
   */
  lemma {:induction false} CreateStep(steps: seq<Step>, st: Step)
    requires st.Create? && IsDraftScope(st.scope) && (st.scoped ==> st.principal.organizationId.Some?)
    ensures var s := Run(START, steps);
      var s' := Apply(s, st);
      var r := NewDraft(st.id, st.command, st.principal, st.scoped);
      var reply := s'.answers[|s.answers|].reply;
      && |s'.answers| == |s.answers| + 1
      && (ScopeError(s.db, r, st.sourceEndpoint, st.bindingRoute).None? && (st.scope, st.key) in s.db.ledger ==>
           && s'.db == s.db
           && (s.db.ledger[(st.scope, st.key)].digest == st.digest ==>
                reply.Ok? && reply.value.id == s.db.ledger[(st.scope, st.key)].resourceId)
           && (s.db.ledger[(st.scope, st.key)].digest != st.digest ==> reply == Err(IdempotencyConflict)))
      && (s'.db != s.db <==>
           && (st.scope, st.key) !in s.db.ledger && st.id !in s.db.routes && st.command.endpointId in s.db.endpoints
           && (st.scoped ==>
                var org := st.principal.organizationId.value;
                && Grant(st.command.endpointId, org, st.principal.workspaceId) in s.db.grants
                && (st.sourceEndpoint.Some? ==>
                     Grant(st.sourceEndpoint.value, org, st.principal.workspaceId) in s.db.sourceGrants)
                && (st.sourceEndpoint.None? ==> st.bindingRoute && st.command.source.None?)))
      && (s'.db != s.db ==>
           && reply.Ok? && s'.db.routes == s.db.routes[st.id := reply.value]
           && reply.value.id == st.id && reply.value.state == Draft && reply.value.version == 1
           && reply.value.endpointId == st.command.endpointId && reply.value.modelPattern == st.command.modelPattern
           && reply.value.bindingId == st.command.bindingId && reply.value.targetModel == Some(st.command.targetModel)
           && reply.value.priority == st.command.priority && reply.value.source == st.command.source
           && reply.value.createdBy == Some(st.principal.actorId)
           && reply.value.workspaceId == Some(st.principal.workspaceId)
           && reply.value.organizationId == (if st.scoped then st.principal.organizationId else None))
  {
    RunKeepsDraftInv(START, steps);
    var s := Run(START, steps);
    if (st.scope, st.key) in s.db.ledger {
      assert s.db.ledger[(st.scope, st.key)].resourceId in s.db.routes;
    }
  }
}
