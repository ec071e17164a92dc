/**
 Gateway routes, grants and the idempotency ledger: the Product store
 (product/src/cyrene_exchange_product/store.py) and the route commands of the
 service over it (product/src/cyrene_exchange_product/service.py).
 A table is a map, a mutation block is one atomic method that restores the
 tables when it fails, and timestamps are not part of this model.
 */
module RouteStore {
  import opened Prelude

  datatype RouteState = Draft | Active | Disabled

  datatype Route = Route(
    id: string, endpointId: string, state: RouteState, modelPattern: string, bindingId: string, targetModel: Option<string>,
    priority: nat, version: nat, source: Option<string>, createdBy: Option<string>,
    workspaceId: Option<string>, organizationId: Option<string>)

  datatype Principal = Principal(actorId: string, workspaceId: string, organizationId: Option<string>)

  /** The scope part of an idempotency key; hashing of the scope is taken to be collision free. */
  datatype Scope =
    | LegacyDraft
    | ScopedDraft(organizationId: string, workspaceId: string)
    | BindingDraft(organizationId: string, workspaceId: string)
    | OtherScope(name: string)

  datatype Entry = Entry(digest: string, resourceId: string)

  datatype Grant = Grant(endpointId: string, organizationId: string, workspaceId: string)

  /** The tables; an endpoint maps to whether it is active. */
  datatype Db = Db(
    endpoints: map<string, bool>, routes: map<string, Route>,
    grants: set<Grant>, sourceGrants: set<Grant>, ledger: map<(Scope, string), Entry>)

  datatype Error =
    | PermissionDenied | EndpointNotFound | SourceDenied | IdempotencyConflict | AbsentRoute | IntegrityError
    | VersionConflict | RouteNotFound | NotDraft | EndpointDisabled | ScopeRequired | TargetInvalid

  datatype Reply<+T> = Ok(value: T) | Err(error: Error)

  /** Each row is stored under the id in its document. */
  ghost predicate KeyedById(db: Db) {
    forall id :: id in db.routes ==> db.routes[id].id == id
  }

  // ---- atomic store operations as functions of the tables ---------------------------

  /** The checks a scoped draft must pass inside the inserting mutation. */
  function ScopeError(db: Db, r: Route, source: Option<string>, bindingRoute: bool): Option<Error> {
    if r.organizationId.None? then None
    else
      var org, ws := r.organizationId.value, r.workspaceId.GetOr("");
      if Grant(r.endpointId, org, ws) !in db.grants then Some(PermissionDenied)
      else if r.endpointId !in db.endpoints then Some(EndpointNotFound)
      else if source.None? && !(bindingRoute && r.source.None?) then Some(SourceDenied)
      else if source.Some? && Grant(source.value, org, ws) !in db.sourceGrants then Some(SourceDenied)
      else None
  }

  /** `resolve_idempotency`: nothing known, a replay, or a conflicting reuse of the key. */
  function Resolve(db: Db, scope: Scope, key: string, digest: string): Reply<Option<string>> {
    if (scope, key) !in db.ledger then Ok(None)
    else if db.ledger[(scope, key)].digest != digest then Err(IdempotencyConflict)
    else Ok(Some(db.ledger[(scope, key)].resourceId))
  }

  /** Insert a draft together with its retry identity, or return what an equal request created. */
  function CreateDraft(db: Db, r: Route, scope: Scope, key: string, digest: string,
                       source: Option<string>, bindingRoute: bool): (Db, Reply<Route>) {
    var denied := ScopeError(db, r, source, bindingRoute);
    if denied.Some? then (db, Err(denied.value))
    else
      match Resolve(db, scope, key, digest)
      case Err(e) => (db, Err(e))
      case Ok(Some(id)) => if id in db.routes then (db, Ok(db.routes[id])) else (db, Err(AbsentRoute))
      case Ok(None) =>
        if r.id in db.routes || r.endpointId !in db.endpoints then (db, Err(IntegrityError))
        else
          (db.(routes := db.routes[r.id := r], ledger := db.ledger[(scope, key) := Entry(digest, r.id)]), Ok(r))
  }

  /** Exactly when a draft is refused with which error: denied, replayed differently, or in the way of another row. */
  lemma {:induction false} DraftErrorsExactly(db: Db, r: Route, scope: Scope, key: string, digest: string,
                                              source: Option<string>, bindingRoute: bool)
    ensures var reply, ws := CreateDraft(db, r, scope, key, digest, source, bindingRoute).1, r.workspaceId.GetOr("");
      var scoped := r.organizationId.Some?;
      var granted := scoped ==> Grant(r.endpointId, r.organizationId.value, ws) in db.grants;
      var hosted := scoped ==> r.endpointId in db.endpoints;
      var sourced := scoped ==>
        if source.Some? then Grant(source.value, r.organizationId.value, ws) in db.sourceGrants else bindingRoute && r.source.None?;
      var known := (scope, key) in db.ledger;
      && (reply == Err(PermissionDenied) <==> !granted)
      && (reply == Err(EndpointNotFound) <==> granted && !hosted)
      && (reply == Err(SourceDenied) <==> granted && hosted && !sourced)
      && (reply == Err(IdempotencyConflict) <==>
           granted && hosted && sourced && known && db.ledger[(scope, key)].digest != digest)
      && (reply == Err(AbsentRoute) <==>
           && granted && hosted && sourced && known && db.ledger[(scope, key)].digest == digest
           && db.ledger[(scope, key)].resourceId !in db.routes)
      && (reply == Err(IntegrityError) <==>
           granted && hosted && sourced && !known && (r.id in db.routes || r.endpointId !in db.endpoints))
      && (reply.Ok? && known ==> reply.value == db.routes[db.ledger[(scope, key)].resourceId])
      && (reply.Ok? && !known ==> reply.value == r)
  {
  }

  /** Compare-and-swap on the version of a route. */
  function ReplaceVersion(db: Db, r: Route, expected: nat): (Db, Reply<Route>) {
    if r.id !in db.routes || db.routes[r.id].version != expected then (db, Err(VersionConflict))
    else (db.(routes := db.routes[r.id := r]), Ok(r))
  }

  // ---- what the service reads and builds -------------------------------------------------

  datatype DraftCommand = DraftCommand(
    endpointId: string, modelPattern: string, bindingId: string, targetModel: string, priority: nat, source: Option<string>)

  datatype EditCommand = EditCommand(version: nat, modelPattern: string, bindingId: string, targetModel: string, priority: nat)

  /** A new draft takes its owner from the credential, never from the request. */
  function NewDraft(id: string, c: DraftCommand, p: Principal, scoped: bool): Route {
    Route(id, c.endpointId, Draft, c.modelPattern, c.bindingId, Some(c.targetModel), c.priority, 1,
      c.source, Some(p.actorId), Some(p.workspaceId), if scoped then p.organizationId else None)
  }

  /** `_owned_draft`: an organization-unscoped draft of this actor and workspace. */
  function OwnedDraft(db: Db, id: string, p: Principal): Reply<Route> {
    if id !in db.routes || db.routes[id].organizationId.Some? then Err(RouteNotFound)
    else
      var r := db.routes[id];
      if r.workspaceId != Some(p.workspaceId) || r.createdBy != Some(p.actorId) then Err(PermissionDenied)
      else if r.state != Draft then Err(NotDraft)
      else Ok(r)
  }

  /** `get_owned_workspace_draft`: a draft of this actor inside the authenticated organization and workspace. */
  function OwnedWorkspaceDraft(db: Db, id: string, p: Principal): Reply<Route> {
    if id !in db.routes then Err(RouteNotFound)
    else
      var r := db.routes[id];
      if r.organizationId != p.organizationId || r.workspaceId != Some(p.workspaceId) then Err(RouteNotFound)
      else if r.createdBy != Some(p.actorId) then Err(PermissionDenied)
      else if r.state != Draft then Err(NotDraft)
      else Ok(r)
  }

  function ReadDraft(db: Db, id: string, p: Principal, scoped: bool): Reply<Route> {
    if scoped then OwnedWorkspaceDraft(db, id, p) else OwnedDraft(db, id, p)
  }

  /** The edited copy is built from the row that was read and the version in the command. */
  function Edited(r: Route, c: EditCommand): Route {
    r.(modelPattern := c.modelPattern, bindingId := c.bindingId, targetModel := Some(c.targetModel),
       priority := c.priority, version := c.version + 1)
  }

  function Activated(r: Route, version: nat): Route {
    r.(state := Active, version := version + 1)
  }

  function HasGrant(db: Db, r: Route, p: Principal): bool {
    p.organizationId.Some? && Grant(r.endpointId, p.organizationId.value, p.workspaceId) in db.grants
  }

  /** `get_endpoint(...).state` must be active. */
  function EndpointError(db: Db, endpointId: string): Option<Error> {
    if endpointId !in db.endpoints then Some(EndpointNotFound)
    else if !db.endpoints[endpointId] then Some(EndpointDisabled)
    else None
  }

  /** The first obstacle to a confirmation decides its error; without any other, it is the target that was found invalid. */
  predicate ConfirmFails(db: Db, id: string, version: nat, p: Principal, scoped: bool, error: Error) {
    var read := ReadDraft(db, id, p, scoped);
    if read.Err? then error == read.error
    else if read.value.version != version then error == VersionConflict
    else if scoped && (p.organizationId.None? || Grant(read.value.endpointId, p.organizationId.value, p.workspaceId) !in db.grants)
    then error == PermissionDenied
    else if read.value.endpointId !in db.endpoints then error == EndpointNotFound
    else if !db.endpoints[read.value.endpointId] then error == EndpointDisabled
    else error == TargetInvalid
  }

  /** Who may edit or confirm what, read off the row. */
  lemma {:induction false} ReadDraftExactly(db: Db, id: string, p: Principal, scoped: bool)
    ensures var read := ReadDraft(db, id, p, scoped);
      && (read.Ok? <==>
           && id in db.routes && db.routes[id].state == Draft && db.routes[id].createdBy == Some(p.actorId)
           && db.routes[id].workspaceId == Some(p.workspaceId)
           && db.routes[id].organizationId == if scoped then p.organizationId else None)
      && (read.Ok? ==> read.value == db.routes[id])
      && (read == Err(RouteNotFound) <==>
           || id !in db.routes
           || (!scoped && db.routes[id].organizationId != None)
           || (scoped && (db.routes[id].organizationId != p.organizationId || db.routes[id].workspaceId != Some(p.workspaceId))))
      && (read.Err? ==> read.error == RouteNotFound || read.error == PermissionDenied || read.error == NotDraft)
      && (read == Err(NotDraft) ==> db.routes[id].createdBy == Some(p.actorId) && db.routes[id].state != Draft)
  {
  }

  // ---- the store ---------------------------------------------------------------------------

  class ExchangeStore {
    var endpoints: map<string, bool>
    var routes: map<string, Route>
    var grants: set<Grant>
    var sourceGrants: set<Grant>
    var ledger: map<(Scope, string), Entry>

    constructor ()
      ensures Tables() == Db(map[], map[], {}, {}, map[])
    {
      endpoints, routes, grants, sourceGrants, ledger := map[], map[], {}, {}, map[];
    }

    function Tables(): Db
      reads this
    {
      Db(endpoints, routes, grants, sourceGrants, ledger)
    }

    method SaveEndpoint(id: string, active: bool)
      modifies this
      ensures Tables() == old(Tables()).(endpoints := old(endpoints)[id := active])
    {
      endpoints := endpoints[id := active];
    }

    /** `INSERT INTO gateway_routes`: fails on a duplicate id or a missing endpoint. */
    method InsertRoute(r: Route) returns (ok: bool)
      modifies this`routes
      ensures ok <==> r.id !in old(routes) && r.endpointId in endpoints
      ensures routes == if ok then old(routes)[r.id := r] else old(routes)
    {
      ok := r.id !in routes && r.endpointId in endpoints;
      if ok {
        routes := routes[r.id := r];
      }
    }

    /** `INSERT INTO idempotency`: fails on a duplicate scope and key. */
    method InsertEntry(scope: Scope, key: string, entry: Entry) returns (ok: bool)
      modifies this`ledger
      ensures ok <==> (scope, key) !in old(ledger)
      ensures ledger == if ok then old(ledger)[(scope, key) := entry] else old(ledger)
    {
      ok := (scope, key) !in ledger;
      if ok {
        ledger := ledger[(scope, key) := entry];
      }
    }

    method CreateRouteDraft(r: Route, scope: Scope, key: string, digest: string,
                            source: Option<string>, bindingRoute: bool)
      returns (reply: Reply<Route>)
      modifies this
      ensures (Tables(), reply) == CreateDraft(old(Tables()), r, scope, key, digest, source, bindingRoute)
    {
      var savedRoutes, savedLedger := routes, ledger;
      var denied := ScopeError(Tables(), r, source, bindingRoute);
      if denied.Some? {
        return Err(denied.value);
      }
      var replay := Resolve(Tables(), scope, key, digest);
      if replay.Err? {
        return Err(replay.error);
      }
      if replay.value.Some? {
        if replay.value.value !in routes {
          return Err(AbsentRoute);
        }
        return Ok(routes[replay.value.value]);
      }
      var inserted := InsertRoute(r);
      var remembered := false;
      if inserted {
        remembered := InsertEntry(scope, key, Entry(digest, r.id));
      }
      if !inserted || !remembered {
        routes, ledger := savedRoutes, savedLedger;
        return Err(IntegrityError);
      }
      return Ok(r);
    }

    method ReplaceRouteVersion(r: Route, expected: nat) returns (reply: Reply<Route>)
      modifies this`routes
      ensures (Tables(), reply) == ReplaceVersion(old(Tables()), r, expected)
    {
      if r.id !in routes || routes[r.id].version != expected {
        return Err(VersionConflict);
      }
      routes := routes[r.id := r];
      return Ok(r);
    }
  }

  // ---- the service, run without interference -------------------------------------------------

  /** The service commands; `RouteRuns` splits each into the steps other requests can interleave with. */
  class ExchangeProductService {
    const store: ExchangeStore

    constructor (store: ExchangeStore)
      ensures this.store == store
    {
      this.store := store;
    }

    method EditRouteDraft(id: string, c: EditCommand, p: Principal) returns (reply: Reply<Route>)
      modifies store
      ensures var read := OwnedDraft(old(store.Tables()), id, p);
        if read.Err? then store.Tables() == old(store.Tables()) && reply == read
        else (store.Tables(), reply) == ReplaceVersion(old(store.Tables()), Edited(read.value, c), c.version)
      ensures reply.Err? ==> store.Tables() == old(store.Tables())
      ensures reply.Ok? ==>
        && id in old(store.routes) && old(store.routes)[id].createdBy == Some(p.actorId)
        && old(store.routes)[id].workspaceId == Some(p.workspaceId) && old(store.routes)[id].organizationId == None
        && old(store.routes)[id].state == Draft && reply.value.state == Draft
        && reply.value.modelPattern == c.modelPattern && reply.value.bindingId == c.bindingId
        && reply.value.targetModel == Some(c.targetModel) && reply.value.priority == c.priority
        && reply.value.version == c.version + 1
        && reply.value.source == old(store.routes)[id].source
    {
      var read := OwnedDraft(store.Tables(), id, p);
      ReadDraftExactly(store.Tables(), id, p, false);
      if read.Err? {
        return read;
      }
      reply := store.ReplaceRouteVersion(Edited(read.value, c), c.version);
    }

    /** Both confirm commands; `validate` is the external check of the target. */
    method ConfirmRouteDraft(id: string, version: nat, p: Principal, scoped: bool, validate: Route -> bool)
      returns (reply: Reply<Route>)
      requires KeyedById(store.Tables())
      modifies store
      ensures KeyedById(store.Tables())
      ensures reply.Err? ==> store.Tables() == old(store.Tables())
      ensures reply.Ok? ==>
        && id in old(store.routes)
        && reply.value.state == Active && reply.value.version == version + 1
        && reply.value.(state := old(store.routes)[id].state, version := version) == old(store.routes)[id]
        && store.Tables() == old(store.Tables()).(routes := old(store.routes)[id := reply.value])
      ensures var db := old(store.Tables());
        reply.Ok? <==>
          && id in db.routes && db.routes[id].state == Draft && db.routes[id].version == version
          && db.routes[id].createdBy == Some(p.actorId) && db.routes[id].workspaceId == Some(p.workspaceId)
          && db.routes[id].organizationId == (if scoped then p.organizationId else None)
          && (scoped ==> p.organizationId.Some?
                         && Grant(db.routes[id].endpointId, p.organizationId.value, p.workspaceId) in db.grants)
          && db.routes[id].endpointId in db.endpoints && db.endpoints[db.routes[id].endpointId]
          && validate(db.routes[id])
      ensures reply.Err? ==> ConfirmFails(old(store.Tables()), id, version, p, scoped, reply.error)
    {
      var read := ReadDraft(store.Tables(), id, p, scoped);
      ReadDraftExactly(store.Tables(), id, p, scoped);
      if read.Err? {
        return read;
      }
      var route := read.value;
      if route.version != version {
        return Err(VersionConflict);
      }
      if scoped && !HasGrant(store.Tables(), route, p) {
        return Err(PermissionDenied);
      }
      var unusable := EndpointError(store.Tables(), route.endpointId);
      if unusable.Some? {
        return Err(unusable.value);
      }
      if !validate(route) {
        return Err(TargetInvalid);
      }
      reply := store.ReplaceRouteVersion(Activated(route, version), version);
    }
  }
}
