/**
 What a router is shown and what a plan lists, field by field
 (`_request_for_routing` in src/cyrene_exchange/gateway.py and
 product/src/cyrene_exchange_product/routing.py).
 */
module PlanLaws {
  import opened Prelude
  import opened Values
  import opened Protocol
  import opened Sorting
  import opened RouteStore
  import opened Routing

  // ---- the view of a request ------------------------------------------------------------------------

  /** A text part is shown as it is, a media part by its type, its MIME type and the length of its bytes or the presence of a reference. */
  predicate Shows(raw: Value, shown: Value) {
    && shown.Dict?
    && (raw.Dict? && Get(raw.fields, "type") == Str("text") ==> shown == raw)
    && (raw.Dict? && Get(raw.fields, "type") != Str("text") ==>
         && shown.fields.Keys == {"type", "mime_type", if Get(raw.fields, "data").Bytes? then "byte_length" else "has_artifact"}
         && shown.fields["type"] == Get(raw.fields, "type") && shown.fields["mime_type"] == Get(raw.fields, "mime_type")
         && (Get(raw.fields, "data").Bytes? ==> shown.fields["byte_length"] == Int(|raw.fields["data"].data|))
         && (!Get(raw.fields, "data").Bytes? ==> shown.fields["has_artifact"] == Bool("artifact_id" in raw.fields)))
    && (!raw.Dict? ==> shown.fields == map[])
  }

  lemma {:induction false} PartIsShown(raw: Value)
    ensures Shows(raw, PartView(raw))
  {
  }

  /** Messages and parts are shown in number and order; whatever else a request or a message holds is shown unchanged. */
  lemma {:induction false} RouterSees(r: Request, i: nat, j: nat)
    ensures RoutingView(r).(messages := r.messages) == r && |RoutingView(r).messages| == |r.messages|
    ensures i < |r.messages| ==>
      var m, shown := r.messages[i], RoutingView(r).messages[i];
      if !Get(m, "content").List? then shown == m
      else
        && shown.Keys == m.Keys && (forall key :: key in m && key != "content" ==> shown[key] == m[key])
        && shown["content"].List? && |shown["content"].items| == |m["content"].items|
        && (j < |m["content"].items| ==> Shows(m["content"].items[j], shown["content"].items[j]))
  {
    if i < |r.messages| && Get(r.messages[i], "content").List? && j < |r.messages[i]["content"].items| {
      PartIsShown(r.messages[i]["content"].items[j]);
    }
  }

  // ---- the plan --------------------------------------------------------------------------------------

  /** The stored route may serve the principal: an active route of the endpoint for the model, owned by its scope. */
  ghost predicate MayServe(db: Db, id: string, endpoint: string, organizationId: Option<string>, workspaceId: string, model: string,
                           matches: (string, string) -> bool)
  {
    && endpoint in db.endpoints && db.endpoints[endpoint]
    && id in db.routes && db.routes[id].state == Active && db.routes[id].endpointId == endpoint
    && matches(model, db.routes[id].modelPattern)
    && db.routes[id].organizationId == organizationId
    && (organizationId.Some? ==> workspaceId != "" && db.routes[id].workspaceId == Some(workspaceId))
  }

  /**
   The plan for a principal, target by target: the binding, id and target model
   of a stored route that may serve it, by increasing priority and, among equals,
   by id; every such route is listed once.
   */
  lemma {:induction false} PlanForPrincipal(db: Db, endpoint: string, organizationId: Option<string>, workspaceId: string,
                                            request: Request, matches: (string, string) -> bool)
    requires KeyedById(db)
    ensures var plan := Plan(db, endpoint, ScopeOf(organizationId, workspaceId), request, matches);
      && (forall i :: 0 <= i < |plan| ==>
           && MayServe(db, plan[i].routeId, endpoint, organizationId, workspaceId, request.model, matches)
           && plan[i].providerRef == db.routes[plan[i].routeId].bindingId
           && plan[i].model == db.routes[plan[i].routeId].targetModel)
      && (forall i, j :: 0 <= i < j < |plan| ==>
           && plan[i].routeId != plan[j].routeId
           && var a, b := db.routes[plan[i].routeId], db.routes[plan[j].routeId];
             a.priority < b.priority || (a.priority == b.priority && StringLe(a.id, b.id)))
      && (forall id :: MayServe(db, id, endpoint, organizationId, workspaceId, request.model, matches) ==>
           exists i :: 0 <= i < |plan| && plan[i].routeId == id)
  {
    var scope := ScopeOf(organizationId, workspaceId);
    var rows := PlannedRoutes(db, endpoint, scope, request.model, matches);
    var plan := Plan(db, endpoint, scope, request, matches);
    PlanIsExact(db, endpoint, scope, request.model, matches);
    forall i | 0 <= i < |rows|
      ensures Eligible(db, rows[i], endpoint, scope, request.model, matches)
      ensures MayServe(db, rows[i].id, endpoint, organizationId, workspaceId, request.model, matches)
    {
      assert rows[i] in rows;
    }
    forall id | MayServe(db, id, endpoint, organizationId, workspaceId, request.model, matches)
      ensures exists i :: 0 <= i < |plan| && plan[i].routeId == id
    {
      assert db.routes[id].id == id;
      assert db.routes[id] in rows;
      var i :| 0 <= i < |rows| && rows[i] == db.routes[id];
      assert plan[i].routeId == id;
    }
  }
}
