/**
 What route planning sees of a request (`_request_for_routing` in
 src/cyrene_exchange/gateway.py) and the plan it makes from the stored routes
 (product/src/cyrene_exchange_product/routing.py over `active_routes` in
 product/src/cyrene_exchange_product/store.py). `fnmatchcase` is an arbitrary
 predicate on a model name and a pattern.
 */
module Routing {
  import opened Prelude
  import opened Values
  import opened Protocol
  import opened Sorting
  import opened RouteStore

  // ---- the view of a request ----------------------------------------------------------

  predicate IsText(f: Fields) {
    Get(f, "type") == Str("text")
  }

  function MediaFacts(f: Fields): Fields {
    var facts: Fields := map["type" := Get(f, "type"), "mime_type" := Get(f, "mime_type")];
    if Get(f, "data").Bytes? then facts["byte_length" := Int(|f["data"].data|)]
    else facts["has_artifact" := Bool("artifact_id" in f)]
  }

  function PartView(raw: Value): Value {
    if !raw.Dict? then Dict(map[]) else if IsText(raw.fields) then raw else Dict(MediaFacts(raw.fields))
  }

  function PartViews(items: seq<Value>): seq<Value> {
    seq(|items|, i requires 0 <= i < |items| => PartView(items[i]))
  }

  function MessageView(m: Fields): Fields {
    if Get(m, "content").List? then m["content" := List(PartViews(m["content"].items))] else m
  }

  function MessageViews(messages: seq<Fields>): seq<Fields> {
    seq(|messages|, i requires 0 <= i < |messages| => MessageView(messages[i]))
  }

  function RoutingView(r: Request): Request {
    r.(messages := MessageViews(r.messages))
  }

  method ViewParts(items: seq<Value>) returns (parts: seq<Value>)
    ensures parts == PartViews(items)
  {
    parts := [];
    for j := 0 to |items|
      invariant parts == PartViews(items)[..j]
    {
      var part := Dict(map[]);
      if items[j].Dict? {
        var f := items[j].fields;
        if IsText(f) {
          part := items[j];
        } else {
          var facts: Fields := map["type" := Get(f, "type"), "mime_type" := Get(f, "mime_type")];
          var data := Get(f, "data");
          if data.Bytes? {
            facts := facts["byte_length" := Int(|data.data|)];
          } else {
            facts := facts["has_artifact" := Bool("artifact_id" in f)];
          }
          part := Dict(facts);
        }
      }
      parts := parts + [part];
    }
  }

  method RequestForRouting(r: Request) returns (view: Request)
    ensures view == RoutingView(r)
  {
    var messages: seq<Fields> := [];
    for i := 0 to |r.messages|
      invariant messages == MessageViews(r.messages)[..i]
    {
      var m := r.messages[i];
      if Get(m, "content").List? {
        var parts := ViewParts(m["content"].items);
        m := m["content" := List(parts)];
      }
      messages := messages + [m];
    }
    return r.(messages := messages);
  }

  /** Two parts that differ at most in media bytes of equal length, artifact ids and file names. */
  predicate PartsAlike(a: Value, b: Value) {
    if !a.Dict? || !b.Dict? then !a.Dict? && !b.Dict?
    else if Get(a.fields, "type") == Str("text") || Get(b.fields, "type") == Str("text") then a == b
    else
      && Get(a.fields, "type") == Get(b.fields, "type")
      && Get(a.fields, "mime_type") == Get(b.fields, "mime_type")
      && (if Get(a.fields, "data").Bytes? then
            Get(b.fields, "data").Bytes? && |a.fields["data"].data| == |b.fields["data"].data|
          else !Get(b.fields, "data").Bytes? && ("artifact_id" in a.fields <==> "artifact_id" in b.fields))
  }

  predicate MessagesAlike(a: Fields, b: Fields) {
    if !Get(a, "content").List? || !Get(b, "content").List? then a == b
    else
      && a["content" := Null] == b["content" := Null]
      && |a["content"].items| == |b["content"].items|
      && forall j :: 0 <= j < |a["content"].items| ==> PartsAlike(a["content"].items[j], b["content"].items[j])
  }

  /** The two requests agree but for the media the router must not see. */
  predicate Alike(a: Request, b: Request) {
    && a.(messages := []) == b.(messages := [])
    && |a.messages| == |b.messages|
    && forall i :: 0 <= i < |a.messages| ==> MessagesAlike(a.messages[i], b.messages[i])
  }

  lemma {:induction false} PartViewExact(a: Value, b: Value)
    ensures PartView(a) == PartView(b) <==> PartsAlike(a, b)
  {
    if a.Dict? && b.Dict? && !IsText(a.fields) && !IsText(b.fields) {
      MediaFactsExact(a.fields, b.fields);
    } else if a.Dict? && b.Dict? {
      assert MediaFacts(a.fields)["type"] == Get(a.fields, "type");
      assert MediaFacts(b.fields)["type"] == Get(b.fields, "type");
    } else if a.Dict? {
      assert "type" in PartView(a).fields;
    } else if b.Dict? {
      assert "type" in PartView(b).fields;
    }
  }

  lemma {:induction false} MediaFactsExact(f: Fields, g: Fields)
    requires !IsText(f) && !IsText(g)
    ensures MediaFacts(f) == MediaFacts(g) <==> PartsAlike(Dict(f), Dict(g))
  {
    var x, y := MediaFacts(f), MediaFacts(g);
    if x == y {
      assert x["type"] == y["type"] && x["mime_type"] == y["mime_type"];
      assert "byte_length" in x <==> "byte_length" in y;
      if "byte_length" in x {
        assert x["byte_length"] == y["byte_length"];
      } else {
        assert x["has_artifact"] == y["has_artifact"];
      }
    }
  }

  lemma {:induction false} MessageViewExact(a: Fields, b: Fields)
    ensures MessageView(a) == MessageView(b) <==> MessagesAlike(a, b)
  {
    if Get(a, "content").List? && Get(b, "content").List? {
      var x, y := a["content"].items, b["content"].items;
      forall j | 0 <= j < |x| && j < |y| ensures PartView(x[j]) == PartView(y[j]) <==> PartsAlike(x[j], y[j]) {
        PartViewExact(x[j], y[j]);
      }
      assert PartViews(x) == PartViews(y) <==>
        |x| == |y| && forall j :: 0 <= j < |x| ==> PartsAlike(x[j], y[j]) by {
        if PartViews(x) == PartViews(y) {
          assert |x| == |PartViews(x)| == |y|;
          forall j | 0 <= j < |x| ensures PartsAlike(x[j], y[j]) {
            assert PartViews(x)[j] == PartViews(y)[j];
          }
        }
      }
      SameElsewhere(a, b, List(PartViews(x)), List(PartViews(y)));
    } else if Get(a, "content").List? {
      assert MessageView(a)["content"].List?;
    } else if Get(b, "content").List? {
      assert MessageView(b)["content"].List?;
    }
  }

  lemma {:induction false} SameElsewhere(a: Fields, b: Fields, x: Value, y: Value)
    requires "content" in a && "content" in b
    ensures a["content" := x] == b["content" := y] <==> x == y && a["content" := Null] == b["content" := Null]
  {
    if a["content" := x] == b["content" := y] {
      assert a["content" := x]["content"] == b["content" := y]["content"];
      assert a["content" := x]["content" := Null] == a["content" := Null];
      assert b["content" := y]["content" := Null] == b["content" := Null];
    }
    if x == y && a["content" := Null] == b["content" := Null] {
      assert a["content" := Null]["content" := x] == a["content" := x];
      assert b["content" := Null]["content" := y] == b["content" := y];
    }
  }

  /** A router sees the same of two requests, and so plans them alike, exactly when they are alike. */
  lemma {:induction false} ViewExact(a: Request, b: Request)
    ensures RoutingView(a) == RoutingView(b) <==> Alike(a, b)
  {
    var x, y := MessageViews(a.messages), MessageViews(b.messages);
    forall i | 0 <= i < |a.messages| && i < |b.messages|
      ensures x[i] == y[i] <==> MessagesAlike(a.messages[i], b.messages[i])
    {
      MessageViewExact(a.messages[i], b.messages[i]);
    }
    if RoutingView(a) == RoutingView(b) {
      assert x == y && |a.messages| == |x| == |b.messages|;
      assert RoutingView(a).(messages := []) == a.(messages := []);
      assert RoutingView(b).(messages := []) == b.(messages := []);
    }
    if Alike(a, b) {
      assert x == y;
      assert a.(messages := []).(messages := x) == RoutingView(a);
      assert b.(messages := []).(messages := y) == RoutingView(b);
    }
  }

  datatype RouteTarget = RouteTarget(providerRef: string, routeId: string, model: Option<string>)

  // ---- the stored plan ------------------------------------------------------------------

  datatype PlanScope = PlanScope(organizationId: Option<string>, workspaceId: Option<string>)

  const UNSCOPED := PlanScope(None, None)

  /** The scope of an authenticated principal; without an organization it is the legacy one. */
  function ScopeOf(organizationId: Option<string>, workspaceId: string): PlanScope {
    PlanScope(organizationId, if organizationId.Some? then Some(workspaceId) else None)
  }

  type Key = (nat, string)

  predicate KeyLe(a: Key, b: Key) {
    a.0 < b.0 || (a.0 == b.0 && StringLe(a.1, b.1))
  }

  lemma {:induction false} KeyOrder()
    ensures TotalOrder(KeyLe)
  {
    StringOrder();
    assert forall x: Key, y: Key, z: Key :: KeyLe(x, y) && KeyLe(y, z) ==> KeyLe(x, z) by {
      forall x: Key, y: Key, z: Key | KeyLe(x, y) && KeyLe(y, z) ensures KeyLe(x, z) {
        if x.0 == y.0 && y.0 == z.0 {
          StringLeTransitive(x.1, y.1, z.1);
        }
      }
    }
  }

  function KeyOf(r: Route): Key {
    (r.priority, r.id)
  }

  predicate InScope(r: Route, scope: PlanScope) {
    if scope.organizationId.None? then scope.workspaceId.None? && r.organizationId.None?
    else
      && scope.workspaceId.Some? && scope.workspaceId.value != ""
      && r.organizationId == scope.organizationId && r.workspaceId == scope.workspaceId
  }

  predicate Live(db: Db, id: string, endpoint: string, scope: PlanScope) {
    && id in db.routes
    && db.routes[id].state == Active && db.routes[id].endpointId == endpoint && InScope(db.routes[id], scope)
  }

  /** Some enumeration of a finite set. */
  ghost function Enumerate<T>(s: set<T>): (r: seq<T>)
    ensures multiset(r) == multiset(s)
    decreases |s|
  {
    if s == {} then []
    else
      var x :| x in s;
      assert s == (s - {x}) + {x};
      [x] + Enumerate(s - {x})
  }

  ghost function LiveKeys(db: Db, endpoint: string, scope: PlanScope): set<Key> {
    set id | id in db.routes && Live(db, id, endpoint, scope) :: (db.routes[id].priority, id)
  }

  /** The rows of the query: the live routes of the scope by priority and id. */
  ghost function ActiveRoutes(db: Db, endpoint: string, scope: PlanScope): (rows: seq<Route>)
    requires KeyedById(db)
  {
    RowsOf(db, Sort(Enumerate(LiveKeys(db, endpoint, scope)), KeyLe))
  }

  ghost function RowsOf(db: Db, keys: seq<Key>): (rows: seq<Route>)
    ensures |rows| <= |keys|
    ensures (forall i :: 0 <= i < |keys| ==> keys[i].1 in db.routes) ==>
      |rows| == |keys| && forall i :: 0 <= i < |keys| ==> rows[i] == db.routes[keys[i].1]
  {
    if keys == [] then []
    else if keys[0].1 !in db.routes then RowsOf(db, keys[1..])
    else [db.routes[keys[0].1]] + RowsOf(db, keys[1..])
  }

  function Matching(rows: seq<Route>, model: string, matches: (string, string) -> bool): seq<Route> {
    if rows == [] then []
    else
      (if matches(model, rows[0].modelPattern) then [rows[0]] else []) + Matching(rows[1..], model, matches)
  }

  function Targets(rows: seq<Route>): seq<RouteTarget> {
    seq(|rows|, i requires 0 <= i < |rows| => RouteTarget(rows[i].bindingId, rows[i].id, rows[i].targetModel))
  }

  /** The routes behind a plan; a missing or inactive endpoint has none. */
  ghost function PlannedRoutes(db: Db, endpoint: string, scope: PlanScope, model: string,
                               matches: (string, string) -> bool): seq<Route>
    requires KeyedById(db)
  {
    if endpoint !in db.endpoints || !db.endpoints[endpoint] then []
    else Matching(ActiveRoutes(db, endpoint, scope), model, matches)
  }

  ghost function Plan(db: Db, endpoint: string, scope: PlanScope, request: Request,
                      matches: (string, string) -> bool): seq<RouteTarget>
    requires KeyedById(db)
  {
    Targets(PlannedRoutes(db, endpoint, scope, request.model, matches))
  }

  // ---- what the plan is, without saying how it is made -----------------------------------

  predicate Before(a: Route, b: Route) {
    a.id != b.id && (a.priority < b.priority || (a.priority == b.priority && StringLe(a.id, b.id)))
  }

  predicate InPlanOrder(rows: seq<Route>) {
    forall i, j :: 0 <= i < j < |rows| ==> Before(rows[i], rows[j])
  }

  /** The route belongs to the scope: unowned for the legacy scope, else to its organization and named workspace. */
  predicate OwnedBy(r: Route, scope: PlanScope) {
    match scope
    case PlanScope(None, None) => r.organizationId == None
    case PlanScope(Some(organization), Some(workspace)) =>
      workspace != "" && r.organizationId == Some(organization) && r.workspaceId == Some(workspace)
    case _ => false
  }

  /** The routes a plan must hold. */
  ghost predicate Eligible(db: Db, r: Route, endpoint: string, scope: PlanScope, model: string,
                           matches: (string, string) -> bool)
  {
    && endpoint in db.endpoints && db.endpoints[endpoint]
    && r.id in db.routes && db.routes[r.id] == r
    && r.state == Active && r.endpointId == endpoint && OwnedBy(r, scope)
    && matches(model, r.modelPattern)
  }

  ghost predicate IsPlan(rows: seq<Route>, db: Db, endpoint: string, scope: PlanScope, model: string,
                         matches: (string, string) -> bool)
  {
    && InPlanOrder(rows)
    && forall r :: r in rows <==> Eligible(db, r, endpoint, scope, model, matches)
  }

  lemma {:induction false} ActiveRoutesOrdered(db: Db, endpoint: string, scope: PlanScope)
    requires KeyedById(db)
    ensures InPlanOrder(ActiveRoutes(db, endpoint, scope))
    ensures forall r: Route :: r in ActiveRoutes(db, endpoint, scope) <==>
      Live(db, r.id, endpoint, scope) && db.routes[r.id] == r
  {
    var live := LiveKeys(db, endpoint, scope);
    var keys := Sort(Enumerate(live), KeyLe);
    var rows := ActiveRoutes(db, endpoint, scope);
    KeyOrder();
    SortSorted(Enumerate(live), KeyLe);
    assert multiset(keys) == multiset(live);
    forall i | 0 <= i < |keys| ensures keys[i] in live {
      assert keys[i] in multiset(keys);
    }
    assert forall i :: 0 <= i < |keys| ==> KeyOf(rows[i]) == keys[i];
    forall i, j | 0 <= i < j < |rows| ensures Before(rows[i], rows[j]) {
      assert KeyLe(keys[i], keys[j]);
      DistinctInSet(keys, live, i, j);
    }
    forall r: Route | Live(db, r.id, endpoint, scope) && db.routes[r.id] == r ensures r in rows {
      assert KeyOf(r) in live;
      assert KeyOf(r) in multiset(keys);
      var i :| 0 <= i < |keys| && keys[i] == KeyOf(r);
      assert rows[i] == r;
    }
  }

  /** A listing of a set repeats nothing. */
  lemma {:induction false} DistinctInSet<T>(s: seq<T>, elements: set<T>, i: nat, j: nat)
    requires multiset(s) == multiset(elements) && i < j < |s|
    ensures s[i] != s[j]
  {
    assert s == s[..j] + [s[j]] + s[j + 1..];
    assert s[i] in s[..j];
    assert multiset(s)[s[j]] <= 1;
    assert multiset(s) == multiset(s[..j]) + multiset{s[j]} + multiset(s[j + 1..]);
  }

  lemma {:induction false} MatchingKeepsOrder(rows: seq<Route>, model: string, matches: (string, string) -> bool)
    requires InPlanOrder(rows)
    ensures InPlanOrder(Matching(rows, model, matches))
    ensures forall r :: r in Matching(rows, model, matches) <==> r in rows && matches(model, r.modelPattern)
    decreases |rows|
  {
    if rows != [] {
      MatchingKeepsOrder(rows[1..], model, matches);
      var rest := Matching(rows[1..], model, matches);
      forall r | r in rest ensures Before(rows[0], r) {
        assert r in rows[1..];
      }
      assert rows == [rows[0]] + rows[1..];
    }
  }

  /** The plan of a scope lists exactly its matching live routes, in order of priority and id, each once. */
  lemma {:induction false} PlanIsExact(db: Db, endpoint: string, scope: PlanScope, model: string,
                                       matches: (string, string) -> bool)
    requires KeyedById(db)
    ensures IsPlan(PlannedRoutes(db, endpoint, scope, model, matches), db, endpoint, scope, model, matches)
  {
    var rows := ActiveRoutes(db, endpoint, scope);
    ActiveRoutesOrdered(db, endpoint, scope);
    MatchingKeepsOrder(rows, model, matches);
    if endpoint in db.endpoints && db.endpoints[endpoint] {
      forall r: Route
        ensures r in Matching(rows, model, matches) <==> Eligible(db, r, endpoint, scope, model, matches)
      {
        LiveIsOwned(db, r, endpoint, scope);
      }
    }
  }

  lemma {:induction false} LiveIsOwned(db: Db, r: Route, endpoint: string, scope: PlanScope)
    ensures Live(db, r.id, endpoint, scope) && db.routes[r.id] == r <==>
      r.id in db.routes && db.routes[r.id] == r && r.state == Active && r.endpointId == endpoint && OwnedBy(r, scope)
  {
  }

  lemma {:induction false} BeforeIsStrict(a: Route, b: Route)
    ensures !(Before(a, b) && Before(b, a))
  {
    StringLeTotal(a.id, b.id);
  }

  lemma {:induction false} HeadIsMember(s: seq<Route>)
    ensures s == [] || s[0] in s
  {
  }

  /** Contents and order leave no choice. */
  lemma {:induction false} OrderIsUnique(a: seq<Route>, b: seq<Route>)
    requires InPlanOrder(a) && InPlanOrder(b) && forall r :: r in a <==> r in b
    ensures a == b
    decreases |a|
  {
    if a == [] {
      HeadIsMember(b);
    } else {
      assert a[0] in a && a[0] in b;
      assert b != [] && b[0] in b && b[0] in a;
      BeforeIsStrict(a[0], b[0]);
      assert a[0] == b[0];
      forall r ensures r in a[1..] <==> r in b[1..] {
        SameTails(a, b, r);
        SameTails(b, a, r);
      }
      OrderIsUnique(a[1..], b[1..]);
    }
  }

  lemma {:induction false} SameTails(a: seq<Route>, b: seq<Route>, r: Route)
    requires a != [] && b != [] && a[0] == b[0] && InPlanOrder(a) && forall q :: q in a ==> q in b
    ensures r in a[1..] ==> r in b[1..]
  {
    if r in a[1..] {
      var i :| 0 <= i < |a[1..]| && a[1..][i] == r;
      assert Before(a[0], a[i + 1]);
      assert r in a;
      assert b == [b[0]] + b[1..];
    }
  }

  /** Hence the plan is the only list that a store may return: any listing with these contents and order is it. */
  lemma {:induction false} PlanIsUnique(rows: seq<Route>, db: Db, endpoint: string, scope: PlanScope, model: string,
                                        matches: (string, string) -> bool)
    requires KeyedById(db)
    ensures IsPlan(rows, db, endpoint, scope, model, matches) <==>
      rows == PlannedRoutes(db, endpoint, scope, model, matches)
  {
    PlanIsExact(db, endpoint, scope, model, matches);
    if IsPlan(rows, db, endpoint, scope, model, matches) {
      OrderIsUnique(rows, PlannedRoutes(db, endpoint, scope, model, matches));
    }
  }

  /** Plans of different scopes share no route, even for different models. */
  lemma {:induction false} ScopesAreDisjoint(db: Db, endpoint: string, a: PlanScope, b: PlanScope, r: Request, q: Request,
                                             matches: (string, string) -> bool, i: nat, j: nat)
    requires KeyedById(db) && a != b
    requires i < |Plan(db, endpoint, a, r, matches)| && j < |Plan(db, endpoint, b, q, matches)|
    ensures Plan(db, endpoint, a, r, matches)[i].routeId != Plan(db, endpoint, b, q, matches)[j].routeId
  {
    PlanIsExact(db, endpoint, a, r.model, matches);
    PlanIsExact(db, endpoint, b, q.model, matches);
    var x, y := PlannedRoutes(db, endpoint, a, r.model, matches), PlannedRoutes(db, endpoint, b, q.model, matches);
    assert x[i] in x && y[j] in y;
  }

  function Without(rows: seq<Route>, id: string): seq<Route> {
    if rows == [] then []
    else (if rows[0].id != id then [rows[0]] else []) + Without(rows[1..], id)
  }

  lemma {:induction false} WithoutKeepsOrder(rows: seq<Route>, id: string)
    requires InPlanOrder(rows)
    ensures InPlanOrder(Without(rows, id))
    ensures forall r :: r in Without(rows, id) <==> r in rows && r.id != id
    decreases |rows|
  {
    if rows != [] {
      WithoutKeepsOrder(rows[1..], id);
      var rest := Without(rows[1..], id);
      forall r | r in rest ensures Before(rows[0], r) {
        assert r in rows[1..];
      }
      assert rows == [rows[0]] + rows[1..];
    }
  }

  /**
   Confirming a draft changes a plan, of whatever scope, by at most its own
   route: every other entry stays, in the same order, and the route is added
   exactly to the matching plans of its own active endpoint and scope.
   */
  lemma {:induction false} ActivationAddsOneRoute(db: Db, id: string, version: nat, endpoint: string, scope: PlanScope,
                                                  model: string, matches: (string, string) -> bool)
    requires KeyedById(db) && id in db.routes && db.routes[id].state == Draft
    requires ReplaceVersion(db, Activated(db.routes[id], version), version).1.Ok?
    ensures var after := ReplaceVersion(db, Activated(db.routes[id], version), version).0;
      var route := after.routes[id];
      && KeyedById(after)
      && Without(PlannedRoutes(after, endpoint, scope, model, matches), id)
         == PlannedRoutes(db, endpoint, scope, model, matches)
      && (route in PlannedRoutes(after, endpoint, scope, model, matches) <==>
           && endpoint in db.endpoints && db.endpoints[endpoint] && route.endpointId == endpoint
           && OwnedBy(route, scope) && matches(model, route.modelPattern))
  {
    var after := ReplaceVersion(db, Activated(db.routes[id], version), version).0;
    var rows, more := PlannedRoutes(db, endpoint, scope, model, matches), PlannedRoutes(after, endpoint, scope, model, matches);
    PlanIsExact(db, endpoint, scope, model, matches);
    PlanIsExact(after, endpoint, scope, model, matches);
    WithoutKeepsOrder(more, id);
    forall r: Route ensures r in Without(more, id) <==> r in rows {
      OthersStayEligible(db, id, version, r, endpoint, scope, model, matches);
    }
    OrderIsUnique(Without(more, id), rows);
  }

  lemma {:induction false} OthersStayEligible(db: Db, id: string, version: nat, r: Route, endpoint: string, scope: PlanScope,
                                              model: string, matches: (string, string) -> bool)
    requires KeyedById(db) && id in db.routes && db.routes[id].state == Draft && db.routes[id].version == version
    ensures var after := ReplaceVersion(db, Activated(db.routes[id], version), version).0;
      Eligible(db, r, endpoint, scope, model, matches) <==>
        Eligible(after, r, endpoint, scope, model, matches) && r.id != id
  {
  }
}
