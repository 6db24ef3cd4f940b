// The provider route store (internal/providergateway/routes.go): desired routes,
// immediate revocation and tombstones awaiting confirmed removal.

module GatewayRoutes {
  type RouteId = nat
  type Capability = nat
  type Revision = nat

  const MAX_REVISION: nat := 0xFFFF_FFFF_FFFF_FFFF
  const MAX_ROUTES: nat := 4096

  // valid stands for the outcome of the route's own field validation.
  datatype Route = Route(id: RouteId, capability: Capability, valid: bool)

  datatype Stored = Stored(route: Route, desired: bool, active: bool, removal: Revision)

  datatype Store = Store(
    revision: Revision,
    confirmed: Revision,
    routes: map<RouteId, Stored>,
    capabilities: map<Capability, RouteId>)

  const EMPTY_STORE := Store(0, 0, map[], map[])

  datatype Snapshot = Snapshot(revision: Revision, routes: map<RouteId, Route>)

  datatype AddError = EmptySet | TooMany | InvalidRoute | IdCollision | CapabilityCollision | RevisionExhausted

  datatype AddResult = Added(store: Store, revision: Revision) | AddFailed(error: AddError)

  // ---- Specification ---------------------------------------------------------------

  predicate DistinctRoutes(routes: seq<Route>)
  {
    forall i, j | 0 <= i < j < |routes| ::
      routes[i].id != routes[j].id && routes[i].capability != routes[j].capability
  }

  // The routes can join the store.
  predicate Joinable(s: Store, routes: seq<Route>)
  {
    && DistinctRoutes(routes)
    && forall i | 0 <= i < |routes| ::
         routes[i].valid && routes[i].id !in s.routes && routes[i].capability !in s.capabilities
  }

  predicate TakenId(s: Store, routes: seq<Route>, i: nat)
    requires i < |routes|
  {
    routes[i].id in s.routes || exists j | 0 <= j < i :: routes[j].id == routes[i].id
  }

  // Why the route at i cannot join after the ones before it.
  function Offence(s: Store, routes: seq<Route>, i: nat): AddError
    requires i < |routes|
  {
    if !routes[i].valid then InvalidRoute
    else if TakenId(s, routes, i) then IdCollision
    else CapabilityCollision
  }

  function IdsOf(routes: seq<Route>): set<RouteId>
  {
    set i | 0 <= i < |routes| :: routes[i].id
  }

  function WithRoute(s: Store, route: Route): Store
  {
    s.(routes := s.routes[route.id := Stored(route, true, false, 0)],
       capabilities := s.capabilities[route.capability := route.id])
  }

  function WithRoutes(s: Store, routes: seq<Route>): Store
    decreases |routes|
  {
    if routes == [] then s
    else
      WithRoute(WithRoutes(s, routes[..|routes| - 1]), routes[|routes| - 1])
  }

  predicate CanAdd(s: Store, routes: seq<Route>)
  {
    && routes != [] && |s.routes| + |routes| <= MAX_ROUTES
    && Joinable(s, routes) && s.revision < MAX_REVISION
  }

  function AddRoutes(s: Store, routes: seq<Route>): Store
  {
    WithRoutes(s, routes).(revision := s.revision + 1)
  }

  predicate CanActivate(s: Store, ids: set<RouteId>)
  {
    forall id <- ids :: id in s.routes && s.routes[id].desired
  }

  function ActivateRoutes(s: Store, ids: set<RouteId>): Store
  {
    s.(routes := map id | id in s.routes :: if id in ids then s.routes[id].(active := true) else s.routes[id])
  }

  predicate Revocable(s: Store, ids: set<RouteId>)
  {
    exists id <- ids :: id in s.routes && s.routes[id].desired
  }

  function Tombstone(x: Stored, removal: Revision): Stored
  {
    x.(active := false, desired := false, removal := removal)
  }

  function RevokeRoutes(s: Store, ids: set<RouteId>): Store
  {
    if !Revocable(s, ids) then s
    else if s.revision == MAX_REVISION then
      s.(routes := map id | id in s.routes ::
           if id in ids then Tombstone(s.routes[id], MAX_REVISION) else s.routes[id])
    else
      s.(revision := s.revision + 1,
         routes := map id | id in s.routes ::
           if id in ids && s.routes[id].desired then Tombstone(s.routes[id], s.revision + 1) else s.routes[id])
  }

  // The revision revoke hands to its caller.
  function RemovalRevision(s: Store, ids: set<RouteId>): Revision
  {
    if ids == {} then 0 else RevokeRoutes(s, ids).revision
  }

  predicate Dropped(x: Stored, revision: Revision)
  {
    !x.desired && x.removal != 0 && x.removal <= revision
  }

  function ConfirmRoutes(s: Store, revision: Revision): Store
  {
    if revision <= s.confirmed || revision > s.revision then s
    else
      s.(confirmed := revision,
         routes := map id | id in s.routes && !Dropped(s.routes[id], revision) :: s.routes[id],
         capabilities := map c | c in s.capabilities &&
           !(s.capabilities[c] in s.routes && Dropped(s.routes[s.capabilities[c]], revision)) :: s.capabilities[c])
  }

  function DesiredRoutes(s: Store): map<RouteId, Route>
  {
    map id | id in s.routes && s.routes[id].desired :: s.routes[id].route
  }

  function TakeSnapshot(s: Store): Snapshot
  {
    Snapshot(s.revision, DesiredRoutes(s))
  }

  // authorize, after the request itself has been matched against the route.
  predicate Authorized(s: Store, id: RouteId)
  {
    id in s.routes && s.routes[id].desired && s.routes[id].active
  }

  // ---- The capability index --------------------------------------------------------------

  // capabilities is the exact inverse index of routes.
  predicate Indexed(s: Store)
  {
    && (forall id <- s.routes ::
          && s.routes[id].route.id == id
          && s.routes[id].route.capability in s.capabilities
          && s.capabilities[s.routes[id].route.capability] == id)
    && (forall c <- s.capabilities ::
          s.capabilities[c] in s.routes && s.routes[s.capabilities[c]].route.capability == c)
  }

  // The stored form of a set of added routes.
  lemma {:induction false} WithRoutesContents(s: Store, routes: seq<Route>)
    requires Joinable(s, routes)
    ensures var t := WithRoutes(s, routes);
            && t.revision == s.revision && t.confirmed == s.confirmed
            && (forall id <- s.routes :: id in t.routes && t.routes[id] == s.routes[id])
            && (forall i | 0 <= i < |routes| ::
                  routes[i].id in t.routes && t.routes[routes[i].id] == Stored(routes[i], true, false, 0))
            && (forall id <- t.routes :: id in s.routes || exists i :: 0 <= i < |routes| && routes[i].id == id)
    decreases |routes|
  {
    if routes != [] {
      var front := routes[..|routes| - 1];
      var last := routes[|routes| - 1];
      WithRoutesContents(s, front);
      var t, u := WithRoutes(s, routes), WithRoutes(s, front);
      forall i | 0 <= i < |routes|
        ensures routes[i].id in t.routes && t.routes[routes[i].id] == Stored(routes[i], true, false, 0)
      {
        if i < |routes| - 1 {
          assert routes[i] == front[i];
        }
      }
      forall id | id in t.routes
        ensures id in s.routes || exists i :: 0 <= i < |routes| && routes[i].id == id
      {
        if id != last.id && id !in s.routes {
          var i :| 0 <= i < |front| && front[i].id == id;
          assert routes[i].id == id;
        }
      }
    }
  }

  lemma WithRouteIndexed(s: Store, route: Route)
    requires Indexed(s) && route.id !in s.routes && route.capability !in s.capabilities
    ensures Indexed(WithRoute(s, route))
  {
  }

  lemma {:induction false} WithRoutesCapabilities(s: Store, routes: seq<Route>, c: Capability)
    requires c in WithRoutes(s, routes).capabilities && c !in s.capabilities
    ensures exists i :: 0 <= i < |routes| && routes[i].capability == c
    decreases |routes|
  {
    var front := routes[..|routes| - 1];
    if c == routes[|routes| - 1].capability {
      assert routes[|routes| - 1].capability == c;
    } else {
      WithRoutesCapabilities(s, front, c);
      var i :| 0 <= i < |front| && front[i].capability == c;
      assert routes[i].capability == c;
    }
  }

  lemma {:induction false} WithRoutesIndexed(s: Store, routes: seq<Route>)
    requires Indexed(s) && Joinable(s, routes)
    ensures Indexed(WithRoutes(s, routes))
    decreases |routes|
  {
    if routes != [] {
      var front := routes[..|routes| - 1];
      var last := routes[|routes| - 1];
      WithRoutesIndexed(s, front);
      WithRoutesContents(s, front);
      var u := WithRoutes(s, front);
      if last.capability in u.capabilities {
        WithRoutesCapabilities(s, front, last.capability);
        assert false;
      }
      assert last.id !in u.routes;
      WithRouteIndexed(u, last);
    }
  }

  lemma AddKeepsIndex(s: Store, routes: seq<Route>)
    requires Indexed(s) && Joinable(s, routes)
    ensures Indexed(AddRoutes(s, routes))
  {
    WithRoutesIndexed(s, routes);
  }

  lemma ConfirmKeepsIndex(s: Store, revision: Revision)
    requires Indexed(s)
    ensures Indexed(ConfirmRoutes(s, revision))
  {
  }

  lemma RevokeKeepsIndex(s: Store, ids: set<RouteId>)
    requires Indexed(s)
    ensures Indexed(RevokeRoutes(s, ids)) && Indexed(ActivateRoutes(s, ids))
  {
  }

  // ---- What a revoke leaves ----------------------------------------------------------------

  // t is s without the routes ids: those that were desired are tombstones of the
  // removal, none is authorized, and every other route is what it was.
  predicate Withdrawn(s: Store, t: Store, ids: set<RouteId>, removal: Revision)
  {
    && t.routes.Keys == s.routes.Keys && t.capabilities == s.capabilities && t.confirmed == s.confirmed
    && (forall id <- s.routes :: id in ids ==>
          && !t.routes[id].desired
          && (s.routes[id].desired ==> !t.routes[id].active && t.routes[id].removal == removal == t.revision))
    && (forall id <- s.routes :: id !in ids ==> t.routes[id] == s.routes[id])
    && (forall id <- s.routes :: !s.routes[id].desired && s.revision < MAX_REVISION ==> t.routes[id] == s.routes[id])
  }

  lemma RevokeWithdraws(s: Store, ids: set<RouteId>)
    requires s.revision <= MAX_REVISION
    ensures Withdrawn(s, RevokeRoutes(s, ids), ids, RemovalRevision(s, ids))
    ensures s.revision < MAX_REVISION ==>
              RevokeRoutes(s, ids).revision == s.revision + if Revocable(s, ids) then 1 else 0
    ensures forall id <- ids :: !Authorized(RevokeRoutes(s, ids), id)
  {
  }

  // ---- Revisions ---------------------------------------------------------------------------

  // A revoke that changes anything hands out a revision no snapshot has carried
  // yet exactly when the revision space is not exhausted.
  lemma FreshRemovalIffNotExhausted(s: Store, ids: set<RouteId>)
    requires Revocable(s, ids) && s.revision <= MAX_REVISION
    ensures RemovalRevision(s, ids) > s.revision <==> s.revision < MAX_REVISION
  {
    assert ids != {};
  }

  // Below exhaustion the desired routes never change without the revision.
  lemma DesiredNeedsRevision(s: Store, ids: set<RouteId>, revision: Revision)
    ensures DesiredRoutes(ActivateRoutes(s, ids)) == DesiredRoutes(s)
    ensures DesiredRoutes(ConfirmRoutes(s, revision)) == DesiredRoutes(s)
    ensures s.revision < MAX_REVISION && RevokeRoutes(s, ids).revision == s.revision ==>
              DesiredRoutes(RevokeRoutes(s, ids)) == DesiredRoutes(s)
  {
  }
}
