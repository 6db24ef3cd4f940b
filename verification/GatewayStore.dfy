// The route store object: its methods loop over routes and identifiers and
// update the maps in place.

module GatewayStore {
  import opened GatewayRoutes

  datatype Failure = NoFailure | Because(error: AddError)

  class RouteStore {
    var revision: Revision
    var confirmed: Revision
    var routes: map<RouteId, Stored>
    var capabilities: map<Capability, RouteId>

    constructor ()
      ensures View() == EMPTY_STORE && Valid()
    {
      revision, confirmed, routes, capabilities := 0, 0, map[], map[];
    }

    function View(): Store
      reads this
    {
      Store(revision, confirmed, routes, capabilities)
    }

    predicate Valid()
      reads this
    {
      revision <= MAX_REVISION && Indexed(View())
    }

    // The validation pass of add; it changes nothing.
    method CheckJoin(items: seq<Route>) returns (error: Failure)
      ensures error.NoFailure? <==> Joinable(View(), items)
      ensures error.Because? ==>
                exists i | 0 <= i < |items| ::
                  && Joinable(View(), items[..i]) && !Joinable(View(), items[..i + 1])
                  && error.error == Offence(View(), items, i)
    {
      var ids: set<RouteId>, seen: set<Capability> := {}, {};
      for i := 0 to |items|
        invariant ids == set j | 0 <= j < i :: items[j].id
        invariant seen == set j | 0 <= j < i :: items[j].capability
        invariant Joinable(View(), items[..i])
      {
        var item := items[i];
        assert items[..i + 1][i] == item && items[..i + 1][..i] == items[..i];
        if !item.valid {
          return Because(InvalidRoute);
        }
        if item.id in routes || item.id in ids {
          assert TakenId(View(), items, i);
          return Because(IdCollision);
        }
        if item.capability in capabilities || item.capability in seen {
          return Because(CapabilityCollision);
        }
        ids, seen := ids + {item.id}, seen + {item.capability};
      }
      assert items[..|items|] == items;
      return NoFailure;
    }

    // The installing pass of add.
    method Install(items: seq<Route>)
      modifies this`routes, this`capabilities
      ensures View() == WithRoutes(old(View()), items)
    {
      for i := 0 to |items|
        invariant View() == WithRoutes(old(View()), items[..i])
      {
        var item := items[i];
        routes := routes[item.id := Stored(item, true, false, 0)];
        capabilities := capabilities[item.capability := item.id];
        assert items[..i + 1][..i] == items[..i];
      }
      assert items[..|items|] == items;
    }

    // Fails without any change unless every route can join.
    method Add(items: seq<Route>) returns (r: AddResult)
      requires Valid()
      modifies this
      ensures Valid()
      ensures r.Added? <==> old(CanAdd(View(), items))
      ensures r.Added? ==> View() == AddRoutes(old(View()), items) && r == Added(View(), revision)
      ensures r.AddFailed? ==> View() == old(View())
      ensures r == AddFailed(EmptySet) <==> items == []
      ensures r == AddFailed(TooMany) <==> items != [] && |old(routes)| + |items| > MAX_ROUTES
      ensures r == AddFailed(RevisionExhausted) <==>
                && items != [] && |old(routes)| + |items| <= MAX_ROUTES
                && old(Joinable(View(), items)) && old(revision) == MAX_REVISION
      ensures r.Added? ==>
                && revision == old(revision) + 1 && confirmed == old(confirmed)
                && (forall i | 0 <= i < |items| ::
                      items[i].id in routes && routes[items[i].id] == Stored(items[i], true, false, 0))
                && forall id <- old(routes) :: id in routes && routes[id] == old(routes)[id]
    {
      if |items| == 0 {
        return AddFailed(EmptySet);
      }
      if |routes| + |items| > MAX_ROUTES {
        return AddFailed(TooMany);
      }
      var error := CheckJoin(items);
      if error.Because? {
        return AddFailed(error.error);
      }
      if revision == MAX_REVISION {
        return AddFailed(RevisionExhausted);
      }
      AddKeepsIndex(View(), items);
      WithRoutesContents(View(), items);
      Install(items);
      revision := revision + 1;
      assert View() == AddRoutes(old(View()), items);
      return Added(View(), revision);
    }

    // Makes every listed route active, or none of them when one is not desired.
    method Activate(ids: seq<RouteId>) returns (ok: bool)
      requires Valid()
      modifies this`routes
      ensures Valid()
      ensures var wanted := set id | id in ids;
              && ok == old(CanActivate(View(), wanted))
              && View() == if ok then old(ActivateRoutes(View(), wanted)) else old(View())
      ensures ok <==> forall i | 0 <= i < |ids| :: ids[i] in old(routes) && old(routes)[ids[i]].desired
      ensures ok ==> forall i | 0 <= i < |ids| ::
                ids[i] in routes && routes[ids[i]].desired && routes[ids[i]].active && Authorized(View(), ids[i])
      ensures routes.Keys == old(routes.Keys)
      ensures forall id <- routes :: id !in ids || !ok ==> routes[id] == old(routes)[id]
      ensures forall id <- routes :: routes[id].(active := true) == old(routes)[id].(active := true)
    {
      for i := 0 to |ids|
        invariant View() == old(View())
        invariant forall j | 0 <= j < i :: ids[j] in routes && routes[ids[j]].desired
      {
        if ids[i] !in routes || !routes[ids[i]].desired {
          return false;
        }
      }
      for i := 0 to |ids|
        invariant routes == ActivateRoutes(old(View()), set id | id in ids[..i]).routes
      {
        routes := routes[ids[i] := routes[ids[i]].(active := true)];
        assert forall id :: id in ids[..i + 1] <==> id in ids[..i] || id == ids[i];
      }
      assert ids[..|ids|] == ids;
      RevokeKeepsIndex(old(View()), set id | id in ids);
      return true;
    }

    method AnyDesired(ids: seq<RouteId>) returns (changed: bool)
      ensures changed == Revocable(View(), set id | id in ids)
    {
      for i := 0 to |ids|
        invariant forall j | 0 <= j < i :: !(ids[j] in routes && routes[ids[j]].desired)
      {
        if ids[i] in routes && routes[ids[i]].desired {
          assert ids[i] in (set id | id in ids);
          return true;
        }
      }
      return false;
    }

    // Turns the listed routes into tombstones, the already revoked ones only when
    // asked to.
    method Bury(ids: seq<RouteId>, removal: Revision, all: bool)
      modifies this`routes
      ensures routes == map id | id in old(routes) ::
                if id in ids && (all || old(routes)[id].desired)
                then Tombstone(old(routes)[id], removal) else old(routes)[id]
    {
      for i := 0 to |ids|
        invariant routes.Keys == old(routes).Keys
        invariant forall id <- routes :: routes[id] ==
                    if id in ids[..i] && (all || old(routes)[id].desired)
                    then Tombstone(old(routes)[id], removal) else old(routes)[id]
      {
        var id := ids[i];
        if id in routes && (all || routes[id].desired) {
          routes := routes[id := routes[id].(active := false, desired := false, removal := removal)];
        }
      }
      assert ids[..|ids|] == ids;
    }

    method Withdraw(ids: seq<RouteId>) returns (removal: Revision)
      modifies this`routes, this`revision
      ensures var wanted := set id | id in ids;
              View() == old(RevokeRoutes(View(), wanted)) && removal == old(RemovalRevision(View(), wanted))
    {
      ghost var wanted := set id | id in ids;
      if |ids| == 0 {
        return 0;
      }
      assert ids[0] in wanted;
      var changed := AnyDesired(ids);
      if !changed {
        return revision;
      }
      var exhausted := revision == MAX_REVISION;
      removal := if exhausted then MAX_REVISION else revision + 1;
      Bury(ids, removal, exhausted);
      revision := removal;
      assert routes == old(RevokeRoutes(View(), wanted)).routes;
    }

    // None of the listed routes is desired or active afterwards, at once; the others
    // keep what they had. A route that was desired stays behind as a tombstone that
    // names the revision its removal is to be loaded with.
    method Revoke(ids: seq<RouteId>) returns (removal: Revision)
      requires Valid()
      modifies this`routes, this`revision
      ensures Valid()
      ensures var wanted := set id | id in ids;
              && View() == old(RevokeRoutes(View(), wanted)) && removal == old(RemovalRevision(View(), wanted))
              && Withdrawn(old(View()), View(), wanted, removal)
              && (old(revision) < MAX_REVISION ==>
                    revision == old(revision) + if old(Revocable(View(), wanted)) then 1 else 0)
      ensures forall i | 0 <= i < |ids| :: !Authorized(View(), ids[i])
    {
      ghost var wanted := set id | id in ids;
      RevokeKeepsIndex(View(), wanted);
      RevokeWithdraws(View(), wanted);
      removal := Withdraw(ids);
    }

    // Confirming a revision that is new and has been handed out forgets exactly the
    // tombstones whose removal it covers; any other confirmation changes nothing.
    method Confirm(upTo: Revision)
      requires Valid()
      modifies this`confirmed, this`routes, this`capabilities
      ensures Valid()
      ensures View() == old(ConfirmRoutes(View(), upTo))
      ensures revision == old(revision)
      ensures forall id <- routes :: id in old(routes) && routes[id] == old(routes)[id]
      ensures old(confirmed) < upTo <= revision ==>
                && confirmed == upTo
                && forall id <- old(routes) ::
                     id !in routes <==>
                     !old(routes)[id].desired && 0 < old(routes)[id].removal <= upTo
      ensures !(old(confirmed) < upTo <= revision) ==> View() == old(View())
    {
      ConfirmKeepsIndex(View(), upTo);
      if upTo <= confirmed || upTo > revision {
        return;
      }
      confirmed := upTo;
      var todo := routes.Keys;
      while todo != {}
        invariant todo <= routes.Keys && confirmed == upTo
        invariant forall id <- routes :: id in old(routes) && routes[id] == old(routes)[id]
        invariant forall id <- old(routes) ::
                    id in routes <==> id in todo || !Dropped(old(routes)[id], upTo)
        invariant forall c <- capabilities :: c in old(capabilities) && capabilities[c] == old(capabilities)[c]
        invariant forall c <- old(capabilities) :: c in capabilities <==> old(capabilities)[c] in routes
        decreases todo
      {
        var id :| id in todo;
        todo := todo - {id};
        if Dropped(routes[id], upTo) {
          var capability := routes[id].route.capability;
          routes := routes - {id};
          capabilities := capabilities - {capability};
        }
      }
      assert View() == old(ConfirmRoutes(View(), upTo));
    }

    method Snapshot() returns (s: Snapshot)
      ensures s == TakeSnapshot(View())
    {
      var desired: map<RouteId, Route> := map[];
      var todo := routes.Keys;
      while todo != {}
        invariant todo <= routes.Keys
        invariant desired == map id | id in routes && id !in todo && routes[id].desired :: routes[id].route
        decreases todo
      {
        var id :| id in todo;
        if routes[id].desired {
          desired := desired[id := routes[id].route];
        }
        todo := todo - {id};
      }
      return GatewayRoutes.Snapshot.Snapshot(revision, desired);
    }
  }
}
