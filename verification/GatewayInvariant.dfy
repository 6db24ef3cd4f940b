// The inductive invariant of the models gateway protocol. It survives every step,
// the revoke at the last revision included.

module GatewayInvariant {
  import opened GatewayRoutes
  import opened GatewayProtocol

  predicate StoredOk(st: Store, added: Revision, x: Stored)
  {
    && 1 <= added <= st.revision
    && (x.active ==> x.desired)
  }

  predicate StoreOk(st: Store, added: map<RouteId, Revision>)
  {
    && Indexed(st)
    && st.revision <= MAX_REVISION
    && st.confirmed <= st.revision
    && added.Keys == st.routes.Keys
    && (forall id <- st.routes :: StoredOk(st, added[id], st.routes[id]))
  }

  // The snapshot names every desired route that was added at or below its
  // revision.
  predicate SnapOk(st: Store, added: map<RouteId, Revision>, snap: Snapshot)
  {
    && snap.revision <= st.revision
    && (forall id <- st.routes ::
          id in added && st.routes[id].desired && added[id] <= snap.revision ==> id in snap.routes)
  }

  // Every desired route that was added at or below the revision has been loaded.
  predicate LoadedUpTo(st: Store, added: map<RouteId, Revision>, loaded: set<RouteId>, revision: Revision)
  {
    forall id <- st.routes :: id in added && st.routes[id].desired && added[id] <= revision ==> id in loaded
  }

  predicate HasSnap(pc: Pc)
  {
    pc.Snapped? || pc.Equipped? || pc.Publishable? || pc.Confirming? || pc.Applying?
  }

  // The published generation is the one the loop holds and has loaded, and its
  // configuration is not behind the applied revision.
  predicate RelayOk(s: State)
  {
    && (s.loadedGen != 0 ==> s.held == Some(s.loadedGen) && (s.relayClosed || s.target == s.held))
    && (s.held.Some? ==> s.held.value != 0)
    && (s.relayClosed ==> s.target == None)
    && (s.target.Some? ==>
          && s.target == s.held && s.loadedGen == s.target.value
          && s.target.value in s.config
          && SnapOk(s.store, s.added, s.config[s.target.value])
          && s.applied <= s.config[s.target.value].revision)
  }

  predicate LoopOk(s: State)
  {
    && s.applied <= s.store.revision
    && (HasSnap(s.pc) ==> SnapOk(s.store, s.added, s.pc.snap) && s.applied <= s.pc.snap.revision)
    && (s.pc.Equipped? || s.pc.Publishable? ==> s.held.Some?)
    && (s.pc.Publishable? ==>
          && s.loadedGen != s.held.value
          && s.held.value in s.config && s.config[s.held.value] == s.pc.snap)
    && (s.pc.Publishable? || s.pc.Confirming? || s.pc.Applying? ==>
          LoadedUpTo(s.store, s.added, s.loaded, s.pc.snap.revision))
    && (s.pc.Confirming? || s.pc.Applying? ==>
          s.target.Some? ==> s.target.value in s.config && s.pc.snap.revision <= s.config[s.target.value].revision)
  }

  // Routes the applied revision covers have been loaded, and only loaded routes
  // are active.
  predicate ActiveOk(st: Store, added: map<RouteId, Revision>, loaded: set<RouteId>, applied: Revision)
  {
    && loaded <= st.routes.Keys
    && LoadedUpTo(st, added, loaded, applied)
    && (forall id <- st.routes :: st.routes[id].active ==> id in loaded)
  }

  predicate PendingOk(st: Store, added: map<RouteId, Revision>, pending: set<Acquisition>)
  {
    forall run <- pending :: forall id <- run.ids ::
      id in st.routes && st.routes[id].desired && id in added && added[id] == run.revision
  }

  predicate Inv(s: State)
  {
    && StoreOk(s.store, s.added)
    && RelayOk(s)
    && LoopOk(s)
    && ActiveOk(s.store, s.added, s.loaded, s.applied)
    && PendingOk(s.store, s.added, s.pending)
  }

  // ---- Steps that change the store ------------------------------------------------------

  // t is st with fresh desired routes ids at the next revision.
  predicate Grown(st: Store, t: Store, ids: set<RouteId>)
  {
    && t.revision == st.revision + 1 && t.confirmed == st.confirmed
    && t.routes.Keys == st.routes.Keys + ids
    && st.routes.Keys !! ids
    && (forall id <- st.routes :: t.routes[id] == st.routes[id])
    && (forall id <- ids :: t.routes[id].desired && !t.routes[id].active && t.routes[id].removal == 0)
  }

  lemma AddedKeys(st: Store, routes: seq<Route>)
    requires Joinable(st, routes)
    ensures AddRoutes(st, routes).routes.Keys == st.routes.Keys + IdsOf(routes)
    ensures st.routes.Keys !! IdsOf(routes)
  {
    WithRoutesContents(st, routes);
    var t := AddRoutes(st, routes);
    forall id | id in t.routes
      ensures id in st.routes || id in IdsOf(routes)
    {
    }
  }

  lemma AddedValues(st: Store, routes: seq<Route>, id: RouteId)
    requires Joinable(st, routes)
    ensures var t := AddRoutes(st, routes);
            && (id in st.routes ==> id in t.routes && t.routes[id] == st.routes[id])
            && (id in IdsOf(routes) ==>
                  id in t.routes && t.routes[id].desired && !t.routes[id].active && t.routes[id].removal == 0)
  {
    WithRoutesContents(st, routes);
  }

  lemma AddGrows(st: Store, routes: seq<Route>)
    requires CanAdd(st, routes)
    ensures var t := AddRoutes(st, routes);
            Grown(st, t, IdsOf(routes)) && t.revision == st.revision + 1 <= MAX_REVISION
  {
    AddedKeys(st, routes);
    var t := AddRoutes(st, routes);
    forall id | id in t.routes
      ensures id in st.routes ==> t.routes[id] == st.routes[id]
      ensures id in IdsOf(routes) ==> t.routes[id].desired && !t.routes[id].active && t.routes[id].removal == 0
    {
      AddedValues(st, routes, id);
    }
    AddedRevision(st, routes);
  }

  lemma AddedRevision(st: Store, routes: seq<Route>)
    requires Joinable(st, routes)
    ensures AddRoutes(st, routes).revision == st.revision + 1
    ensures AddRoutes(st, routes).confirmed == st.confirmed
  {
    WithRoutesContents(st, routes);
  }

  lemma GrownKeepsStore(st: Store, t: Store, added: map<RouteId, Revision>, ids: set<RouteId>)
    requires StoreOk(st, added) && Grown(st, t, ids) && Indexed(t) && t.revision <= MAX_REVISION
    ensures StoreOk(t, AddedAt(added, ids, t.revision))
  {
    var u := AddedAt(added, ids, t.revision);
    forall id | id in t.routes
      ensures StoredOk(t, u[id], t.routes[id])
    {
      assert id in st.routes ==> StoredOk(st, added[id], st.routes[id]);
    }
  }

  lemma GrownKeepsSnap(st: Store, t: Store, added: map<RouteId, Revision>, ids: set<RouteId>, snap: Snapshot)
    requires Grown(st, t, ids) && added.Keys == st.routes.Keys && SnapOk(st, added, snap)
    ensures SnapOk(t, AddedAt(added, ids, t.revision), snap)
  {
  }

  lemma GrownKeepsActive(
    st: Store, t: Store, added: map<RouteId, Revision>, ids: set<RouteId>, loaded: set<RouteId>, applied: Revision)
    requires Grown(st, t, ids) && added.Keys == st.routes.Keys && applied <= st.revision
    requires ActiveOk(st, added, loaded, applied)
    ensures ActiveOk(t, AddedAt(added, ids, t.revision), loaded, applied)
  {
  }

  lemma GrownKeepsPending(
    st: Store, t: Store, added: map<RouteId, Revision>, ids: set<RouteId>, pending: set<Acquisition>)
    requires Grown(st, t, ids) && added.Keys == st.routes.Keys && PendingOk(st, added, pending)
    ensures PendingOk(t, AddedAt(added, ids, t.revision), pending + {Acquisition(ids, t.revision)})
  {
  }

  // The invariant after the store and the histories beside it were replaced.
  lemma Replaced(s: State, t: State)
    requires Inv(s) && t == s.(store := t.store, added := t.added, loaded := t.loaded, pending := t.pending)
    requires s.store.revision <= t.store.revision && s.loaded <= t.loaded
    requires StoreOk(t.store, t.added) && ActiveOk(t.store, t.added, t.loaded, t.applied)
    requires PendingOk(t.store, t.added, t.pending)
    requires HasSnap(s.pc) ==> SnapOk(t.store, t.added, s.pc.snap)
    requires s.pc.Publishable? || s.pc.Confirming? || s.pc.Applying? ==>
               LoadedUpTo(t.store, t.added, t.loaded, s.pc.snap.revision)
    requires s.target.Some? ==> SnapOk(t.store, t.added, s.config[s.target.value])
    ensures Inv(t)
  {
  }

  lemma GrownKeeps(s: State, store: Store, ids: set<RouteId>)
    requires Inv(s) && Grown(s.store, store, ids) && Indexed(store) && store.revision <= MAX_REVISION
    ensures Inv(Grow(s, store, ids))
  {
    var t := Grow(s, store, ids);
    GrownKeepsStore(s.store, t.store, s.added, ids);
    GrownKeepsActive(s.store, t.store, s.added, ids, s.loaded, s.applied);
    GrownKeepsPending(s.store, t.store, s.added, ids, s.pending);
    if HasSnap(s.pc) {
      GrownKeepsSnap(s.store, t.store, s.added, ids, s.pc.snap);
    }
    if s.target.Some? {
      GrownKeepsSnap(s.store, t.store, s.added, ids, s.config[s.target.value]);
    }
    Replaced(s, t);
  }

  lemma AddKeeps(s: State, routes: seq<Route>)
    requires Inv(s) && EnvEnabled(s, AddRun(routes))
    ensures Inv(AddStep(s, routes))
  {
    AddGrows(s.store, routes);
    AddKeepsIndex(s.store, routes);
    GrownKeeps(s, AddRoutes(s.store, routes), IdsOf(routes));
  }

  lemma RevokeKeepsStore(st: Store, added: map<RouteId, Revision>, ids: set<RouteId>)
    requires StoreOk(st, added)
    ensures StoreOk(RevokeRoutes(st, ids), added)
  {
    RevokeKeepsIndex(st, ids);
    var t := RevokeRoutes(st, ids);
    forall id | id in t.routes
      ensures StoredOk(t, added[id], t.routes[id])
    {
      assert StoredOk(st, added[id], st.routes[id]);
    }
  }

  lemma RevokeKeepsSnap(st: Store, added: map<RouteId, Revision>, ids: set<RouteId>, snap: Snapshot)
    requires SnapOk(st, added, snap)
    ensures SnapOk(RevokeRoutes(st, ids), added, snap)
  {
  }

  lemma RevokeKeepsActive(
    st: Store, added: map<RouteId, Revision>, loaded: set<RouteId>, applied: Revision, pending: set<Acquisition>,
    ids: set<RouteId>)
    requires (forall run <- pending :: run.ids !! ids)
    requires ActiveOk(st, added, loaded, applied) && PendingOk(st, added, pending)
    ensures ActiveOk(RevokeRoutes(st, ids), added, loaded, applied)
    ensures PendingOk(RevokeRoutes(st, ids), added, pending)
  {
  }

  lemma RevokeKeeps(s: State, ids: set<RouteId>)
    requires Inv(s) && EnvEnabled(s, RevokeRun(ids))
    ensures Inv(s.(store := RevokeRoutes(s.store, ids)))
  {
    if Revocable(s.store, ids) {
      RevokeKeepsStore(s.store, s.added, ids);
      RevokeKeepsActive(s.store, s.added, s.loaded, s.applied, s.pending, ids);
      if HasSnap(s.pc) {
        RevokeKeepsSnap(s.store, s.added, ids, s.pc.snap);
      }
      if s.target.Some? {
        RevokeKeepsSnap(s.store, s.added, ids, s.config[s.target.value]);
      }
    }
  }

  lemma ActivateKeepsParts(
    st: Store, added: map<RouteId, Revision>, loaded: set<RouteId>, applied: Revision, run: Acquisition)
    requires StoreOk(st, added) && ActiveOk(st, added, loaded, applied) && PendingOk(st, added, {run})
    requires run.revision <= applied && CanActivate(st, run.ids)
    ensures StoreOk(ActivateRoutes(st, run.ids), added)
    ensures ActiveOk(ActivateRoutes(st, run.ids), added, loaded, applied)
  {
    RevokeKeepsIndex(st, run.ids);
    var t := ActivateRoutes(st, run.ids);
    forall id | id in t.routes
      ensures StoredOk(t, added[id], t.routes[id])
    {
      assert StoredOk(st, added[id], st.routes[id]);
    }
    assert run in {run};
  }

  lemma ActivateKeepsSnap(st: Store, added: map<RouteId, Revision>, ids: set<RouteId>, snap: Snapshot)
    requires SnapOk(st, added, snap)
    ensures SnapOk(ActivateRoutes(st, ids), added, snap)
  {
  }

  lemma ActivateKeeps(s: State, run: Acquisition)
    requires Inv(s) && EnvEnabled(s, ActivateRun(run))
    ensures Inv(ActivateStep(s, run))
  {
    if CanActivate(s.store, run.ids) {
      ActivateKeepsParts(s.store, s.added, s.loaded, s.applied, run);
      if HasSnap(s.pc) {
        ActivateKeepsSnap(s.store, s.added, run.ids, s.pc.snap);
      }
      if s.target.Some? {
        ActivateKeepsSnap(s.store, s.added, run.ids, s.config[s.target.value]);
      }
    }
  }

  // ---- Steps of the loop --------------------------------------------------------------------

  lemma SnapshotKeeps(s: State)
    requires Inv(s) && s.pc == Top
    ensures Inv(s.(pc := Snapped(TakeSnapshot(s.store))))
  {
    var snap := TakeSnapshot(s.store);
    forall id | id in s.store.routes
      ensures StoredOk(s.store, s.added[id], s.store.routes[id])
    {
    }
    assert SnapOk(s.store, s.added, snap);
  }

  // A load attempt of a snapshot the loop holds keeps the invariant of the rest.
  lemma ConfigureKeeps(s: State, snap: Snapshot, outcome: LoadOutcome)
    requires Inv(s) && HasSnap(s.pc) && snap == s.pc.snap && s.held.Some? && !s.pc.Publishable?
    requires s.pc.Snapped? || s.pc.Equipped?
    ensures Inv(Configure(s, snap, outcome))
    ensures outcome.Loaded? ==>
              var t := Configure(s, snap, outcome); LoadedUpTo(t.store, t.added, t.loaded, snap.revision)
  {
  }

  lemma EmptyConfirms(s: State)
    requires Inv(s) && s.pc.Snapped? && s.pc.snap.routes == map[]
    requires s.held.None? || !MustLoad(s, s.pc.snap)
    ensures Inv(s.(pc := Confirming(s.pc.snap, true)))
  {
  }

  lemma LoadedConfirms(s: State, retire: bool)
    requires Inv(s) && (s.pc.Snapped? || s.pc.Equipped?) && s.held.Some?
    requires LoadedUpTo(s.store, s.added, s.loaded, s.pc.snap.revision)
    requires s.held.value in s.config && s.config[s.held.value] == s.pc.snap
    ensures Inv(s.(pc := Confirming(s.pc.snap, retire)))
    ensures s.loadedGen != s.held.value ==> Inv(s.(pc := Publishable(s.pc.snap)))
  {
  }

  lemma Rests(s: State, revision: Revision)
    requires Inv(s)
    ensures Inv(s.(pc := Waiting)) && Inv(RecordFailure(s, revision).(pc := Waiting))
  {
  }

  lemma EmptyKeeps(s: State, outcome: LoadOutcome)
    requires Inv(s) && LoopEnabled(s, LoopEmpty(outcome))
    ensures Inv(EmptyStep(s, s.pc.snap, outcome))
  {
    if s.held.None? || !MustLoad(s, s.pc.snap) {
      EmptyConfirms(s);
    } else {
      var t := Configure(s, s.pc.snap, outcome);
      ConfigureKeeps(s, s.pc.snap, outcome);
      Rests(t, s.pc.snap.revision);
      if outcome.Loaded? {
        LoadedConfirms(t, true);
      }
    }
  }

  lemma LoadKeeps(s: State, outcome: LoadOutcome)
    requires Inv(s) && LoopEnabled(s, LoopLoad(outcome))
    ensures Inv(LoadStep(s, s.pc.snap, outcome))
  {
    Rests(s, s.pc.snap.revision);
    if MustLoad(s, s.pc.snap) {
      var t := Configure(s, s.pc.snap, outcome);
      ConfigureKeeps(s, s.pc.snap, outcome);
      Rests(t, s.pc.snap.revision);
      if outcome.Loaded? {
        LoadedConfirms(t, false);
      } else {
        DropKeeps(t.(pc := Waiting));
      }
    }
  }

  lemma PublishKeeps(s: State)
    requires Inv(s) && LoopEnabled(s, LoopPublish)
    ensures Inv(PublishStep(s, s.pc.snap))
  {
  }

  lemma ConfirmKeepsParts(st: Store, added: map<RouteId, Revision>, loaded: set<RouteId>, applied: Revision,
                          pending: set<Acquisition>, revision: Revision)
    requires StoreOk(st, added) && ActiveOk(st, added, loaded, applied) && PendingOk(st, added, pending)
    ensures var t := ConfirmRoutes(st, revision);
            var kept := map id | id in added && id in t.routes :: added[id];
            StoreOk(t, kept) && ActiveOk(t, kept, loaded * t.routes.Keys, applied) && PendingOk(t, kept, pending)
  {
    ConfirmKeepsIndex(st, revision);
    var t := ConfirmRoutes(st, revision);
    var kept := map id | id in added && id in t.routes :: added[id];
    forall id | id in t.routes
      ensures StoredOk(t, kept[id], t.routes[id])
    {
      assert StoredOk(st, added[id], st.routes[id]);
    }
  }

  lemma ConfirmKeepsSnap(
    st: Store, added: map<RouteId, Revision>, loaded: set<RouteId>, revision: Revision, snap: Snapshot)
    requires SnapOk(st, added, snap)
    ensures var t := ConfirmRoutes(st, revision);
            var kept := map id | id in added && id in t.routes :: added[id];
            && SnapOk(t, kept, snap)
            && (LoadedUpTo(st, added, loaded, snap.revision) ==>
                  LoadedUpTo(t, kept, loaded * t.routes.Keys, snap.revision))
  {
  }

  lemma ConfirmKeeps(s: State)
    requires Inv(s) && LoopEnabled(s, LoopConfirm)
    ensures Inv(ConfirmStep(s))
  {
    var snap := s.pc.snap;
    ConfirmKeepsParts(s.store, s.added, s.loaded, s.applied, s.pending, snap.revision);
    ConfirmKeepsSnap(s.store, s.added, s.loaded, snap.revision, snap);
    if s.target.Some? {
      ConfirmKeepsSnap(s.store, s.added, s.loaded, snap.revision, s.config[s.target.value]);
    }
  }

  lemma ApplyKeeps(s: State)
    requires Inv(s) && LoopEnabled(s, LoopApply)
    ensures Inv(ApplyStep(s, s.pc.snap, s.pc.retire))
  {
  }

  lemma DropKeeps(s: State)
    requires Inv(s) && !s.pc.Equipped? && !s.pc.Publishable?
    ensures Inv(Drop(s))
  {
  }

  lemma AcquireKeeps(s: State, pool: PoolOutcome)
    requires Inv(s) && LoopEnabled(s, LoopAcquire(pool))
    ensures Inv(AcquireStep(s, s.pc.snap, pool))
  {
  }

  lemma EnvKeeps(s: State, a: EnvAction)
    requires Inv(s) && EnvEnabled(s, a)
    ensures Inv(EnvTake(s, a))
  {
    match a
    case AddRun(routes) => AddKeeps(s, routes);
    case ActivateRun(run) => ActivateKeeps(s, run);
    case RevokeRun(ids) => RevokeKeeps(s, ids);
    case AbandonRun(run) =>
    case RetryRemoval(revision) =>
    case CloseRelay =>
  }

  lemma LoopKeeps(s: State, a: LoopAction)
    requires Inv(s) && LoopEnabled(s, a)
    ensures Inv(LoopTake(s, a))
  {
    match a
    case LoopSnapshot => SnapshotKeeps(s);
    case LoopSkipFailed => Rests(s, 0);
    case LoopEmpty(outcome) => EmptyKeeps(s, outcome);
    case LoopAcquire(pool) => AcquireKeeps(s, pool);
    case LoopEquip =>
    case LoopLoad(outcome) => LoadKeeps(s, outcome);
    case LoopPublish => PublishKeeps(s);
    case LoopConfirm => ConfirmKeeps(s);
    case LoopApply => ApplyKeeps(s);
    case LoopRetire => DropKeeps(s.(pc := Waiting));
    case LoopWake =>
    case LoopDropDead => DropKeeps(s);
    case LoopStop => DropKeeps(s.(pc := Stopped));
  }

  lemma TakeKeeps(s: State, a: Action)
    requires Inv(s) && Enabled(s, a)
    ensures Inv(Take(s, a))
  {
    match a
    case Env(e) => EnvKeeps(s, e);
    case Loop(l) => LoopKeeps(s, l);
  }
}
