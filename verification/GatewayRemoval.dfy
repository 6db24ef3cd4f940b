// What revisions and removals guarantee as long as no revoke meets the last
// revision. GatewayExhaustion says what happens when one does.

module GatewayRemoval {
  import opened GatewayRoutes
  import opened GatewayProtocol
  import opened GatewayInvariant
  import opened GatewayTheorems

  predicate IsBelowRun(states: seq<State>, actions: seq<Action>)
  {
    IsRun(states, actions) && forall i | 0 <= i < |actions| :: BelowExhaustion(states[i], actions[i])
  }

  // ---- Removal revisions --------------------------------------------------------------

  // A tombstone carries a revision above the one its route was added at.
  predicate RemovalOk(revision: Revision, added: Revision, x: Stored)
  {
    if x.desired then x.removal == 0 else added < x.removal <= revision
  }

  // The snapshot names no route that was revoked at or below its revision.
  predicate SnapExact(st: Store, snap: Snapshot)
  {
    forall id <- snap.routes ::
      id in st.routes && (st.routes[id].desired || st.routes[id].removal > snap.revision)
  }

  predicate RemovalsOk(st: Store, added: map<RouteId, Revision>)
  {
    forall id <- st.routes :: id in added && RemovalOk(st.revision, added[id], st.routes[id])
  }

  predicate Exact(s: State)
  {
    && RemovalsOk(s.store, s.added)
    && (HasSnap(s.pc) ==> SnapExact(s.store, s.pc.snap))
    && (s.target.Some? && s.target.value in s.config ==> SnapExact(s.store, s.config[s.target.value]))
  }

  lemma GrownExact(st: Store, t: Store, ids: set<RouteId>, added: map<RouteId, Revision>, snap: Snapshot)
    requires Grown(st, t, ids) && StoreOk(st, added) && RemovalsOk(st, added)
    ensures RemovalsOk(t, AddedAt(added, ids, t.revision))
    ensures SnapExact(st, snap) ==> SnapExact(t, snap)
  {
    var u := AddedAt(added, ids, t.revision);
    forall id | id in t.routes
      ensures id in u && RemovalOk(t.revision, u[id], t.routes[id])
    {
      assert id in st.routes ==> RemovalOk(st.revision, added[id], st.routes[id]);
    }
  }

  lemma AddExact(s: State, routes: seq<Route>)
    requires Inv(s) && Exact(s) && EnvEnabled(s, AddRun(routes))
    ensures Exact(AddStep(s, routes))
  {
    var t := AddRoutes(s.store, routes);
    AddGrows(s.store, routes);
    GrownExact(s.store, t, IdsOf(routes), s.added, TakeSnapshot(s.store));
    if HasSnap(s.pc) {
      GrownExact(s.store, t, IdsOf(routes), s.added, s.pc.snap);
    }
    if s.target.Some? {
      GrownExact(s.store, t, IdsOf(routes), s.added, s.config[s.target.value]);
    }
  }

  lemma RevokeExactStore(st: Store, added: map<RouteId, Revision>, ids: set<RouteId>)
    requires StoreOk(st, added) && RemovalsOk(st, added) && (Revocable(st, ids) ==> st.revision < MAX_REVISION)
    ensures RemovalsOk(RevokeRoutes(st, ids), added)
  {
    var t := RevokeRoutes(st, ids);
    forall id | id in t.routes
      ensures RemovalOk(t.revision, added[id], t.routes[id])
    {
      assert RemovalOk(st.revision, added[id], st.routes[id]) && StoredOk(st, added[id], st.routes[id]);
    }
  }

  lemma RevokeExactSnap(st: Store, ids: set<RouteId>, snap: Snapshot)
    requires SnapExact(st, snap) && snap.revision <= st.revision && (Revocable(st, ids) ==> st.revision < MAX_REVISION)
    ensures SnapExact(RevokeRoutes(st, ids), snap)
  {
  }

  lemma RevokeExact(s: State, ids: set<RouteId>)
    requires Inv(s) && Exact(s) && BelowExhaustion(s, Env(RevokeRun(ids)))
    ensures Exact(EnvTake(s, RevokeRun(ids)))
  {
    RevokeExactStore(s.store, s.added, ids);
    if HasSnap(s.pc) {
      RevokeExactSnap(s.store, ids, s.pc.snap);
    }
    if s.target.Some? {
      RevokeExactSnap(s.store, ids, s.config[s.target.value]);
    }
  }

  lemma EnvExact(s: State, e: EnvAction)
    requires Inv(s) && Exact(s) && EnvEnabled(s, e) && BelowExhaustion(s, Env(e))
    ensures Exact(EnvTake(s, e))
  {
    if e.AddRun? {
      AddExact(s, e.routes);
    } else if e.RevokeRun? {
      RevokeExact(s, e.ids);
    }
  }

  // A snapshot at or above the confirmed revision names no dropped route.
  lemma ConfirmExactSnap(st: Store, revision: Revision, snap: Snapshot)
    requires SnapExact(st, snap) && revision <= snap.revision
    ensures SnapExact(ConfirmRoutes(st, revision), snap)
  {
  }

  lemma ConfirmExact(s: State)
    requires Inv(s) && Exact(s) && LoopEnabled(s, LoopConfirm)
    ensures Exact(ConfirmStep(s))
  {
    ConfirmExactSnap(s.store, s.pc.snap.revision, s.pc.snap);
    if s.target.Some? {
      ConfirmExactSnap(s.store, s.pc.snap.revision, s.config[s.target.value]);
    }
  }

  // A load attempt can only put the loop's own snapshot into a configuration.
  lemma ConfigureExact(s: State, outcome: LoadOutcome)
    requires Inv(s) && Exact(s) && (s.pc.Snapped? || s.pc.Equipped?) && s.held.Some?
    ensures Exact(Configure(s, s.pc.snap, outcome))
  {
  }

  lemma RestExact(s: State, revision: Revision)
    requires Exact(s)
    ensures Exact(s.(pc := Waiting)) && Exact(RecordFailure(s, revision).(pc := Waiting))
    ensures Exact(Drop(s).(pc := Waiting))
  {
  }

  lemma LoadedExact(s: State, retire: bool)
    requires Exact(s) && HasSnap(s.pc)
    ensures Exact(s.(pc := Confirming(s.pc.snap, retire))) && Exact(s.(pc := Publishable(s.pc.snap)))
  {
  }

  lemma EmptyExact(s: State, outcome: LoadOutcome)
    requires Inv(s) && Exact(s) && LoopEnabled(s, LoopEmpty(outcome))
    ensures Exact(EmptyStep(s, s.pc.snap, outcome))
  {
    LoadedExact(s, true);
    if s.held.Some? {
      var t := Configure(s, s.pc.snap, outcome);
      ConfigureExact(s, outcome);
      RestExact(t, s.pc.snap.revision);
      LoadedExact(t, true);
    }
  }

  lemma LoadExact(s: State, outcome: LoadOutcome)
    requires Inv(s) && Exact(s) && LoopEnabled(s, LoopLoad(outcome))
    ensures Exact(LoadStep(s, s.pc.snap, outcome))
  {
    var t := Configure(s, s.pc.snap, outcome);
    RestExact(s, 0);
    ConfigureExact(s, outcome);
    RestExact(t, s.pc.snap.revision);
    LoadedExact(t, false);
  }

  lemma PublishExact(s: State)
    requires Inv(s) && Exact(s) && LoopEnabled(s, LoopPublish)
    ensures Exact(PublishStep(s, s.pc.snap))
  {
  }

  lemma OtherLoopExact(s: State, l: LoopAction)
    requires Inv(s) && Exact(s) && LoopEnabled(s, l)
    requires !l.LoopEmpty? && !l.LoopLoad? && l != LoopConfirm && l != LoopPublish
    ensures Exact(LoopTake(s, l))
  {
  }

  lemma TakeExact(s: State, a: Action)
    requires Inv(s) && Exact(s) && Enabled(s, a) && BelowExhaustion(s, a)
    ensures Exact(Take(s, a))
  {
    match a
    case Env(e) => EnvExact(s, e);
    case Loop(LoopEmpty(outcome)) => EmptyExact(s, outcome);
    case Loop(LoopLoad(outcome)) => LoadExact(s, outcome);
    case Loop(LoopConfirm) => ConfirmExact(s);
    case Loop(LoopPublish) => PublishExact(s);
    case Loop(l) => OtherLoopExact(s, l);
  }

  lemma {:induction false} RunExact(states: seq<State>, actions: seq<Action>, i: nat)
    requires IsBelowRun(states, actions) && i < |states|
    ensures Inv(states[i]) && Exact(states[i])
  {
    RunInv(states, actions, i);
    if i > 0 {
      RunExact(states, actions, i - 1);
      assert StepAt(states, actions, i - 1) && BelowExhaustion(states[i - 1], actions[i - 1]);
      TakeExact(states[i - 1], actions[i - 1]);
    }
  }

  // ---- Waiting for a removal ------------------------------------------------------------

  predicate Gone(st: Store, id: RouteId, removal: Revision)
  {
    id in st.routes ==> !st.routes[id].desired && st.routes[id].removal <= removal
  }

  // A step below exhaustion leaves the removal revision of a tombstone alone.
  lemma GoneKept(s: State, a: Action, id: RouteId, removal: Revision)
    requires Enabled(s, a) && BelowExhaustion(s, a) && !AddsId(a, id) && Gone(s.store, id, removal)
    requires RouteStep(s.store, ConfirmingRevision(s), a, Take(s, a).store, id)
    ensures Gone(Take(s, a).store, id, removal)
  {
    match a
    case Env(e) => EnvKeepsGone(s, e, id, removal);
    case Loop(l) => LoopStore(s, l);
  }

  lemma EnvKeepsGone(s: State, e: EnvAction, id: RouteId, removal: Revision)
    requires EnvEnabled(s, e) && BelowExhaustion(s, Env(e)) && !AddsId(Env(e), id) && Gone(s.store, id, removal)
    ensures Gone(EnvTake(s, e).store, id, removal)
  {
    if e.AddRun? {
      AddGrows(s.store, e.routes);
    }
  }

  lemma RevokeMakesGone(st: Store, added: map<RouteId, Revision>, ids: set<RouteId>, id: RouteId)
    requires StoreOk(st, added) && RemovalsOk(st, added) && id in ids
    ensures Gone(RevokeRoutes(st, ids), id, RemovalRevision(st, ids))
  {
    if id in st.routes {
      assert RemovalOk(st.revision, added[id], st.routes[id]);
    }
  }

  lemma {:induction false} StaysGone(
    states: seq<State>, actions: seq<Action>, i: nat, j: nat, ids: set<RouteId>, id: RouteId)
    requires IsBelowRun(states, actions) && i < j < |states|
    requires actions[i] == Env(RevokeRun(ids)) && id in ids && NotAdded(actions, id, i, j)
    ensures Gone(states[j].store, id, RemovalRevision(states[i].store, ids))
  {
    var k := j - 1;
    if k == i {
      RunExact(states, actions, i);
      RunRevokes(states, actions, i, ids);
      RevokeMakesGone(states[i].store, states[i].added, ids, id);
    } else {
      StaysGone(states, actions, i, k, ids, id);
      RunRoute(states, actions, k, id);
      assert StepAt(states, actions, k) && BelowExhaustion(states[k], actions[k]);
      GoneKept(states[k], actions[k], id, RemovalRevision(states[i].store, ids));
    }
  }

  // A removal wait succeeds only once nothing published still serves the route.
  lemma RemovalWaitIsHonest(
    states: seq<State>, actions: seq<Action>, i: nat, j: nat, ids: set<RouteId>, id: RouteId)
    requires IsBelowRun(states, actions) && i < j < |states|
    requires actions[i] == Env(RevokeRun(ids)) && id in ids && NotAdded(actions, id, i, j)
    requires states[j].applied >= RemovalRevision(states[i].store, ids)
    ensures var s := states[j];
            s.target.Some? ==>
              && s.target.value in s.config
              && s.config[s.target.value].revision >= RemovalRevision(states[i].store, ids)
              && id !in s.config[s.target.value].routes
  {
    StaysGone(states, actions, i, j, ids, id);
    RunExact(states, actions, j);
  }

  lemma ConfirmLeavesRelay(states: seq<State>, actions: seq<Action>, i: nat)
    requires IsRun(states, actions) && i < |actions| && actions[i] == Loop(LoopConfirm)
    ensures states[i].pc.Confirming?
    ensures states[i + 1].target == states[i].target && states[i + 1].config == states[i].config
  {
    assert StepAt(states, actions, i);
  }

  // A tombstone leaves the store only in a confirmation, and only when the
  // published generation, if any, has loaded the removal.
  lemma TombstoneDropIsHonest(states: seq<State>, actions: seq<Action>, i: nat, id: RouteId)
    requires IsBelowRun(states, actions) && i < |actions|
    requires id in states[i].store.routes && id !in states[i + 1].store.routes
    ensures actions[i] == Loop(LoopConfirm)
    ensures var x := states[i].store.routes[id]; var s := states[i + 1];
            && !x.desired && x.removal != 0
            && (s.target.Some? ==>
                  && s.target.value in s.config && x.removal <= s.config[s.target.value].revision
                  && id !in s.config[s.target.value].routes)
  {
    RunRoute(states, actions, i, id);
    RunExact(states, actions, i);
    RunExact(states, actions, i + 1);
    ConfirmLeavesRelay(states, actions, i);
  }

  // ---- Revisions ---------------------------------------------------------------------------

  lemma EnvRevisionStep(s: State, e: EnvAction)
    requires EnvEnabled(s, e) && BelowExhaustion(s, Env(e))
    ensures var t := EnvTake(s, e).store;
            && s.store.revision <= t.revision
            && (t.revision == s.store.revision ==> DesiredRoutes(t) == DesiredRoutes(s.store))
  {
    if e.AddRun? {
      AddGrows(s.store, e.routes);
    } else if e.ActivateRun? {
      DesiredNeedsRevision(s.store, e.run.ids, 0);
    } else if e.RevokeRun? {
      DesiredNeedsRevision(s.store, e.ids, 0);
    }
  }

  lemma RevisionStep(s: State, a: Action)
    requires Enabled(s, a) && BelowExhaustion(s, a)
    ensures var t := Take(s, a).store;
            && s.store.revision <= t.revision
            && (t.revision == s.store.revision ==> DesiredRoutes(t) == DesiredRoutes(s.store))
  {
    match a
    case Env(e) => EnvRevisionStep(s, e);
    case Loop(l) =>
      LoopStore(s, l);
      DesiredNeedsRevision(s.store, {}, ConfirmingRevision(s));
  }

  lemma RunRevision(states: seq<State>, actions: seq<Action>, i: nat)
    requires IsBelowRun(states, actions) && i < |actions|
    ensures states[i].store.revision <= states[i + 1].store.revision
    ensures states[i].store.revision == states[i + 1].store.revision ==>
              DesiredRoutes(states[i].store) == DesiredRoutes(states[i + 1].store)
  {
    assert StepAt(states, actions, i) && BelowExhaustion(states[i], actions[i]);
    RevisionStep(states[i], actions[i]);
  }

  // Below exhaustion a revision determines the desired routes.
  lemma {:induction false} RevisionDeterminesRoutes(states: seq<State>, actions: seq<Action>, i: nat, j: nat)
    requires IsBelowRun(states, actions) && i <= j < |states|
    ensures states[i].store.revision <= states[j].store.revision
    ensures states[i].store.revision == states[j].store.revision ==>
              TakeSnapshot(states[i].store) == TakeSnapshot(states[j].store)
  {
    if i < j {
      RevisionDeterminesRoutes(states, actions, i, j - 1);
      RunRevision(states, actions, j - 1);
    }
  }
}
