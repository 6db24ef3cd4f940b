// What holds over every run of the models gateway protocol, whatever the revision.

module GatewayTheorems {
  import opened GatewayRoutes
  import opened GatewayProtocol
  import opened GatewayInvariant

  predicate IsRun(states: seq<State>, actions: seq<Action>)
  {
    && |states| == |actions| + 1
    && states[0] == INITIAL
    && forall i | 0 <= i < |actions| :: StepAt(states, actions, i)
  }

  predicate StepAt(states: seq<State>, actions: seq<Action>, i: nat)
    requires |states| == |actions| + 1 && i < |actions|
  {
    Enabled(states[i], actions[i]) && states[i + 1] == Take(states[i], actions[i])
  }

  lemma {:induction false} RunInv(states: seq<State>, actions: seq<Action>, i: nat)
    requires IsRun(states, actions) && i < |states|
    ensures Inv(states[i])
  {
    if i > 0 {
      RunInv(states, actions, i - 1);
      assert StepAt(states, actions, i - 1);
      TakeKeeps(states[i - 1], actions[i - 1]);
    }
  }

  lemma Extend(states: seq<State>, actions: seq<Action>, a: Action, next: State)
    returns (more: seq<State>, log: seq<Action>)
    requires IsRun(states, actions) && Enabled(states[|actions|], a) && next == Take(states[|actions|], a)
    ensures IsRun(more, log) && more == states + [next] && log == actions + [a]
  {
    more, log := states + [next], actions + [a];
    forall i | 0 <= i < |log|
      ensures StepAt(more, log, i)
    {
      if i < |actions| {
        assert StepAt(states, actions, i);
      }
    }
  }

  // ---- The relay ---------------------------------------------------------------------

  // The published generation is the one the loop holds and has loaded, and its
  // last configuration is never behind the applied revision.
  lemma PublishedIsHeldAndLoaded(states: seq<State>, actions: seq<Action>, i: nat)
    requires IsRun(states, actions) && i < |states|
    ensures var s := states[i];
            s.target.Some? ==>
              && s.held == s.target && s.loadedGen == s.target.value && !s.relayClosed
              && s.target.value in s.config && s.applied <= s.config[s.target.value].revision <= s.store.revision
    ensures Indexed(states[i].store)
  {
    RunInv(states, actions, i);
  }

  // ---- Steps seen from one route --------------------------------------------------------

  predicate AddsId(a: Action, id: RouteId)
  {
    a.Env? && a.env.AddRun? && id in IdsOf(a.env.routes)
  }

  predicate RevokesId(a: Action, id: RouteId)
  {
    a.Env? && a.env.RevokeRun? && id in a.env.ids
  }

  predicate ActivatesId(a: Action, id: RouteId)
  {
    a.Env? && a.env.ActivateRun? && id in a.env.run.ids
  }

  // A successful load of a configuration holding the route.
  predicate LoadsId(s: State, a: Action, id: RouteId)
  {
    && a.Loop? && (a.step == LoopLoad(Loaded) || a.step == LoopEmpty(Loaded))
    && HasSnap(s.pc) && id in s.pc.snap.routes && s.held.Some? && MustLoad(s, s.pc.snap)
  }

  // No action between from (inclusive) and to (exclusive) adds the route.
  predicate NotAdded(actions: seq<Action>, id: RouteId, from: nat, to: nat)
    requires to <= |actions|
  {
    forall k | from <= k < to :: !AddsId(actions[k], id)
  }

  // How one step may change the stored form of one route.
  predicate RouteStep(st: Store, confirmed: Revision, a: Action, t: Store, id: RouteId)
  {
    && (AddsId(a, id) ==> id !in st.routes)
    && (id in t.routes && id !in st.routes ==> AddsId(a, id) && !t.routes[id].active)
    && (id in st.routes && id !in t.routes ==> a == Loop(LoopConfirm) && Dropped(st.routes[id], confirmed))
    && (id in st.routes && id in t.routes ==>
          var x, y := st.routes[id], t.routes[id];
          && (!x.desired ==> !y.desired)
          && (y.desired && y.active ==> !RevokesId(a, id) && x.desired && (x.active || ActivatesId(a, id))))
  }

  lemma EmptyLeavesStore(s: State, snap: Snapshot, outcome: LoadOutcome)
    ensures EmptyStep(s, snap, outcome).store == s.store
    ensures EmptyStep(s, snap, outcome).loaded ==
            if s.held.None? || !MustLoad(s, snap) then s.loaded else Configure(s, snap, outcome).loaded
  {
  }

  lemma LoadLeavesStore(s: State, snap: Snapshot, outcome: LoadOutcome)
    requires s.held.Some?
    ensures LoadStep(s, snap, outcome).store == s.store
    ensures LoadStep(s, snap, outcome).loaded ==
            if !MustLoad(s, snap) then s.loaded else Configure(s, snap, outcome).loaded
  {
  }

  lemma LoopStore(s: State, l: LoopAction)
    requires LoopEnabled(s, l)
    ensures LoopTake(s, l).store == if l == LoopConfirm then ConfirmRoutes(s.store, s.pc.snap.revision) else s.store
  {
    if l.LoopEmpty? {
      EmptyLeavesStore(s, s.pc.snap, l.outcome);
    } else if l.LoopLoad? {
      LoadLeavesStore(s, s.pc.snap, l.outcome);
    }
  }

  lemma AddedRoute(st: Store, routes: seq<Route>, id: RouteId)
    requires CanAdd(st, routes)
    ensures RouteStep(st, 0, Env(AddRun(routes)), AddRoutes(st, routes), id)
  {
    AddGrows(st, routes);
    assert Grown(st, AddRoutes(st, routes), IdsOf(routes));
  }

  function ConfirmingRevision(s: State): Revision
  {
    if s.pc.Confirming? then s.pc.snap.revision else 0
  }

  lemma LoopRoute(s: State, l: LoopAction, id: RouteId)
    requires LoopEnabled(s, l)
    ensures RouteStep(s.store, ConfirmingRevision(s), Loop(l), LoopTake(s, l).store, id)
  {
    LoopStore(s, l);
  }

  lemma EnvRoute(s: State, e: EnvAction, id: RouteId)
    requires EnvEnabled(s, e)
    ensures RouteStep(s.store, 0, Env(e), EnvTake(s, e).store, id)
  {
    if e.AddRun? {
      AddedRoute(s.store, e.routes, id);
    }
  }

  lemma RunRoute(states: seq<State>, actions: seq<Action>, k: nat, id: RouteId)
    requires IsRun(states, actions) && k < |actions|
    ensures RouteStep(states[k].store, ConfirmingRevision(states[k]), actions[k], states[k + 1].store, id)
  {
    assert StepAt(states, actions, k);
    match actions[k]
    case Env(e) => EnvRoute(states[k], e, id);
    case Loop(l) => LoopRoute(states[k], l, id);
  }

  lemma RunRevokes(states: seq<State>, actions: seq<Action>, i: nat, ids: set<RouteId>)
    requires IsRun(states, actions) && i < |actions| && actions[i] == Env(RevokeRun(ids))
    ensures states[i + 1].store == RevokeRoutes(states[i].store, ids)
  {
    assert StepAt(states, actions, i);
  }

  // ---- Authorization --------------------------------------------------------------------

  predicate Undesired(st: Store, id: RouteId)
  {
    id in st.routes ==> !st.routes[id].desired
  }

  lemma {:induction false} StaysUndesired(
    states: seq<State>, actions: seq<Action>, i: nat, j: nat, ids: set<RouteId>, id: RouteId)
    requires IsRun(states, actions) && i < j < |states|
    requires actions[i] == Env(RevokeRun(ids)) && id in ids && NotAdded(actions, id, i, j)
    ensures Undesired(states[j].store, id)
  {
    var k := j - 1;
    if k == i {
      RunRevokes(states, actions, i, ids);
    } else {
      StaysUndesired(states, actions, i, k, ids, id);
      RunRoute(states, actions, k, id);
    }
  }

  // Once revoke has returned, even without a revision left to record it, the route
  // is never authorized until it is added anew.
  lemma NeverAuthorizedAfterRevoke(
    states: seq<State>, actions: seq<Action>, i: nat, j: nat, ids: set<RouteId>, id: RouteId)
    requires IsRun(states, actions) && i < j < |states|
    requires actions[i] == Env(RevokeRun(ids)) && id in ids && NotAdded(actions, id, i, j)
    ensures !Authorized(states[j].store, id)
  {
    StaysUndesired(states, actions, i, j, ids, id);
  }

  // Every stored route was added, and not added again since.
  lemma {:induction false} StoredWasAdded(states: seq<State>, actions: seq<Action>, j: nat, id: RouteId)
    returns (a: nat)
    requires IsRun(states, actions) && j < |states| && id in states[j].store.routes
    ensures a < j && AddsId(actions[a], id) && NotAdded(actions, id, a + 1, j)
  {
    a := j - 1;
    RunRoute(states, actions, a, id);
    if !AddsId(actions[a], id) {
      a := StoredWasAdded(states, actions, a, id);
    }
  }

  lemma ConfigureLoads(s: State, snap: Snapshot, outcome: LoadOutcome, id: RouteId)
    requires s.held.Some? && id !in s.loaded && id in Configure(s, snap, outcome).loaded
    ensures outcome == Loaded && id in snap.routes && id in s.store.routes
  {
  }

  lemma OthersLoadNothing(s: State, l: LoopAction)
    requires LoopEnabled(s, l) && !l.LoopLoad? && !l.LoopEmpty?
    ensures LoopTake(s, l).loaded <= s.loaded
  {
  }

  lemma LoadedByLoad(s: State, l: LoopAction, id: RouteId)
    requires LoopEnabled(s, l) && id !in s.loaded && id in LoopTake(s, l).loaded
    ensures LoadsId(s, Loop(l), id) && id in s.store.routes
  {
    if l.LoopLoad? {
      LoadLeavesStore(s, s.pc.snap, l.outcome);
      ConfigureLoads(s, s.pc.snap, l.outcome, id);
    } else if l.LoopEmpty? {
      EmptyLeavesStore(s, s.pc.snap, l.outcome);
      ConfigureLoads(s, s.pc.snap, l.outcome, id);
    } else {
      OthersLoadNothing(s, l);
    }
  }

  lemma RunLoads(states: seq<State>, actions: seq<Action>, k: nat, id: RouteId)
    requires IsRun(states, actions) && k < |actions|
    requires id !in states[k].loaded && id in states[k + 1].loaded
    ensures LoadsId(states[k], actions[k], id) && id in states[k].store.routes
  {
    assert StepAt(states, actions, k);
    if actions[k].Loop? {
      LoadedByLoad(states[k], actions[k].step, id);
    }
  }

  // The history of loaded routes records loads since the route was added.
  lemma {:induction false} LoadedWasLoaded(states: seq<State>, actions: seq<Action>, j: nat, id: RouteId)
    returns (a: nat, l: nat)
    requires IsRun(states, actions) && j < |states| && id in states[j].loaded
    ensures a < l < j && AddsId(actions[a], id) && LoadsId(states[l], actions[l], id)
    ensures NotAdded(actions, id, a + 1, j)
  {
    l := j - 1;
    RunInv(states, actions, l);
    RunRoute(states, actions, l, id);
    if id in states[l].loaded {
      a, l := LoadedWasLoaded(states, actions, l, id);
    } else {
      RunLoads(states, actions, l, id);
      a := StoredWasAdded(states, actions, l, id);
    }
  }

  // Neither added nor revoked from (inclusive) to (exclusive).
  predicate Untouched(actions: seq<Action>, id: RouteId, from: nat, to: nat)
    requires to <= |actions|
  {
    forall k | from <= k < to :: !AddsId(actions[k], id) && !RevokesId(actions[k], id)
  }

  lemma {:induction false} AuthorizedWasActivated(states: seq<State>, actions: seq<Action>, j: nat, id: RouteId)
    returns (b: nat)
    requires IsRun(states, actions) && j < |states| && Authorized(states[j].store, id)
    ensures b < j && ActivatesId(actions[b], id) && Untouched(actions, id, b, j)
    ensures Authorized(states[b + 1].store, id)
  {
    b := j - 1;
    RunRoute(states, actions, b, id);
    if Authorized(states[b].store, id) {
      b := AuthorizedWasActivated(states, actions, b, id);
    }
  }

  // An authorized route was added, then loaded, then activated, and neither
  // added again nor revoked since its activation.
  lemma AuthorizedOnlyAfterLoad(states: seq<State>, actions: seq<Action>, j: nat, id: RouteId)
    returns (a: nat, l: nat, b: nat)
    requires IsRun(states, actions) && j < |states| && Authorized(states[j].store, id)
    ensures a < l < b < j
    ensures AddsId(actions[a], id) && LoadsId(states[l], actions[l], id) && ActivatesId(actions[b], id)
    ensures NotAdded(actions, id, a + 1, j) && Untouched(actions, id, b, j)
  {
    b := AuthorizedWasActivated(states, actions, j, id);
    RunInv(states, actions, b + 1);
    if id !in states[b].loaded {
      RunLoads(states, actions, b, id);
    }
    a, l := LoadedWasLoaded(states, actions, b, id);
    forall k | a + 1 <= k < j
      ensures !AddsId(actions[k], id)
    {
    }
  }

  // A run whose revision is applied always activates.
  lemma ActivationSucceeds(states: seq<State>, actions: seq<Action>, i: nat, run: Acquisition)
    requires IsRun(states, actions) && i < |states| && run in states[i].pending
    ensures CanActivate(states[i].store, run.ids)
  {
    RunInv(states, actions, i);
  }
}
