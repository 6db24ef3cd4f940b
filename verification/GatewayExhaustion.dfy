// What becomes of a removal wait once the revision space is exhausted.
//
// A revoke then hands out the last revision again, and a snapshot of that
// revision may have been taken while the route was still desired.

module GatewayExhaustion {
  import opened GatewayRoutes
  import opened GatewayProtocol
  import opened GatewayInvariant
  import opened GatewayTheorems

  // The published configuration serves the route.
  predicate Serves(s: State, id: RouteId)
  {
    s.target.Some? && s.target.value in s.config && id in s.config[s.target.value].routes
  }

  // A wait for the last revision succeeds although the route is still served.
  predicate Dishonest(s: State, id: RouteId)
  {
    s.applied >= MAX_REVISION && Serves(s, id)
  }

  predicate BeforePublication(pc: Pc)
  {
    pc.Snapped? || pc.Equipped? || pc.Publishable?
  }

  predicate AfterPublication(pc: Pc)
  {
    pc.Confirming? || pc.Applying?
  }

  // A snapshot of the last revision has been taken and is still on its way to
  // the relay, or is published and on its way to being applied, or is both
  // published and applied.
  predicate LastSnapshotOut(s: State)
  {
    || (s.applied == MAX_REVISION && s.target.Some?)
    || (BeforePublication(s.pc) && s.pc.snap.revision == MAX_REVISION && !s.relayClosed)
    || (AfterPublication(s.pc) && s.pc.snap.revision == MAX_REVISION && s.target.Some?)
  }

  // ---- Continuations -----------------------------------------------------------------

  // Any further behaviour, with no assumption about revisions.
  predicate IsContinuation(s: State, states: seq<State>, actions: seq<Action>)
  {
    && |states| == |actions| + 1
    && states[0] == s
    && forall i | 0 <= i < |actions| :: Follows(states, actions, i)
  }

  predicate Follows(states: seq<State>, actions: seq<Action>, i: nat)
    requires |states| == |actions| + 1 && i < |actions|
  {
    Enabled(states[i], actions[i]) && states[i + 1] == Take(states[i], actions[i])
  }

  // Some continuation lets a wait succeed while the route is served.
  ghost predicate MayBecomeDishonest(s: State, id: RouteId)
  {
    exists states, actions :: IsContinuation(s, states, actions) && Dishonest(states[|actions|], id)
  }

  lemma NowDishonest(s: State, id: RouteId)
    requires Dishonest(s, id)
    ensures MayBecomeDishonest(s, id)
  {
    var states, actions: seq<Action> := [s], [];
    assert IsContinuation(s, states, actions) && Dishonest(states[|actions|], id);
  }

  lemma LaterDishonest(s: State, a: Action, id: RouteId)
    requires Enabled(s, a) && MayBecomeDishonest(Take(s, a), id)
    ensures MayBecomeDishonest(s, id)
  {
    var states, actions :|
      IsContinuation(Take(s, a), states, actions) && Dishonest(states[|actions|], id);
    var more, log := [s] + states, [a] + actions;
    forall i | 0 <= i < |log|
      ensures Follows(more, log, i)
    {
      if i > 0 {
        assert Follows(states, actions, i - 1);
      }
    }
    assert IsContinuation(s, more, log) && more[|log|] == states[|actions|];
  }

  // ---- Once the last snapshot is out, the wait may turn dishonest --------------------------

  lemma ApplyingLeads(s: State, id: RouteId)
    requires s.pc.Applying? && s.pc.snap.revision == MAX_REVISION && Serves(s, id)
    ensures MayBecomeDishonest(s, id)
  {
    NowDishonest(Take(s, Loop(LoopApply)), id);
    LaterDishonest(s, Loop(LoopApply), id);
  }

  lemma ConfirmingLeads(s: State, id: RouteId)
    requires s.pc.Confirming? && s.pc.snap.revision == MAX_REVISION && Serves(s, id)
    ensures MayBecomeDishonest(s, id)
  {
    ApplyingLeads(Take(s, Loop(LoopConfirm)), id);
    LaterDishonest(s, Loop(LoopConfirm), id);
  }

  lemma PublishableLeads(s: State, id: RouteId)
    requires s.pc.Publishable? && s.pc.snap.revision == MAX_REVISION && id in s.pc.snap.routes
    requires s.held.Some? && s.held.value in s.config && s.config[s.held.value] == s.pc.snap
    requires !s.relayClosed && s.target.None?
    ensures MayBecomeDishonest(s, id)
  {
    ConfirmingLeads(Take(s, Loop(LoopPublish)), id);
    LaterDishonest(s, Loop(LoopPublish), id);
  }

  // Either the generation has to be loaded and published, or it is published and
  // its configuration is replaced, or it already serves the last snapshot.
  lemma EquippedLeads(s: State, id: RouteId)
    requires s.pc.Equipped? && s.pc.snap.revision == MAX_REVISION && id in s.pc.snap.routes
    requires s.held.Some? && !s.relayClosed
    requires if s.loadedGen == s.held.value then s.target == s.held else s.target.None?
    requires s.applied <= MAX_REVISION && (s.applied == MAX_REVISION && s.target.Some? ==> Serves(s, id))
    ensures MayBecomeDishonest(s, id)
  {
    if MustLoad(s, s.pc.snap) {
      var t := Take(s, Loop(LoopLoad(Loaded)));
      if s.loadedGen == s.held.value {
        ConfirmingLeads(t, id);
      } else {
        PublishableLeads(t, id);
      }
      LaterDishonest(s, Loop(LoopLoad(Loaded)), id);
    } else {
      NowDishonest(s, id);
    }
  }

  // A recorded failure is cleared by a removal's retry; a missing generation is
  // acquired.
  lemma SnappedLeads(s: State, id: RouteId)
    requires s.pc.Snapped? && s.pc.snap.revision == MAX_REVISION && id in s.pc.snap.routes && !s.relayClosed
    requires s.applied <= MAX_REVISION && (s.applied == MAX_REVISION && s.target.Some? ==> Serves(s, id))
    requires s.held.None? ==> s.target.None?
    requires s.held.Some? ==> if s.loadedGen == s.held.value then s.target == s.held else s.target.None?
    ensures MayBecomeDishonest(s, id)
  {
    if RevisionFailed(s, MAX_REVISION) {
      var a := Env(RetryRemoval(MAX_REVISION));
      SnappedEquips(Take(s, a), id);
      LaterDishonest(s, a, id);
    } else {
      SnappedEquips(s, id);
    }
  }

  lemma SnappedEquips(s: State, id: RouteId)
    requires s.pc.Snapped? && s.pc.snap.revision == MAX_REVISION && id in s.pc.snap.routes && !s.relayClosed
    requires s.applied <= MAX_REVISION && (s.applied == MAX_REVISION && s.target.Some? ==> Serves(s, id))
    requires s.held.None? ==> s.target.None?
    requires s.held.Some? ==> if s.loadedGen == s.held.value then s.target == s.held else s.target.None?
    requires !RevisionFailed(s, MAX_REVISION)
    ensures MayBecomeDishonest(s, id)
  {
    var a := Loop(if s.held.Some? then LoopEquip else LoopAcquire(Got(1)));
    EquippedLeads(Take(s, a), id);
    LaterDishonest(s, a, id);
  }

  // A snapshot or published configuration of the last revision holds every route
  // that is desired.
  lemma LastSnapshotHolds(st: Store, added: map<RouteId, Revision>, snap: Snapshot, id: RouteId)
    requires StoreOk(st, added) && SnapOk(st, added, snap) && snap.revision == MAX_REVISION
    requires id in st.routes && st.routes[id].desired
    ensures id in snap.routes
  {
    assert StoredOk(st, added[id], st.routes[id]);
  }

  lemma LastSnapshotLeads(s: State, ids: set<RouteId>, id: RouteId)
    requires Inv(s) && id in s.store.routes && s.store.routes[id].desired && LastSnapshotOut(s)
    ensures MayBecomeDishonest(s.(store := RevokeRoutes(s.store, ids)), id)
  {
    var t := s.(store := RevokeRoutes(s.store, ids));
    if s.target.Some? && s.config[s.target.value].revision == MAX_REVISION {
      LastSnapshotHolds(s.store, s.added, s.config[s.target.value], id);
    }
    if HasSnap(s.pc) && s.pc.snap.revision == MAX_REVISION {
      LastSnapshotHolds(s.store, s.added, s.pc.snap, id);
    }
    if s.applied == MAX_REVISION && s.target.Some? {
      NowDishonest(t, id);
    } else if s.pc.Snapped? {
      SnappedLeads(t, id);
    } else if s.pc.Equipped? {
      EquippedLeads(t, id);
    } else if s.pc.Publishable? {
      PublishableLeads(t, id);
    } else if s.pc.Confirming? {
      ConfirmingLeads(t, id);
    } else {
      ApplyingLeads(t, id);
    }
  }

  // ---- Otherwise it never does ----------------------------------------------------------------

  // The relay's target is the generation the loop holds and has loaded.
  predicate Tied(s: State)
  {
    && (s.loadedGen != 0 ==> s.held == Some(s.loadedGen) && (s.relayClosed || s.target == s.held))
    && (s.held.Some? ==> s.held.value != 0)
    && (s.relayClosed ==> s.target == None)
    && (s.target.Some? ==> s.target == s.held && s.loadedGen == s.target.value && s.target.value in s.config)
    && (s.pc.Equipped? || s.pc.Publishable? ==> s.held.Some?)
    && (s.pc.Publishable? ==>
          s.loadedGen != s.held.value && s.held.value in s.config && s.config[s.held.value] == s.pc.snap)
  }

  predicate Ordered(s: State)
  {
    && s.store.revision == MAX_REVISION && s.applied <= MAX_REVISION
    && (HasSnap(s.pc) ==> s.applied <= s.pc.snap.revision <= MAX_REVISION)
  }

  // Nothing of the last revision that could still be published, applied or both
  // holds the route.
  predicate Harmless(s: State, id: RouteId)
  {
    && (BeforePublication(s.pc) && s.pc.snap.revision == MAX_REVISION && !s.relayClosed ==> id !in s.pc.snap.routes)
    && (AfterPublication(s.pc) && s.pc.snap.revision == MAX_REVISION ==> !Serves(s, id))
    && (s.applied == MAX_REVISION ==> !Serves(s, id))
  }

  predicate Settled(s: State, id: RouteId)
  {
    Tied(s) && Ordered(s) && Harmless(s, id) && Undesired(s.store, id)
  }

  // A load attempt leaves a configuration that is harmless as the snapshot is.
  lemma ConfigureSettled(s: State, outcome: LoadOutcome, id: RouteId)
    requires Settled(s, id) && (s.pc.Snapped? || s.pc.Equipped?) && s.held.Some?
    ensures Settled(Configure(s, s.pc.snap, outcome), id)
    ensures outcome.Loaded? ==>
              var t := Configure(s, s.pc.snap, outcome);
              s.held.value in t.config && t.config[s.held.value] == s.pc.snap
  {
  }

  lemma RestSettled(s: State, id: RouteId, revision: Revision)
    requires Settled(s, id)
    ensures Settled(s.(pc := Waiting), id) && Settled(RecordFailure(s, revision).(pc := Waiting), id)
    ensures Settled(Drop(s.(pc := Waiting)), id)
  {
  }

  lemma LoadedSettled(s: State, id: RouteId, retire: bool)
    requires Settled(s, id) && (s.pc.Snapped? || s.pc.Equipped?) && s.held.Some?
    requires s.held.value in s.config && s.config[s.held.value] == s.pc.snap
    ensures Settled(s.(pc := Confirming(s.pc.snap, retire)), id)
    ensures s.loadedGen != s.held.value ==> Settled(s.(pc := Publishable(s.pc.snap)), id)
  {
  }

  lemma LoadSettled(s: State, outcome: LoadOutcome, id: RouteId)
    requires Settled(s, id) && LoopEnabled(s, LoopLoad(outcome))
    ensures Settled(LoopTake(s, LoopLoad(outcome)), id)
  {
    var t := Configure(s, s.pc.snap, outcome);
    RestSettled(s, id, 0);
    ConfigureSettled(s, outcome, id);
    RestSettled(t, id, s.pc.snap.revision);
    if outcome.Loaded? {
      LoadedSettled(t, id, false);
    }
  }

  lemma UnloadedSettled(s: State, id: RouteId)
    requires Settled(s, id) && s.pc.Snapped? && s.pc.snap.routes == map[]
    requires s.held.None? || !MustLoad(s, s.pc.snap)
    ensures Settled(s.(pc := Confirming(s.pc.snap, true)), id)
  {
  }

  lemma EmptySettled(s: State, outcome: LoadOutcome, id: RouteId)
    requires Settled(s, id) && LoopEnabled(s, LoopEmpty(outcome))
    ensures Settled(LoopTake(s, LoopEmpty(outcome)), id)
  {
    if s.held.None? || !MustLoad(s, s.pc.snap) {
      UnloadedSettled(s, id);
    } else {
      var t := Configure(s, s.pc.snap, outcome);
      ConfigureSettled(s, outcome, id);
      RestSettled(t, id, s.pc.snap.revision);
      if outcome.Loaded? {
        LoadedSettled(t, id, true);
      }
    }
  }

  lemma PublishSettled(s: State, id: RouteId)
    requires Settled(s, id) && LoopEnabled(s, LoopPublish)
    ensures Settled(LoopTake(s, LoopPublish), id)
  {
  }

  lemma AcquireSettled(s: State, pool: PoolOutcome, id: RouteId)
    requires Settled(s, id) && LoopEnabled(s, LoopAcquire(pool))
    ensures Settled(LoopTake(s, LoopAcquire(pool)), id)
  {
  }

  lemma ConfirmSettled(s: State, id: RouteId)
    requires Settled(s, id) && LoopEnabled(s, LoopConfirm)
    ensures Settled(LoopTake(s, LoopConfirm), id)
  {
  }

  lemma ApplySettled(s: State, id: RouteId)
    requires Settled(s, id) && LoopEnabled(s, LoopApply)
    ensures Settled(LoopTake(s, LoopApply), id)
  {
  }

  lemma OtherLoopSettled(s: State, l: LoopAction, id: RouteId)
    requires Settled(s, id) && LoopEnabled(s, l)
    requires l in {LoopSnapshot, LoopSkipFailed, LoopEquip, LoopRetire, LoopWake, LoopDropDead, LoopStop}
    ensures Settled(LoopTake(s, l), id)
  {
  }

  lemma LoopSettled(s: State, l: LoopAction, id: RouteId)
    requires Settled(s, id) && LoopEnabled(s, l)
    ensures Settled(LoopTake(s, l), id)
  {
    match l
    case LoopLoad(outcome) => LoadSettled(s, outcome, id);
    case LoopEmpty(outcome) => EmptySettled(s, outcome, id);
    case LoopPublish => PublishSettled(s, id);
    case LoopAcquire(pool) => AcquireSettled(s, pool, id);
    case LoopConfirm => ConfirmSettled(s, id);
    case LoopApply => ApplySettled(s, id);
    case _ => OtherLoopSettled(s, l, id);
  }

  lemma EnvSettled(s: State, e: EnvAction, id: RouteId)
    requires Settled(s, id) && EnvEnabled(s, e)
    ensures Settled(EnvTake(s, e), id)
  {
  }

  lemma {:induction false} StaysSettled(s: State, states: seq<State>, actions: seq<Action>, i: nat, id: RouteId)
    requires Settled(s, id) && IsContinuation(s, states, actions) && i < |states|
    ensures Settled(states[i], id)
  {
    if i > 0 {
      StaysSettled(s, states, actions, i - 1, id);
      assert Follows(states, actions, i - 1);
      match actions[i - 1]
      case Env(e) => EnvSettled(states[i - 1], e, id);
      case Loop(l) => LoopSettled(states[i - 1], l, id);
    }
  }

  lemma SettledIsHonest(s: State, id: RouteId)
    requires Settled(s, id)
    ensures !MayBecomeDishonest(s, id)
  {
    forall states, actions | IsContinuation(s, states, actions)
      ensures !Dishonest(states[|actions|], id)
    {
      StaysSettled(s, states, actions, |actions|, id);
    }
  }

  lemma RevokeSettles(s: State, ids: set<RouteId>, id: RouteId)
    requires Inv(s) && s.store.revision == MAX_REVISION && !LastSnapshotOut(s)
    requires id in ids && id in s.store.routes && s.store.routes[id].desired
    ensures Settled(s.(store := RevokeRoutes(s.store, ids)), id)
  {
  }

  // ---- The exact condition ---------------------------------------------------------------------

  // With the revision space exhausted, a revoke can be followed by a removal wait
  // that succeeds while the route is still served exactly when a snapshot of the
  // last revision was out at the moment of the revoke.
  lemma DishonestIff(s: State, ids: set<RouteId>, id: RouteId)
    requires Inv(s) && s.store.revision == MAX_REVISION
    requires id in ids && id in s.store.routes && s.store.routes[id].desired
    ensures RemovalRevision(s.store, ids) == MAX_REVISION
    ensures MayBecomeDishonest(EnvTake(s, RevokeRun(ids)), id) <==> LastSnapshotOut(s)
  {
    if LastSnapshotOut(s) {
      LastSnapshotLeads(s, ids, id);
    } else {
      RevokeSettles(s, ids, id);
      SettledIsHonest(s.(store := RevokeRoutes(s.store, ids)), id);
    }
  }

  // So it is at every revoke of every run, the first at the last revision or any
  // later one.
  lemma DishonestIffLastSnapshotOut(
    states: seq<State>, actions: seq<Action>, i: nat, ids: set<RouteId>, id: RouteId)
    requires IsRun(states, actions) && i < |actions| && actions[i] == Env(RevokeRun(ids))
    requires states[i].store.revision == MAX_REVISION
    requires id in ids && id in states[i].store.routes && states[i].store.routes[id].desired
    ensures RemovalRevision(states[i].store, ids) == MAX_REVISION
    ensures MayBecomeDishonest(states[i + 1], id) <==> LastSnapshotOut(states[i])
  {
    RunInv(states, actions, i);
    assert StepAt(states, actions, i);
    DishonestIff(states[i], ids, id);
  }
}
