// Runs from the initial state to the last revision, and what goes wrong there.

module GatewayWitness {
  import opened GatewayRoutes
  import opened GatewayProtocol
  import opened GatewayInvariant
  import opened GatewayTheorems
  import opened GatewayExhaustion

  // ---- A run for every even revision ---------------------------------------------------

  // Nothing is stored, held or published, and everything up to n is applied.
  function Resting(n: Revision, pc: Pc): State
  {
    State(Store(n, n, map[], map[]), map[], {}, n, 0, false, pc, None, 0, None, false, map[], {})
  }

  const ROUTE := Route(7, 3, true)
  const RUN := {7}

  // One route was added at revision n + 1 and nothing else happened.
  function Added(n: Revision, pending: set<Acquisition>): State
  {
    Resting(n, Top).(
      store := Store(n + 1, n, map[7 := Stored(ROUTE, true, false, 0)], map[3 := 7]),
      added := map[7 := n + 1],
      pending := pending)
  }

  // It was revoked at revision n + 2.
  function Buried(n: Revision, pc: Pc): State
  {
    Resting(n, pc).(
      store := Store(n + 2, n, map[7 := Stored(ROUTE, false, false, n + 2)], map[3 := 7]),
      added := map[7 := n + 1])
  }

  lemma AddedStore(n: Revision)
    ensures AddRoutes(Store(n, n, map[], map[]), [ROUTE]) == Added(n, {}).store
    ensures IdsOf([ROUTE]) == RUN && DesiredRoutes(Added(n, {}).store) == map[7 := ROUTE]
  {
    var st := Store(n, n, map[], map[]);
    assert [ROUTE][..0] == [];
    assert WithRoutes(st, []) == st;
    assert WithRoutes(st, [ROUTE]) == WithRoute(st, ROUTE);
    assert [ROUTE][0].id == 7;
  }

  lemma OneCanJoin(n: Revision)
    requires n < MAX_REVISION
    ensures CanAdd(Resting(n, Top).store, [ROUTE])
  {
  }

  lemma AddOne(n: Revision)
    requires n < MAX_REVISION
    ensures Enabled(Resting(n, Top), Env(AddRun([ROUTE])))
    ensures Take(Resting(n, Top), Env(AddRun([ROUTE]))) == Added(n, {Acquisition(RUN, n + 1)})
  {
    OneCanJoin(n);
    AddedStore(n);
    assert AddedAt(map[], RUN, n + 1) == map[7 := n + 1];
  }

  lemma Abandon(n: Revision)
    requires n < MAX_REVISION
    ensures Enabled(Added(n, {Acquisition(RUN, n + 1)}), Env(AbandonRun(Acquisition(RUN, n + 1))))
    ensures Take(Added(n, {Acquisition(RUN, n + 1)}), Env(AbandonRun(Acquisition(RUN, n + 1)))) == Added(n, {})
  {
  }

  lemma BuryOne(n: Revision)
    requires n + 1 < MAX_REVISION
    ensures Enabled(Added(n, {}), Env(RevokeRun(RUN)))
    ensures Take(Added(n, {}), Env(RevokeRun(RUN))) == Buried(n, Top)
  {
    assert 7 in RUN && 7 in Added(n, {}).store.routes;
  }

  // The loop takes the empty snapshot of the revoke, confirms and applies it.
  lemma Clear(states: seq<State>, actions: seq<Action>, n: Revision)
    returns (more: seq<State>, log: seq<Action>)
    requires IsRun(states, actions) && states[|actions|] == Buried(n, Top)
    ensures IsRun(more, log) && more[|log|] == Resting(n + 2, Top)
  {
    var snap := Snapshot(n + 2, map[]);
    more, log := Extend(states, actions, Loop(LoopSnapshot), Buried(n, Snapped(snap)));
    more, log := Extend(more, log, Loop(LoopEmpty(Loaded)), Buried(n, Confirming(snap, true)));
    var t := Resting(n, Applying(snap, true)).(store := Store(n + 2, n + 2, map[], map[]));
    more, log := Extend(more, log, Loop(LoopConfirm), t);
    more, log := Extend(more, log, Loop(LoopApply), Resting(n + 2, Retiring));
    more, log := Extend(more, log, Loop(LoopRetire), Resting(n + 2, Waiting));
    more, log := Extend(more, log, Loop(LoopWake), Resting(n + 2, Top));
  }

  lemma Cycle(states: seq<State>, actions: seq<Action>, n: Revision)
    returns (more: seq<State>, log: seq<Action>)
    requires IsRun(states, actions) && states[|actions|] == Resting(n, Top) && n + 1 < MAX_REVISION
    ensures IsRun(more, log) && more[|log|] == Resting(n + 2, Top)
  {
    more, log := AddToResting(states, actions, n);
    Abandon(n);
    more, log := Extend(more, log, Env(AbandonRun(Acquisition(RUN, n + 1))), Added(n, {}));
    BuryOne(n);
    more, log := Extend(more, log, Env(RevokeRun(RUN)), Buried(n, Top));
    more, log := Clear(more, log, n);
  }

  lemma {:induction false} ReachRevision(n: nat) returns (states: seq<State>, actions: seq<Action>)
    requires 2 * n <= MAX_REVISION
    ensures IsRun(states, actions) && states[|actions|] == Resting(2 * n, Top)
  {
    if n == 0 {
      states, actions := [INITIAL], [];
    } else {
      states, actions := ReachRevision(n - 1);
      states, actions := Cycle(states, actions, 2 * n - 2);
    }
  }

  lemma AddToResting(states: seq<State>, actions: seq<Action>, n: Revision)
    returns (more: seq<State>, log: seq<Action>)
    requires IsRun(states, actions) && states[|actions|] == Resting(n, Top) && n < MAX_REVISION
    ensures IsRun(more, log) && more[|log|] == Added(n, {Acquisition(RUN, n + 1)})
  {
    AddOne(n);
    more, log := Extend(states, actions, Env(AddRun([ROUTE])), Added(n, {Acquisition(RUN, n + 1)}));
  }

  // The last revision holds the one route.
  lemma ReachTheLast() returns (states: seq<State>, actions: seq<Action>)
    ensures IsRun(states, actions)
    ensures states[|actions|] == Added(MAX_REVISION - 1, {Acquisition(RUN, MAX_REVISION)})
  {
    var n: nat := 0x7FFF_FFFF_FFFF_FFFF;
    states, actions := ReachRevision(n);
    states, actions := AddToResting(states, actions, 2 * n);
  }

  const LAST := Snapshot(MAX_REVISION, map[7 := ROUTE])

  // ---- The wait that turns dishonest later ----------------------------------------------------

  // The snapshot of the last revision has been taken, and nothing of it is loaded
  // or applied when the route is revoked.
  lemma ExhaustionBreaksRemovalLater() returns (states: seq<State>, actions: seq<Action>)
    ensures IsRun(states, actions) && |actions| > 0 && actions[|actions| - 1] == Env(RevokeRun(RUN))
    ensures var s := states[|actions|];
            s.applied < MAX_REVISION && s.target == None && MayBecomeDishonest(s, 7)
  {
    states, actions := ReachTheLast();
    var n := MAX_REVISION - 1;
    Abandon(n);
    states, actions := Extend(states, actions, Env(AbandonRun(Acquisition(RUN, n + 1))), Added(n, {}));
    AddedStore(n);
    var s := Added(n, {}).(pc := Snapped(LAST));
    states, actions := Extend(states, actions, Loop(LoopSnapshot), s);
    var t := EnvTake(s, RevokeRun(RUN));
    states, actions := Extend(states, actions, Env(RevokeRun(RUN)), t);
    assert 7 in RUN && 7 in s.store.routes;
    DishonestIffLastSnapshotOut(states, actions, |actions| - 1, RUN, 7);
  }

  // ---- The wait that succeeds at once ------------------------------------------------------------

  // Generation 1 is held for the snapshot of the last revision.
  function Held(pc: Pc, config: map<Gen, Snapshot>, loaded: set<RouteId>): State
  {
    Added(MAX_REVISION - 1, {Acquisition(RUN, MAX_REVISION)}).(
      pc := pc, held := Some(1), config := config, loaded := loaded)
  }

  // It is published, and the last revision confirmed.
  function Serving(confirmed: Revision, applied: Revision, pc: Pc): State
  {
    var s := Held(pc, map[1 := LAST], RUN);
    s.(loadedGen := 1, target := Some(1), applied := applied, store := s.store.(confirmed := confirmed))
  }

  lemma LoadTheLast() returns (states: seq<State>, actions: seq<Action>)
    ensures IsRun(states, actions) && states[|actions|] == Held(Publishable(LAST), map[1 := LAST], RUN)
  {
    states, actions := ReachTheLast();
    AddedStore(MAX_REVISION - 1);
    assert 7 in LAST.routes;
    var s := Added(MAX_REVISION - 1, {Acquisition(RUN, MAX_REVISION)}).(pc := Snapped(LAST));
    states, actions := Extend(states, actions, Loop(LoopSnapshot), s);
    states, actions := Extend(states, actions, Loop(LoopAcquire(Got(1))), Held(Equipped(LAST), map[], {}));
    var t := Held(Publishable(LAST), map[1 := LAST], RUN);
    assert LAST.routes.Keys * s.store.routes.Keys == RUN;
    states, actions := Extend(states, actions, Loop(LoopLoad(Loaded)), t);
  }

  lemma ApplyTheLast() returns (states: seq<State>, actions: seq<Action>)
    ensures IsRun(states, actions)
    ensures states[|actions|] == Serving(MAX_REVISION, MAX_REVISION, Waiting)
  {
    var n := MAX_REVISION - 1;
    states, actions := LoadTheLast();
    states, actions := Extend(states, actions, Loop(LoopPublish), Serving(n, n, Confirming(LAST, false)));
    var t := Serving(MAX_REVISION, n, Applying(LAST, false));
    assert ConfirmRoutes(Serving(n, n, Waiting).store, MAX_REVISION) == t.store;
    states, actions := Extend(states, actions, Loop(LoopConfirm), t);
    states, actions := Extend(states, actions, Loop(LoopApply), Serving(MAX_REVISION, MAX_REVISION, Waiting));
  }

  // The route is authorized, revoked at the last revision, and its removal wait
  // succeeds at once while it is still served; its tombstone never goes.
  lemma ExhaustionBreaksRemoval() returns (states: seq<State>, actions: seq<Action>)
    ensures IsRun(states, actions) && |actions| > 0 && actions[|actions| - 1] == Env(RevokeRun(RUN))
    ensures Authorized(states[|actions| - 1].store, 7)
    ensures var s := states[|actions|];
            Dishonest(s, 7) && 7 in ConfirmRoutes(s.store, MAX_REVISION).routes
  {
    states, actions := ApplyTheLast();
    var s := Serving(MAX_REVISION, MAX_REVISION, Waiting);
    var run := Acquisition(RUN, MAX_REVISION);
    var t := ActivateStep(s, run);
    states, actions := Extend(states, actions, Env(ActivateRun(run)), t);
    assert 7 in t.store.routes && t.store.routes[7].active && t.pending == {};
    states, actions := Extend(states, actions, Env(RevokeRun(RUN)), EnvTake(t, RevokeRun(RUN)));
  }
}
