// What a run gets from the models gateway: routes that are authorized once they are
// activated and until they are revoked, and a reconcile loop that can always serve
// them.

module GatewayActivation {
  import opened GatewayRoutes
  import opened GatewayProtocol
  import opened GatewayInvariant
  import opened GatewayTheorems

  // ---- From activation to revocation -----------------------------------------------------

  // No action from (inclusive) to (exclusive) revokes the route.
  predicate NotRevoked(actions: seq<Action>, id: RouteId, from: nat, to: nat)
    requires to <= |actions|
  {
    forall k | from <= k < to :: !RevokesId(actions[k], id)
  }

  lemma AddKeepsAuthorized(st: Store, routes: seq<Route>, id: RouteId)
    requires CanAdd(st, routes) && Authorized(st, id)
    ensures Authorized(AddRoutes(st, routes), id)
  {
    AddGrows(st, routes);
    assert Grown(st, AddRoutes(st, routes), IdsOf(routes));
  }

  lemma EnvKeepsAuthorized(s: State, e: EnvAction, id: RouteId)
    requires EnvEnabled(s, e) && Authorized(s.store, id) && !RevokesId(Env(e), id)
    ensures Authorized(EnvTake(s, e).store, id)
  {
    if e.AddRun? {
      AddKeepsAuthorized(s.store, e.routes, id);
    }
  }

  // Only a revoke that names the route ends its authorization.
  lemma StepKeepsAuthorized(states: seq<State>, actions: seq<Action>, k: nat, id: RouteId)
    requires IsRun(states, actions) && k < |actions|
    requires Authorized(states[k].store, id) && !RevokesId(actions[k], id)
    ensures Authorized(states[k + 1].store, id)
  {
    assert StepAt(states, actions, k);
    match actions[k]
    case Env(e) => EnvKeepsAuthorized(states[k], e, id);
    case Loop(l) => LoopStore(states[k], l);
  }

  // The activation of a run authorizes every one of its routes at once.
  lemma ActivationAuthorizes(states: seq<State>, actions: seq<Action>, i: nat, run: Acquisition, id: RouteId)
    requires IsRun(states, actions) && i < |actions|
    requires actions[i] == Env(ActivateRun(run)) && id in run.ids
    ensures Authorized(states[i + 1].store, id)
  {
    assert StepAt(states, actions, i);
    ActivationSucceeds(states, actions, i, run);
  }

  // Every route of an activated run is authorized until a revoke names it.
  lemma {:induction false} ActivatedIsAuthorized(
    states: seq<State>, actions: seq<Action>, i: nat, j: nat, run: Acquisition, id: RouteId)
    requires IsRun(states, actions) && i < j < |states|
    requires actions[i] == Env(ActivateRun(run)) && id in run.ids && NotRevoked(actions, id, i + 1, j)
    ensures Authorized(states[j].store, id)
    decreases j
  {
    if j == i + 1 {
      ActivationAuthorizes(states, actions, i, run, id);
    } else {
      ActivatedIsAuthorized(states, actions, i, j - 1, run, id);
      StepKeepsAuthorized(states, actions, j - 1, id);
    }
  }

  // The route was activated at b and not revoked since.
  predicate ActiveSince(actions: seq<Action>, id: RouteId, b: nat, j: nat)
  {
    b < j <= |actions| && ActivatesId(actions[b], id) && NotRevoked(actions, id, b + 1, j)
  }

  // A route is authorized exactly when a run holding it was activated and no
  // revoke has named it since.
  lemma AuthorizedIffActivated(states: seq<State>, actions: seq<Action>, j: nat, id: RouteId)
    requires IsRun(states, actions) && j < |states|
    ensures Authorized(states[j].store, id) <==> exists b: nat :: ActiveSince(actions, id, b, j)
  {
    if Authorized(states[j].store, id) {
      var b := AuthorizedWasActivated(states, actions, j, id);
      assert ActiveSince(actions, id, b, j);
    }
    if b: nat :| ActiveSince(actions, id, b, j) {
      ActivatedIsAuthorized(states, actions, b, j, actions[b].env.run, id);
    }
  }

  // ---- The loop can always serve -------------------------------------------------------------

  // The loop has taken notice of everything desired and of nothing else: the
  // current revision is applied, and what is published serves the desired routes.
  predicate Served(s: State, st: Store, g: Gen)
  {
    && s.applied >= st.revision && s.pc == Waiting
    && s.store == ConfirmRoutes(st, st.revision)
    && (if DesiredRoutes(st) == map[] then s.target == None
        else s.target == Some(g) && g in s.config && s.config[g] == TakeSnapshot(st))
  }

  // At rest with nothing held, about to take a snapshot that has not failed.
  predicate Poised(s: State)
  {
    s.pc == Top && s.held == None && s.target == None && !s.relayClosed && !RevisionFailed(s, s.store.revision)
  }

  // The loop loads the snapshot into a new generation and publishes it.
  lemma PublishRoutes(states: seq<State>, actions: seq<Action>, g: Gen)
    returns (more: seq<State>, log: seq<Action>)
    requires IsRun(states, actions) && Poised(states[|actions|]) && 0 < g
    requires DesiredRoutes(states[|actions|].store) != map[]
    ensures IsRun(more, log) && states <= more
    ensures var s, t := states[|actions|], more[|log|];
            var snap := TakeSnapshot(s.store);
            && t.store == s.store && t.pc == Confirming(snap, false) && t.pending == s.pending
            && t.target == Some(g) && g in t.config && t.config[g] == snap
  {
    var s0 := states[|actions|];
    var s1 := LoopTake(s0, LoopSnapshot);
    more, log := Extend(states, actions, Loop(LoopSnapshot), s1);
    var s2 := LoopTake(s1, LoopAcquire(Got(g)));
    more, log := Extend(more, log, Loop(LoopAcquire(Got(g))), s2);
    var s3 := LoopTake(s2, LoopLoad(Loaded));
    more, log := Extend(more, log, Loop(LoopLoad(Loaded)), s3);
    var s4 := LoopTake(s3, LoopPublish);
    more, log := Extend(more, log, Loop(LoopPublish), s4);
  }

  lemma ConfirmAndApply(states: seq<State>, actions: seq<Action>) returns (more: seq<State>, log: seq<Action>)
    requires IsRun(states, actions) && states[|actions|].pc.Confirming?
    ensures IsRun(more, log) && states <= more
    ensures var s, t := states[|actions|], more[|log|];
            && t.store == ConfirmRoutes(s.store, s.pc.snap.revision) && s.pc.snap.revision <= t.applied
            && t.pc == (if s.pc.retire then Retiring else Waiting)
            && t.target == s.target && t.held == s.held && t.config == s.config && t.pending == s.pending
  {
    var s0 := states[|actions|];
    var s1 := LoopTake(s0, LoopConfirm);
    more, log := Extend(states, actions, Loop(LoopConfirm), s1);
    var s2 := LoopTake(s1, LoopApply);
    more, log := Extend(more, log, Loop(LoopApply), s2);
  }

  // With no route desired the loop publishes nothing.
  lemma ConfirmEmpty(states: seq<State>, actions: seq<Action>) returns (more: seq<State>, log: seq<Action>)
    requires IsRun(states, actions) && Poised(states[|actions|])
    requires DesiredRoutes(states[|actions|].store) == map[]
    ensures IsRun(more, log) && states <= more
    ensures var s, t := states[|actions|], more[|log|];
            && t.store == s.store && t.pc == Confirming(TakeSnapshot(s.store), true)
            && t.target == None && t.held == None && t.pending == s.pending
  {
    var s0 := states[|actions|];
    var s1 := LoopTake(s0, LoopSnapshot);
    more, log := Extend(states, actions, Loop(LoopSnapshot), s1);
    var s2 := LoopTake(s1, LoopEmpty(NotRendered));
    more, log := Extend(more, log, Loop(LoopEmpty(NotRendered)), s2);
  }

  // From rest, whatever has happened before, the loop can go on to serve exactly
  // the desired routes and to apply the current revision.
  lemma PoisedCanServe(states: seq<State>, actions: seq<Action>, g: Gen)
    returns (more: seq<State>, log: seq<Action>)
    requires IsRun(states, actions) && Poised(states[|actions|]) && 0 < g
    ensures IsRun(more, log) && states <= more
    ensures Served(more[|log|], states[|actions|].store, g) && more[|log|].pending == states[|actions|].pending
  {
    if DesiredRoutes(states[|actions|].store) != map[] {
      more, log := PublishRoutes(states, actions, g);
      more, log := ConfirmAndApply(more, log);
    } else {
      more, log := ConfirmEmpty(states, actions);
      more, log := ConfirmAndApply(more, log);
      more, log := Extend(more, log, Loop(LoopRetire), LoopTake(more[|log|], LoopRetire));
    }
  }

  lemma NothingHeldNothingPublished(states: seq<State>, actions: seq<Action>, i: nat)
    requires IsRun(states, actions) && i < |states| && states[i].held == None
    ensures states[i].target == None
  {
    PublishedIsHeldAndLoaded(states, actions, i);
  }

  // Whenever the loop waits, it can serve: it is woken, drops what it holds, and
  // tries a failed revision again when it is asked to.
  lemma WaitingCanServe(states: seq<State>, actions: seq<Action>, g: Gen)
    returns (more: seq<State>, log: seq<Action>)
    requires IsRun(states, actions) && states[|actions|].pc == Waiting && 0 < g
    requires !states[|actions|].relayClosed
    ensures IsRun(more, log) && states <= more
    ensures Served(more[|log|], states[|actions|].store, g) && more[|log|].pending == states[|actions|].pending
  {
    more, log := states, actions;
    if more[|log|].held.Some? {
      more, log := Extend(more, log, Loop(LoopDropDead), LoopTake(more[|log|], LoopDropDead));
    }
    var revision := more[|log|].store.revision;
    more, log := Extend(more, log, Env(RetryRemoval(revision)), EnvTake(more[|log|], RetryRemoval(revision)));
    more, log := Extend(more, log, Loop(LoopWake), LoopTake(more[|log|], LoopWake));
    NothingHeldNothingPublished(more, log, |log|);
    more, log := PoisedCanServe(more, log, g);
  }

  // So a run that has added its routes can come to have them all authorized,
  // whatever the loop has been through.
  lemma PendingCanBeAuthorized(states: seq<State>, actions: seq<Action>, run: Acquisition)
    returns (more: seq<State>, log: seq<Action>)
    requires IsRun(states, actions) && states[|actions|].pc == Waiting && !states[|actions|].relayClosed
    requires run in states[|actions|].pending
    ensures IsRun(more, log) && states <= more
    ensures forall id <- run.ids :: Authorized(more[|log|].store, id)
  {
    if run.ids == {} {
      return states, actions;
    }
    RunInv(states, actions, |actions|);
    var some :| some in run.ids;
    assert states[|actions|].added[some] == run.revision;
    more, log := WaitingCanServe(states, actions, 1);
    more, log := Extend(more, log, Env(ActivateRun(run)), EnvTake(more[|log|], ActivateRun(run)));
    forall id | id in run.ids
      ensures Authorized(more[|log|].store, id)
    {
      ActivationAuthorizes(more, log, |log| - 1, run, id);
    }
  }

  // ---- Failed revisions -----------------------------------------------------------------------

  // A failure of this revision or a later one stands.
  predicate Failing(s: State, revision: Revision)
  {
    s.failing && revision <= s.failedRevision
  }

  // The step retries this revision or a later one, or applies one.
  predicate Clears(s: State, a: Action, revision: Revision)
  {
    || (a.Env? && a.env.RetryRemoval? && revision <= a.env.revision)
    || (a == Loop(LoopApply) && s.pc.Applying? && revision <= s.pc.snap.revision)
  }

  lemma LoopKeepsFailing(s: State, l: LoopAction, revision: Revision)
    requires LoopEnabled(s, l) && Failing(s, revision) && !Clears(s, Loop(l), revision)
    ensures Failing(LoopTake(s, l), revision)
  {
  }

  // A failure stands until it is retried or a revision at least as high is
  // applied.
  lemma {:induction false} FailureStands(
    states: seq<State>, actions: seq<Action>, i: nat, j: nat, revision: Revision)
    requires IsRun(states, actions) && i <= j < |states| && Failing(states[i], revision)
    requires forall k | i <= k < j :: !Clears(states[k], actions[k], revision)
    ensures Failing(states[j], revision)
    decreases j
  {
    if i < j {
      FailureStands(states, actions, i, j - 1, revision);
      assert StepAt(states, actions, j - 1);
      if actions[j - 1].Loop? {
        LoopKeepsFailing(states[j - 1], actions[j - 1].step, revision);
      }
    }
  }

  lemma EmptyKeepsNothingRecorded(s: State, snap: Snapshot, outcome: LoadOutcome)
    requires !s.failing ==> s.failedRevision == 0
    ensures var t := EmptyStep(s, snap, outcome); !t.failing ==> t.failedRevision == 0
  {
  }

  lemma LoadKeepsNothingRecorded(s: State, snap: Snapshot, outcome: LoadOutcome)
    requires s.held.Some? && (!s.failing ==> s.failedRevision == 0)
    ensures var t := LoadStep(s, snap, outcome); !t.failing ==> t.failedRevision == 0
  {
  }

  lemma LoopKeepsNothingRecorded(s: State, l: LoopAction)
    requires LoopEnabled(s, l) && (!s.failing ==> s.failedRevision == 0)
    ensures !LoopTake(s, l).failing ==> LoopTake(s, l).failedRevision == 0
  {
    if l.LoopEmpty? {
      EmptyKeepsNothingRecorded(s, s.pc.snap, l.outcome);
    } else if l.LoopLoad? {
      LoadKeepsNothingRecorded(s, s.pc.snap, l.outcome);
    }
  }

  lemma {:induction false} NothingRecorded(states: seq<State>, actions: seq<Action>, i: nat)
    requires IsRun(states, actions) && i < |states|
    ensures !states[i].failing ==> states[i].failedRevision == 0
  {
    if i > 0 {
      NothingRecorded(states, actions, i - 1);
      assert StepAt(states, actions, i - 1);
      if actions[i - 1].Loop? {
        LoopKeepsNothingRecorded(states[i - 1], actions[i - 1].step);
      }
    }
  }

  // A configuration that is rejected or cannot be rendered is a failure of its
  // revision, whether or not it has routes.
  lemma RejectionFails(states: seq<State>, actions: seq<Action>, i: nat)
    requires IsRun(states, actions) && i < |actions| && actions[i].Loop?
    requires states[i].held.Some? && HasSnap(states[i].pc) && MustLoad(states[i], states[i].pc.snap)
    requires actions[i].step.LoopLoad? || actions[i].step.LoopEmpty?
    requires actions[i].step.outcome.NotRendered? ||
             (actions[i].step.outcome.NotLoaded? && actions[i].step.outcome.rejected)
    ensures Failing(states[i + 1], states[i].pc.snap.revision) && states[i + 1].pc == Waiting
    ensures states[i + 1].applied == states[i].applied && states[i + 1].target == states[i].target
  {
    NothingRecorded(states, actions, i);
    assert StepAt(states, actions, i);
  }

  // A load that fails without being rejected is no failure of its revision. A
  // generation that serves is kept for another attempt; a fresh one is released.
  lemma FailedLoadKeepsServing(states: seq<State>, actions: seq<Action>, i: nat, tookEffect: bool)
    requires IsRun(states, actions) && i < |actions|
    requires actions[i] == Loop(LoopLoad(NotLoaded(false, tookEffect)))
    requires states[i].pc.Equipped? && states[i].held.Some? && MustLoad(states[i], states[i].pc.snap)
    ensures var s, t := states[i], states[i + 1];
            && t.pc == Waiting && t.applied == s.applied && t.store == s.store
            && t.failing == s.failing && t.failedRevision == s.failedRevision
            && (if s.loadedGen == s.held.value then t.held == s.held && t.target == s.target
                else t.held == None && t.target == None)
  {
    assert StepAt(states, actions, i);
    RunInv(states, actions, i);
  }

  // The loop does not attempt a revision whose failure stands: it waits, or stops.
  lemma FailedIsNotAttempted(states: seq<State>, actions: seq<Action>, i: nat)
    requires IsRun(states, actions) && i < |actions| && actions[i].Loop?
    requires states[i].pc.Snapped? && RevisionFailed(states[i], states[i].pc.snap.revision)
    ensures states[i + 1].pc == Stopped || states[i + 1] == states[i].(pc := Waiting)
  {
    assert StepAt(states, actions, i);
  }

  // Retrying a revision forgets its own failure and no later one.
  lemma RetryForgetsOnlyItself(states: seq<State>, actions: seq<Action>, i: nat, revision: Revision)
    requires IsRun(states, actions) && i < |actions| && actions[i] == Env(RetryRemoval(revision))
    ensures !RevisionFailed(states[i + 1], revision) || revision == 0
    ensures states[i].failing && states[i].failedRevision != revision ==> states[i + 1] == states[i]
  {
    assert StepAt(states, actions, i);
  }
}
