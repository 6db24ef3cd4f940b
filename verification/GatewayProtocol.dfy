// The revision protocol of the models gateway
// (internal/providergateway/reconcile.go, gateway.go, relay.go, acquired.go).
//
// The reconcile loop is one process with a program counter; run acquisitions,
// revocations, the relay closing and Caddy generations dying interleave with it
// at every step. A Caddy load may succeed, be rejected or fail, and a failed load
// may or may not have taken effect.

module GatewayProtocol {
  import opened GatewayRoutes

  // A Caddy process generation; 0 is no generation.
  type Gen = nat

  datatype Option<T> = None | Some(value: T)

  datatype Pc =
    | Top
    | Snapped(snap: Snapshot)
    | Equipped(snap: Snapshot)
    | Publishable(snap: Snapshot)
    | Confirming(snap: Snapshot, retire: bool)
    | Applying(snap: Snapshot, retire: bool)
    | Retiring
    | Waiting
    | Stopped

  // A run that added its routes at revision and has not activated them yet.
  datatype Acquisition = Acquisition(ids: set<RouteId>, revision: Revision)

  // added, config and loaded are history: the revision each stored route was
  // added at, the configuration each generation loaded last, and the stored
  // routes that have been part of a successfully loaded configuration.
  datatype State = State(
    store: Store,
    added: map<RouteId, Revision>,
    pending: set<Acquisition>,
    applied: Revision,
    failedRevision: Revision,
    failing: bool,
    pc: Pc,
    held: Option<Gen>,
    loadedGen: Gen,
    target: Option<Gen>,
    relayClosed: bool,
    config: map<Gen, Snapshot>,
    loaded: set<RouteId>)

  const INITIAL :=
    State(EMPTY_STORE, map[], {}, 0, 0, false, Top, None, 0, None, false, map[], {})

  datatype LoadOutcome =
    | Loaded
    | NotLoaded(rejected: bool, tookEffect: bool)
    | NotRendered

  datatype PoolOutcome = Got(gen: Gen) | PoolFailed | PoolInvalid

  // Steps of runs, of the relay and of anything else outside the loop.
  datatype EnvAction =
    | AddRun(routes: seq<Route>)
    | ActivateRun(run: Acquisition)
    | AbandonRun(run: Acquisition)
    | RevokeRun(ids: set<RouteId>)
    | RetryRemoval(revision: Revision)
    | CloseRelay

  datatype LoopAction =
    | LoopSnapshot
    | LoopSkipFailed
    | LoopEmpty(outcome: LoadOutcome)
    | LoopAcquire(pool: PoolOutcome)
    | LoopEquip
    | LoopLoad(outcome: LoadOutcome)
    | LoopPublish
    | LoopConfirm
    | LoopApply
    | LoopRetire
    | LoopWake
    | LoopDropDead
    | LoopStop

  datatype Action = Env(env: EnvAction) | Loop(step: LoopAction)

  // ---- Loop steps --------------------------------------------------------------------

  function Unpublish(target: Option<Gen>, gen: Option<Gen>): Option<Gen>
  {
    if gen.Some? && target == gen then None else target
  }

  // Unpublishes and releases the generation the loop holds.
  function Drop(s: State): State
  {
    s.(target := Unpublish(s.target, s.held), held := None, loadedGen := 0)
  }

  function RecordFailure(s: State, revision: Revision): State
  {
    if revision >= s.failedRevision then s.(failedRevision := revision, failing := true) else s
  }

  predicate RevisionFailed(s: State, revision: Revision)
  {
    s.failedRevision == revision && s.failing
  }

  // The configuration of the held generation after a load attempt.
  function Configure(s: State, snap: Snapshot, outcome: LoadOutcome): State
    requires s.held.Some?
  {
    match outcome
    case Loaded =>
      s.(config := s.config[s.held.value := snap], loaded := s.loaded + (snap.routes.Keys * s.store.routes.Keys))
    case NotLoaded(_, tookEffect) =>
      if tookEffect then s.(config := s.config[s.held.value := snap]) else s
    case NotRendered => s
  }

  predicate MustLoad(s: State, snap: Snapshot)
    requires s.held.Some?
  {
    s.loadedGen != s.held.value || snap.revision > s.applied
  }

  // The branch for a snapshot without routes.
  function EmptyStep(s: State, snap: Snapshot, outcome: LoadOutcome): State
  {
    if s.held.None? || !MustLoad(s, snap) then s.(pc := Confirming(snap, true))
    else
      var t := Configure(s, snap, outcome);
      match outcome
      case Loaded => t.(pc := Confirming(snap, true))
      case NotLoaded(rejected, _) => (if rejected then RecordFailure(t, snap.revision) else t).(pc := Waiting)
      case NotRendered => RecordFailure(t, snap.revision).(pc := Waiting)
  }

  function AcquireStep(s: State, snap: Snapshot, pool: PoolOutcome): State
  {
    match pool
    case Got(gen) => s.(held := Some(gen), loadedGen := 0, pc := Equipped(snap))
    case PoolFailed => s.(pc := Waiting)
    case PoolInvalid => RecordFailure(s, snap.revision).(pc := Waiting)
  }

  function LoadStep(s: State, snap: Snapshot, outcome: LoadOutcome): State
    requires s.held.Some?
  {
    if !MustLoad(s, snap) then s.(pc := Waiting)
    else
      var t := Configure(s, snap, outcome);
      match outcome
      case Loaded =>
        t.(pc := if s.loadedGen != s.held.value then Publishable(snap) else Confirming(snap, false))
      case NotLoaded(rejected, _) =>
        if rejected then RecordFailure(t, snap.revision).(pc := Waiting)
        else if s.loadedGen != s.held.value then Drop(t).(pc := Waiting)
        else t.(pc := Waiting)
      case NotRendered => RecordFailure(t, snap.revision).(pc := Waiting)
  }

  function PublishStep(s: State, snap: Snapshot): State
    requires s.held.Some?
  {
    if s.relayClosed || (s.target.Some? && s.target.value > s.held.value) then
      RecordFailure(s.(held := None, loadedGen := 0), snap.revision).(pc := Top)
    else
      s.(target := s.held, loadedGen := s.held.value, pc := Confirming(snap, false))
  }

  function ApplyStep(s: State, snap: Snapshot, retire: bool): State
  {
    s.(applied := if snap.revision > s.applied then snap.revision else s.applied,
       failedRevision := if s.failedRevision <= snap.revision then 0 else s.failedRevision,
       failing := s.failing && s.failedRevision > snap.revision,
       pc := if retire then Retiring else Waiting)
  }

  function ConfirmStep(s: State): State
    requires s.pc.Confirming?
  {
    var store := ConfirmRoutes(s.store, s.pc.snap.revision);
    s.(store := store,
       added := map id | id in s.added && id in store.routes :: s.added[id],
       loaded := s.loaded * store.routes.Keys,
       pc := Applying(s.pc.snap, s.pc.retire))
  }

  // ---- Steps of the environment ------------------------------------------------------

  function AddedAt(added: map<RouteId, Revision>, ids: set<RouteId>, revision: Revision): map<RouteId, Revision>
  {
    added + map id | id in ids :: revision
  }

  // The store gained the routes ids for a run that now waits to activate them.
  function Grow(s: State, store: Store, ids: set<RouteId>): State
  {
    s.(store := store,
       added := AddedAt(s.added, ids, store.revision),
       pending := s.pending + {Acquisition(ids, store.revision)})
  }

  function AddStep(s: State, routes: seq<Route>): State
  {
    Grow(s, AddRoutes(s.store, routes), IdsOf(routes))
  }

  function ActivateStep(s: State, run: Acquisition): State
  {
    s.(store := if CanActivate(s.store, run.ids) then ActivateRoutes(s.store, run.ids) else s.store,
       pending := s.pending - {run})
  }

  // Only a run itself revokes its routes, and not while it waits to activate them.
  predicate EnvEnabled(s: State, a: EnvAction)
  {
    match a
    case AddRun(routes) => CanAdd(s.store, routes)
    case ActivateRun(run) => run in s.pending && run.revision <= s.applied
    case AbandonRun(run) => run in s.pending
    case RevokeRun(ids) => forall run <- s.pending :: run.ids !! ids
    case RetryRemoval(revision) => true
    case CloseRelay => true
  }

  function EnvTake(s: State, a: EnvAction): State
  {
    match a
    case AddRun(routes) => AddStep(s, routes)
    case ActivateRun(run) => ActivateStep(s, run)
    case AbandonRun(run) => s.(pending := s.pending - {run})
    case RevokeRun(ids) => s.(store := RevokeRoutes(s.store, ids))
    case RetryRemoval(revision) =>
      if s.failedRevision == revision then s.(failedRevision := 0, failing := false) else s
    case CloseRelay => s.(relayClosed := true, target := None)
  }

  // ---- The machine ----------------------------------------------------------------------

  predicate LoopEnabled(s: State, a: LoopAction)
  {
    match a
    case LoopSnapshot => s.pc == Top
    case LoopSkipFailed => s.pc.Snapped? && RevisionFailed(s, s.pc.snap.revision)
    case LoopEmpty(_) => s.pc.Snapped? && s.pc.snap.routes == map[] && !RevisionFailed(s, s.pc.snap.revision)
    case LoopAcquire(pool) =>
      && s.pc.Snapped? && s.pc.snap.routes != map[] && s.held == None && !RevisionFailed(s, s.pc.snap.revision)
      && (pool.Got? ==> 0 < pool.gen)
    case LoopEquip =>
      s.pc.Snapped? && s.pc.snap.routes != map[] && s.held.Some? && !RevisionFailed(s, s.pc.snap.revision)
    case LoopLoad(_) => s.pc.Equipped? && s.held.Some?
    case LoopPublish => s.pc.Publishable? && s.held.Some?
    case LoopConfirm => s.pc.Confirming?
    case LoopApply => s.pc.Applying?
    case LoopRetire => s.pc == Retiring
    case LoopWake => s.pc == Waiting
    case LoopDropDead => (s.pc == Top || s.pc == Waiting) && s.held.Some?
    case LoopStop => s.pc == Top || s.pc == Waiting || s.pc.Snapped?
  }

  function LoopTake(s: State, a: LoopAction): State
    requires LoopEnabled(s, a)
  {
    match a
    case LoopSnapshot => s.(pc := Snapped(TakeSnapshot(s.store)))
    case LoopSkipFailed => s.(pc := Waiting)
    case LoopEmpty(outcome) => EmptyStep(s, s.pc.snap, outcome)
    case LoopAcquire(pool) => AcquireStep(s, s.pc.snap, pool)
    case LoopEquip => s.(pc := Equipped(s.pc.snap))
    case LoopLoad(outcome) => LoadStep(s, s.pc.snap, outcome)
    case LoopPublish => PublishStep(s, s.pc.snap)
    case LoopConfirm => ConfirmStep(s)
    case LoopApply => ApplyStep(s, s.pc.snap, s.pc.retire)
    case LoopRetire => Drop(s).(pc := Waiting)
    case LoopWake => s.(pc := Top)
    case LoopDropDead => Drop(s)
    case LoopStop => Drop(s).(pc := Stopped)
  }

  predicate Enabled(s: State, a: Action)
  {
    match a
    case Env(e) => EnvEnabled(s, e)
    case Loop(l) => LoopEnabled(s, l)
  }

  function Take(s: State, a: Action): State
    requires Enabled(s, a)
  {
    match a
    case Env(e) => EnvTake(s, e)
    case Loop(l) => LoopTake(s, l)
  }

  // Revision exhaustion is the one case the protocol does not survive.
  predicate BelowExhaustion(s: State, a: Action)
  {
    a.Env? && a.env.RevokeRun? && Revocable(s.store, a.env.ids) ==> s.store.revision < MAX_REVISION
  }
}
