// The inductive invariant of the resource registry, in three independent parts,
// and its preservation by every step on a key, stale callbacks included.

module ResourceInvariant {
  import opened Backoff
  import opened ResourceModel

  predicate StartPhase(p: RunnerPhase)
  {
    p == Launching || p == Publishing || p.Cleaning?
  }

  predicate ReapPhase(p: RunnerPhase)
  {
    p == Awaiting || p == Watching
  }

  // ---- Ownership: generations, processes and the goroutines that own them ------

  predicate RunnerOk(r: Global, c: Cell, g: Gen, p: RunnerPhase)
  {
    && 1 <= g <= r.nextGeneration
    && (StartPhase(p) || p == Detached ==> Current(c, g) && c.entry.value.startPending)
    && (p == Detached ==> r.closing)
    && (p == Cleaning(false) ==> g !in c.live)
    && (ReapPhase(p) && g in c.live ==> Current(c, g) && c.entry.value.instance.Some?)
    && (ReapPhase(p) && Current(c, g) ==> !c.entry.value.startPending)
  }

  predicate Owned(r: Global, c: Cell, e: Entry)
  {
    && 1 <= e.gen <= r.nextGeneration
    && (e.startPending && !r.closing ==> e.gen in c.runners && StartPhase(c.runners[e.gen]))
    && (e.instance.Some? ==>
          && e.instance.value == e.gen
          && !e.startPending
          && e.phase != Cold && e.phase != Starting
          && ((e.gen in c.runners && ReapPhase(c.runners[e.gen])) || (e.phase == Stopping && e.reaped)))
    && (e.reaped ==> e.phase == Stopping && e.gen !in c.runners)
    && (e.phase == Cold ==> r.closing)
    && (e.phase == Starting ==> e.startPending)
    && (e.phase == Ready || e.phase == Idle ==> !r.closing && e.instance.Some?)
    && (e.phase == Stopping ==> e.instance.Some? && e.gen in c.stoppers)
  }

  predicate Ownership(r: Global, c: Cell)
  {
    && c.live <= c.runners.Keys
    && (forall g <- c.runners :: RunnerOk(r, c, g, c.runners[g]))
    && (forall g <- c.stoppers :: Current(c, g) && c.entry.value.phase == Stopping)
    && (c.entry.Some? ==> Owned(r, c, c.entry.value))
    && (r.shutdownDone ==> r.closing && c.runners == map[] && c.stoppers == {})
  }

  // ---- Binding: leases and connectors against their entry -----------------------

  predicate LeaseOk(c: Cell, l: LeaseId, x: Lease)
  {
    && x.state != Releasing
    && x.closes == (if x.state == Closed then 1 else 0)
    && x.sent <= 1
    && (x.state == Opening ==> x.sent == 0)
    && (x.state == Active ==> x.sent == 1)
    && (x.state != Closed ==> c.entry.Some? && l in c.entry.value.leases)
    && (x.state == Opening ==>
          c.entry.value.phase == Stopping || (c.entry.value.phase == Starting && x.gen == c.entry.value.gen))
    && (x.state == Active ==> c.entry.value.phase == Ready && x.gen == c.entry.value.gen)
  }

  predicate ConnectorOk(c: Cell, n: ConnectorId, x: Connector)
  {
    && x.closes == (if x.closed then 1 else 0)
    && (!x.closed ==>
          && c.entry.Some? && n in c.entry.value.connectors
          && c.entry.value.phase == Ready && x.gen == c.entry.value.gen)
  }

  predicate Bound(r: Global, c: Cell, e: Entry)
  {
    && (forall l <- e.leases :: l in c.leases && c.leases[l].state != Closed)
    && (forall n <- e.connectors :: n in c.connectors && !c.connectors[n].closed)
    && (r.closing ==> e.leases == {} && e.connectors == {})
    && (e.phase == Starting && !r.closing ==> e.leases != {})
    && (e.phase == Ready ==> e.leases != {} || e.connectors != {})
  }

  predicate Binding(r: Global, c: Cell)
  {
    && (forall l <- c.leases :: LeaseOk(c, l, c.leases[l]))
    && (forall n <- c.connectors :: ConnectorOk(c, n, c.connectors[n]))
    && (c.entry.Some? ==> Bound(r, c, c.entry.value))
  }

  // ---- Timers: armed callbacks and leftover deadlines ----------------------------

  // A failed entry is on its way out: a retention callback is pending for it, or
  // its retention has passed and a worker still holds it.
  predicate Retained(r: Global, c: Cell, e: Entry)
  {
    || (e.failureTimer && Callback(FailureTimer, e.gen, e.failureDeadline) in c.timers)
    || (e.failureDeadline <= r.now && (e.startPending || e.instance.Some?))
  }

  predicate Quiet(e: Entry)
  {
    && (e.phase != Starting ==> !e.startCancel && !e.startTimer && e.startDeadline == 0)
    && (e.phase != Idle ==> !e.idleTimer && e.idleDeadline == 0)
    && (e.phase != Ready && e.phase != Idle ==> !e.stableTimer)
    && (e.phase != Failed ==> !e.failureTimer && e.failureDeadline == 0)
  }

  predicate Timed(r: Global, c: Cell, e: Entry)
  {
    && Quiet(e)
    && (e.phase == Starting ==> e.startTimer && Callback(StartTimer, e.gen, e.startDeadline) in c.timers)
    && (e.phase == Idle ==> e.idleTimer && Callback(IdleTimer, e.gen, e.idleDeadline) in c.timers)
    && (e.phase == Failed ==> Retained(r, c, e))
  }

  predicate Timers(r: Global, c: Cell)
  {
    c.entry.Some? && !r.closing ==> Timed(r, c, c.entry.value)
  }

  predicate CellOk(r: Global, c: Cell)
  {
    Ownership(r, c) && Binding(r, c) && Timers(r, c)
  }

  ghost predicate Inv(s: State)
  {
    && WellFormed(s.global)
    && (s.global.shutdownDone ==> s.global.closing)
    && forall k: Key {:trigger CellFine(s.global, s.cells, k)} :: CellFine(s.global, s.cells, k)
  }

  predicate CellFine(r: Global, cells: map<Key, Cell>, k: Key)
  {
    k in cells ==> CellOk(r, cells[k])
  }

  lemma InvAt(s: State, k: Key)
    requires Inv(s)
    ensures CellOk(s.global, CellOf(s, k))
  {
    assert CellFine(s.global, s.cells, k);
  }

  // ---- Starting a generation --------------------------------------------------------

  // Nothing of an older generation is left in the cell but watchers of exited
  // processes, and every lease still open waits for the next generation.
  predicate Startable(r: Global, c: Cell)
  {
    && !r.closing && !r.shutdownDone && r.nextGeneration < MAX_UINT64
    && c.live == {} && c.stoppers == {}
    && (forall g <- c.runners :: ReapPhase(c.runners[g]) && 1 <= g <= r.nextGeneration)
    && c.entry.Some?
    && var e := c.entry.value;
       && e.leases != {} && e.connectors == {}
       && !e.idleTimer && !e.stableTimer
       && (forall l <- e.leases :: l in c.leases && c.leases[l].state == Opening)
       && (forall l <- c.leases :: c.leases[l].state == Opening ==> l in e.leases)
       && (forall l <- c.leases :: LeaseCounts(c.leases[l]))
       && (forall n <- c.connectors :: c.connectors[n].closed && c.connectors[n].closes == 1)
  }

  predicate LeaseCounts(x: Lease)
  {
    && (x.state == Opening || x.state == Closed)
    && x.closes == (if x.state == Closed then 1 else 0)
    && x.sent <= (if x.state == Opening then 0 else 1)
  }

  lemma StartOwnership(r: Global, c: Cell)
    requires WellFormed(r) && Startable(r, c)
    ensures Ownership(r.(nextGeneration := r.nextGeneration + 1), StartLocked(r, c))
  {
  }

  lemma StartBinding(r: Global, c: Cell)
    requires WellFormed(r) && Startable(r, c)
    ensures Binding(r.(nextGeneration := r.nextGeneration + 1), StartLocked(r, c))
  {
  }

  lemma StartKeeps(r: Global, c: Cell)
    requires WellFormed(r) && Startable(r, c)
    ensures CellOk(r.(nextGeneration := r.nextGeneration + 1), StartLocked(r, c))
  {
    StartOwnership(r, c);
    StartBinding(r, c);
  }

  // ---- One lemma per branch of every mutex-held block --------------------------------

  lemma AcquireReady(r: Global, c: Cell, idleTimeout: nat, l: LeaseId)
    requires WellFormed(r) && CellOk(r, c)
    requires l !in c.leases && Refusal(r, c, idleTimeout) == None
    requires c.entry.Some? && (c.entry.value.phase == Ready || c.entry.value.phase == Idle)
    ensures CellOk(r, Acquire(r, c, idleTimeout, l).cell)
  {
  }

  lemma AcquireJoins(r: Global, c: Cell, idleTimeout: nat, l: LeaseId)
    requires WellFormed(r) && CellOk(r, c)
    requires l !in c.leases && Refusal(r, c, idleTimeout) == None
    requires c.entry.Some? && (c.entry.value.phase == Starting || c.entry.value.phase == Stopping)
    ensures CellOk(r, Acquire(r, c, idleTimeout, l).cell)
  {
  }

  lemma AcquireFresh(r: Global, c: Cell, idleTimeout: nat, l: LeaseId)
    requires WellFormed(r) && CellOk(r, c)
    requires l !in c.leases && Refusal(r, c, idleTimeout) == None
    requires c.entry == None && r.nextGeneration < MAX_UINT64
    ensures CellOk(r.(nextGeneration := r.nextGeneration + 1), Acquire(r, c, idleTimeout, l).cell)
  {
    StartKeeps(r, AddLease(c, idleTimeout, l));
  }

  lemma AcquireRetries(r: Global, c: Cell, idleTimeout: nat, l: LeaseId)
    requires WellFormed(r) && CellOk(r, c)
    requires l !in c.leases && Refusal(r, c, idleTimeout) == None
    requires c.entry.Some? && c.entry.value.phase == Failed && r.nextGeneration < MAX_UINT64
    ensures CellOk(r.(nextGeneration := r.nextGeneration + 1), Acquire(r, c, idleTimeout, l).cell)
  {
    StartKeeps(r, AddLease(c, idleTimeout, l));
  }

  lemma AcquireExhausted(r: Global, c: Cell, idleTimeout: nat, l: LeaseId)
    requires WellFormed(r) && CellOk(r, c)
    requires l !in c.leases && Refusal(r, c, idleTimeout) == None
    requires r.nextGeneration == MAX_UINT64 && (c.entry == None || c.entry.value.phase == Failed)
    ensures CellOk(r, Acquire(r, c, idleTimeout, l).cell)
  {
  }

  lemma ReleaseLastOpening(r: Global, c: Cell, l: LeaseId)
    requires WellFormed(r) && CellOk(r, c)
    requires l in c.leases && c.leases[l].state == Opening
    requires c.entry.Some? && c.entry.value.phase == Starting && c.entry.value.leases == {l}
    requires c.entry.value.failures == 0
    ensures CellOk(r, Release(r, c, l))
  {
    assert c.entry.value.leases - {l} == {};
  }

  lemma ReleaseLastRetryOwners(r: Global, c: Cell, l: LeaseId)
    requires WellFormed(r) && CellOk(r, c)
    requires l in c.leases && c.leases[l].state == Opening
    requires c.entry.Some? && c.entry.value.phase == Starting && c.entry.value.leases == {l}
    requires c.entry.value.failures != 0
    ensures Ownership(r, Release(r, c, l))
  {
    assert c.entry.value.leases - {l} == {};
  }

  lemma ReleaseLastRetryBinding(r: Global, c: Cell, l: LeaseId)
    requires WellFormed(r) && CellOk(r, c)
    requires l in c.leases && c.leases[l].state == Opening
    requires c.entry.Some? && c.entry.value.phase == Starting && c.entry.value.leases == {l}
    requires c.entry.value.failures != 0
    ensures Binding(r, Release(r, c, l))
  {
    assert c.entry.value.leases - {l} == {};
  }

  lemma ReleaseLastRetryTimers(r: Global, c: Cell, l: LeaseId)
    requires WellFormed(r) && CellOk(r, c)
    requires l in c.leases && c.leases[l].state == Opening
    requires c.entry.Some? && c.entry.value.phase == Starting && c.entry.value.leases == {l}
    requires c.entry.value.failures != 0
    ensures Timers(r, Release(r, c, l))
  {
    assert c.entry.value.leases - {l} == {};
  }

  lemma ReleaseLastRetry(r: Global, c: Cell, l: LeaseId)
    requires WellFormed(r) && CellOk(r, c)
    requires l in c.leases && c.leases[l].state == Opening
    requires c.entry.Some? && c.entry.value.phase == Starting && c.entry.value.leases == {l}
    requires c.entry.value.failures != 0
    ensures CellOk(r, Release(r, c, l))
  {
    ReleaseLastRetryOwners(r, c, l);
    ReleaseLastRetryBinding(r, c, l);
    ReleaseLastRetryTimers(r, c, l);
  }

  lemma ReleaseOpening(r: Global, c: Cell, l: LeaseId)
    requires WellFormed(r) && CellOk(r, c)
    requires l in c.leases && c.leases[l].state == Opening
    requires c.entry.Some? && (c.entry.value.phase == Stopping || c.entry.value.leases != {l})
    ensures CellOk(r, Release(r, c, l))
  {
    assert c.entry.value.leases - {l} == {} ==> c.entry.value.leases == {l};
  }

  lemma ReleaseToIdle(r: Global, c: Cell, l: LeaseId)
    requires WellFormed(r) && CellOk(r, c)
    requires l in c.leases && c.leases[l].state == Active
    requires c.entry.Some? && c.entry.value.leases == {l} && c.entry.value.connectors == {}
    ensures CellOk(r, Release(r, c, l))
  {
  }

  lemma ReleaseActive(r: Global, c: Cell, l: LeaseId)
    requires WellFormed(r) && CellOk(r, c)
    requires l in c.leases && c.leases[l].state == Active
    requires c.entry.Some? && (c.entry.value.leases != {l} || c.entry.value.connectors != {})
    ensures CellOk(r, Release(r, c, l))
  {
    assert c.entry.value.leases - {l} == {} ==> c.entry.value.leases == {l};
  }

  lemma OpenConnectorKeeps(r: Global, c: Cell, l: LeaseId, n: ConnectorId)
    requires WellFormed(r) && CellOk(r, c)
    requires l in c.leases && n !in c.connectors
    ensures CellOk(r, OpenConnector(r, c, l, n))
  {
  }

  lemma ShutLastConnector(r: Global, c: Cell, n: ConnectorId)
    requires WellFormed(r) && CellOk(r, c)
    requires n in c.connectors && !c.connectors[n].closed
    requires c.entry.Some? && c.entry.value.leases == {} && c.entry.value.connectors == {n}
    ensures CellOk(r, ShutConnector(r, c, n))
  {
    assert c.entry.value.connectors - {n} == {};
  }

  lemma ShutOtherConnector(r: Global, c: Cell, n: ConnectorId)
    requires WellFormed(r) && CellOk(r, c)
    requires n in c.connectors && !c.connectors[n].closed
    requires c.entry.Some? && (c.entry.value.leases != {} || c.entry.value.connectors != {n})
    ensures CellOk(r, ShutConnector(r, c, n))
  {
    assert c.entry.value.connectors - {n} == {} ==> c.entry.value.connectors == {n};
  }

  lemma SpawnKeeps(r: Global, c: Cell, g: Gen)
    requires WellFormed(r) && CellOk(r, c)
    requires g in c.runners && c.runners[g] == Launching
    ensures CellOk(r, c.(live := c.live + {g}))
  {
    assert RunnerOk(r, c, g, c.runners[g]);
  }

  lemma StartReturnedKeeps(r: Global, c: Cell, g: Gen, ok: bool, hasInstance: bool)
    requires WellFormed(r) && CellOk(r, c)
    requires g in c.runners && c.runners[g] == Launching && (!hasInstance ==> g !in c.live)
    ensures CellOk(r, StartReturned(c, g, ok, hasInstance))
  {
    assert RunnerOk(r, c, g, c.runners[g]);
  }

  lemma PublishUnwanted(r: Global, c: Cell, g: Gen, delay: nat)
    requires WellFormed(r) && CellOk(r, c)
    requires g in c.runners && c.runners[g] == Publishing
    requires c.entry.Some? && (r.closing || c.entry.value.phase != Starting)
    ensures CellOk(r, Publish(r, c, g, delay))
  {
    assert RunnerOk(r, c, g, c.runners[g]);
  }

  lemma PublishLate(r: Global, c: Cell, g: Gen, delay: nat)
    requires WellFormed(r) && CellOk(r, c)
    requires g in c.runners && c.runners[g] == Publishing && !r.closing
    requires c.entry.Some? && c.entry.value.phase == Starting && c.entry.value.startDeadline <= r.now
    ensures CellOk(r, Publish(r, c, g, delay))
  {
    assert RunnerOk(r, c, g, c.runners[g]);
  }

  lemma PublishReady(r: Global, c: Cell, g: Gen, delay: nat)
    requires WellFormed(r) && CellOk(r, c)
    requires g in c.runners && c.runners[g] == Publishing && !r.closing
    requires c.entry.Some? && c.entry.value.phase == Starting && r.now < c.entry.value.startDeadline
    ensures CellOk(r, Publish(r, c, g, delay))
  {
    assert RunnerOk(r, c, g, c.runners[g]);
  }

  lemma ReportClosing(r: Global, c: Cell, g: Gen, outcome: bool, delay: nat)
    requires WellFormed(r) && CellOk(r, c)
    requires g in c.runners && c.runners[g].Cleaning? && (outcome ==> g !in c.live) && r.closing
    ensures CellOk(r, ReportStartFailure(r, c, g, outcome, delay))
  {
    assert RunnerOk(r, c, g, c.runners[g]);
  }

  lemma ReportAbandoned(r: Global, c: Cell, g: Gen, outcome: bool, delay: nat)
    requires WellFormed(r) && CellOk(r, c)
    requires g in c.runners && c.runners[g].Cleaning? && (outcome ==> g !in c.live) && !r.closing
    requires c.entry.Some? && c.entry.value.phase != Starting
    ensures CellOk(r, ReportStartFailure(r, c, g, outcome, delay))
  {
    assert RunnerOk(r, c, g, c.runners[g]);
  }

  lemma ReportFailed(r: Global, c: Cell, g: Gen, outcome: bool, delay: nat)
    requires WellFormed(r) && CellOk(r, c)
    requires g in c.runners && c.runners[g].Cleaning? && (outcome ==> g !in c.live) && !r.closing
    requires c.entry.Some? && c.entry.value.phase == Starting
    ensures CellOk(r, ReportStartFailure(r, c, g, outcome, delay))
  {
    assert RunnerOk(r, c, g, c.runners[g]);
  }

  lemma ExitStale(r: Global, c: Cell, g: Gen, delay: nat)
    requires WellFormed(r) && CellOk(r, c)
    requires g in c.runners && ReapPhase(c.runners[g]) && g !in c.live
    requires !Current(c, g)
    ensures CellOk(r, ExitObserved(r, c, g, delay))
  {
    assert RunnerOk(r, c, g, c.runners[g]);
  }

  lemma ExitStopping(r: Global, c: Cell, g: Gen, delay: nat)
    requires WellFormed(r) && CellOk(r, c)
    requires g in c.runners && ReapPhase(c.runners[g]) && g !in c.live
    requires Current(c, g) && c.entry.value.phase == Stopping
    ensures CellOk(r, ExitObserved(r, c, g, delay))
  {
    assert RunnerOk(r, c, g, c.runners[g]);
  }

  lemma ExitFailed(r: Global, c: Cell, g: Gen, delay: nat)
    requires WellFormed(r) && CellOk(r, c)
    requires g in c.runners && ReapPhase(c.runners[g]) && g !in c.live
    requires Current(c, g) && c.entry.value.phase == Failed
    ensures CellOk(r, ExitObserved(r, c, g, delay))
  {
    assert RunnerOk(r, c, g, c.runners[g]);
  }

  lemma ExitServingOwners(r: Global, c: Cell, g: Gen, delay: nat)
    requires WellFormed(r) && CellOk(r, c)
    requires g in c.runners && ReapPhase(c.runners[g]) && g !in c.live
    requires Current(c, g) && (c.entry.value.phase == Ready || c.entry.value.phase == Idle)
    ensures Ownership(r, ExitObserved(r, c, g, delay))
  {
    assert RunnerOk(r, c, g, c.runners[g]);
  }

  // Nothing is bound to the entry, and everything that was is closed.
  predicate Unbound(c: Cell)
  {
    && (forall l <- c.leases :: c.leases[l].state == Closed && c.leases[l].closes == 1 && c.leases[l].sent <= 1)
    && (forall n <- c.connectors :: c.connectors[n].closed && c.connectors[n].closes == 1)
    && (c.entry.Some? ==> c.entry.value.leases == {} && c.entry.value.connectors == {})
  }

  lemma InvalidateUnbinds(r: Global, c: Cell, e: Entry, cause: Cause)
    requires Binding(r, c) && c.entry.Some?
    requires e.leases == c.entry.value.leases && e.connectors == c.entry.value.connectors
    ensures Unbound(Invalidate(Put(c, e), cause))
  {
  }

  lemma UnboundBinds(r: Global, c: Cell)
    requires Unbound(c) && (c.entry.Some? ==> c.entry.value.phase == Failed)
    ensures Binding(r, c)
  {
  }

  lemma FailStaysUnbound(r: Global, c: Cell, delay: nat)
    requires WellFormed(r) && c.entry.Some? && Unbound(c)
    ensures Unbound(Fail(r, c, delay)) && Fail(r, c, delay).entry.value.phase == Failed
  {
  }

  lemma ExitServingBinding(r: Global, c: Cell, g: Gen, delay: nat)
    requires WellFormed(r) && Binding(r, c)
    requires Current(c, g) && (c.entry.value.phase == Ready || c.entry.value.phase == Idle)
    ensures Binding(r, ExitObserved(r, c, g, delay))
  {
    var bare := CancelStable(CancelIdle(c.entry.value)).(instance := None);
    var invalid := Invalidate(Put(c, bare), Exited);
    InvalidateUnbinds(r, c, bare, Exited);
    FailStaysUnbound(r, invalid, delay);
    UnboundBinds(r, Fail(r, invalid, delay).(runners := c.runners - {g}));
  }

  lemma FailIsTimed(r: Global, c: Cell, delay: nat)
    requires WellFormed(r) && c.entry.Some?
    requires var e := c.entry.value; !e.startCancel && !e.startTimer && e.startDeadline == 0 &&
                                     !e.idleTimer && !e.stableTimer
    ensures Timers(r, Fail(r, c, delay))
  {
  }

  lemma InvalidateKeepsEntry(c: Cell, cause: Cause)
    requires c.entry.Some?
    ensures Invalidate(c, cause).entry == Some(c.entry.value.(leases := {}, connectors := {}))
    ensures Invalidate(c, cause).timers == c.timers
  {
  }

  lemma ExitServingTimers(r: Global, c: Cell, g: Gen, delay: nat)
    requires WellFormed(r) && Timers(r, c) && !r.closing
    requires Current(c, g) && (c.entry.value.phase == Ready || c.entry.value.phase == Idle)
    ensures Timers(r, ExitObserved(r, c, g, delay))
  {
    var bare := Put(c, CancelStable(CancelIdle(c.entry.value)).(instance := None));
    InvalidateKeepsEntry(bare, Exited);
    FailIsTimed(r, Invalidate(bare, Exited), delay);
  }

  lemma ExitServing(r: Global, c: Cell, g: Gen, delay: nat)
    requires WellFormed(r) && CellOk(r, c)
    requires g in c.runners && ReapPhase(c.runners[g]) && g !in c.live
    requires Current(c, g) && (c.entry.value.phase == Ready || c.entry.value.phase == Idle)
    ensures CellOk(r, ExitObserved(r, c, g, delay))
  {
    ExitServingOwners(r, c, g, delay);
    ExitServingBinding(r, c, g, delay);
    ExitServingTimers(r, c, g, delay);
  }

  lemma ExitOther(r: Global, c: Cell, g: Gen, delay: nat)
    requires WellFormed(r) && CellOk(r, c)
    requires g in c.runners && ReapPhase(c.runners[g]) && g !in c.live
    requires Current(c, g) && (c.entry.value.phase == Cold || c.entry.value.phase == Starting)
    ensures CellOk(r, ExitObserved(r, c, g, delay))
  {
    assert RunnerOk(r, c, g, c.runners[g]);
  }

  lemma DetachedReapedKeeps(r: Global, c: Cell, g: Gen)
    requires WellFormed(r) && CellOk(r, c)
    requires g in c.runners && c.runners[g] == Detached && g !in c.live
    ensures CellOk(r, c.(runners := c.runners - {g}))
  {
    assert RunnerOk(r, c, g, c.runners[g]);
  }

  lemma ProcessExitKeeps(r: Global, c: Cell, g: Gen)
    requires WellFormed(r) && CellOk(r, c)
    requires g in c.live
    ensures CellOk(r, c.(live := c.live - {g}))
  {
  }

  lemma StopUnreaped(r: Global, c: Cell, g: Gen, delay: nat)
    requires WellFormed(r) && CellOk(r, c)
    requires g in c.stoppers && g in c.live
    requires c.entry.Some? && !c.entry.value.reaped
    ensures CellOk(r, StopFinished(r, c, g, false, delay))
  {
  }

  lemma StopClosing(r: Global, c: Cell, g: Gen, outcome: bool, delay: nat)
    requires WellFormed(r) && CellOk(r, c)
    requires g in c.stoppers && g !in c.live && r.closing
    ensures CellOk(r, StopFinished(r, c, g, outcome, delay))
  {
  }

  lemma StopThenStarts(r: Global, c: Cell, g: Gen, outcome: bool, delay: nat)
    requires WellFormed(r) && CellOk(r, c)
    requires g in c.stoppers && g !in c.live && !r.closing && r.nextGeneration < MAX_UINT64
    requires c.entry.Some? && c.entry.value.leases != {}
    ensures CellOk(r.(nextGeneration := r.nextGeneration + 1), StopFinished(r, c, g, outcome, delay))
  {
    var d := Put(c, ColdEntry(c.entry.value)).(stoppers := {});
    assert c.stoppers - {g} == {};
    assert Startable(r, d);
    StartKeeps(r, d);
    assert StopFinished(r, c, g, outcome, delay) == StartLocked(r, d);
  }

  lemma StopExhausted(r: Global, c: Cell, g: Gen, outcome: bool, delay: nat)
    requires WellFormed(r) && CellOk(r, c)
    requires g in c.stoppers && g !in c.live && !r.closing && r.nextGeneration == MAX_UINT64
    requires c.entry.Some? && c.entry.value.leases != {}
    ensures CellOk(r, StopFinished(r, c, g, outcome, delay))
  {
  }

  lemma StopCold(r: Global, c: Cell, g: Gen, outcome: bool, delay: nat)
    requires WellFormed(r) && CellOk(r, c)
    requires g in c.stoppers && g !in c.live && !r.closing
    requires c.entry.Some? && c.entry.value.leases == {}
    ensures CellOk(r, StopFinished(r, c, g, outcome, delay))
  {
  }

  // ---- Callbacks ------------------------------------------------------------------------

  // The callback is the one its entry is waiting for.
  predicate Expected(r: Global, c: Cell, cb: Callback)
  {
    && !r.closing && Current(c, cb.gen)
    && match cb.kind
       case StartTimer => c.entry.value.phase == Starting && c.entry.value.startDeadline == cb.at
       case IdleTimer => c.entry.value.phase == Idle && c.entry.value.idleDeadline == cb.at
       case StableTimer => c.entry.value.phase == Ready || c.entry.value.phase == Idle
       case FailureTimer => c.entry.value.phase == Failed && c.entry.value.failureDeadline == cb.at
  }

  function Fired(c: Cell, cb: Callback): Cell
  {
    c.(timers := c.timers - multiset{cb})
  }

  // A stale callback changes nothing.
  lemma StaleCallback(r: Global, c: Cell, cb: Callback, delay: nat)
    requires WellFormed(r) && !Expected(r, c, cb)
    ensures RunCallback(r, c, cb, delay) == c
  {
  }

  lemma FireStale(r: Global, c: Cell, cb: Callback)
    requires WellFormed(r) && CellOk(r, c) && !Expected(r, c, cb)
    ensures CellOk(r, Fired(c, cb))
  {
    var d := Fired(c, cb);
    assert Ownership(r, d);
    assert Binding(r, d);
  }

  lemma FireStart(r: Global, c: Cell, cb: Callback, delay: nat)
    requires WellFormed(r) && CellOk(r, c) && cb.kind == StartTimer && cb.at <= r.now && Expected(r, c, cb)
    ensures CellOk(r, ExpireStart(r, Fired(c, cb), cb.gen, cb.at, delay))
  {
  }

  lemma FireIdle(r: Global, c: Cell, cb: Callback)
    requires WellFormed(r) && CellOk(r, c) && cb.kind == IdleTimer && cb.at <= r.now && Expected(r, c, cb)
    ensures CellOk(r, ExpireIdle(r, Fired(c, cb), cb.gen, cb.at))
  {
  }

  lemma FireStable(r: Global, c: Cell, cb: Callback)
    requires WellFormed(r) && CellOk(r, c) && cb.kind == StableTimer && Expected(r, c, cb)
    ensures CellOk(r, ResetStable(r, Fired(c, cb), cb.gen))
  {
  }

  lemma FireFailure(r: Global, c: Cell, cb: Callback)
    requires WellFormed(r) && CellOk(r, c) && cb.kind == FailureTimer && cb.at <= r.now && Expected(r, c, cb)
    ensures CellOk(r, ExpireFailure(r, Fired(c, cb), cb.gen, cb.at))
  {
    var d := ExpireFailure(r, Fired(c, cb), cb.gen, cb.at);
    assert Ownership(r, d);
    assert Binding(r, d);
  }
}
