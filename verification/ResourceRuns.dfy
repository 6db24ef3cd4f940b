// Whole runs of the resource registry: any number of keys, any interleaving of
// callers, workers, process exits and callbacks, and shutdown at any point.

module ResourceRuns {
  import opened Backoff
  import opened ResourceModel
  import opened ResourceInvariant

  // ---- Every step keeps the invariant of its cell --------------------------------

  lemma AcquireKeeps(r: Global, c: Cell, idleTimeout: nat, l: LeaseId)
    requires WellFormed(r) && CellOk(r, c) && l !in c.leases
    ensures CellOk(
              if Acquire(r, c, idleTimeout, l).started then r.(nextGeneration := r.nextGeneration + 1) else r,
              Acquire(r, c, idleTimeout, l).cell)
  {
    if Refusal(r, c, idleTimeout) == None {
      if c.entry == None || c.entry.value.phase == Failed {
        if r.nextGeneration == MAX_UINT64 {
          AcquireExhausted(r, c, idleTimeout, l);
        } else if c.entry == None {
          AcquireFresh(r, c, idleTimeout, l);
        } else {
          AcquireRetries(r, c, idleTimeout, l);
        }
      } else if c.entry.value.phase == Ready || c.entry.value.phase == Idle {
        AcquireReady(r, c, idleTimeout, l);
      } else {
        AcquireJoins(r, c, idleTimeout, l);
      }
    }
  }

  lemma ReleaseKeeps(r: Global, c: Cell, l: LeaseId)
    requires WellFormed(r) && CellOk(r, c) && l in c.leases
    ensures CellOk(r, Release(r, c, l))
  {
    assert LeaseOk(c, l, c.leases[l]);
    if c.leases[l].state == Opening {
      if c.entry.value.phase == Stopping || c.entry.value.leases != {l} {
        ReleaseOpening(r, c, l);
      } else if c.entry.value.failures == 0 {
        ReleaseLastOpening(r, c, l);
      } else {
        ReleaseLastRetry(r, c, l);
      }
    } else if c.leases[l].state == Active {
      if c.entry.value.leases == {l} && c.entry.value.connectors == {} {
        ReleaseToIdle(r, c, l);
      } else {
        ReleaseActive(r, c, l);
      }
    }
  }

  lemma ShutConnectorKeeps(r: Global, c: Cell, n: ConnectorId)
    requires WellFormed(r) && CellOk(r, c) && n in c.connectors
    ensures CellOk(r, ShutConnector(r, c, n))
  {
    assert ConnectorOk(c, n, c.connectors[n]);
    if !c.connectors[n].closed {
      if c.entry.value.leases == {} && c.entry.value.connectors == {n} {
        ShutLastConnector(r, c, n);
      } else {
        ShutOtherConnector(r, c, n);
      }
    }
  }

  lemma PublishKeeps(r: Global, c: Cell, g: Gen, delay: nat)
    requires WellFormed(r) && CellOk(r, c) && g in c.runners && c.runners[g] == Publishing
    ensures CellOk(r, Publish(r, c, g, delay))
  {
    assert RunnerOk(r, c, g, c.runners[g]);
    if r.closing || c.entry.value.phase != Starting {
      PublishUnwanted(r, c, g, delay);
    } else if c.entry.value.startDeadline <= r.now {
      PublishLate(r, c, g, delay);
    } else {
      PublishReady(r, c, g, delay);
    }
  }

  lemma ReportKeeps(r: Global, c: Cell, g: Gen, outcome: bool, delay: nat)
    requires WellFormed(r) && CellOk(r, c)
    requires g in c.runners && c.runners[g].Cleaning? && (outcome ==> g !in c.live)
    ensures CellOk(r, ReportStartFailure(r, c, g, outcome, delay))
  {
    assert RunnerOk(r, c, g, c.runners[g]);
    if r.closing {
      ReportClosing(r, c, g, outcome, delay);
    } else if c.entry.value.phase != Starting {
      ReportAbandoned(r, c, g, outcome, delay);
    } else {
      ReportFailed(r, c, g, outcome, delay);
    }
  }

  lemma ExitKeeps(r: Global, c: Cell, g: Gen, delay: nat)
    requires WellFormed(r) && CellOk(r, c)
    requires g in c.runners && ReapPhase(c.runners[g]) && g !in c.live
    ensures CellOk(r, ExitObserved(r, c, g, delay))
  {
    if !Current(c, g) {
      ExitStale(r, c, g, delay);
    } else {
      match c.entry.value.phase
      case Stopping => ExitStopping(r, c, g, delay);
      case Failed => ExitFailed(r, c, g, delay);
      case Ready | Idle => ExitServing(r, c, g, delay);
      case Cold | Starting => ExitOther(r, c, g, delay);
    }
  }

  lemma StopKeeps(r: Global, c: Cell, g: Gen, outcome: bool, delay: nat)
    requires WellFormed(r) && CellOk(r, c)
    requires g in c.stoppers && (outcome ==> g !in c.live)
    ensures CellOk(
              if StopRestarts(r, c, g, outcome) then r.(nextGeneration := r.nextGeneration + 1) else r,
              StopFinished(r, c, g, outcome, delay))
  {
    assert Current(c, g) && c.entry.value.phase == Stopping;
    if g in c.live {
      StopUnreaped(r, c, g, delay);
    } else if r.closing {
      StopClosing(r, c, g, outcome, delay);
    } else if c.entry.value.leases == {} {
      StopCold(r, c, g, outcome, delay);
    } else if r.nextGeneration == MAX_UINT64 {
      StopExhausted(r, c, g, outcome, delay);
    } else {
      StopThenStarts(r, c, g, outcome, delay);
    }
  }

  lemma FireKeeps(r: Global, c: Cell, cb: Callback, delay: nat)
    requires WellFormed(r) && CellOk(r, c) && cb.at <= r.now
    ensures CellOk(r, RunCallback(r, Fired(c, cb), cb, delay))
  {
    if !Expected(r, c, cb) {
      FireStale(r, c, cb);
      StaleCallback(r, Fired(c, cb), cb, delay);
    } else {
      match cb.kind
      case StartTimer => FireStart(r, c, cb, delay);
      case IdleTimer => FireIdle(r, c, cb);
      case StableTimer => FireStable(r, c, cb);
      case FailureTimer => FireFailure(r, c, cb);
    }
  }

  lemma CellStepKeeps(r: Global, c: Cell, ev: Event)
    requires WellFormed(r) && CellOk(r, c) && Enabled(r, c, ev)
    ensures CellOk(GlobalStep(r, c, ev), CellStep(r, c, ev))
  {
    match ev
    case DoAcquire(idleTimeout, l) => AcquireKeeps(r, c, idleTimeout, l);
    case DoRelease(l) => ReleaseKeeps(r, c, l);
    case DoOpenConnector(l, n) => OpenConnectorKeeps(r, c, l, n);
    case DoCloseConnector(n) => ShutConnectorKeeps(r, c, n);
    case DoSpawn(g) => SpawnKeeps(r, c, g);
    case DoStartReturned(g, ok, hasInstance) => StartReturnedKeeps(r, c, g, ok, hasInstance);
    case DoPublish(g, delay) => PublishKeeps(r, c, g, delay);
    case DoReportStartFailure(g, outcome, delay) => ReportKeeps(r, c, g, outcome, delay);
    case DoExitObserved(g, delay) => ExitKeeps(r, c, g, delay);
    case DoDetachedReaped(g) => DetachedReapedKeeps(r, c, g);
    case DoProcessExit(g) => ProcessExitKeeps(r, c, g);
    case DoStopFinished(g, outcome, delay) => StopKeeps(r, c, g, outcome, delay);
    case DoFire(cb, delay) => FireKeeps(r, c, cb, delay);
  }

  // ---- Every action keeps the invariant of the registry -------------------------------

  // A cell no step touched stays good while time passes and other keys start
  // generations.
  lemma OtherCellKeeps(r: Global, t: Global, c: Cell)
    requires CellOk(r, c)
    requires r.now <= t.now && r.nextGeneration <= t.nextGeneration
    requires t.closing == r.closing && t.shutdownDone == r.shutdownDone
    ensures CellOk(t, c)
  {
  }

  lemma ShutServing(r: Global, c: Cell)
    requires WellFormed(r) && CellOk(r, c) && !r.closing && c.entry.Some?
    requires c.entry.value.phase == Ready || c.entry.value.phase == Idle
    ensures CellOk(r.(closing := true), ShutCell(c))
  {
  }

  lemma ShutUnreaped(r: Global, c: Cell)
    requires WellFormed(r) && CellOk(r, c) && !r.closing && c.entry.Some?
    requires c.entry.value.phase == Failed && c.entry.value.instance.Some?
    ensures CellOk(r.(closing := true), ShutCell(c))
  {
  }

  lemma ShutFailed(r: Global, c: Cell)
    requires WellFormed(r) && CellOk(r, c) && !r.closing && c.entry.Some?
    requires c.entry.value.phase == Failed && c.entry.value.instance == None
    ensures CellOk(r.(closing := true), ShutCell(c))
  {
  }

  lemma ShutStarting(r: Global, c: Cell)
    requires WellFormed(r) && CellOk(r, c) && !r.closing && c.entry.Some?
    requires c.entry.value.phase == Starting
    ensures CellOk(r.(closing := true), ShutCell(c))
  {
  }

  lemma ShutStopping(r: Global, c: Cell)
    requires WellFormed(r) && CellOk(r, c) && !r.closing && c.entry.Some?
    requires c.entry.value.phase == Stopping
    ensures CellOk(r.(closing := true), ShutCell(c))
  {
  }

  lemma ShutCellKeeps(r: Global, c: Cell)
    requires WellFormed(r) && CellOk(r, c) && !r.closing
    ensures CellOk(r.(closing := true), ShutCell(c))
  {
    if c.entry.Some? {
      match c.entry.value.phase
      case Ready | Idle => ShutServing(r, c);
      case Failed =>
        if c.entry.value.instance.Some? {
          ShutUnreaped(r, c);
        } else {
          ShutFailed(r, c);
        }
      case Starting => ShutStarting(r, c);
      case Stopping => ShutStopping(r, c);
      case Cold =>
    }
  }

  lemma FinalCellKeeps(r: Global, c: Cell)
    requires CellOk(r, c) && r.closing && c.runners == map[] && c.stoppers == {}
    ensures CellOk(r.(shutdownDone := true), FinalCell(c))
  {
  }

  lemma BeginShutdownKeeps(s: State)
    requires Inv(s) && !s.global.closing
    ensures Inv(State(s.global.(closing := true), ShutCells(s.cells)))
  {
    forall j: Key
      ensures CellFine(s.global.(closing := true), ShutCells(s.cells), j)
    {
      if j in s.cells {
        InvAt(s, j);
        ShutCellKeeps(s.global, s.cells[j]);
      }
    }
  }

  lemma FinishShutdownKeeps(s: State)
    requires Inv(s) && s.global.closing && WorkersDone(s)
    ensures Inv(State(s.global.(shutdownDone := true), FinalCells(s.cells)))
  {
    forall j: Key
      ensures CellFine(s.global.(shutdownDone := true), FinalCells(s.cells), j)
    {
      if j in s.cells {
        InvAt(s, j);
        FinalCellKeeps(s.global, s.cells[j]);
      }
    }
  }

  lemma PutKeeps(s: State, t: Global, k: Key, c: Cell)
    requires Inv(s) && WellFormed(t) && CellOk(t, c)
    requires s.global.now <= t.now && s.global.nextGeneration <= t.nextGeneration
    requires t.closing == s.global.closing && t.shutdownDone == s.global.shutdownDone
    ensures Inv(State(t, s.cells[k := c]))
  {
    var cells := s.cells[k := c];
    forall j: Key
      ensures CellFine(t, cells, j)
    {
      if j in s.cells && j != k {
        InvAt(s, j);
        OtherCellKeeps(s.global, t, s.cells[j]);
      }
    }
  }

  lemma AtKeeps(s: State, k: Key, ev: Event)
    requires Inv(s) && CanTake(s, At(k, ev))
    ensures Inv(Take(s, At(k, ev)))
  {
    InvAt(s, k);
    CellStepKeeps(s.global, CellOf(s, k), ev);
    PutKeeps(s, Take(s, At(k, ev)).global, k, CellStep(s.global, CellOf(s, k), ev));
  }

  lemma TickKeeps(s: State, a: Action)
    requires Inv(s) && CanTake(s, a) && a.Tick?
    ensures Inv(Take(s, a))
  {
    var t := Take(s, a);
    forall j: Key
      ensures CellFine(t.global, t.cells, j)
    {
      if j in s.cells {
        InvAt(s, j);
        OtherCellKeeps(s.global, t.global, s.cells[j]);
      }
    }
  }

  lemma TakeKeeps(s: State, a: Action)
    requires Inv(s) && CanTake(s, a)
    ensures Inv(Take(s, a))
  {
    match a
    case At(k, ev) => AtKeeps(s, k, ev);
    case Tick(_) => TickKeeps(s, a);
    case BeginShutdown => BeginShutdownKeeps(s);
    case FinishShutdown => FinishShutdownKeeps(s);
  }

  // ---- Runs ---------------------------------------------------------------------------

  ghost predicate IsRun(states: seq<State>, actions: seq<Action>)
  {
    && |states| == |actions| + 1
    && (exists o: Options, now: Time :: Usable(o) && 0 < now && states[0] == Initial(o, now))
    && forall i | 0 <= i < |actions| :: StepAt(states, actions, i)
  }

  ghost predicate StepAt(states: seq<State>, actions: seq<Action>, i: nat)
    requires |states| == |actions| + 1 && i < |actions|
  {
    && WellFormed(states[i].global) && CanTake(states[i], actions[i]) && Plausible(states[i], actions[i])
    && states[i + 1] == Take(states[i], actions[i])
  }

  lemma {:induction false} RunInv(states: seq<State>, actions: seq<Action>, i: nat)
    requires IsRun(states, actions) && i < |states|
    ensures Inv(states[i])
  {
    if i > 0 {
      RunInv(states, actions, i - 1);
      assert StepAt(states, actions, i - 1);
      TakeKeeps(states[i - 1], actions[i - 1]);
    }
  }

  lemma RunCell(states: seq<State>, actions: seq<Action>, i: nat, k: Key)
    requires IsRun(states, actions) && i < |states|
    ensures WellFormed(states[i].global) && CellOk(states[i].global, CellOf(states[i], k))
  {
    RunInv(states, actions, i);
    InvAt(states[i], k);
  }
}
