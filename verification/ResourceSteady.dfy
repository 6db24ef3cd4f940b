// What it takes for failures to be forgiven, over whole runs: a generation that
// has been ready for the stable period, or a process reaped on request.

module ResourceSteady {
  import opened Backoff
  import opened ResourceModel
  import opened ResourceInvariant
  import opened ResourceRuns
  import opened ResourceEffects
  import opened ResourceTiming

  // A stable callback belongs to a generation that was ready at some time, and is
  // due one stable period after that.
  predicate CallbackSteady(r: Global, c: Cell, cb: Callback)
  {
    && 1 <= cb.gen <= r.nextGeneration
    && (cb.kind == StableTimer && Current(c, cb.gen) ==>
          && c.entry.value.phase != Starting && c.entry.value.readyAt != 0
          && cb.at == c.entry.value.readyAt + r.options.stableReady)
  }

  ghost predicate Steady(r: Global, c: Cell)
  {
    && (forall cb | cb in c.timers :: CallbackSteady(r, c, cb))
    && (c.entry.Some? ==> 1 <= c.entry.value.gen <= r.nextGeneration)
    && (c.entry.Some? && (c.entry.value.phase == Ready || c.entry.value.phase == Idle) ==> c.entry.value.readyAt != 0)
  }

  // ---- The parts of the steps ---------------------------------------------------------------

  // Nothing that matters here differs between the cells.
  predicate SameClock(c: Cell, d: Cell)
  {
    && d.timers == c.timers
    && (d.entry.Some? ==>
          && c.entry.Some? && d.entry.value.gen == c.entry.value.gen
          && d.entry.value.readyAt == c.entry.value.readyAt
          && (d.entry.value.phase == Starting ==> c.entry.value.phase == Starting)
          && (d.entry.value.phase == Ready || d.entry.value.phase == Idle ==>
                c.entry.value.phase == Ready || c.entry.value.phase == Idle))
  }

  lemma SameClockSteady(r: Global, c: Cell, d: Cell)
    requires Steady(r, c) && SameClock(c, d)
    ensures Steady(r, d)
  {
    forall cb | cb in d.timers
      ensures CallbackSteady(r, d, cb)
    {
      assert CallbackSteady(r, c, cb);
    }
  }

  lemma FailSteady(r: Global, c: Cell, delay: nat)
    requires WellFormed(r) && c.entry.Some? && Steady(r, c)
    ensures Steady(r, Fail(r, c, delay))
  {
    var d := Fail(r, c, delay);
    forall cb | cb in d.timers
      ensures CallbackSteady(r, d, cb)
    {
      assert cb in c.timers ==> CallbackSteady(r, c, cb);
    }
  }

  lemma StartSteady(r: Global, c: Cell)
    requires WellFormed(r) && c.entry.Some? && r.nextGeneration < MAX_UINT64
    requires forall cb | cb in c.timers :: 1 <= cb.gen <= r.nextGeneration
    ensures Steady(r.(nextGeneration := r.nextGeneration + 1), StartLocked(r, c))
  {
  }

  lemma MaybeIdleSteady(r: Global, c: Cell)
    requires WellFormed(r) && c.entry.Some? && Steady(r, c)
    ensures Steady(r, MaybeIdle(r, c))
  {
    var d := MaybeIdle(r, c);
    forall cb | cb in d.timers
      ensures CallbackSteady(r, d, cb)
    {
      assert cb in c.timers ==> CallbackSteady(r, c, cb);
    }
  }

  lemma CancelSteady(r: Global, c: Cell)
    requires WellFormed(r) && c.entry.Some? && Steady(r, c)
    ensures Steady(r, CancelUnusedStart(r, c))
  {
    var d := CancelUnusedStart(r, c);
    forall cb | cb in d.timers
      ensures CallbackSteady(r, d, cb)
    {
      assert cb in c.timers ==> CallbackSteady(r, c, cb);
    }
  }

  lemma InvalidateSteady(r: Global, c: Cell, cause: Cause)
    requires c.entry.Some? && Steady(r, c)
    ensures Steady(r, Invalidate(c, cause)) && Steady(r, InvalidateLeases(c, cause))
  {
    InvalidateKeepsEntry(c, cause);
    SameClockSteady(r, c, Invalidate(c, cause));
    SameClockSteady(r, c, InvalidateLeases(c, cause));
  }

  // ---- The steps ------------------------------------------------------------------------------

  lemma JoinSteady(r: Global, c: Cell, idleTimeout: nat, l: LeaseId)
    requires WellFormed(r) && Steady(r, c) && l !in c.leases
    requires NeedsStart(c) ==> r.nextGeneration < MAX_UINT64
    ensures var t := if NeedsStart(c) then r.(nextGeneration := r.nextGeneration + 1) else r;
            Steady(t, Join(r, AddLease(c, idleTimeout, l), l).cell)
  {
    var d := AddLease(c, idleTimeout, l);
    if NeedsStart(c) {
      assert forall cb | cb in c.timers :: CallbackSteady(r, c, cb);
      StartSteady(r, d);
    } else {
      SameClockSteady(r, c, Join(r, d, l).cell);
    }
  }

  lemma RefusedSteady(r: Global, c: Cell, idleTimeout: nat, l: LeaseId)
    requires WellFormed(r) && CellOk(r, c) && Steady(r, c) && l !in c.leases
    requires NeedsStart(c) && r.nextGeneration == MAX_UINT64 && !r.closing
    ensures Steady(r, Join(r, AddLease(c, idleTimeout, l), l).cell)
  {
    var d := Join(r, AddLease(c, idleTimeout, l), l).cell;
    assert d.timers == c.timers;
    SameClockSteady(r, c, d);
  }

  lemma AcquireSteady(r: Global, c: Cell, ev: Event)
    requires WellFormed(r) && CellOk(r, c) && Enabled(r, c, ev) && Steady(r, c)
    requires ev.DoAcquire?
    ensures Steady(GlobalStep(r, c, ev), CellStep(r, c, ev))
  {
    AcquireAnswers(r, c, ev.idleTimeout, ev.lease);
    if Refusal(r, c, ev.idleTimeout).None? {
      if NeedsStart(c) && r.nextGeneration == MAX_UINT64 {
        RefusedSteady(r, c, ev.idleTimeout, ev.lease);
      } else {
        JoinSteady(r, c, ev.idleTimeout, ev.lease);
      }
    }
  }

  lemma ReleaseSteady(r: Global, c: Cell, ev: Event)
    requires WellFormed(r) && CellOk(r, c) && Enabled(r, c, ev) && Steady(r, c)
    requires ev.DoRelease?
    ensures Steady(GlobalStep(r, c, ev), CellStep(r, c, ev))
  {
    var d := DropLease(c, ev.lease);
    SameClockSteady(r, c, d);
    if d.entry.Some? {
      CancelSteady(r, d);
      MaybeIdleSteady(r, CancelUnusedStart(r, d));
    }
  }

  lemma ConnectorSteady(r: Global, c: Cell, ev: Event)
    requires WellFormed(r) && CellOk(r, c) && Enabled(r, c, ev) && Steady(r, c)
    requires ev.DoOpenConnector? || ev.DoCloseConnector?
    ensures Steady(GlobalStep(r, c, ev), CellStep(r, c, ev))
  {
  }

  lemma LaunchSteady(r: Global, c: Cell, ev: Event)
    requires WellFormed(r) && CellOk(r, c) && Enabled(r, c, ev) && Steady(r, c)
    requires ev.DoSpawn? || ev.DoStartReturned?
    ensures Steady(GlobalStep(r, c, ev), CellStep(r, c, ev))
  {
  }

  lemma PublishSteady(r: Global, c: Cell, ev: Event)
    requires WellFormed(r) && CellOk(r, c) && Enabled(r, c, ev) && Steady(r, c)
    requires ev.DoPublish?
    ensures Steady(GlobalStep(r, c, ev), CellStep(r, c, ev))
  {
  }

  lemma SettleSteady(r: Global, c: Cell, wasStarting: bool, reaped: bool, delay: nat)
    requires WellFormed(r) && c.entry.Some? && Steady(r, c)
    ensures Steady(r, SettleStart(r, c, wasStarting, reaped, delay))
  {
    if !r.closing && wasStarting {
      FailSteady(r, c, delay);
      InvalidateSteady(r, Fail(r, c, delay), StartFailed);
    } else {
      SameClockSteady(r, c, SettleStart(r, c, wasStarting, reaped, delay));
    }
  }

  lemma CompleteStartSteady(r: Global, c: Cell, g: Gen, reaped: bool, delay: nat)
    requires WellFormed(r) && Steady(r, c)
    ensures Steady(r, CompleteStartFailure(r, c, g, reaped, delay))
  {
    if Current(c, g) && c.entry.value.startPending {
      var e := c.entry.value;
      var settled := Put(c, SettledEntry(e, g, reaped));
      SameClockSteady(r, c, settled);
      SettleSteady(r, settled, e.phase == Starting, reaped, delay);
    }
  }

  lemma ReportSteady(r: Global, c: Cell, ev: Event)
    requires WellFormed(r) && Enabled(r, c, ev) && Steady(r, c)
    requires ev.DoReportStartFailure?
    ensures Steady(GlobalStep(r, c, ev), CellStep(r, c, ev))
  {
    var reaped := !c.runners[ev.gen].hasInstance || ev.outcome || ev.gen !in c.live;
    CompleteStartSteady(r, c, ev.gen, reaped, ev.delay);
    SameClockSteady(r, CompleteStartFailure(r, c, ev.gen, reaped, ev.delay), CellStep(r, c, ev));
  }

  lemma ServingExitSteady(r: Global, c: Cell, g: Gen, delay: nat)
    requires WellFormed(r) && Steady(r, c) && Serves(c, g)
    ensures Steady(r, GenerationExited(r, c, g, delay))
  {
    var bare := Put(c, CancelStable(CancelIdle(c.entry.value)).(instance := None));
    SameClockSteady(r, c, bare);
    InvalidateSteady(r, bare, Exited);
    FailSteady(r, Invalidate(bare, Exited), delay);
  }

  // The exit of a generation that does not serve leaves a note on the entry, or
  // deletes it.
  lemma QuietExit(r: Global, c: Cell, g: Gen, delay: nat)
    requires WellFormed(r) && !Serves(c, g)
    ensures var d := GenerationExited(r, c, g, delay);
            && d.timers == c.timers
            && (d.entry.Some? ==>
                  && c.entry.Some?
                  && (d.entry == c.entry || d.entry.value == c.entry.value.(reaped := true) ||
                      d.entry.value == c.entry.value.(instance := None)))
  {
  }

  lemma QuietExitSteady(r: Global, c: Cell, g: Gen, delay: nat)
    requires WellFormed(r) && Steady(r, c) && !Serves(c, g)
    ensures Steady(r, GenerationExited(r, c, g, delay))
  {
    var d := GenerationExited(r, c, g, delay);
    QuietExit(r, c, g, delay);
    assert SameClock(c, d);
    SameClockSteady(r, c, d);
  }

  lemma ExitSteady(r: Global, c: Cell, ev: Event)
    requires WellFormed(r) && Enabled(r, c, ev) && Steady(r, c)
    requires ev.DoExitObserved? || ev.DoDetachedReaped? || ev.DoProcessExit?
    ensures Steady(GlobalStep(r, c, ev), CellStep(r, c, ev))
  {
    if ev.DoExitObserved? {
      if Serves(c, ev.gen) {
        ServingExitSteady(r, c, ev.gen, ev.delay);
      } else {
        QuietExitSteady(r, c, ev.gen, ev.delay);
      }
      SameClockSteady(r, GenerationExited(r, c, ev.gen, ev.delay), CellStep(r, c, ev));
    } else {
      SameClockSteady(r, c, CellStep(r, c, ev));
    }
  }

  lemma ReapedSteady(r: Global, c: Cell, delay: nat)
    requires WellFormed(r) && Steady(r, c) && c.entry.Some? && c.entry.value.phase == Stopping
    ensures var restarts := !r.closing && c.entry.value.leases != {} && r.nextGeneration < MAX_UINT64;
            Steady(if restarts then r.(nextGeneration := r.nextGeneration + 1) else r, Reaped(r, c, delay))
  {
    var reset := Put(c, ColdEntry(c.entry.value));
    SameClockSteady(r, c, reset);
    InvalidateSteady(r, reset, ShuttingDown);
    InvalidateSteady(r, reset, Exhausted);
    if !r.closing && c.entry.value.leases != {} {
      if r.nextGeneration < MAX_UINT64 {
        assert forall cb | cb in reset.timers :: CallbackSteady(r, reset, cb);
        StartSteady(r, reset);
      } else {
        FailSteady(r, InvalidateLeases(reset, Exhausted), delay);
      }
    } else {
      var left := if r.closing then Invalidate(reset, ShuttingDown) else reset;
      SameClockSteady(r, left, DeleteCold(left));
    }
  }

  lemma CompleteStopSteady(r: Global, c: Cell, g: Gen, outcome: bool, delay: nat)
    requires WellFormed(r) && Steady(r, c)
    ensures Steady(if StopRestarts(r, c, g, outcome) then r.(nextGeneration := r.nextGeneration + 1) else r,
                   CompleteStop(r, c, g, outcome, delay))
  {
    if Current(c, g) && c.entry.value.phase == Stopping {
      if outcome || c.entry.value.reaped || g !in c.live {
        ReapedSteady(r, c, delay);
      } else {
        InvalidateSteady(r, c, Unavailable);
        FailSteady(r, Invalidate(c, Unavailable), delay);
      }
    }
  }

  lemma StopSteady(r: Global, c: Cell, ev: Event)
    requires WellFormed(r) && Enabled(r, c, ev) && Steady(r, c)
    requires ev.DoStopFinished?
    ensures Steady(GlobalStep(r, c, ev), CellStep(r, c, ev))
  {
    CompleteStopSteady(r, c, ev.gen, ev.outcome, ev.delay);
    SameClockSteady(GlobalStep(r, c, ev), CompleteStop(r, c, ev.gen, ev.outcome, ev.delay), CellStep(r, c, ev));
  }

  lemma TimeoutSteady(r: Global, c: Cell, delay: nat)
    requires WellFormed(r) && c.entry.Some? && Steady(r, c)
    ensures Steady(r, TimeoutStart(r, c, delay))
  {
    var quiet := Put(c, CancelStart(c.entry.value));
    SameClockSteady(r, c, quiet);
    FailSteady(r, quiet, delay);
    InvalidateSteady(r, Fail(r, quiet, delay), StartFailed);
  }

  lemma FiredSteady(r: Global, c: Cell, cb: Callback)
    requires Steady(r, c)
    ensures Steady(r, c.(timers := c.timers - multiset{cb}))
  {
    var d := c.(timers := c.timers - multiset{cb});
    forall x | x in d.timers
      ensures CallbackSteady(r, d, x)
    {
      assert CallbackSteady(r, c, x);
    }
  }

  lemma ExpireStartSteady(r: Global, c: Cell, g: Gen, at: Time, delay: nat)
    requires WellFormed(r) && Steady(r, c)
    ensures Steady(r, ExpireStart(r, c, g, at, delay))
  {
    if c.entry.Some? {
      var quiet := Put(c, c.entry.value.(startTimer := false));
      SameClockSteady(r, c, quiet);
      TimeoutSteady(r, quiet, delay);
    }
  }

  lemma OtherTimersSteady(r: Global, c: Cell, g: Gen, at: Time)
    requires Steady(r, c)
    ensures Steady(r, ExpireIdle(r, c, g, at)) && Steady(r, ResetStable(r, c, g))
    ensures Steady(r, ExpireFailure(r, c, g, at))
  {
    SameClockSteady(r, c, ExpireIdle(r, c, g, at));
    SameClockSteady(r, c, ResetStable(r, c, g));
    SameClockSteady(r, c, ExpireFailure(r, c, g, at));
  }

  lemma FireSteady(r: Global, c: Cell, ev: Event)
    requires WellFormed(r) && Enabled(r, c, ev) && Steady(r, c)
    requires ev.DoFire?
    ensures Steady(GlobalStep(r, c, ev), CellStep(r, c, ev))
  {
    var cb := ev.callback;
    var fired := c.(timers := c.timers - multiset{cb});
    FiredSteady(r, c, cb);
    ExpireStartSteady(r, fired, cb.gen, cb.at, ev.delay);
    OtherTimersSteady(r, fired, cb.gen, cb.at);
  }

  lemma StepSteady(r: Global, c: Cell, ev: Event)
    requires WellFormed(r) && CellOk(r, c) && Enabled(r, c, ev) && Steady(r, c)
    ensures Steady(GlobalStep(r, c, ev), CellStep(r, c, ev))
  {
    if ev.DoAcquire? {
      AcquireSteady(r, c, ev);
    } else if ev.DoRelease? {
      ReleaseSteady(r, c, ev);
    } else if ev.DoOpenConnector? || ev.DoCloseConnector? {
      ConnectorSteady(r, c, ev);
    } else if ev.DoSpawn? || ev.DoStartReturned? {
      LaunchSteady(r, c, ev);
    } else if ev.DoPublish? {
      PublishSteady(r, c, ev);
    } else if ev.DoReportStartFailure? {
      ReportSteady(r, c, ev);
    } else if ev.DoStopFinished? {
      StopSteady(r, c, ev);
    } else if ev.DoFire? {
      FireSteady(r, c, ev);
    } else {
      ExitSteady(r, c, ev);
    }
  }

  lemma ClosingSteady(r: Global, c: Cell)
    requires c.entry.Some? && Steady(r, c)
    ensures Steady(r, BeginStop(c)) && Steady(r, Put(c, c.entry.value.(phase := Cold)))
  {
    SameClockSteady(r, c, BeginStop(c));
    SameClockSteady(r, c, Put(c, c.entry.value.(phase := Cold)));
  }

  lemma ShutSteady(r: Global, c: Cell)
    requires Steady(r, c)
    ensures Steady(r, ShutCell(c))
  {
    if c.entry.Some? {
      var quiet := Put(c, CancelRetention(CancelStable(CancelIdle(CancelStart(c.entry.value)))));
      SameClockSteady(r, c, quiet);
      InvalidateSteady(r, quiet, ShuttingDown);
      ClosingSteady(r, Invalidate(quiet, ShuttingDown));
    }
  }

  lemma FinalSteady(r: Global, c: Cell)
    requires Steady(r, c)
    ensures Steady(r, FinalCell(c))
  {
    SameClockSteady(r, c, FinalCell(c));
  }

  // Time and other keys do not matter.
  lemma LaterSteady(r: Global, t: Global, c: Cell)
    requires Steady(r, c) && t.options == r.options && r.nextGeneration <= t.nextGeneration
    ensures Steady(t, c)
  {
    forall cb | cb in c.timers
      ensures CallbackSteady(t, c, cb)
    {
      assert CallbackSteady(r, c, cb);
    }
  }

  lemma TakeSteady(s: State, a: Action, k: Key)
    requires Inv(s) && CanTake(s, a) && Steady(s.global, CellOf(s, k))
    ensures Steady(Take(s, a).global, CellOf(Take(s, a), k))
  {
    InvAt(s, k);
    if a.At? && a.key == k {
      StepSteady(s.global, CellOf(s, k), a.event);
    } else {
      ShutSteady(s.global, CellOf(s, k));
      FinalSteady(s.global, CellOf(s, k));
      LaterSteady(s.global, Take(s, a).global, CellOf(Take(s, a), k));
    }
  }

  lemma {:induction false} RunSteady(states: seq<State>, actions: seq<Action>, i: nat, k: Key)
    requires IsRun(states, actions) && i < |states|
    ensures Steady(states[i].global, CellOf(states[i], k))
  {
    if i > 0 {
      RunSteady(states, actions, i - 1, k);
      RunInv(states, actions, i - 1);
      assert StepAt(states, actions, i - 1);
      TakeSteady(states[i - 1], actions[i - 1], k);
    }
  }

  // ---- Forgiveness ------------------------------------------------------------------------------

  // The generation has been ready for the stable period.
  predicate Proven(r: Global, e: Entry)
  {
    e.readyAt != 0 && e.readyAt + r.options.stableReady <= r.now
  }

  // The failures of the entry, if there still is one, are what they were, or one
  // more failure has been counted on top of those that are remembered.
  predicate FailuresKept(r: Global, c: Cell, d: Cell)
  {
    c.entry.Some? && d.entry.Some? ==>
      || d.entry.value.failures == c.entry.value.failures
      || d.entry.value.failures == NextFailures(r, c.entry.value)
  }

  lemma KeptIsEarned(r: Global, c: Cell, d: Cell)
    requires WellFormed(r) && FailuresKept(r, c, d) && c.entry.Some? && d.entry.Some?
    requires d.entry.value.failures < c.entry.value.failures
    ensures Proven(r, c.entry.value)
  {
  }

  lemma TimeoutCounts(r: Global, c: Cell, delay: nat)
    requires WellFormed(r) && c.entry.Some?
    ensures FailuresKept(r, c, TimeoutStart(r, c, delay))
  {
    assert NextFailures(r, CancelStart(c.entry.value)) == NextFailures(r, c.entry.value);
  }

  lemma ReadyCounts(r: Global, c: Cell, g: Gen)
    requires WellFormed(r) && c.entry.Some?
    ensures FailuresKept(r, c, MaybeIdle(r, ReadyCell(r, c, g)))
  {
    assert ReadyCell(r, c, g).entry.value.failures == c.entry.value.failures;
  }

  lemma PublishCounts(r: Global, c: Cell, g: Gen, delay: nat)
    requires WellFormed(r)
    ensures FailuresKept(r, c, Publish(r, c, g, delay))
  {
    if c.entry.Some? {
      TimeoutCounts(r, c, delay);
      ReadyCounts(r, c, g);
    }
  }

  lemma SettleCounts(r: Global, c: Cell, wasStarting: bool, reaped: bool, delay: nat)
    requires WellFormed(r) && c.entry.Some?
    ensures FailuresKept(r, c, SettleStart(r, c, wasStarting, reaped, delay))
  {
  }

  lemma CompleteStartCounts(r: Global, c: Cell, g: Gen, reaped: bool, delay: nat)
    requires WellFormed(r)
    ensures FailuresKept(r, c, CompleteStartFailure(r, c, g, reaped, delay))
  {
    if Current(c, g) && c.entry.value.startPending {
      var e := c.entry.value;
      SettleCounts(r, Put(c, SettledEntry(e, g, reaped)), e.phase == Starting, reaped, delay);
      assert NextFailures(r, SettledEntry(e, g, reaped)) == NextFailures(r, e);
    }
  }

  lemma ServingExitCounts(r: Global, c: Cell, g: Gen, delay: nat)
    requires WellFormed(r) && Serves(c, g)
    ensures FailuresKept(r, c, GenerationExited(r, c, g, delay))
  {
    var bare := CancelStable(CancelIdle(c.entry.value)).(instance := None);
    InvalidateKeepsEntry(Put(c, bare), Exited);
    assert NextFailures(r, bare.(leases := {}, connectors := {})) == NextFailures(r, c.entry.value);
  }

  lemma QuietExitCounts(r: Global, c: Cell, g: Gen, delay: nat)
    requires WellFormed(r) && !Serves(c, g)
    ensures FailuresKept(r, c, GenerationExited(r, c, g, delay))
  {
    QuietExit(r, c, g, delay);
  }

  lemma UnreapedCounts(r: Global, c: Cell, delay: nat)
    requires WellFormed(r) && c.entry.Some?
    ensures FailuresKept(r, c, Fail(r, Invalidate(c, Unavailable), delay))
  {
    InvalidateKeepsEntry(c, Unavailable);
  }

  lemma CallersCount(r: Global, c: Cell, ev: Event)
    requires WellFormed(r) && Enabled(r, c, ev) && (ev.DoOpenConnector? || ev.DoCloseConnector?)
    ensures FailuresKept(r, c, CellStep(r, c, ev))
  {
  }

  lemma ReleaseCounts(r: Global, c: Cell, l: LeaseId)
    requires WellFormed(r) && l in c.leases
    ensures FailuresKept(r, c, Release(r, c, l))
  {
    var d := DropLease(c, l);
    if d.entry.Some? {
      assert CancelUnusedStart(r, d).entry.value.failures == c.entry.value.failures;
    }
  }

  lemma StartCounts(r: Global, c: Cell)
    requires WellFormed(r) && c.entry.Some?
    ensures StartLocked(r, c).entry.value.failures == c.entry.value.failures
  {
  }

  lemma RefuseCounts(c: Cell, l: LeaseId)
    requires c.entry.Some? && l in c.leases
    ensures RefuseLease(c, l).entry.Some? ==> RefuseLease(c, l).entry.value.failures == c.entry.value.failures
  {
  }

  lemma JoinCounts(r: Global, c: Cell, l: LeaseId)
    requires WellFormed(r) && c.entry.Some? && l in c.leases
    ensures var d := Join(r, c, l).cell;
            d.entry.Some? ==> d.entry.value.failures == c.entry.value.failures
  {
    StartCounts(r, c);
    RefuseCounts(c, l);
  }

  lemma AddCounts(c: Cell, idleTimeout: nat, l: LeaseId)
    requires c.entry.Some?
    ensures AddLease(c, idleTimeout, l).entry.value.failures == c.entry.value.failures
  {
  }

  lemma AcquireCounts(r: Global, c: Cell, idleTimeout: nat, l: LeaseId)
    requires WellFormed(r)
    ensures FailuresKept(r, c, Acquire(r, c, idleTimeout, l).cell)
  {
    if c.entry.Some? {
      AddCounts(c, idleTimeout, l);
      JoinCounts(r, AddLease(c, idleTimeout, l), l);
    }
  }

  lemma ExpireStartCounts(r: Global, c: Cell, g: Gen, at: Time, delay: nat)
    requires WellFormed(r)
    ensures FailuresKept(r, c, ExpireStart(r, c, g, at, delay))
  {
    if c.entry.Some? {
      TimeoutCounts(r, Put(c, c.entry.value.(startTimer := false)), delay);
      assert NextFailures(r, c.entry.value.(startTimer := false)) == NextFailures(r, c.entry.value);
    }
  }

  lemma OtherTimersCount(r: Global, c: Cell, g: Gen, at: Time)
    requires WellFormed(r)
    ensures FailuresKept(r, c, ExpireIdle(r, c, g, at)) && FailuresKept(r, c, ExpireFailure(r, c, g, at))
  {
  }

  lemma TimersCount(r: Global, c: Cell, ev: Event)
    requires WellFormed(r) && Enabled(r, c, ev) && ev.DoFire? && ev.callback.kind != StableTimer
    ensures FailuresKept(r, c, CellStep(r, c, ev))
  {
    var cb := ev.callback;
    var fired := c.(timers := c.timers - multiset{cb});
    ExpireStartCounts(r, fired, cb.gen, cb.at, ev.delay);
    OtherTimersCount(r, fired, cb.gen, cb.at);
  }

  lemma ForgivingTimer(r: Global, c: Cell, ev: Event)
    requires WellFormed(r) && Enabled(r, c, ev) && Steady(r, c) && ev.DoFire? && ev.callback.kind == StableTimer
    requires var d := CellStep(r, c, ev);
             c.entry.Some? && d.entry.Some? && d.entry.value.failures < c.entry.value.failures
    ensures Proven(r, c.entry.value)
  {
    assert CallbackSteady(r, c, ev.callback);
  }

  lemma StopCounts(r: Global, c: Cell, ev: Event)
    requires WellFormed(r) && Enabled(r, c, ev) && ev.DoStopFinished?
    ensures StopsReaped(c, ev) || FailuresKept(r, c, CellStep(r, c, ev))
  {
    if c.entry.Some? {
      UnreapedCounts(r, c, ev.delay);
    }
  }

  lemma StepCounts(r: Global, c: Cell, ev: Event)
    requires WellFormed(r) && Enabled(r, c, ev) && !(ev.DoFire? && ev.callback.kind == StableTimer)
    ensures StopsReaped(c, ev) || FailuresKept(r, c, CellStep(r, c, ev))
  {
    if ev.DoFire? {
      TimersCount(r, c, ev);
    } else if ev.DoPublish? {
      PublishCounts(r, c, ev.gen, ev.delay);
    } else if ev.DoReportStartFailure? {
      CompleteStartCounts(
        r, c, ev.gen, !c.runners[ev.gen].hasInstance || ev.outcome || ev.gen !in c.live, ev.delay);
    } else if ev.DoExitObserved? {
      if Serves(c, ev.gen) {
        ServingExitCounts(r, c, ev.gen, ev.delay);
      } else {
        QuietExitCounts(r, c, ev.gen, ev.delay);
      }
    } else if ev.DoStopFinished? {
      StopCounts(r, c, ev);
    } else if ev.DoAcquire? {
      AcquireCounts(r, c, ev.idleTimeout, ev.lease);
    } else if ev.DoRelease? {
      ReleaseCounts(r, c, ev.lease);
    } else if ev.DoOpenConnector? || ev.DoCloseConnector? {
      CallersCount(r, c, ev);
    }
  }

  lemma ForgivingStep(r: Global, c: Cell, ev: Event)
    requires WellFormed(r) && Enabled(r, c, ev) && Steady(r, c)
    requires var d := CellStep(r, c, ev);
             c.entry.Some? && d.entry.Some? && d.entry.value.failures < c.entry.value.failures
    ensures Proven(r, c.entry.value) || StopsReaped(c, ev)
  {
    if ev.DoFire? && ev.callback.kind == StableTimer {
      ForgivingTimer(r, c, ev);
    } else {
      StepCounts(r, c, ev);
      if !StopsReaped(c, ev) {
        KeptIsEarned(r, c, CellStep(r, c, ev));
      }
    }
  }

  lemma ShutForgivesNothing(c: Cell)
    ensures c.entry.Some? && ShutCell(c).entry.Some? ==>
              ShutCell(c).entry.value.failures == c.entry.value.failures
    ensures c.entry.Some? && FinalCell(c).entry.Some? ==>
              FinalCell(c).entry.value.failures == c.entry.value.failures
  {
    if c.entry.Some? {
      InvalidateKeepsEntry(Put(c, CancelRetention(CancelStable(CancelIdle(CancelStart(c.entry.value))))), ShuttingDown);
    }
  }

  // The failures of an entry are forgotten only in a step of its own key, after its
  // generation has been ready for the whole stable period, or when its process is
  // gone because it was told to stop.
  lemma ForgivenessIsEarned(states: seq<State>, actions: seq<Action>, i: nat, k: Key)
    requires IsRun(states, actions) && i < |actions|
    requires CellOf(states[i], k).entry.Some? && CellOf(states[i + 1], k).entry.Some?
    requires CellOf(states[i + 1], k).entry.value.failures < CellOf(states[i], k).entry.value.failures
    ensures actions[i].At? && actions[i].key == k
    ensures var c := CellOf(states[i], k);
            Proven(states[i].global, c.entry.value) || StopsReaped(c, actions[i].event)
  {
    RunSteady(states, actions, i, k);
    RunCell(states, actions, i, k);
    assert StepAt(states, actions, i);
    var a := actions[i];
    if a.At? && a.key == k {
      ForgivingStep(states[i].global, CellOf(states[i], k), a.event);
    } else {
      ShutForgivesNothing(CellOf(states[i], k));
    }
  }
}
