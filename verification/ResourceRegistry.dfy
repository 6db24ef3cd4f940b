// The registry object: the mutex-held blocks of internal/agent/resource as
// methods that update its fields in place. Each of them performs a step of the
// machine, and the object remembers, for the proofs only, the run it has performed
// so far: its history is a run of the machine, so the theorems over runs are about
// it. What a caller may rely on beyond that is stated beside each method.
//
// The clock reading of a block is its parameter now and the answer of the jitter
// callback its parameter jittered.

module ResourceRegistry {
  import opened Backoff
  import opened ResourceModel
  import opened ResourceInvariant
  import opened ResourceRuns
  import opened ResourceTheorems
  import opened ResourceEffects

  // The delay after a failure of the cell's entry.
  function CellDelay(r: Global, c: Cell, jittered: int): nat
    requires WellFormed(r)
  {
    if c.entry.Some? then DelayAfter(r, c.entry.value, jittered) else 0
  }

  // The delay depends on the failure count and the time of readiness only.
  lemma SameDelay(r: Global, c: Cell, d: Cell, jittered: int)
    requires WellFormed(r) && c.entry.Some? && d.entry.Some?
    requires c.entry.value.failures == d.entry.value.failures && c.entry.value.readyAt == d.entry.value.readyAt
    ensures CellDelay(r, c, jittered) == CellDelay(r, d, jittered)
  {
  }

  // The delay after a failure at the end of a stop.
  function StopDelay(r: Global, c: Cell, g: Gen, outcome: bool, jittered: int): nat
    requires WellFormed(r)
  {
    if c.entry.Some? then DelayAfter(r, FailureBasis(c, DoStopFinished(g, outcome, 0)), jittered) else 0
  }

  // ---- What the invariant tells callers ---------------------------------------------------

  lemma StartKeepsOpening(r: Global, d: Cell, l: LeaseId)
    requires WellFormed(r) && d.entry.Some? && l in d.leases && l in d.entry.value.leases
    requires d.leases[l].state == Opening
    ensures var t := StartLocked(r, d);
            && l in t.leases && t.leases[l].state == Opening && t.entry.value.phase == Starting
            && t.entry.value.leases == d.entry.value.leases
  {
  }

  lemma RefusedLeaseCloses(d: Cell, l: LeaseId)
    requires d.entry.Some? && l in d.leases
    ensures l in RefuseLease(d, l).leases && RefuseLease(d, l).leases[l].state == Closed
  {
  }

  lemma JoinLeaseState(r: Global, d: Cell, l: LeaseId)
    requires WellFormed(r) && d.entry.Some? && l in d.leases && l in d.entry.value.leases
    requires d.leases[l].state == Opening && d.entry.value.phase != Idle
    ensures var a := Join(r, d, l);
            && l in a.cell.leases
            && (a.error.None? ==>
                  && a.cell.entry.Some? && l in a.cell.entry.value.leases
                  && a.cell.leases[l].state in {Opening, Active}
                  && (a.cell.leases[l].state == Active <==> a.cell.entry.value.phase == Ready))
            && (a.error.Some? ==> a.error == Some(GenerationsExhausted) && a.cell.leases[l].state == Closed)
  {
    StartKeepsOpening(r, d, l);
    RefusedLeaseCloses(d, l);
  }

  lemma AcquireLeaseState(r: Global, c: Cell, idleTimeout: nat, l: LeaseId)
    requires WellFormed(r) && l !in c.leases
    ensures var a := Acquire(r, c, idleTimeout, l);
            && (a.error.None? ==>
                  && l in a.cell.leases && a.cell.entry.Some? && l in a.cell.entry.value.leases
                  && a.cell.leases[l].state in {Opening, Active}
                  && (a.cell.leases[l].state == Active <==> a.cell.entry.value.phase == Ready))
            && (a.error.Some? ==> l in a.cell.leases ==> a.cell.leases[l].state == Closed)
            && (a.error.Some? && a.error != Some(GenerationsExhausted) ==> a.cell == c && !a.started)
  {
    JoinLeaseState(r, AddLease(c, idleTimeout, l), l);
  }

  lemma ReleaseLeaseState(r: Global, c: Cell, l: LeaseId)
    requires WellFormed(r) && l in c.leases && LeaseOk(c, l, c.leases[l])
    requires c.entry.Some? && c.leases[l].state == Closed ==> l !in c.entry.value.leases
    ensures var d := Release(r, c, l);
            && l in d.leases && d.leases[l].state == Closed && d.leases[l].closes == 1
            && (d.entry.Some? ==> l !in d.entry.value.leases)
  {
    if c.leases[l].state != Closed {
      ReleaseShape(r, c, l);
    }
  }

  lemma ClosedIsOff(r: Global, c: Cell, l: LeaseId)
    requires CellOk(r, c) && l in c.leases
    ensures LeaseOk(c, l, c.leases[l])
    ensures c.entry.Some? && c.leases[l].state == Closed ==> l !in c.entry.value.leases
  {
  }

  // What a release does to the entry, by what the lease was.
  predicate EntryAfterRelease(r: Global, c: Cell, d: Cell, l: LeaseId)
    requires l in c.leases
  {
    var state := c.leases[l].state;
    && (state == Active ==>
          && d.entry.Some?
          && (if SoleUser(c, l) then
                d.entry.value.phase == Idle && d.entry.value.idleDeadline == r.now + c.entry.value.idleTimeout
              else
                d.entry.value.phase == Ready))
    && (state == Opening && SoleUser(c, l) && c.entry.value.phase == Starting ==>
          d.entry.Some? && d.entry.value.phase == Failed && !d.entry.value.startCancel)
  }

  lemma ReleaseOutcome(r: Global, c: Cell, l: LeaseId)
    requires WellFormed(r) && CellOk(r, c) && l in c.leases
    ensures EntryAfterRelease(r, c, Release(r, c, l), l)
  {
    assert LeaseOk(c, l, c.leases[l]);
    if c.leases[l].state == Active {
      LastUserLeaves(r, c, l);
    } else if c.leases[l].state == Opening && c.entry.value.phase == Starting {
      LastWaiterLeaves(r, c, l);
    }
  }

  lemma ActiveMayConnect(r: Global, c: Cell, l: LeaseId)
    requires WellFormed(r) && CellOk(r, c) && l in c.leases
    ensures ConnectorAllowed(r, c, l) <==> !r.closing && c.leases[l].state == Active
  {
    assert LeaseOk(c, l, c.leases[l]);
  }

  lemma DisconnectState(r: Global, c: Cell, n: ConnectorId)
    requires WellFormed(r) && CellOk(r, c) && n in c.connectors
    ensures var d := ShutConnector(r, c, n);
            && n in d.connectors && d.connectors[n].closed && d.connectors[n].closes == 1
            && d.leases == c.leases
  {
    assert ConnectorOk(c, n, c.connectors[n]);
  }

  lemma IdleSparesUsers(r: Global, c: Cell)
    requires CellOk(r, c) && c.entry.Some? && c.entry.value.phase == Idle
    ensures forall l <- c.leases :: c.leases[l].state == Closed
    ensures forall n <- c.connectors :: c.connectors[n].closed
  {
  }

  // No lease and no connector is bound to the generation.
  predicate Unused(c: Cell, g: Gen)
  {
    && (forall l <- c.leases :: c.leases[l].state == Active ==> c.leases[l].gen != g)
    && (forall n <- c.connectors :: !c.connectors[n].closed ==> c.connectors[n].gen != g)
  }

  // Nothing serves a generation whose goroutine is gone.
  lemma GoneServesNobody(r: Global, c: Cell, g: Gen)
    requires CellOk(r, c) && g !in c.runners
    ensures Unused(c, g)
  {
  }

  lemma ExitOutcome(r: Global, c: Cell, g: Gen, delay: nat)
    requires WellFormed(r) && CellOk(r, c)
    requires g in c.runners && ReapPhase(c.runners[g]) && g !in c.live
    ensures var d := ExitObserved(r, c, g, delay);
            && Unused(d, g)
            && (Serves(c, g) ==> FailedFor(c, d, g, Exited) && d.entry.value.instance == None)
  {
    ExitKeeps(r, c, g, delay);
    GoneServesNobody(r, ExitObserved(r, c, g, delay), g);
    if Serves(c, g) {
      ServingExitFails(r, c, g, delay);
    }
  }

  // Once a generation serves, nobody waits for it any more.
  lemma ServingHasNoWaiters(r: Global, c: Cell, g: Gen)
    requires CellOk(r, c) && Serves(c, g)
    ensures forall l <- c.leases :: c.leases[l].state != Opening
  {
  }

  lemma PublishOutcome(r: Global, c: Cell, g: Gen, delay: nat)
    requires WellFormed(r) && CellOk(r, c) && g in c.runners && c.runners[g] == Publishing
    ensures var d := Publish(r, c, g, delay);
            && (Serves(d, g) ==> forall l <- d.leases :: d.leases[l].state != Opening)
            && (InTime(r, c, g) ==> ServesWaiters(r, c, d, g))
            && (Late(r, c, g) ==> FailedFor(c, d, g, StartFailed) && d.runners == c.runners[g := Cleaning(true)])
  {
    PublishKeeps(r, c, g, delay);
    if Serves(Publish(r, c, g, delay), g) {
      ServingHasNoWaiters(r, Publish(r, c, g, delay), g);
    }
    if InTime(r, c, g) {
      InTimeServes(r, c, g, delay);
    } else if Late(r, c, g) {
      LateFails(r, c, g, delay);
    }
  }

  // A reported start failure leaves the key without any open lease.
  lemma ReportedShape(r: Global, c: Cell, g: Gen, outcome: bool, delay: nat)
    requires WellFormed(r) && CellOk(r, c) && g in c.runners && c.runners[g].Cleaning?
    ensures var d := ReportStartFailure(r, c, g, outcome, delay);
            d.entry.Some? ==> d.entry.value.phase == Failed || d.entry.value.phase == Cold
  {
    assert RunnerOk(r, c, g, c.runners[g]);
  }

  lemma RestingHasNoLeases(r: Global, c: Cell)
    requires CellOk(r, c) && (c.entry.Some? ==> c.entry.value.phase == Failed || c.entry.value.phase == Cold)
    ensures forall l <- c.leases :: c.leases[l].state == Closed
  {
  }

  // The start of g that c is in has been settled in d.
  predicate Settled(r: Global, c: Cell, d: Cell, g: Gen, outcome: bool)
    requires g in c.runners && c.runners[g].Cleaning?
  {
    Current(c, g) && c.entry.value.phase == Starting ==>
      StartSettled(r, c, d, !c.runners[g].hasInstance || outcome || g !in c.live)
  }

  lemma ReportClosesAll(r: Global, c: Cell, g: Gen, outcome: bool, delay: nat)
    requires WellFormed(r) && CellOk(r, c)
    requires g in c.runners && c.runners[g].Cleaning? && (outcome ==> g !in c.live)
    ensures forall l <- ReportStartFailure(r, c, g, outcome, delay).leases ::
              ReportStartFailure(r, c, g, outcome, delay).leases[l].state == Closed
  {
    ReportKeeps(r, c, g, outcome, delay);
    ReportedShape(r, c, g, outcome, delay);
    RestingHasNoLeases(r, ReportStartFailure(r, c, g, outcome, delay));
  }

  lemma ReportParts(r: Global, c: Cell, g: Gen, outcome: bool, delay: nat)
    requires WellFormed(r) && g in c.runners && c.runners[g].Cleaning?
    ensures var reaped := !c.runners[g].hasInstance || outcome || g !in c.live;
            var d, e := ReportStartFailure(r, c, g, outcome, delay), CompleteStartFailure(r, c, g, reaped, delay);
            d.leases == e.leases && d.entry == e.entry
  {
  }

  lemma SameSettled(r: Global, c: Cell, d: Cell, e: Cell, reaped: bool)
    requires StartSettled(r, c, e, reaped) && d.leases == e.leases && d.entry == e.entry
    ensures StartSettled(r, c, d, reaped)
  {
  }

  lemma ReportSettles(r: Global, c: Cell, g: Gen, outcome: bool, delay: nat)
    requires WellFormed(r) && CellOk(r, c) && g in c.runners && c.runners[g].Cleaning?
    ensures Settled(r, c, ReportStartFailure(r, c, g, outcome, delay), g, outcome)
  {
    if Current(c, g) && c.entry.value.phase == Starting {
      var reaped := !c.runners[g].hasInstance || outcome || g !in c.live;
      FailedStartSettles(r, c, g, reaped, delay);
      ReportParts(r, c, g, outcome, delay);
      SameSettled(r, c, ReportStartFailure(r, c, g, outcome, delay),
                  CompleteStartFailure(r, c, g, reaped, delay), reaped);
    }
  }

  lemma StoppedShape(r: Global, c: Cell, g: Gen, outcome: bool, delay: nat)
    requires WellFormed(r) && CellOk(r, c) && g in c.stoppers
    ensures var d := StopFinished(r, c, g, outcome, delay);
            d.entry.Some? ==> d.entry.value.phase != Stopping
  {
  }

  lemma OnlyLive(r: Global, c: Cell, g: Gen)
    requires CellOk(r, c) && g in c.live
    ensures c.live == {g}
  {
    forall h | h in c.live
      ensures h == g
    {
      LiveIsCurrent(r, c, h);
      LiveIsCurrent(r, c, g);
    }
  }

  lemma DetachedMeansClosing(r: Global, c: Cell, g: Gen)
    requires CellOk(r, c) && g in c.runners && c.runners[g] == Detached
    ensures r.closing
  {
    assert RunnerOk(r, c, g, c.runners[g]);
  }

  // What a callback may do to the cell.
  lemma FireState(r: Global, c: Cell, cb: Callback, delay: nat)
    requires WellFormed(r) && CellOk(r, c)
    ensures var d := RunCallback(r, c.(timers := c.timers - multiset{cb}), cb, delay);
            && (!Current(c, cb.gen) ==> d.entry == c.entry)
            && (cb.kind == IdleTimer && d.entry != c.entry ==>
                  && (forall l <- d.leases :: d.leases[l].state == Closed)
                  && (forall n <- d.connectors :: d.connectors[n].closed))
  {
    if c.entry.Some? && c.entry.value.phase == Idle {
      IdleSparesUsers(r, c);
    }
  }

  // The delay the object uses is one the machine allows.
  lemma DelayIsPlausible(s: State, k: Key, ev: Event, jittered: int)
    requires WellFormed(s.global)
    requires ev.DoPublish? || ev.DoReportStartFailure? || ev.DoExitObserved? || ev.DoFire? || ev.DoStopFinished?
    requires ev.delay == if ev.DoStopFinished? then StopDelay(s.global, CellOf(s, k), ev.gen, ev.outcome, jittered)
                         else CellDelay(s.global, CellOf(s, k), jittered)
    ensures Plausible(s, At(k, ev))
  {
    if CellOf(s, k).entry.Some? {
      assert ev.delay == DelayAfter(s.global, FailureBasis(CellOf(s, k), ev), jittered);
    }
  }

  lemma TakeStop(s: State, k: Key, g: Gen, outcome: bool, delay: nat)
    requires WellFormed(s.global) && CanTake(s, At(k, DoStopFinished(g, outcome, delay)))
    ensures var r, c := s.global, CellOf(s, k);
            Take(s, At(k, DoStopFinished(g, outcome, delay))) ==
            State(r.(nextGeneration := r.nextGeneration + if StopRestarts(r, c, g, outcome) then 1 else 0),
                  s.cells[k := StopFinished(r, c, g, outcome, delay)])
  {
  }

  lemma TakeAcquire(s: State, k: Key, idleTimeout: nat, l: LeaseId)
    requires WellFormed(s.global) && CanTake(s, At(k, DoAcquire(idleTimeout, l)))
    ensures var a := Acquire(s.global, CellOf(s, k), idleTimeout, l);
            Take(s, At(k, DoAcquire(idleTimeout, l))) ==
            State(s.global.(nextGeneration := s.global.nextGeneration + if a.started then 1 else 0),
                  s.cells[k := a.cell])
  {
  }

  lemma ExtendRun(states: seq<State>, actions: seq<Action>, a: Action, t: State)
    requires IsRun(states, actions) && WellFormed(states[|actions|].global) && CanTake(states[|actions|], a)
    requires Plausible(states[|actions|], a) && t == Take(states[|actions|], a)
    ensures IsRun(states + [t], actions + [a])
  {
    var more, log := states + [t], actions + [a];
    assert more[0] == states[0];
    forall i | 0 <= i < |log|
      ensures StepAt(more, log, i)
    {
      if i < |actions| {
        assert StepAt(states, actions, i);
      }
    }
  }

  class Registry {
    const options: Options
    var nextGeneration: Gen
    var closing: bool
    var shutdownDone: bool
    var cells: map<Key, Cell>

    // The run of the machine the object has performed.
    ghost var states: seq<State>
    ghost var actions: seq<Action>

    constructor (options: Options, ghost now: Time)
      requires Usable(options) && 0 < now
      ensures this.options == options && View(now) == Initial(options, now) && Valid(now) && actions == []
    {
      this.options := options;
      nextGeneration, closing, shutdownDone := 0, false, false;
      cells := map[];
      states, actions := [Initial(options, now)], [];
    }

    function Fields(now: Time): Global
      reads this
    {
      Global(options, now, nextGeneration, closing, shutdownDone)
    }

    function View(now: Time): State
      reads this
    {
      State(Fields(now), cells)
    }

    ghost predicate Valid(now: Time)
      reads this
    {
      WellFormed(Fields(now)) && IsRun(states, actions) && states[|actions|] == View(now)
    }

    lemma Known(now: Time)
      requires Valid(now)
      ensures Inv(View(now))
    {
      RunInv(states, actions, |actions|);
    }

    lemma KnownAt(now: Time, k: Key)
      requires Valid(now)
      ensures WellFormed(Fields(now)) && CellOk(Fields(now), CellOf(View(now), k))
    {
      Known(now);
      InvAt(View(now), k);
    }

    // Whatever the object has been through, the theorems over runs hold of it.
    lemma Promises(now: Time, k: Key)
      requires Valid(now)
      ensures |CellOf(View(now), k).live| <= 1
      ensures shutdownDone ==> CellOf(View(now), k).live == {} && CellOf(View(now), k).runners == map[]
      ensures forall l <- CellOf(View(now), k).leases ::
                CellOf(View(now), k).leases[l].sent <= 1 && CellOf(View(now), k).leases[l].closes <= 1
    {
      OneProcessPerKey(states, actions, |actions|, k);
      ChannelsUsedOnce(states, actions, |actions|, k);
      if shutdownDone {
        ShutdownReapsEverything(states, actions, |actions|, k);
      }
    }

    // Records the action that has just been performed on s.
    ghost method Log(s: State, a: Action, now: Time)
      requires IsRun(states, actions) && states[|actions|] == s
      requires WellFormed(s.global) && CanTake(s, a) && Plausible(s, a) && View(now) == Take(s, a)
      modifies this`states, this`actions
      ensures Valid(now) && actions == old(actions) + [a]
    {
      ExtendRun(states, actions, a, Take(s, a));
      states, actions := states + [Take(s, a)], actions + [a];
    }

    // Time passes.
    ghost method Wait(now: Time, later: Time)
      requires Valid(now) && now <= later
      modifies this`states, this`actions
      ensures Valid(later) && actions == old(actions) + [Tick(later - now)]
    {
      Known(now);
      Log(View(now), Tick(later - now), later);
    }

    predicate HasEntry(k: Key)
      reads this
    {
      k in cells && cells[k].entry.Some?
    }

    // ---- Helpers that run with the mutex held ---------------------------------------

    method InvalidateLeasesLocked(k: Key, cause: Cause)
      requires HasEntry(k)
      modifies this`cells
      ensures cells == old(cells)[k := InvalidateLeases(old(cells[k]), cause)]
    {
      var c := cells[k];
      var all := c.entry.value.leases;
      var todo := all;
      var leases := c.leases;
      while todo != {}
        invariant todo <= all
        invariant leases == CloseLeases(c.leases, all - todo, cause)
        decreases todo
      {
        var l :| l in todo;
        if l in leases {
          leases := leases[l := CloseLease(leases[l], cause, true)];
        }
        todo := todo - {l};
      }
      assert all - todo == all;
      cells := cells[k := Put(c, c.entry.value.(leases := {})).(leases := leases)];
    }

    method InvalidateConnectorsLocked(k: Key, cause: Cause)
      requires HasEntry(k)
      modifies this`cells
      ensures cells == old(cells)[k := InvalidateConnectors(old(cells[k]), cause)]
    {
      var c := cells[k];
      var all := c.entry.value.connectors;
      var todo := all;
      var connectors := c.connectors;
      while todo != {}
        invariant todo <= all
        invariant connectors == CloseConnectors(c.connectors, all - todo, cause)
        decreases todo
      {
        var n :| n in todo;
        if n in connectors {
          connectors := connectors[n := CloseConnector(connectors[n], cause)];
        }
        todo := todo - {n};
      }
      assert all - todo == all;
      cells := cells[k := Put(c, c.entry.value.(connectors := {})).(connectors := connectors)];
    }

    // The counting and backoff half of failLocked.
    method CountFailure(e: Entry, now: Time, jittered: int) returns (failures: nat, delay: nat)
      requires WellFormed(Fields(now))
      ensures failures == NextFailures(Fields(now), e)
      ensures delay == RetryDelay(options, failures, jittered)
    {
      failures := e.failures;
      if e.readyAt != 0 && now - e.readyAt >= options.stableReady {
        failures := 0;
      }
      if failures < MAX_UINT32 {
        failures := failures + 1;
      }
      var base := BackoffBase(options, failures);
      delay := ClampDelay(options, base, jittered);
    }

    method FailLocked(k: Key, now: Time, jittered: int)
      requires HasEntry(k) && WellFormed(Fields(now))
      modifies this`cells
      ensures var r, c := Fields(now), old(cells[k]);
              cells == old(cells)[k := Fail(r, c, CellDelay(r, c, jittered))]
    {
      var c := cells[k];
      var e := c.entry.value;
      var failures, delay;
      failures, delay := CountFailure(e, now, jittered);
      e := e.(failures := failures, phase := Failed, retryDeadline := now + delay, idleDeadline := 0);
      var at := e.retryDeadline + options.failureRetention;
      e := e.(failureTimer := true, failureDeadline := at);
      cells := cells[k := Arm(Put(c, e), Callback(FailureTimer, e.gen, at))];
    }

    // startLocked past its generation check.
    method StartGeneration(k: Key, now: Time)
      requires HasEntry(k) && WellFormed(Fields(now)) && nextGeneration < MAX_UINT64
      modifies this`cells, this`nextGeneration
      ensures nextGeneration == old(nextGeneration) + 1
      ensures cells == old(cells)[k := StartLocked(old(Fields(now)), old(cells[k]))]
    {
      nextGeneration := nextGeneration + 1;
      var g := nextGeneration;
      var c := cells[k];
      var e := c.entry.value.(failureTimer := false, failureDeadline := 0);
      var deadline := now + options.startTimeout;
      e := e.(gen := g, phase := Starting, instance := None, reaped := false, startPending := true);
      e := e.(startCancel := true, startTimer := true, startDeadline := deadline);
      e := e.(readyAt := 0, idleDeadline := 0, retryDeadline := 0);
      var todo := e.leases;
      var leases := c.leases;
      while todo != {}
        invariant todo <= e.leases
        invariant leases == AssignLeases(c.leases, e.leases - todo, g)
        decreases todo
      {
        var l :| l in todo;
        if l in leases && leases[l].state == Opening {
          leases := leases[l := leases[l].(gen := g)];
        }
        todo := todo - {l};
      }
      assert e.leases - todo == e.leases;
      c := c.(entry := Some(e), leases := leases, runners := c.runners[g := Launching]);
      cells := cells[k := Arm(c, Callback(StartTimer, g, deadline))];
    }

    method TimeoutStartLocked(k: Key, now: Time, jittered: int)
      requires HasEntry(k) && WellFormed(Fields(now))
      modifies this`cells
      ensures var c := old(cells[k]);
              cells == old(cells)[k := TimeoutStart(Fields(now), c, CellDelay(Fields(now), c, jittered))]
    {
      var c := Put(cells[k], CancelStart(cells[k].entry.value));
      SameDelay(Fields(now), cells[k], c, jittered);
      cells := cells[k := c];
      FailStartLocked(k, now, jittered);
    }

    // ---- Callers -----------------------------------------------------------------------

    // The part of reserveLocked that binds the new lease.
    method JoinLocked(k: Key, l: LeaseId, now: Time) returns (error: Option<AcquireError>)
      requires WellFormed(Fields(now)) && HasEntry(k) && l in cells[k].leases
      modifies this`cells, this`nextGeneration
      ensures var r := old(Join(Fields(now), cells[k], l));
              && error == r.error && cells == old(cells)[k := r.cell]
              && nextGeneration == old(nextGeneration) + (if r.started then 1 else 0)
    {
      var c := cells[k];
      var e := c.entry.value;
      if e.phase == Ready {
        cells := cells[k := c.(leases := c.leases[l := ActivateLease(c.leases[l], e.gen)])];
      } else if e.phase == Starting {
        cells := cells[k := c.(leases := c.leases[l := c.leases[l].(gen := e.gen)])];
      } else if e.phase != Stopping {
        if nextGeneration == MAX_UINT64 {
          cells := cells[k := RefuseLease(c, l)];
          return Some(GenerationsExhausted);
        }
        StartGeneration(k, now);
      }
      return None;
    }

    // reserveLocked, for a key that may be new.
    method ReserveLocked(k: Key, idleTimeout: nat, l: LeaseId, now: Time) returns (error: Option<AcquireError>)
      requires WellFormed(Fields(now)) && 0 < idleTimeout && l !in CellOf(View(now), k).leases
      modifies this`cells, this`nextGeneration
      ensures var r := old(Acquire(Fields(now), CellOf(View(now), k), idleTimeout, l));
              && error == r.error && cells == old(cells)[k := r.cell]
              && nextGeneration == old(nextGeneration) + (if r.started then 1 else 0)
    {
      var c := if k in cells then cells[k] else EMPTY_CELL;
      error := Refusal(Fields(now), c, idleTimeout);
      if error.Some? {
        cells := cells[k := c];
      } else {
        cells := cells[k := AddLease(c, idleTimeout, l)];
        error := JoinLocked(k, l, now);
      }
    }

    // Which answer is given depends on the entry the call meets: an acquire within
    // the backoff is sent away with the retry deadline. On success the lease belongs
    // to a new generation, waits for one, or is active at once; otherwise no lease is
    // left open and, unless the generation numbers ran out, nothing changed.
    method AcquireLease(k: Key, idleTimeout: nat, l: LeaseId, now: Time) returns (error: Option<AcquireError>)
      requires Valid(now) && 0 < idleTimeout && l !in CellOf(View(now), k).leases
      modifies this`cells, this`nextGeneration, this`states, this`actions
      ensures View(now) == old(Take(View(now), At(k, DoAcquire(idleTimeout, l))))
      ensures Valid(now) && actions == old(actions) + [At(k, DoAcquire(idleTimeout, l))]
      ensures error == old(Acquire(Fields(now), CellOf(View(now), k), idleTimeout, l).error)
      ensures k in cells
      ensures AnswerFits(old(Fields(now)), old(CellOf(View(now), k)), idleTimeout, error)
      ensures error.None? ==> LeaseFits(old(Fields(now)), old(CellOf(View(now), k)), cells[k], l)
      ensures error.None? ==>
                && l in cells[k].leases && HasEntry(k) && l in cells[k].entry.value.leases
                && cells[k].leases[l].state in {Opening, Active}
                && (cells[k].leases[l].state == Active <==> cells[k].entry.value.phase == Ready)
      ensures error.Some? ==> l in cells[k].leases ==> cells[k].leases[l].state == Closed
      ensures error.Some? && error != Some(GenerationsExhausted) ==>
                && nextGeneration == old(nextGeneration)
                && forall j: Key :: CellOf(View(now), j) == old(CellOf(View(now), j))
    {
      KnownAt(now, k);
      ghost var s, a := View(now), At(k, DoAcquire(idleTimeout, l));
      AcquireLeaseState(Fields(now), CellOf(View(now), k), idleTimeout, l);
      AcquireAnswers(Fields(now), CellOf(View(now), k), idleTimeout, l);
      TakeAcquire(s, k, idleTimeout, l);
      error := ReserveLocked(k, idleTimeout, l, now);
      Log(s, a, now);
    }

    // Release closes this lease, once, and leaves every other lease alone. The last
    // user of a ready generation leaves it idle, and the last waiter of a start
    // gives the start up.
    method ReleaseLease(k: Key, l: LeaseId, now: Time)
      requires Valid(now) && k in cells && l in cells[k].leases
      modifies this`cells, this`states, this`actions
      ensures View(now) == old(Take(View(now), At(k, DoRelease(l)))) && Valid(now)
      ensures l in cells[k].leases && cells[k].leases[l].state == Closed && cells[k].leases[l].closes == 1
      ensures HasEntry(k) ==> l !in cells[k].entry.value.leases
      ensures cells[k].leases.Keys == old(cells[k].leases.Keys)
      ensures forall m <- cells[k].leases :: m != l ==> cells[k].leases[m] == old(cells[k].leases)[m]
      ensures EntryAfterRelease(Fields(now), old(cells[k]), cells[k], l)
    {
      KnownAt(now, k);
      ghost var s := View(now);
      ReleaseOutcome(Fields(now), cells[k], l);
      ClosedIsOff(Fields(now), cells[k], l);
      ReleaseLeaseState(Fields(now), cells[k], l);
      ReleaseOthers(Fields(now), cells[k], l);
      ReleaseLocked(k, l, now);
      Log(s, At(k, DoRelease(l)), now);
    }

    method ReleaseLocked(k: Key, l: LeaseId, now: Time)
      requires WellFormed(Fields(now)) && k in cells && l in cells[k].leases
      modifies this`cells
      ensures cells == old(cells)[k := Release(Fields(now), old(cells[k]), l)]
    {
      var state := cells[k].leases[l].state;
      if state != Closed && state != Releasing {
        var c := DropLease(cells[k], l);
        if c.entry.Some? {
          c := MaybeIdle(Fields(now), CancelUnusedStart(Fields(now), c));
        }
        cells := cells[k := c];
      }
    }

    // An active lease is enough: unless the registry is closing, its connector
    // opens on the generation the lease is bound to.
    method Connect(k: Key, l: LeaseId, n: ConnectorId, now: Time) returns (ok: bool)
      requires Valid(now) && k in cells && l in cells[k].leases && n !in cells[k].connectors
      modifies this`cells, this`states, this`actions
      ensures View(now) == old(Take(View(now), At(k, DoOpenConnector(l, n)))) && Valid(now)
      ensures ok <==> !closing && old(cells[k]).leases[l].state == Active
      ensures ok ==> k in cells && l in cells[k].leases && n in cells[k].connectors && !cells[k].connectors[n].closed &&
                     cells[k].connectors[n].gen == cells[k].leases[l].gen && Current(cells[k], cells[k].leases[l].gen)
      ensures !ok ==> cells == old(cells)
    {
      KnownAt(now, k);
      ghost var s := View(now);
      ActiveMayConnect(Fields(now), cells[k], l);
      ok := ConnectorAllowed(Fields(now), cells[k], l);
      cells := cells[k := OpenConnector(Fields(now), cells[k], l, n)];
      Log(s, At(k, DoOpenConnector(l, n)), now);
    }

    // Closes the connector, once.
    method Disconnect(k: Key, n: ConnectorId, now: Time)
      requires Valid(now) && k in cells && n in cells[k].connectors
      modifies this`cells, this`states, this`actions
      ensures View(now) == old(Take(View(now), At(k, DoCloseConnector(n)))) && Valid(now)
      ensures n in cells[k].connectors && cells[k].connectors[n].closed && cells[k].connectors[n].closes == 1
      ensures cells[k].leases == old(cells[k].leases)
    {
      KnownAt(now, k);
      ghost var s := View(now);
      DisconnectState(Fields(now), cells[k], n);
      cells := cells[k := ShutConnector(Fields(now), cells[k], n)];
      Log(s, At(k, DoCloseConnector(n)), now);
    }

    // ---- Workers ---------------------------------------------------------------------------

    method BecomeReady(k: Key, g: Gen, now: Time)
      requires WellFormed(Fields(now)) && HasEntry(k) && cells[k].entry.value.gen == g
      modifies this`cells
      ensures cells == old(cells)[k := ReadyCell(Fields(now), old(cells[k]), g)]
    {
      var c := cells[k];
      var e := CancelStart(c.entry.value);
      e := e.(startPending := false, instance := Some(g), readyAt := now, retryDeadline := 0, phase := Ready,
              stableTimer := true);
      assert e == ReadyEntry(Fields(now), c.entry.value);
      var todo := e.leases;
      var leases := c.leases;
      while todo != {}
        invariant todo <= e.leases
        invariant leases == ActivateLeases(c.leases, e.leases - todo, g)
        decreases todo
      {
        var l :| l in todo;
        if l in leases && leases[l].state == Opening && leases[l].gen == g {
          leases := leases[l := ActivateLease(leases[l], g)];
        }
        todo := todo - {l};
      }
      assert e.leases - todo == e.leases;
      c := Put(c, e).(leases := leases, runners := c.runners[g := Watching]);
      cells := cells[k := Arm(c, Callback(StableTimer, g, now + options.stableReady))];
    }

    // The mutex-held block of startGeneration.
    method PublishLocked(k: Key, g: Gen, now: Time, jittered: int)
      requires WellFormed(Fields(now)) && k in cells && g in cells[k].runners
      modifies this`cells
      ensures var c := old(cells[k]);
              cells == old(cells)[k := Publish(Fields(now), c, g, CellDelay(Fields(now), c, jittered))]
    {
      var c := cells[k];
      if Current(c, g) && c.entry.value.startPending && c.entry.value.phase != Starting {
        cells := cells[k := c.(runners := c.runners[g := Cleaning(true)])];
        return;
      }
      if closing || !Current(c, g) || c.entry.value.phase != Starting {
        cells := cells[k := c.(runners := c.runners[g := Detached])];
        return;
      }
      if c.entry.value.startDeadline <= now {
        TimeoutStartLocked(k, now, jittered);
        cells := cells[k := cells[k].(runners := c.runners[g := Cleaning(true)])];
        return;
      }
      BecomeReady(k, g, now);
      cells := cells[k := MaybeIdle(Fields(now), cells[k])];
    }

    method AbandonStartLocked(k: Key, reaped: bool)
      requires HasEntry(k)
      modifies this`cells
      ensures cells == old(cells)[k := AbandonStart(old(cells[k]), reaped)]
    {
      InvalidateLeasesLocked(k, ShuttingDown);
      var e := cells[k].entry.value;
      cells := cells[k := DeleteCold(Put(cells[k], e.(phase := if reaped then Cold else Failed)))];
    }

    // A start failed for good.
    method FailStartLocked(k: Key, now: Time, jittered: int)
      requires HasEntry(k) && WellFormed(Fields(now))
      modifies this`cells
      ensures var r, c := Fields(now), old(cells[k]);
              cells == old(cells)[k := InvalidateLeases(Fail(r, c, CellDelay(r, c, jittered)), StartFailed)]
    {
      FailLocked(k, now, jittered);
      InvalidateLeasesLocked(k, StartFailed);
    }

    // Stores the settled cell c and goes on from there.
    method SettleStartLocked(k: Key, c: Cell, wasStarting: bool, reaped: bool, now: Time, jittered: int)
      requires WellFormed(Fields(now)) && c.entry.Some?
      modifies this`cells
      ensures var r := Fields(now);
              cells == old(cells)[k := SettleStart(r, c, wasStarting, reaped, CellDelay(r, c, jittered))]
    {
      cells := cells[k := c];
      if closing {
        AbandonStartLocked(k, reaped);
      } else if wasStarting {
        FailStartLocked(k, now, jittered);
      } else if reaped {
        cells := cells[k := DeleteFailed(c, now)];
      }
    }

    method CompleteStartFailureLocked(k: Key, g: Gen, reaped: bool, now: Time, jittered: int)
      requires WellFormed(Fields(now)) && k in cells
      modifies this`cells
      ensures var r, c := Fields(now), old(cells[k]);
              cells == old(cells)[k := CompleteStartFailure(r, c, g, reaped, CellDelay(r, c, jittered))]
    {
      var c := cells[k];
      if Current(c, g) && c.entry.value.startPending {
        var settled := Put(c, SettledEntry(c.entry.value, g, reaped));
        SameDelay(Fields(now), c, settled, jittered);
        SettleStartLocked(k, settled, c.entry.value.phase == Starting, reaped, now, jittered);
      }
    }

    method GenerationExitedLocked(k: Key, g: Gen, now: Time, jittered: int)
      requires WellFormed(Fields(now)) && k in cells
      modifies this`cells
      ensures var c := old(cells[k]);
              cells == old(cells)[k := GenerationExited(Fields(now), c, g, CellDelay(Fields(now), c, jittered))]
    {
      var c := cells[k];
      if !Current(c, g) {
        return;
      }
      var e := c.entry.value;
      if e.phase == Stopping {
        cells := cells[k := Put(c, e.(reaped := true))];
      } else if e.phase == Failed {
        cells := cells[k := DeleteFailed(Put(c, e.(instance := None)), now)];
      } else if e.phase == Ready || e.phase == Idle {
        ServingExitedLocked(k, now, jittered);
      }
    }

    // The exit of a generation that was serving.
    method ServingExitedLocked(k: Key, now: Time, jittered: int)
      requires WellFormed(Fields(now)) && HasEntry(k)
      modifies this`cells
      ensures var r, c := Fields(now), old(cells[k]);
              var bare := Put(c, CancelStable(CancelIdle(c.entry.value)).(instance := None));
              cells == old(cells)[k := Fail(r, Invalidate(bare, Exited), CellDelay(r, c, jittered))]
    {
      var c := cells[k];
      var bare := Put(c, CancelStable(CancelIdle(c.entry.value)).(instance := None));
      cells := cells[k := bare];
      InvalidateLeasesLocked(k, Exited);
      InvalidateConnectorsLocked(k, Exited);
      assert cells == old(cells)[k := Invalidate(bare, Exited)];
      SameDelay(Fields(now), c, cells[k], jittered);
      FailLocked(k, now, jittered);
    }

    // completeStop once the generation is known to be reaped.
    method AfterReap(k: Key, now: Time, jittered: int)
      requires WellFormed(Fields(now)) && HasEntry(k)
      modifies this`cells, this`nextGeneration
      ensures var r, c := old(Fields(now)), old(cells[k]);
              && cells == old(cells)[k := Reaped(r, c, DelayAfter(r, ColdEntry(c.entry.value), jittered))]
              && nextGeneration == old(nextGeneration) +
                 (if !closing && c.entry.value.leases != {} && r.nextGeneration < MAX_UINT64 then 1 else 0)
    {
      var reset := Put(cells[k], ColdEntry(cells[k].entry.value));
      if closing {
        AbandonReaped(k, reset);
      } else if reset.entry.value.leases == {} {
        cells := cells[k := DeleteCold(reset)];
      } else if nextGeneration < MAX_UINT64 {
        cells := cells[k := reset];
        StartGeneration(k, now);
      } else {
        ExhaustReaped(k, reset, now, jittered);
      }
    }

    // A reaped entry of a closing registry.
    method AbandonReaped(k: Key, c: Cell)
      requires c.entry.Some?
      modifies this`cells
      ensures cells == old(cells)[k := DeleteCold(Invalidate(c, ShuttingDown))]
    {
      cells := cells[k := c];
      InvalidateLeasesLocked(k, ShuttingDown);
      InvalidateConnectorsLocked(k, ShuttingDown);
      cells := cells[k := DeleteCold(cells[k])];
    }

    // A reaped entry with waiting leases and no generation number left.
    method ExhaustReaped(k: Key, c: Cell, now: Time, jittered: int)
      requires c.entry.Some? && WellFormed(Fields(now))
      modifies this`cells
      ensures var r := Fields(now);
              cells == old(cells)[k := Fail(r, InvalidateLeases(c, Exhausted), CellDelay(r, c, jittered))]
    {
      cells := cells[k := c];
      InvalidateLeasesLocked(k, Exhausted);
      SameDelay(Fields(now), c, cells[k], jittered);
      FailLocked(k, now, jittered);
    }

    // completeStop when forced termination did not reap the generation.
    method GiveUp(k: Key, now: Time, jittered: int)
      requires WellFormed(Fields(now)) && HasEntry(k)
      modifies this`cells
      ensures var r, c := Fields(now), old(cells[k]);
              cells == old(cells)[k := Fail(r, Invalidate(c, Unavailable), CellDelay(r, c, jittered))]
    {
      InvalidateLeasesLocked(k, Unavailable);
      InvalidateConnectorsLocked(k, Unavailable);
      assert cells == old(cells)[k := Invalidate(old(cells[k]), Unavailable)];
      SameDelay(Fields(now), old(cells[k]), cells[k], jittered);
      FailLocked(k, now, jittered);
    }

    method CompleteStopLocked(k: Key, g: Gen, outcome: bool, now: Time, jittered: int)
      requires WellFormed(Fields(now)) && k in cells
      modifies this`cells, this`nextGeneration
      ensures var r, c := old(Fields(now)), old(cells[k]);
              && cells == old(cells)[k := CompleteStop(r, c, g, outcome, StopDelay(r, c, g, outcome, jittered))]
              && nextGeneration == old(nextGeneration) + (if StopRestarts(r, c, g, outcome) then 1 else 0)
    {
      var c := cells[k];
      if !Current(c, g) || c.entry.value.phase != Stopping {
        return;
      }
      var reaped := outcome;
      if c.entry.value.reaped || g !in c.live {
        reaped := true;
      }
      if reaped {
        AfterReap(k, now, jittered);
      } else {
        GiveUp(k, now, jittered);
      }
    }

    method ExpireStartLocked(k: Key, g: Gen, at: Time, now: Time, jittered: int)
      requires WellFormed(Fields(now)) && k in cells
      modifies this`cells
      ensures var r, c := Fields(now), old(cells[k]);
              cells == old(cells)[k := ExpireStart(r, c, g, at, CellDelay(r, c, jittered))]
    {
      var c := cells[k];
      if closing || !Current(c, g) || c.entry.value.phase != Starting {
        return;
      }
      if c.entry.value.startDeadline != at || now < at {
        return;
      }
      var d := Put(c, c.entry.value.(startTimer := false));
      SameDelay(Fields(now), c, d, jittered);
      cells := cells[k := d];
      TimeoutStartLocked(k, now, jittered);
    }

    // ---- Whole steps of workers and timers ---------------------------------------------

    // The factory starts the process of a generation.
    method Spawn(k: Key, g: Gen, now: Time)
      requires Valid(now) && k in cells && g in cells[k].runners && cells[k].runners[g] == Launching
      modifies this`cells, this`states, this`actions
      ensures View(now) == old(Take(View(now), At(k, DoSpawn(g)))) && Valid(now)
      ensures k in cells && cells[k].live == {g}
    {
      ghost var s := View(now);
      cells := cells[k := cells[k].(live := cells[k].live + {g})];
      Log(s, At(k, DoSpawn(g)), now);
      KnownAt(now, k);
      OnlyLive(Fields(now), cells[k], g);
    }

    // The factory returns to the start worker.
    method FactoryReturns(k: Key, g: Gen, ok: bool, hasInstance: bool, now: Time)
      requires Valid(now) && k in cells && g in cells[k].runners && cells[k].runners[g] == Launching
      requires (ok ==> hasInstance) && (!hasInstance ==> g !in cells[k].live)
      modifies this`cells, this`states, this`actions
      ensures View(now) == old(Take(View(now), At(k, DoStartReturned(g, ok, hasInstance)))) && Valid(now)
    {
      ghost var s := View(now);
      cells := cells[k := StartReturned(cells[k], g, ok, hasInstance)];
      Log(s, At(k, DoStartReturned(g, ok, hasInstance)), now);
    }

    // The process of a generation exits and is reaped: the key has none left.
    method ProcessExits(k: Key, g: Gen, now: Time)
      requires Valid(now) && k in cells && g in cells[k].live
      modifies this`cells, this`states, this`actions
      ensures View(now) == old(Take(View(now), At(k, DoProcessExit(g)))) && Valid(now)
      ensures k in cells && cells[k].live == {}
    {
      KnownAt(now, k);
      OnlyLive(Fields(now), cells[k], g);
      ghost var s := View(now);
      cells := cells[k := cells[k].(live := cells[k].live - {g})];
      Log(s, At(k, DoProcessExit(g)), now);
    }

    // The worker of a process nobody wanted any more leaves once it is reaped.
    method DetachedReaped(k: Key, g: Gen, now: Time)
      requires Valid(now) && k in cells && g in cells[k].runners && cells[k].runners[g] == Detached
      requires g !in cells[k].live
      modifies this`cells, this`states, this`actions
      ensures View(now) == old(Take(View(now), At(k, DoDetachedReaped(g)))) && Valid(now)
      ensures closing
    {
      KnownAt(now, k);
      DetachedMeansClosing(Fields(now), cells[k], g);
      ghost var s := View(now);
      cells := cells[k := cells[k].(runners := cells[k].runners - {g})];
      Log(s, At(k, DoDetachedReaped(g)), now);
    }

    // The start worker offers its instance.
    method OfferInstance(k: Key, g: Gen, now: Time, jittered: int)
      requires Valid(now) && k in cells && g in cells[k].runners && cells[k].runners[g] == Publishing
      modifies this`cells, this`states, this`actions
      ensures View(now) == old(Take(View(now), At(k, DoPublish(g, CellDelay(Fields(now), cells[k], jittered)))))
      ensures Valid(now) && k in cells
      ensures Serves(cells[k], g) ==> forall l <- cells[k].leases :: cells[k].leases[l].state != Opening
      ensures old(InTime(Fields(now), cells[k], g)) ==> ServesWaiters(Fields(now), old(cells[k]), cells[k], g)
      ensures old(Late(Fields(now), cells[k], g)) ==>
                FailedFor(old(cells[k]), cells[k], g, StartFailed) &&
                cells[k].runners == old(cells[k].runners)[g := Cleaning(true)]
    {
      KnownAt(now, k);
      ghost var s, delay := View(now), CellDelay(Fields(now), cells[k], jittered);
      DelayIsPlausible(s, k, DoPublish(g, delay), jittered);
      PublishOutcome(Fields(now), cells[k], g, delay);
      PublishLocked(k, g, now, jittered);
      Log(s, At(k, DoPublish(g, delay)), now);
    }

    // cleanupFailedStart's report.
    method ReportLocked(k: Key, g: Gen, outcome: bool, now: Time, jittered: int)
      requires WellFormed(Fields(now)) && k in cells && g in cells[k].runners && cells[k].runners[g].Cleaning?
      modifies this`cells
      ensures var r, c := Fields(now), old(cells[k]);
              cells == old(cells)[k := ReportStartFailure(r, c, g, outcome, CellDelay(r, c, jittered))]
    {
      var c := cells[k];
      var hasInstance := c.runners[g].hasInstance;
      CompleteStartFailureLocked(k, g, !hasInstance || outcome || g !in c.live, now, jittered);
      var runners := if hasInstance && !outcome then c.runners[g := Awaiting] else c.runners - {g};
      cells := cells[k := cells[k].(runners := runners)];
    }

    // The start worker reports a failed start, and leaves unless it has to wait for
    // a process that its cleanup did not reap. Whoever waited for it is told.
    method ReportFailedStart(k: Key, g: Gen, outcome: bool, now: Time, jittered: int)
      requires Valid(now) && k in cells && g in cells[k].runners && cells[k].runners[g].Cleaning?
      requires outcome ==> g !in cells[k].live
      modifies this`cells, this`states, this`actions
      ensures View(now) ==
              old(Take(View(now), At(k, DoReportStartFailure(g, outcome, CellDelay(Fields(now), cells[k], jittered)))))
      ensures Valid(now) && k in cells && forall l <- cells[k].leases :: cells[k].leases[l].state == Closed
      ensures Settled(Fields(now), old(cells[k]), cells[k], g, outcome)
    {
      KnownAt(now, k);
      ghost var s, delay := View(now), CellDelay(Fields(now), cells[k], jittered);
      DelayIsPlausible(s, k, DoReportStartFailure(g, outcome, delay), jittered);
      ReportClosesAll(Fields(now), cells[k], g, outcome, delay);
      ReportSettles(Fields(now), cells[k], g, outcome, delay);
      ReportLocked(k, g, outcome, now, jittered);
      Log(s, At(k, DoReportStartFailure(g, outcome, delay)), now);
    }

    method ExitLocked(k: Key, g: Gen, now: Time, jittered: int)
      requires WellFormed(Fields(now)) && k in cells
      modifies this`cells
      ensures var r, c := Fields(now), old(cells[k]);
              cells == old(cells)[k := ExitObserved(r, c, g, CellDelay(r, c, jittered))]
    {
      var runners := cells[k].runners - {g};
      GenerationExitedLocked(k, g, now, jittered);
      cells := cells[k := cells[k].(runners := runners)];
    }

    // The watcher of a generation reports its exit and leaves: no lease and no
    // connector is bound to the generation any more.
    method ObserveExit(k: Key, g: Gen, now: Time, jittered: int)
      requires Valid(now) && k in cells && g in cells[k].runners && ReapPhase(cells[k].runners[g])
      requires g !in cells[k].live
      modifies this`cells, this`states, this`actions
      ensures View(now) == old(Take(View(now), At(k, DoExitObserved(g, CellDelay(Fields(now), cells[k], jittered)))))
      ensures Valid(now) && k in cells
      ensures Unused(cells[k], g)
      ensures old(Serves(cells[k], g)) ==>
                FailedFor(old(cells[k]), cells[k], g, Exited) && cells[k].entry.value.instance == None
    {
      KnownAt(now, k);
      ghost var s, delay := View(now), CellDelay(Fields(now), cells[k], jittered);
      DelayIsPlausible(s, k, DoExitObserved(g, delay), jittered);
      ExitOutcome(Fields(now), cells[k], g, delay);
      ExitLocked(k, g, now, jittered);
      Log(s, At(k, DoExitObserved(g, delay)), now);
    }

    method StopLocked(k: Key, g: Gen, outcome: bool, now: Time, jittered: int)
      requires WellFormed(Fields(now)) && k in cells
      modifies this`cells, this`nextGeneration
      ensures var r, c := old(Fields(now)), old(cells[k]);
              && cells == old(cells)[k := StopFinished(r, c, g, outcome, StopDelay(r, c, g, outcome, jittered))]
              && nextGeneration == old(nextGeneration) + (if StopRestarts(r, c, g, outcome) then 1 else 0)
    {
      var stoppers := cells[k].stoppers - {g};
      CompleteStopLocked(k, g, outcome, now, jittered);
      cells := cells[k := cells[k].(stoppers := stoppers)];
    }

    // The stop worker reports and leaves: nothing is stopping any more under the
    // key. A process that outlived its stop fails the entry; otherwise those who wait
    // get a new generation, if there is a number for it.
    method FinishStop(k: Key, g: Gen, outcome: bool, now: Time, jittered: int)
      requires Valid(now) && k in cells && g in cells[k].stoppers && (outcome ==> g !in cells[k].live)
      modifies this`cells, this`nextGeneration, this`states, this`actions
      ensures View(now) ==
              old(Take(View(now),
                       At(k, DoStopFinished(g, outcome, StopDelay(Fields(now), cells[k], g, outcome, jittered)))))
      ensures Valid(now) && k in cells && (HasEntry(k) ==> cells[k].entry.value.phase != Stopping)
      ensures old(g in cells[k].live) ==>
                FailedFor(old(cells[k]), cells[k], g, Unavailable)
      ensures old(g !in cells[k].live) && !closing ==> Restarted(old(Fields(now)), old(cells[k]), cells[k])
    {
      KnownAt(now, k);
      ghost var s, delay := View(now), StopDelay(Fields(now), cells[k], g, outcome, jittered);
      DelayIsPlausible(s, k, DoStopFinished(g, outcome, delay), jittered);
      StoppedShape(Fields(now), cells[k], g, outcome, delay);
      if g in cells[k].live {
        UnreapedFails(Fields(now), cells[k], g, delay);
      } else if !closing {
        ReapedRestarts(Fields(now), cells[k], g, outcome, delay);
      }
      TakeStop(s, k, g, outcome, delay);
      StopLocked(k, g, outcome, now, jittered);
      Log(s, At(k, DoStopFinished(g, outcome, delay)), now);
    }

    // A timer callback runs, in time or long after it was cancelled. One that was
    // made for another generation changes nothing, and the idle timer stops a
    // generation only when nothing uses it. One that arrives as scheduled does its
    // work.
    method Fire(k: Key, cb: Callback, now: Time, jittered: int)
      requires Valid(now) && k in cells && cb in cells[k].timers && cb.at <= now
      modifies this`cells, this`states, this`actions
      ensures View(now) == old(Take(View(now), At(k, DoFire(cb, CellDelay(Fields(now), cells[k], jittered)))))
      ensures Valid(now) && k in cells
      ensures !old(Current(cells[k], cb.gen)) ==> cells[k].entry == old(cells[k].entry)
      ensures cb.kind == IdleTimer && cells[k].entry != old(cells[k].entry) ==>
                && (forall l <- cells[k].leases :: cells[k].leases[l].state == Closed)
                && (forall n <- cells[k].connectors :: cells[k].connectors[n].closed)
      ensures !closing && old(Current(cells[k], cb.gen)) ==> Acts(old(cells[k]), cb, cells[k])
    {
      KnownAt(now, k);
      ghost var s, delay := View(now), CellDelay(Fields(now), cells[k], jittered);
      DelayIsPlausible(s, k, DoFire(cb, delay), jittered);
      FireState(Fields(now), cells[k], cb, delay);
      if !closing && Current(cells[k], cb.gen) {
        CallbackActs(Fields(now), cells[k], cb, delay);
      }
      FireLocked(k, cb, now, jittered);
      Log(s, At(k, DoFire(cb, delay)), now);
    }

    method FireLocked(k: Key, cb: Callback, now: Time, jittered: int)
      requires WellFormed(Fields(now)) && k in cells
      modifies this`cells
      ensures var r, c := Fields(now), old(cells[k]);
              cells == old(cells)[k := RunCallback(r, c.(timers := c.timers - multiset{cb}), cb,
                                                   CellDelay(r, c, jittered))]
    {
      var c := cells[k].(timers := cells[k].timers - multiset{cb});
      cells := cells[k := c];
      if cb.kind == StartTimer {
        ExpireStartLocked(k, cb.gen, cb.at, now, jittered);
      } else {
        cells := cells[k := RunCallback(Fields(now), c, cb, 0)];
      }
      assert CellDelay(Fields(now), c, jittered) == CellDelay(Fields(now), old(cells[k]), jittered);
    }

    // ---- Shutdown --------------------------------------------------------------------------

    method ShutDownKey(k: Key)
      requires k in cells
      modifies this`cells
      ensures cells == old(cells)[k := ShutCell(old(cells[k]))]
    {
      var c := cells[k];
      if c.entry.None? {
        return;
      }
      var e := c.entry.value;
      cells := cells[k := Put(c, CancelRetention(CancelStable(CancelIdle(CancelStart(e)))))];
      InvalidateLeasesLocked(k, ShuttingDown);
      InvalidateConnectorsLocked(k, ShuttingDown);
      if e.phase == Ready || e.phase == Idle || e.phase == Failed {
        if e.instance != None {
          cells := cells[k := BeginStop(cells[k])];
        } else {
          cells := cells[k := Put(cells[k], cells[k].entry.value.(phase := Cold))];
        }
      }
    }

    method ShutAllLocked()
      modifies this`cells
      ensures cells == ShutCells(old(cells))
    {
      ghost var before := cells;
      var todo := cells.Keys;
      while todo != {}
        invariant todo <= before.Keys == cells.Keys
        invariant forall k <- before :: cells[k] == if k in todo then before[k] else ShutCell(before[k])
        decreases todo
      {
        var k :| k in todo;
        ShutDownKey(k);
        todo := todo - {k};
      }
    }

    // Every user of every key is told, and whatever serves is stopping.
    method BeginShutdownLocked(now: Time)
      requires !closing && Valid(now)
      modifies this`closing, this`cells, this`states, this`actions
      ensures View(now) == Take(old(View(now)), BeginShutdown) && Valid(now)
      ensures closing && cells.Keys == old(cells.Keys)
      ensures forall k <- cells :: ToldOfShutdown(old(cells)[k], cells[k])
    {
      ghost var s := View(now);
      forall k | k in cells
        ensures ToldOfShutdown(cells[k], ShutCell(cells[k]))
      {
        KnownAt(now, k);
        ShutTells(Fields(now), cells[k]);
      }
      closing := true;
      ShutAllLocked();
      Log(s, BeginShutdown, now);
    }

    method ClearAllLocked()
      modifies this`cells
      ensures cells == FinalCells(old(cells))
    {
      ghost var before := cells;
      var todo := cells.Keys;
      while todo != {}
        invariant todo <= before.Keys == cells.Keys
        invariant forall k <- before :: cells[k] == if k in todo then before[k] else FinalCell(before[k])
        decreases todo
      {
        var k :| k in todo;
        var c := cells[k];
        if c.entry.Some? {
          var e := c.entry.value.(phase := Cold, instance := None, reaped := false, startPending := false);
          e := e.(startDeadline := 0, idleDeadline := 0, retryDeadline := 0, failureDeadline := 0);
          cells := cells[k := Put(c, e)];
        }
        todo := todo - {k};
      }
    }

    // The goroutine that ends the shutdown, after the worker group is empty.
    method FinishShutdownLocked(now: Time)
      requires Valid(now) && CanTake(View(now), FinishShutdown)
      modifies this`shutdownDone, this`cells, this`states, this`actions
      ensures View(now) == Take(old(View(now)), FinishShutdown) && Valid(now)
    {
      ghost var s := View(now);
      ClearAllLocked();
      shutdownDone := true;
      Log(s, FinishShutdown, now);
    }
  }

  // ---- A client ----------------------------------------------------------------------------

  // A cell whose one generation serves its one lease.
  predicate ServesOne(c: Cell, l: LeaseId, phase: Phase)
  {
    && c.entry.Some? && c.entry.value.phase == phase && c.entry.value.gen == 1 && c.entry.value.instance == Some(1)
    && l in c.leases && c.leases[l].sent == 1 && c.leases[l].gen == 1
    && c.live == {1}
  }

  // The cell of a first lease, from the acquire on.
  function FirstCell(options: Options, l: LeaseId): Cell
    requires Usable(options)
  {
    StartLocked(Global(options, 1, 0, false, false), AddLease(EMPTY_CELL, 60, l))
  }

  lemma FirstPublication(options: Options, l: LeaseId, delay: nat)
    requires Usable(options)
    ensures var c := FirstCell(options, l);
            1 in c.runners && c.runners[1] == Launching
    ensures var c := FirstCell(options, l).(live := {1}, runners := map[1 := Publishing]);
            var d := Publish(Global(options, 1, 1, false, false), c, 1, delay);
            ServesOne(d, l, Ready) && d.leases.Keys == {l} && d.leases[l].state == Active &&
            d.entry.value.leases == {l} && d.connectors == map[] && d.entry.value.connectors == {}
  {
  }

  // A generation is started for the first lease of a key on a new registry.
  method StartOne(options: Options, k: Key, l: LeaseId) returns (registry: Registry)
    requires Usable(options)
    ensures fresh(registry) && registry.options == options && registry.nextGeneration == 1
    ensures registry.Valid(1) && !registry.closing && !registry.shutdownDone && k in registry.cells
    ensures registry.cells[k] == FirstCell(options, l)
  {
    registry := new Registry(options, 1);
    var error := registry.AcquireLease(k, 60, l, 1);
  }

  // Its process starts.
  method LaunchOne(options: Options, k: Key, l: LeaseId) returns (registry: Registry)
    requires Usable(options)
    ensures fresh(registry) && registry.options == options && registry.nextGeneration == 1
    ensures registry.Valid(1) && !registry.closing && !registry.shutdownDone && k in registry.cells
    ensures registry.cells[k] == FirstCell(options, l).(live := {1}, runners := map[1 := Publishing])
  {
    registry := StartOne(options, k, l);
    FirstPublication(options, l, 0);
    registry.Spawn(k, 1, 1);
    registry.FactoryReturns(k, 1, true, true, 1);
  }

  // It serves the lease.
  method ServeOne(options: Options, k: Key, l: LeaseId) returns (registry: Registry)
    requires Usable(options)
    ensures fresh(registry) && registry.Valid(1) && !registry.closing && k in registry.cells
    ensures var c := registry.cells[k];
            ServesOne(c, l, Ready) && c.leases[l].state == Active && c.entry.value.leases == {l} &&
            c.connectors == map[] && c.entry.value.connectors == {}
  {
    registry := LaunchOne(options, k, l);
    FirstPublication(options, l, CellDelay(registry.Fields(1), registry.cells[k], 0));
    registry.OfferInstance(k, 1, 1, 0);
  }

  // A connector is opened and closed on it.
  method ConnectOne(options: Options, k: Key, l: LeaseId, n: ConnectorId) returns (registry: Registry)
    requires Usable(options)
    ensures fresh(registry) && registry.Valid(2) && k in registry.cells
    ensures var c := registry.cells[k];
            ServesOne(c, l, Ready) && c.leases[l].state == Active && c.entry.value.leases == {l} &&
            c.entry.value.connectors == {}
  {
    registry := ServeOne(options, k, l);
    registry.Wait(1, 2);
    var ok := registry.Connect(k, l, n, 2);
    registry.Disconnect(k, n, 2);
  }

  // The life of a resource from a new registry on: its first lease starts a
  // process, becomes active when the process is ready, carries a connector, and
  // leaves the process running but idle when both are gone.
  method UseOnce(options: Options, k: Key, l: LeaseId, n: ConnectorId) returns (registry: Registry)
    requires Usable(options)
    ensures registry.Valid(2) && k in registry.cells
    ensures ServesOne(registry.cells[k], l, Idle) && registry.cells[k].leases[l].state == Closed
  {
    registry := ConnectOne(options, k, l, n);
    registry.ReleaseLease(k, l, 2);
  }
}
