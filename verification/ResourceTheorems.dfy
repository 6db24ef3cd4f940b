// What the resource registry promises, over every run.

module ResourceTheorems {
  import opened Backoff
  import opened ResourceModel
  import opened ResourceInvariant
  import opened ResourceRuns

  // ---- One process per key ---------------------------------------------------------

  lemma LiveIsCurrent(r: Global, c: Cell, g: Gen)
    requires CellOk(r, c) && g in c.live
    ensures Current(c, g)
    ensures c.entry.value.startPending || c.entry.value.instance == Some(g)
  {
    assert RunnerOk(r, c, g, c.runners[g]);
  }

  // At every moment of every run a key has at most one process that is started
  // and not reaped, and that process belongs to the entry's generation.
  lemma OneProcessPerKey(states: seq<State>, actions: seq<Action>, i: nat, k: Key)
    requires IsRun(states, actions) && i < |states|
    ensures |CellOf(states[i], k).live| <= 1
    ensures forall g <- CellOf(states[i], k).live :: Current(CellOf(states[i], k), g)
  {
    RunCell(states, actions, i, k);
    RunInv(states, actions, i);
    var c := CellOf(states[i], k);
    forall g | g in c.live
      ensures Current(c, g)
    {
      LiveIsCurrent(states[i].global, c, g);
    }
    if c.live != {} {
      assert c.live == {c.entry.value.gen};
    }
  }

  // ---- Generations never come back ---------------------------------------------------

  // The generation an entry has after a step is the one it had, or a number no
  // generation of any key has had before.
  ghost predicate GenStep(c: Cell, d: Cell, r: Global, started: bool)
  {
    && (d.entry.Some? ==>
          if started then d.entry.value.gen == r.nextGeneration + 1
          else c.entry.Some? && d.entry.value.gen == c.entry.value.gen)
    && (started ==> d.entry.Some?)
  }

  lemma GenStepCallers(r: Global, c: Cell, ev: Event)
    requires WellFormed(r) && CellOk(r, c) && Enabled(r, c, ev)
    requires ev.DoRelease? || ev.DoOpenConnector? || ev.DoCloseConnector?
    ensures GenStep(c, CellStep(r, c, ev), r, Starts(r, c, ev))
  {
  }

  lemma GenStepAcquire(r: Global, c: Cell, ev: Event)
    requires WellFormed(r) && CellOk(r, c) && Enabled(r, c, ev) && ev.DoAcquire?
    ensures GenStep(c, CellStep(r, c, ev), r, Starts(r, c, ev))
  {
  }

  lemma GenStepStart(r: Global, c: Cell, ev: Event)
    requires WellFormed(r) && CellOk(r, c) && Enabled(r, c, ev)
    requires ev.DoSpawn? || ev.DoStartReturned? || ev.DoPublish? || ev.DoReportStartFailure?
    ensures GenStep(c, CellStep(r, c, ev), r, Starts(r, c, ev))
  {
  }

  lemma GenStepServingExit(r: Global, c: Cell, g: Gen, delay: nat)
    requires WellFormed(r) && Current(c, g) && (c.entry.value.phase == Ready || c.entry.value.phase == Idle)
    ensures GenStep(c, ExitObserved(r, c, g, delay), r, false)
  {
    var bare := Put(c, CancelStable(CancelIdle(c.entry.value)).(instance := None));
    InvalidateKeepsEntry(bare, Exited);
  }

  lemma GenStepExit(r: Global, c: Cell, ev: Event)
    requires WellFormed(r) && CellOk(r, c) && Enabled(r, c, ev)
    requires ev.DoExitObserved? || ev.DoDetachedReaped? || ev.DoProcessExit?
    ensures GenStep(c, CellStep(r, c, ev), r, Starts(r, c, ev))
  {
    if ev.DoExitObserved? && Current(c, ev.gen) && (c.entry.value.phase == Ready || c.entry.value.phase == Idle) {
      GenStepServingExit(r, c, ev.gen, ev.delay);
    }
  }

  lemma GenStepFire(r: Global, c: Cell, ev: Event)
    requires WellFormed(r) && CellOk(r, c) && Enabled(r, c, ev) && ev.DoFire?
    ensures GenStep(c, CellStep(r, c, ev), r, Starts(r, c, ev))
  {
  }

  lemma GenStepStop(r: Global, c: Cell, ev: Event)
    requires WellFormed(r) && CellOk(r, c) && Enabled(r, c, ev) && ev.DoStopFinished?
    ensures GenStep(c, CellStep(r, c, ev), r, Starts(r, c, ev))
  {
  }

  lemma GenStepHolds(r: Global, c: Cell, ev: Event)
    requires WellFormed(r) && CellOk(r, c) && Enabled(r, c, ev)
    ensures GenStep(c, CellStep(r, c, ev), r, Starts(r, c, ev))
  {
    if ev.DoStopFinished? {
      GenStepStop(r, c, ev);
    } else if ev.DoAcquire? {
      GenStepAcquire(r, c, ev);
    } else if ev.DoRelease? || ev.DoOpenConnector? || ev.DoCloseConnector? {
      GenStepCallers(r, c, ev);
    } else if ev.DoSpawn? || ev.DoStartReturned? || ev.DoPublish? || ev.DoReportStartFailure? {
      GenStepStart(r, c, ev);
    } else if ev.DoFire? {
      GenStepFire(r, c, ev);
    } else {
      GenStepExit(r, c, ev);
    }
  }

  lemma TakeMovesOn(s: State, a: Action, k: Key, g: Gen)
    requires Inv(s) && CanTake(s, a) && g <= s.global.nextGeneration && !Current(CellOf(s, k), g)
    ensures !Current(CellOf(Take(s, a), k), g)
    ensures g <= Take(s, a).global.nextGeneration
  {
    InvAt(s, k);
    if a.At? && a.key == k {
      GenStepHolds(s.global, CellOf(s, k), a.event);
    }
  }

  // Once a key has moved past a generation, it never returns to it, whether its
  // entry was deleted and created again or restarted in place.
  lemma {:induction false} GenerationNeverReturns(
    states: seq<State>, actions: seq<Action>, i: nat, j: nat, k: Key, g: Gen)
    requires IsRun(states, actions) && i <= j < |states|
    requires g <= states[i].global.nextGeneration && !Current(CellOf(states[i], k), g)
    ensures !Current(CellOf(states[j], k), g)
    ensures g <= states[j].global.nextGeneration
    decreases j
  {
    if i < j {
      GenerationNeverReturns(states, actions, i, j - 1, k, g);
      RunInv(states, actions, j - 1);
      assert StepAt(states, actions, j - 1);
      TakeMovesOn(states[j - 1], actions[j - 1], k, g);
    }
  }

  // Whatever was captured for a generation its key has moved past leaves the
  // entry, the leases and the connectors of the key alone for the rest of the
  // run.
  lemma StaleWorkChangesNothing(
    states: seq<State>, actions: seq<Action>, i: nat, j: nat, k: Key, g: Gen, cb: Callback, flag: bool, delay: nat)
    requires IsRun(states, actions) && i <= j < |states|
    requires g <= states[i].global.nextGeneration && !Current(CellOf(states[i], k), g)
    requires cb.gen == g
    ensures var r, c := states[j].global, CellOf(states[j], k);
            && WellFormed(r)
            && RunCallback(r, c, cb, delay) == c
            && GenerationExited(r, c, g, delay) == c
            && CompleteStop(r, c, g, flag, delay) == c
            && CompleteStartFailure(r, c, g, flag, delay) == c
  {
    GenerationNeverReturns(states, actions, i, j, k, g);
    RunInv(states, actions, j);
    StaleCallback(states[j].global, CellOf(states[j], k), cb, delay);
  }

  // ---- Generations are unique across keys ------------------------------------------------

  ghost predicate Distinct(s: State)
  {
    forall j, k | j in s.cells && k in s.cells && j != k ::
      s.cells[j].entry.Some? && s.cells[k].entry.Some? ==> s.cells[j].entry.value.gen != s.cells[k].entry.value.gen
  }

  // The entry of j kept its generation, or j is the key that just consumed one.
  ghost predicate KeepsOrRenews(s: State, t: State, j: Key)
    requires j in t.cells && t.cells[j].entry.Some?
  {
    || (j in s.cells && Current(s.cells[j], t.cells[j].entry.value.gen))
    || (t.cells[j].entry.value.gen == s.global.nextGeneration + 1 &&
        forall i <- t.cells :: i != j ==> i in s.cells && t.cells[i] == s.cells[i])
  }

  lemma ShutKeepsGen(c: Cell)
    ensures ShutCell(c).entry.Some? ==> Current(c, ShutCell(c).entry.value.gen)
    ensures FinalCell(c).entry.Some? ==> Current(c, FinalCell(c).entry.value.gen)
  {
  }

  lemma TakeRenewsAtMostOne(s: State, a: Action, j: Key)
    requires Inv(s) && CanTake(s, a)
    requires j in Take(s, a).cells && Take(s, a).cells[j].entry.Some?
    ensures KeepsOrRenews(s, Take(s, a), j)
  {
    if a.At? && a.key == j {
      InvAt(s, j);
      GenStepHolds(s.global, CellOf(s, j), a.event);
    } else if !a.At? && !a.Tick? {
      ShutKeepsGen(s.cells[j]);
    }
  }

  lemma DistinctCarriesOver(s: State, t: State)
    requires Inv(s) && Distinct(s)
    requires forall j <- t.cells :: t.cells[j].entry.Some? ==> KeepsOrRenews(s, t, j)
    ensures Distinct(t)
  {
    forall j, k | j in t.cells && k in t.cells && j != k && t.cells[j].entry.Some? && t.cells[k].entry.Some?
      ensures t.cells[j].entry.value.gen != t.cells[k].entry.value.gen
    {
      assert KeepsOrRenews(s, t, j) && KeepsOrRenews(s, t, k);
      InvAt(s, j);
      InvAt(s, k);
    }
  }

  lemma TakeKeepsDistinct(s: State, a: Action)
    requires Inv(s) && Distinct(s) && CanTake(s, a)
    ensures Distinct(Take(s, a))
  {
    var t := Take(s, a);
    forall j | j in t.cells && t.cells[j].entry.Some?
      ensures KeepsOrRenews(s, t, j)
    {
      TakeRenewsAtMostOne(s, a, j);
    }
    DistinctCarriesOver(s, t);
  }

  lemma {:induction false} GenerationsDistinct(states: seq<State>, actions: seq<Action>, i: nat)
    requires IsRun(states, actions) && i < |states|
    ensures Distinct(states[i])
  {
    if i > 0 {
      GenerationsDistinct(states, actions, i - 1);
      RunInv(states, actions, i - 1);
      assert StepAt(states, actions, i - 1);
      TakeKeepsDistinct(states[i - 1], actions[i - 1]);
    }
  }

  // ---- Leases and connectors are bound to the serving generation ----------------------------

  lemma NothingBound(r: Global, c: Cell)
    requires CellOk(r, c) && c.entry.Some?
    requires c.entry.value.phase == Idle || c.entry.value.phase == Failed
    ensures c.entry.value.leases == {} && c.entry.value.connectors == {}
  {
  }

  lemma BindingHolds(states: seq<State>, actions: seq<Action>, i: nat, k: Key)
    requires IsRun(states, actions) && i < |states|
    ensures var c := CellOf(states[i], k);
            && (forall l <- c.leases :: c.leases[l].state == Active ==>
                  && Current(c, c.leases[l].gen) && c.entry.value.phase == Ready
                  && c.entry.value.instance == Some(c.leases[l].gen) && l in c.entry.value.leases)
            && (forall n <- c.connectors :: !c.connectors[n].closed ==>
                  && Current(c, c.connectors[n].gen) && c.entry.value.phase == Ready
                  && n in c.entry.value.connectors)
            && (c.entry.Some? && (c.entry.value.phase == Ready || c.entry.value.phase == Idle) ==>
                  (c.entry.value.phase == Idle <==> c.entry.value.leases == {} && c.entry.value.connectors == {}))
            && (c.entry.Some? && c.entry.value.phase == Failed ==>
                  c.entry.value.leases == {} && c.entry.value.connectors == {})
  {
    RunCell(states, actions, i, k);
    RunInv(states, actions, i);
    var c := CellOf(states[i], k);
    forall l | l in c.leases
      ensures LeaseOk(c, l, c.leases[l])
    {
    }
    if c.entry.Some? && (c.entry.value.phase == Idle || c.entry.value.phase == Failed) {
      NothingBound(states[i].global, c);
    }
  }

  // Idle expiry stops a generation only when no lease and no connector uses it.
  lemma IdleExpirySparesUsers(states: seq<State>, actions: seq<Action>, i: nat, k: Key, g: Gen, at: Time)
    requires IsRun(states, actions) && i < |states|
    requires ExpireIdle(states[i].global, CellOf(states[i], k), g, at) != CellOf(states[i], k)
    ensures var c := CellOf(states[i], k);
            && c.entry.Some? && c.entry.value.leases == {} && c.entry.value.connectors == {}
            && (forall l <- c.leases :: c.leases[l].state == Closed)
            && (forall n <- c.connectors :: c.connectors[n].closed)
  {
    BindingHolds(states, actions, i, k);
    RunCell(states, actions, i, k);
    RunInv(states, actions, i);
    var c := CellOf(states[i], k);
    forall l | l in c.leases
      ensures c.leases[l].state == Closed
    {
      assert LeaseOk(c, l, c.leases[l]);
    }
  }

  // ---- Channels --------------------------------------------------------------------------

  // The one-slot ready channel of a lease never receives a second result, so no
  // send can block, and the done channel is closed exactly when the lease is
  // closed, exactly once.
  lemma ChannelsUsedOnce(states: seq<State>, actions: seq<Action>, i: nat, k: Key)
    requires IsRun(states, actions) && i < |states|
    ensures var c := CellOf(states[i], k);
            && (forall l <- c.leases ::
                  && c.leases[l].sent <= 1
                  && c.leases[l].closes == (if c.leases[l].state == Closed then 1 else 0))
            && (forall n <- c.connectors :: c.connectors[n].closes == (if c.connectors[n].closed then 1 else 0))
  {
    RunCell(states, actions, i, k);
    RunInv(states, actions, i);
    var c := CellOf(states[i], k);
    forall l | l in c.leases
      ensures LeaseOk(c, l, c.leases[l])
    {
    }
    forall n | n in c.connectors
      ensures ConnectorOk(c, n, c.connectors[n])
    {
    }
  }

  // ---- Shutdown ----------------------------------------------------------------------------

  // Whenever the shutdown channel is closed, no process is left, no worker is
  // left, and every lease and connector is closed.
  lemma ShutdownReapsEverything(states: seq<State>, actions: seq<Action>, i: nat, k: Key)
    requires IsRun(states, actions) && i < |states|
    requires states[i].global.shutdownDone
    ensures var c := CellOf(states[i], k);
            && c.live == {} && c.runners == map[] && c.stoppers == {}
            && (forall l <- c.leases :: c.leases[l].state == Closed)
            && (forall n <- c.connectors :: c.connectors[n].closed)
  {
    RunCell(states, actions, i, k);
    RunInv(states, actions, i);
    var c := CellOf(states[i], k);
    forall l | l in c.leases
      ensures c.leases[l].state == Closed
    {
      assert LeaseOk(c, l, c.leases[l]);
    }
    forall n | n in c.connectors
      ensures c.connectors[n].closed
    {
      assert ConnectorOk(c, n, c.connectors[n]);
    }
  }

  // A live process is covered by the goroutine of its generation until its exit,
  // and once the registry is closing no step consumes a generation number.
  lemma LiveIsCovered(states: seq<State>, actions: seq<Action>, i: nat, k: Key)
    requires IsRun(states, actions) && i < |states|
    ensures CellOf(states[i], k).live <= CellOf(states[i], k).runners.Keys
    ensures states[i].global.closing && i < |actions| ==>
              states[i + 1].global.nextGeneration == states[i].global.nextGeneration && states[i + 1].global.closing
  {
    assert i < |actions| ==> StepAt(states, actions, i);
    RunCell(states, actions, i, k);
    RunInv(states, actions, i);
  }

  // ---- No leaks ---------------------------------------------------------------------------

  // Outside shutdown no entry rests cold, and every failed entry either has a
  // retention callback pending or is held by a worker past its retention.
  lemma NoEntryLeaks(states: seq<State>, actions: seq<Action>, i: nat, k: Key)
    requires IsRun(states, actions) && i < |states|
    requires !states[i].global.closing && CellOf(states[i], k).entry.Some?
    ensures var r, c := states[i].global, CellOf(states[i], k);
            var e := c.entry.value;
            && e.phase != Cold
            && (e.phase == Failed ==>
                  || (e.failureTimer && Callback(FailureTimer, e.gen, e.failureDeadline) in c.timers)
                  || (e.failureDeadline <= r.now && e.gen in c.runners &&
                      ((e.startPending && StartPhase(c.runners[e.gen])) ||
                       (e.instance == Some(e.gen) && ReapPhase(c.runners[e.gen])))))
  {
    RunCell(states, actions, i, k);
    RunInv(states, actions, i);
  }

  // The pending retention callback deletes a failed entry that nothing holds,
  // and when a worker holds an entry past its retention, the worker's own report
  // deletes it.
  lemma RetentionDeletes(r: Global, c: Cell, delay: nat)
    requires WellFormed(r) && CellOk(r, c) && !r.closing
    requires c.entry.Some? && c.entry.value.phase == Failed && c.entry.value.failureDeadline <= r.now
    ensures var e := c.entry.value;
            && (!e.startPending && e.instance == None ==>
                  ExpireFailure(r, c, e.gen, e.failureDeadline).entry == None)
            && (e.instance.Some? ==> GenerationExited(r, c, e.gen, delay).entry == None)
            && (e.startPending ==> CompleteStartFailure(r, c, e.gen, true, delay).entry == None)
  {
    NothingBound(r, c);
  }
}
