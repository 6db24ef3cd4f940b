// What one step does to the cell of its key, told from the fields of the entry and
// of its leases alone.

module ResourceEffects {
  import opened Backoff
  import opened ResourceModel
  import opened ResourceInvariant

  // ---- Acquire ------------------------------------------------------------------------

  // No generation serves or is on its way: a lease needs a new one.
  predicate NeedsStart(c: Cell)
  {
    c.entry.None? || c.entry.value.phase == Cold || c.entry.value.phase == Failed
  }

  // A process nobody wants any more, or a factory still running for a start that
  // was given up, stands in the way of a new generation.
  predicate Occupied(e: Entry)
  {
    (e.startPending && e.phase != Starting) || (e.phase == Failed && e.instance != None)
  }

  // The entry takes leases with this idle timeout.
  predicate Admits(r: Global, c: Cell, idleTimeout: nat)
  {
    !r.closing && (c.entry.Some? ==> c.entry.value.idleTimeout == idleTimeout && !Occupied(c.entry.value))
  }

  // The entry has failed and its retry deadline lies ahead.
  predicate BackingOff(r: Global, c: Cell)
  {
    c.entry.Some? && c.entry.value.phase == Failed && r.now < c.entry.value.retryDeadline
  }

  // Which answer an acquire gets, on the fields of the entry it meets.
  ghost predicate AnswerFits(r: Global, c: Cell, idleTimeout: nat, error: Option<AcquireError>)
  {
    && (error == Some(AcquireShuttingDown) <==> r.closing)
    && (error == Some(PolicyMismatch) <==> !r.closing && c.entry.Some? && c.entry.value.idleTimeout != idleTimeout)
    && (error == Some(AcquireUnavailable) <==>
          !r.closing && c.entry.Some? && c.entry.value.idleTimeout == idleTimeout && Occupied(c.entry.value))
    && (forall at: Time :: error == Some(RetryAt(at)) <==>
          Admits(r, c, idleTimeout) && BackingOff(r, c) && at == c.entry.value.retryDeadline)
    && (error == Some(GenerationsExhausted) <==>
          Admits(r, c, idleTimeout) && !BackingOff(r, c) && NeedsStart(c) && r.nextGeneration == MAX_UINT64)
    && (error == None <==>
          Admits(r, c, idleTimeout) && !BackingOff(r, c) && (NeedsStart(c) ==> r.nextGeneration < MAX_UINT64))
  }

  // What the cell d holds for the new lease l when it was admitted to c: a lease
  // of a new generation, one that waits for the generation that is starting or
  // for the one after the generation that is stopping, or an active one.
  predicate LeaseFits(r: Global, c: Cell, d: Cell, l: LeaseId)
  {
    && l in d.leases && d.entry.Some? && l in d.entry.value.leases
    && d.leases.Keys == c.leases.Keys + {l}
    && var x, e := d.leases[l], d.entry.value;
       if NeedsStart(c) then
         && e.phase == Starting && e.gen == r.nextGeneration + 1 && e.startPending
         && e.startDeadline == r.now + r.options.startTimeout
         && x.state == Opening && x.gen == r.nextGeneration + 1 && x.sent == 0
         && r.nextGeneration + 1 in d.runners && d.runners[r.nextGeneration + 1] == Launching
       else
         && e.gen == c.entry.value.gen && e.instance == c.entry.value.instance
         && d.runners == c.runners
         && (match c.entry.value.phase
             case Stopping => e.phase == Stopping && x.state == Opening && x.sent == 0
             case Starting => e.phase == Starting && x.state == Opening && x.gen == e.gen && x.sent == 0
             case _ => e.phase == Ready && x.state == Active && x.gen == e.gen && x.sent == 1)
  }

  lemma JoinFits(r: Global, c: Cell, idleTimeout: nat, l: LeaseId)
    requires WellFormed(r) && l !in c.leases
    ensures var a := Join(r, AddLease(c, idleTimeout, l), l);
            && a.error == (if NeedsStart(c) && r.nextGeneration >= MAX_UINT64 then Some(GenerationsExhausted) else None)
            && (a.error.None? ==> LeaseFits(r, c, a.cell, l) && a.started == NeedsStart(c))
  {
  }

  lemma AcquireAnswers(r: Global, c: Cell, idleTimeout: nat, l: LeaseId)
    requires WellFormed(r) && l !in c.leases
    ensures var a := Acquire(r, c, idleTimeout, l);
            && AnswerFits(r, c, idleTimeout, a.error)
            && (a.error.None? ==> LeaseFits(r, c, a.cell, l))
            && (a.started <==> a.error.None? && NeedsStart(c))
  {
    JoinFits(r, c, idleTimeout, l);
  }

  // ---- Release -------------------------------------------------------------------------

  lemma SettleKeepsLeases(r: Global, c: Cell)
    requires WellFormed(r) && c.entry.Some?
    ensures var d := MaybeIdle(r, CancelUnusedStart(r, c));
            d.leases == c.leases && d.entry.Some? && d.entry.value.leases == c.entry.value.leases
  {
    var d := CancelUnusedStart(r, c);
    assert d.leases == c.leases && d.entry.value.leases == c.entry.value.leases;
  }

  lemma ReleaseShape(r: Global, c: Cell, l: LeaseId)
    requires WellFormed(r) && l in c.leases && c.leases[l].state != Closed && c.leases[l].state != Releasing
    ensures var d := Release(r, c, l);
            && d.leases == DropLease(c, l).leases
            && (d.entry.Some? ==> c.entry.Some? && d.entry.value.leases == c.entry.value.leases - {l})
  {
    var dropped := DropLease(c, l);
    if dropped.entry.Some? {
      SettleKeepsLeases(r, dropped);
    }
  }

  lemma ReleaseOthers(r: Global, c: Cell, l: LeaseId)
    requires WellFormed(r) && l in c.leases
    ensures var d := Release(r, c, l);
            && d.leases.Keys == c.leases.Keys
            && forall m <- c.leases :: m != l ==> d.leases[m] == c.leases[m]
  {
    if c.leases[l].state != Closed && c.leases[l].state != Releasing {
      ReleaseShape(r, c, l);
    }
  }

  // The entry has no other lease and no connector.
  predicate SoleUser(c: Cell, l: LeaseId)
  {
    c.entry.Some? && c.entry.value.leases == {l} && c.entry.value.connectors == {}
  }

  // The last user of a ready generation leaves it idle for its idle timeout.
  lemma LastUserLeaves(r: Global, c: Cell, l: LeaseId)
    requires WellFormed(r) && CellOk(r, c) && l in c.leases && c.leases[l].state == Active
    ensures var d, before := Release(r, c, l), c.entry.value;
            && d.entry.Some? && d.entry.value.gen == before.gen && d.entry.value.instance == before.instance
            && (if SoleUser(c, l) then
                  && d.entry.value.phase == Idle && d.entry.value.idleDeadline == r.now + before.idleTimeout
                  && Callback(IdleTimer, before.gen, r.now + before.idleTimeout) in d.timers
                else
                  d.entry.value.phase == Ready)
  {
    assert LeaseOk(c, l, c.leases[l]);
  }

  // The last waiter of a generation that has not started yet gives the start up.
  lemma LastWaiterLeaves(r: Global, c: Cell, l: LeaseId)
    requires WellFormed(r) && CellOk(r, c) && l in c.leases && c.leases[l].state == Opening
    requires c.entry.value.phase == Starting
    ensures var d, before := Release(r, c, l), c.entry.value;
            && d.entry.Some? && d.entry.value.gen == before.gen
            && (if SoleUser(c, l) then
                  d.entry.value.phase == Failed && !d.entry.value.startCancel && !d.entry.value.startTimer
                else
                  d.entry.value == before.(leases := before.leases - {l}))
  {
    assert LeaseOk(c, l, c.leases[l]);
  }

  // ---- Workers ---------------------------------------------------------------------------

  // The generation is starting and its start deadline lies ahead.
  predicate InTime(r: Global, c: Cell, g: Gen)
  {
    !r.closing && Current(c, g) && c.entry.value.phase == Starting && r.now < c.entry.value.startDeadline
  }

  predicate Serves(c: Cell, g: Gen)
  {
    Current(c, g) && (c.entry.value.phase == Ready || c.entry.value.phase == Idle)
  }

  // Every lease of c that was open is closed in d for this cause.
  predicate ToldOf(c: Cell, d: Cell, cause: Cause)
  {
    && d.leases.Keys == c.leases.Keys
    && forall l <- c.leases :: c.leases[l].state != Closed ==>
         d.leases[l].state == Closed && d.leases[l].err == cause
  }

  // Generation g has failed and everybody who used it was told the cause.
  predicate FailedFor(c: Cell, d: Cell, g: Gen, cause: Cause)
  {
    Current(d, g) && d.entry.value.phase == Failed && ToldOf(c, d, cause)
  }

  // Generation g serves since now, and everybody who waited in c has been told.
  predicate ServesWaiters(r: Global, c: Cell, d: Cell, g: Gen)
  {
    && Current(d, g) && d.entry.value.phase == Ready && d.entry.value.instance == Some(g)
    && d.entry.value.readyAt == r.now && g in d.runners && d.runners[g] == Watching
    && d.leases.Keys == c.leases.Keys
    && forall l <- c.leases :: c.leases[l].state == Opening ==>
         d.leases[l].state == Active && d.leases[l].gen == g && d.leases[l].sent == 1
  }

  // Closing the leases of an entry tells everybody, because nobody else is open.
  lemma ClosingTells(r: Global, c: Cell, d: Cell, cause: Cause)
    requires CellOk(r, c) && c.entry.Some?
    requires d.leases == CloseLeases(c.leases, c.entry.value.leases, cause)
    ensures ToldOf(c, d, cause)
  {
    forall l | l in c.leases && c.leases[l].state != Closed
      ensures l in c.entry.value.leases
    {
      assert LeaseOk(c, l, c.leases[l]);
    }
  }

  // A generation published in time serves everybody who waited for it.
  lemma InTimeServes(r: Global, c: Cell, g: Gen, delay: nat)
    requires WellFormed(r) && CellOk(r, c) && InTime(r, c, g)
    ensures ServesWaiters(r, c, Publish(r, c, g, delay), g)
  {
    forall l | l in c.leases && c.leases[l].state == Opening
      ensures l in c.entry.value.leases && c.leases[l].gen == g && c.leases[l].sent == 0
    {
      assert LeaseOk(c, l, c.leases[l]);
    }
  }

  predicate Late(r: Global, c: Cell, g: Gen)
  {
    !r.closing && Current(c, g) && c.entry.value.phase == Starting && c.entry.value.startDeadline <= r.now
  }

  // A generation that arrives at its start deadline or later has failed, and its
  // process is to be cleaned up.
  lemma LateFails(r: Global, c: Cell, g: Gen, delay: nat)
    requires WellFormed(r) && CellOk(r, c) && Late(r, c, g)
    ensures var d := Publish(r, c, g, delay);
            FailedFor(c, d, g, StartFailed) && g in d.runners && d.runners[g] == Cleaning(true)
  {
    ClosingTells(r, c, Publish(r, c, g, delay), StartFailed);
  }

  // A generation that arrives during the shutdown is reaped by its own worker.
  lemma ClosingDetaches(r: Global, c: Cell, g: Gen, delay: nat)
    requires WellFormed(r) && r.closing && Current(c, g) && c.entry.value.phase == Starting
    ensures var d := Publish(r, c, g, delay);
            d == c.(runners := c.runners[g := Detached])
  {
  }

  predicate StartSettled(r: Global, c: Cell, d: Cell, reaped: bool)
  {
    && ToldOf(c, d, if r.closing then ShuttingDown else StartFailed)
    && (d.entry.Some? ==> d.entry.value.phase == if r.closing && reaped then Cold else Failed)
    && (d.entry.None? ==> r.closing && reaped)
  }

  // A start that failed is over: outside shutdown its entry is failed and every
  // user of it was told; during shutdown a process that was reaped leaves nothing
  // but a cold entry, and one that was not leaves a failed one.
  lemma FailedStartSettles(r: Global, c: Cell, g: Gen, reaped: bool, delay: nat)
    requires WellFormed(r) && CellOk(r, c) && Current(c, g) && c.entry.value.phase == Starting
    ensures StartSettled(r, c, CompleteStartFailure(r, c, g, reaped, delay), reaped)
  {
    var d := CompleteStartFailure(r, c, g, reaped, delay);
    ClosingTells(r, c, d, if r.closing then ShuttingDown else StartFailed);
  }

  // A serving process that exits fails its entry and takes its users with it.
  lemma ServingExitFails(r: Global, c: Cell, g: Gen, delay: nat)
    requires WellFormed(r) && CellOk(r, c) && Serves(c, g)
    ensures var d := ExitObserved(r, c, g, delay);
            FailedFor(c, d, g, Exited) && d.entry.value.instance == None
  {
    var d := ExitObserved(r, c, g, delay);
    ServingExitCloses(r, c, g, delay);
    ClosingTells(r, c, d, Exited);
  }

  lemma ServingExitCloses(r: Global, c: Cell, g: Gen, delay: nat)
    requires WellFormed(r) && Serves(c, g)
    ensures var d := ExitObserved(r, c, g, delay);
            && Current(d, g) && d.entry.value.phase == Failed && d.entry.value.instance == None
            && d.leases == CloseLeases(c.leases, c.entry.value.leases, Exited)
  {
  }

  // The step ends a stop that was asked for, and the process is gone.
  predicate StopsReaped(c: Cell, ev: Event)
  {
    ev.DoStopFinished? && c.entry.Some? && (ev.outcome || c.entry.value.reaped || ev.gen !in c.live)
  }

  // d is what a reaped stop of c leaves: nothing if nobody waits, a new generation
  // for those who do, or a failure when the generation numbers have run out.
  predicate Restarted(r: Global, c: Cell, d: Cell)
  {
    c.entry.Some? &&
    if c.entry.value.leases == {} then
      d.entry == None
    else if r.nextGeneration < MAX_UINT64 then
      var n := r.nextGeneration + 1;
      && Current(d, n) && d.entry.value.phase == Starting && d.entry.value.failures == 0
      && d.entry.value.startDeadline == r.now + r.options.startTimeout
      && n in d.runners && d.runners[n] == Launching
      && d.leases.Keys == c.leases.Keys && d.entry.value.leases == c.entry.value.leases
      && forall l <- c.entry.value.leases :: l in d.leases && d.leases[l].state == Opening && d.leases[l].gen == n
    else
      d.entry.Some? && d.entry.value.phase == Failed && ToldOf(c, d, Exhausted)
  }

  lemma StopIsReaped(r: Global, c: Cell, g: Gen, outcome: bool, delay: nat)
    requires WellFormed(r) && CellOk(r, c) && g in c.stoppers && !r.closing
    requires outcome || g !in c.live
    ensures c.entry.Some? && StopFinished(r, c, g, outcome, delay) == Reaped(r, c, delay).(stoppers := c.stoppers - {g})
    ensures forall l <- c.entry.value.leases :: l in c.leases && c.leases[l].state == Opening
  {
    assert Current(c, g) && c.entry.value.phase == Stopping;
    forall l | l in c.entry.value.leases
      ensures l in c.leases && c.leases[l].state == Opening
    {
      assert LeaseOk(c, l, c.leases[l]);
    }
  }

  lemma ReapedEnds(r: Global, c: Cell, delay: nat)
    requires WellFormed(r) && CellOk(r, c) && !r.closing && c.entry.Some? && c.entry.value.phase == Stopping
    requires c.entry.value.leases != {} ==> r.nextGeneration == MAX_UINT64
    ensures Restarted(r, c, Reaped(r, c, delay))
  {
    if c.entry.value.leases != {} {
      ClosingTells(r, c, Reaped(r, c, delay), Exhausted);
    }
  }

  lemma ReapedGoesOn(r: Global, c: Cell, delay: nat)
    requires WellFormed(r) && !r.closing && c.entry.Some?
    requires c.entry.value.leases != {} && r.nextGeneration < MAX_UINT64
    requires forall l <- c.entry.value.leases :: l in c.leases && c.leases[l].state == Opening
    ensures Restarted(r, c, Reaped(r, c, delay))
  {
  }

  // A stopped generation that was reaped makes room for the next one, if anybody
  // waits for it.
  lemma ReapedRestarts(r: Global, c: Cell, g: Gen, outcome: bool, delay: nat)
    requires WellFormed(r) && CellOk(r, c) && g in c.stoppers && !r.closing
    requires outcome || g !in c.live
    ensures Restarted(r, c, StopFinished(r, c, g, outcome, delay))
  {
    StopIsReaped(r, c, g, outcome, delay);
    if c.entry.value.leases != {} && r.nextGeneration < MAX_UINT64 {
      ReapedGoesOn(r, c, delay);
    } else {
      ReapedEnds(r, c, delay);
    }
  }

  // A process that outlived its stop fails the entry and keeps its generation.
  lemma UnreapedFails(r: Global, c: Cell, g: Gen, delay: nat)
    requires WellFormed(r) && CellOk(r, c) && g in c.stoppers && g in c.live
    ensures var d := StopFinished(r, c, g, false, delay);
            FailedFor(c, d, g, Unavailable) && d.entry.value.instance == Some(g)
  {
    assert Current(c, g) && c.entry.value.phase == Stopping;
    ClosingTells(r, c, StopFinished(r, c, g, false, delay), Unavailable);
  }

  // ---- Callbacks ---------------------------------------------------------------------------

  // What a callback that arrives as it was scheduled does to the entry e.
  predicate Acts(c: Cell, cb: Callback, d: Cell)
    requires c.entry.Some?
  {
    var e := c.entry.value;
    match cb.kind
    case StartTimer =>
      e.phase == Starting && cb.at == e.startDeadline ==>
        FailedFor(c, d, e.gen, StartFailed) && d.entry.value.startPending
    case IdleTimer =>
      e.phase == Idle && cb.at == e.idleDeadline ==>
        Current(d, e.gen) && d.entry.value.phase == Stopping && e.gen in d.stoppers
    case StableTimer =>
      e.phase == Ready || e.phase == Idle ==> d.entry == Some(e.(stableTimer := false, failures := 0))
    case FailureTimer =>
      e.phase == Failed && cb.at == e.failureDeadline ==>
        if e.startPending || e.instance != None then d.entry == Some(e.(failureTimer := false)) else d.entry == None
  }

  lemma StartTimerActs(r: Global, c: Cell, cb: Callback, delay: nat)
    requires WellFormed(r) && CellOk(r, c) && !r.closing && Current(c, cb.gen) && cb.at <= r.now
    requires cb.kind == StartTimer
    ensures Acts(c, cb, RunCallback(r, c.(timers := c.timers - multiset{cb}), cb, delay))
  {
    var d := RunCallback(r, c.(timers := c.timers - multiset{cb}), cb, delay);
    if c.entry.value.phase == Starting && cb.at == c.entry.value.startDeadline {
      ClosingTells(r, c, d, StartFailed);
    }
  }

  lemma CallbackActs(r: Global, c: Cell, cb: Callback, delay: nat)
    requires WellFormed(r) && CellOk(r, c) && !r.closing && Current(c, cb.gen) && cb.at <= r.now
    ensures Acts(c, cb, RunCallback(r, c.(timers := c.timers - multiset{cb}), cb, delay))
  {
    if cb.kind == StartTimer {
      StartTimerActs(r, c, cb, delay);
    }
  }

  // ---- Shutdown -----------------------------------------------------------------------------

  // Every user of c is told of the shutdown, and what serves is stopping.
  predicate ToldOfShutdown(c: Cell, d: Cell)
  {
    && ToldOf(c, d, ShuttingDown)
    && d.connectors.Keys == c.connectors.Keys
    && (forall n <- c.connectors :: !c.connectors[n].closed ==>
          d.connectors[n].closed && d.connectors[n].err == ShuttingDown)
    && (c.entry.Some? && (c.entry.value.phase == Ready || c.entry.value.phase == Idle) ==>
          d.entry.Some? && d.entry.value.phase == Stopping && c.entry.value.gen in d.stoppers)
  }

  lemma ShutParts(c: Cell)
    requires c.entry.Some?
    ensures ShutCell(c).leases == CloseLeases(c.leases, c.entry.value.leases, ShuttingDown)
    ensures ShutCell(c).connectors == CloseConnectors(c.connectors, c.entry.value.connectors, ShuttingDown)
    ensures (c.entry.value.phase == Ready || c.entry.value.phase == Idle) && c.entry.value.instance != None ==>
              ShutCell(c).entry.Some? && ShutCell(c).entry.value.phase == Stopping &&
              c.entry.value.gen in ShutCell(c).stoppers
  {
  }

  // Closing tells every user of the key.
  lemma ShutTells(r: Global, c: Cell)
    requires CellOk(r, c)
    ensures ToldOfShutdown(c, ShutCell(c))
  {
    if c.entry.Some? {
      ShutParts(c);
      ClosingTells(r, c, ShutCell(c), ShuttingDown);
    }
    forall n | n in c.connectors && !c.connectors[n].closed
      ensures c.entry.Some? && n in c.entry.value.connectors
    {
      assert ConnectorOk(c, n, c.connectors[n]);
    }
    forall l | l in c.leases && c.leases[l].state != Closed
      ensures c.entry.Some?
    {
      assert LeaseOk(c, l, c.leases[l]);
    }
  }
}
