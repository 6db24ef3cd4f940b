// The deadlines of the resource registry, traced back over the run to the moment
// they were set.

module ResourceDeadlines {
  import opened Backoff
  import opened ResourceModel
  import opened ResourceInvariant
  import opened ResourceRuns
  import opened ResourceEffects
  import opened ResourceTiming

  // ---- What a failure costs ----------------------------------------------------------------

  // The failures the step ev still remembers of the entry: none once it was ready
  // long enough or its process was reaped on request.
  function Remembered(r: Global, c: Cell, ev: Event): nat
    requires c.entry.Some?
  {
    var e := c.entry.value;
    if e.readyAt != 0 && r.now - e.readyAt >= r.options.stableReady then 0
    else if StopsReaped(c, ev) then 0
    else e.failures
  }

  // One failure more, in 32 bits.
  function Saturated(failures: nat): nat
  {
    if failures < MAX_UINT32 then failures + 1 else failures
  }

  // The step makes the entry fail.
  predicate Fails(c: Cell, d: Cell)
  {
    && c.entry.Some? && c.entry.value.phase != Failed
    && d.entry.Some? && d.entry.value.phase == Failed
  }

  // The entry of d is that of c, as far as the deadlines of starting and idling go.
  predicate SamePhase(c: Cell, d: Cell)
  {
    && c.entry.Some? && d.entry.Some?
    && d.entry.value.phase == c.entry.value.phase && d.entry.value.gen == c.entry.value.gen
    && d.entry.value.idleDeadline == c.entry.value.idleDeadline
    && d.entry.value.startDeadline == c.entry.value.startDeadline
    && d.entry.value.idleTimeout == c.entry.value.idleTimeout
  }

  // The failure is counted and keeps the entry from starting for the delay.
  predicate Pays(r: Global, c: Cell, d: Cell, ev: Event, delay: nat)
    requires c.entry.Some? && d.entry.Some?
  {
    var e := d.entry.value;
    && e.failures == Saturated(Remembered(r, c, ev))
    && e.retryDeadline == r.now + delay
    && e.failureDeadline == e.retryDeadline + r.options.failureRetention
  }

  lemma PublishPays(r: Global, c: Cell, ev: Event)
    requires WellFormed(r) && Enabled(r, c, ev) && !r.closing && ev.DoPublish?
    ensures var d := CellStep(r, c, ev); Fails(c, d) ==> Pays(r, c, d, ev, ev.delay)
  {
  }

  lemma ReportPays(r: Global, c: Cell, ev: Event)
    requires WellFormed(r) && Enabled(r, c, ev) && !r.closing && ev.DoReportStartFailure?
    ensures var d := CellStep(r, c, ev); Fails(c, d) ==> Pays(r, c, d, ev, ev.delay)
  {
  }

  lemma ServingExitPays(r: Global, c: Cell, g: Gen, delay: nat)
    requires WellFormed(r) && Serves(c, g)
    ensures Pays(r, c, GenerationExited(r, c, g, delay), DoExitObserved(g, delay), delay)
  {
    InvalidateKeepsEntry(Put(c, CancelStable(CancelIdle(c.entry.value)).(instance := None)), Exited);
  }

  lemma QuietExit(r: Global, c: Cell, g: Gen, delay: nat)
    requires WellFormed(r) && !Serves(c, g)
    ensures var d := GenerationExited(r, c, g, delay); !Fails(c, d) && (d.entry.Some? ==> SamePhase(c, d))
  {
  }

  lemma ExitPays(r: Global, c: Cell, ev: Event)
    requires WellFormed(r) && Enabled(r, c, ev) && !r.closing && ev.DoExitObserved?
    ensures var d := CellStep(r, c, ev); Fails(c, d) ==> Pays(r, c, d, ev, ev.delay)
  {
    if Serves(c, ev.gen) {
      ServingExitPays(r, c, ev.gen, ev.delay);
    } else {
      QuietExit(r, c, ev.gen, ev.delay);
    }
  }

  lemma UnreapedPays(r: Global, c: Cell, g: Gen, delay: nat)
    requires WellFormed(r) && c.entry.Some? && !c.entry.value.reaped && g in c.live
    ensures Pays(r, c, Fail(r, Invalidate(c, Unavailable), delay), DoStopFinished(g, false, delay), delay)
  {
    InvalidateKeepsEntry(c, Unavailable);
  }

  // A reaped stop fails the entry only for want of a generation number.
  lemma ReapedPays(r: Global, c: Cell, g: Gen, outcome: bool, delay: nat)
    requires WellFormed(r) && c.entry.Some? && !r.closing && (outcome || c.entry.value.reaped || g !in c.live)
    ensures var d := Reaped(r, c, delay);
            d.entry.Some? && d.entry.value.phase == Failed ==> Pays(r, c, d, DoStopFinished(g, outcome, delay), delay)
  {
  }

  lemma StopPays(r: Global, c: Cell, ev: Event)
    requires WellFormed(r) && Enabled(r, c, ev) && !r.closing && ev.DoStopFinished?
    ensures var d := CellStep(r, c, ev); Fails(c, d) ==> Pays(r, c, d, ev, ev.delay)
  {
    if Current(c, ev.gen) && c.entry.value.phase == Stopping {
      if StopsReaped(c, ev) {
        ReapedPays(r, c, ev.gen, ev.outcome, ev.delay);
      } else {
        UnreapedPays(r, c, ev.gen, ev.delay);
      }
    }
  }

  lemma FirePays(r: Global, c: Cell, ev: Event)
    requires WellFormed(r) && CellOk(r, c) && Enabled(r, c, ev) && !r.closing && ev.DoFire?
    ensures var d := CellStep(r, c, ev); Fails(c, d) ==> Pays(r, c, d, ev, ev.delay)
  {
  }

  // Nothing but these reports makes an entry fail, and the caller who gives up a
  // start.
  lemma OthersDoNotFail(r: Global, c: Cell, ev: Event)
    requires WellFormed(r) && CellOk(r, c) && Enabled(r, c, ev)
    requires !ev.DoPublish? && !ev.DoReportStartFailure? && !ev.DoExitObserved? && !ev.DoStopFinished? && !ev.DoFire?
    requires !ev.DoRelease?
    ensures !Fails(c, CellStep(r, c, ev))
  {
  }

  lemma GivingUpCostsNothing(r: Global, c: Cell, ev: Event)
    requires WellFormed(r) && CellOk(r, c) && Enabled(r, c, ev) && Scheduled(r, c) && !r.closing && ev.DoRelease?
    ensures var d := CellStep(r, c, ev);
            Fails(c, d) ==> d.entry.value.failures == c.entry.value.failures && d.entry.value.retryDeadline <= r.now
  {
  }

  lemma StepPays(r: Global, c: Cell, ev: Event)
    requires WellFormed(r) && CellOk(r, c) && Enabled(r, c, ev) && !r.closing && !ev.DoRelease?
    ensures Fails(c, CellStep(r, c, ev)) ==>
              && (ev.DoPublish? || ev.DoReportStartFailure? || ev.DoExitObserved? || ev.DoStopFinished? || ev.DoFire?)
              && Pays(r, c, CellStep(r, c, ev), ev, ev.delay)
  {
    if ev.DoPublish? {
      PublishPays(r, c, ev);
    } else if ev.DoReportStartFailure? {
      ReportPays(r, c, ev);
    } else if ev.DoExitObserved? {
      ExitPays(r, c, ev);
    } else if ev.DoStopFinished? {
      StopPays(r, c, ev);
    } else if ev.DoFire? {
      FirePays(r, c, ev);
    } else {
      OthersDoNotFail(r, c, ev);
    }
  }

  lemma RememberedCounts(r: Global, c: Cell, ev: Event)
    requires WellFormed(r) && c.entry.Some?
    ensures NextFailures(r, FailureBasis(c, ev)) == Saturated(Remembered(r, c, ev))
  {
  }

  // The delay of a failure is at least half the ideal one for the failures counted
  // so far, and at most the maximum.
  lemma PlausibleDelay(s: State, k: Key, ev: Event)
    requires WellFormed(s.global) && Plausible(s, At(k, ev)) && CellOf(s, k).entry.Some?
    requires ev.DoPublish? || ev.DoReportStartFailure? || ev.DoExitObserved? || ev.DoStopFinished? || ev.DoFire?
    ensures var failures := Saturated(Remembered(s.global, CellOf(s, k), ev));
            IdealBase(s.global.options, failures) / 2 <= ev.delay <= s.global.options.backoffMaximum
  {
    RememberedCounts(s.global, CellOf(s, k), ev);
    var jittered: int :|
      ev.delay == DelayAfter(s.global, FailureBasis(CellOf(s, k), ev), jittered);
  }

  // The entry of d is failed, counts this many failures and starts again no
  // earlier than half the ideal delay and no later than the maximum from now.
  predicate KeptFor(r: Global, d: Cell, failures: nat)
    requires WellFormed(r)
  {
    && d.entry.Some? && d.entry.value.failures == failures
    && r.now + IdealBase(r.options, failures) / 2 <= d.entry.value.retryDeadline
    && d.entry.value.retryDeadline <= r.now + r.options.backoffMaximum
    && d.entry.value.failureDeadline == d.entry.value.retryDeadline + r.options.failureRetention
  }

  lemma OnlyItsKeyFails(s: State, a: Action, k: Key)
    requires Inv(s) && CanTake(s, a) && Fails(CellOf(s, k), CellOf(Take(s, a), k))
    ensures a.At? && a.key == k
  {
  }

  // Whenever an entry fails while the registry is open, the failure is counted on
  // top of those it still remembers, and the entry is kept for the delay that this
  // count calls for; unless the last waiter gave the start up, which costs
  // nothing.
  lemma FailureDelays(states: seq<State>, actions: seq<Action>, i: nat, k: Key)
    requires IsRun(states, actions) && i < |actions| && WellFormed(states[i].global)
    requires !states[i].global.closing && Fails(CellOf(states[i], k), CellOf(states[i + 1], k))
    ensures actions[i].At? && actions[i].key == k
    ensures var r, c, d := states[i].global, CellOf(states[i], k), CellOf(states[i + 1], k);
            if actions[i].event.DoRelease? then
              d.entry.value.failures == c.entry.value.failures && d.entry.value.retryDeadline <= r.now
            else
              KeptFor(r, d, Saturated(Remembered(r, c, actions[i].event)))
  {
    RunCell(states, actions, i, k);
    RunInv(states, actions, i);
    RunScheduled(states, actions, i, k);
    assert StepAt(states, actions, i);
    OnlyItsKeyFails(states[i], actions[i], k);
    var ev := actions[i].event;
    if ev.DoRelease? {
      GivingUpCostsNothing(states[i].global, CellOf(states[i], k), ev);
    } else {
      StepPays(states[i].global, CellOf(states[i], k), ev);
      PlausibleDelay(states[i], k, ev);
    }
  }

  // ---- Where the idle and start deadlines come from ------------------------------------------

  predicate InPhase(c: Cell, g: Gen, phase: Phase)
  {
    Current(c, g) && c.entry.value.phase == phase
  }

  // The deadline of d's entry is the one it had in c, or lies one timeout ahead of
  // now if the entry has just entered the phase.
  predicate DeadlineStep(r: Global, c: Cell, d: Cell)
  {
    d.entry.Some? ==>
      var e := d.entry.value;
      && (e.phase == Idle ==>
            if InPhase(c, e.gen, Idle) then
              e.idleDeadline == c.entry.value.idleDeadline && e.idleTimeout == c.entry.value.idleTimeout
            else
              e.idleDeadline == r.now + e.idleTimeout)
      && (e.phase == Starting ==>
            if InPhase(c, e.gen, Starting) then
              e.startDeadline == c.entry.value.startDeadline
            else
              e.startDeadline == r.now + r.options.startTimeout)
  }

  lemma JoinDeadlines(r: Global, c: Cell, idleTimeout: nat, l: LeaseId)
    requires WellFormed(r) && !NeedsStart(c)
    ensures DeadlineStep(r, c, Join(r, AddLease(c, idleTimeout, l), l).cell)
  {
  }

  lemma FreshDeadlines(r: Global, c: Cell, idleTimeout: nat, l: LeaseId)
    requires WellFormed(r) && NeedsStart(c)
    ensures DeadlineStep(r, c, Join(r, AddLease(c, idleTimeout, l), l).cell)
  {
  }

  lemma AcquireDeadlines(r: Global, c: Cell, ev: Event)
    requires WellFormed(r) && Enabled(r, c, ev) && ev.DoAcquire?
    ensures DeadlineStep(r, c, CellStep(r, c, ev))
  {
    if NeedsStart(c) {
      FreshDeadlines(r, c, ev.idleTimeout, ev.lease);
    } else {
      JoinDeadlines(r, c, ev.idleTimeout, ev.lease);
    }
  }

  lemma CancelledPhase(r: Global, c: Cell)
    requires WellFormed(r) && c.entry.Some?
    ensures SamePhase(c, CancelUnusedStart(r, c)) || CancelUnusedStart(r, c).entry.value.phase == Failed
  {
  }

  lemma SettledDeadlines(r: Global, c: Cell, d: Cell)
    requires WellFormed(r) && d.entry.Some? && (SamePhase(c, d) || d.entry.value.phase == Failed)
    ensures DeadlineStep(r, c, MaybeIdle(r, d))
  {
  }

  lemma ReleaseDeadlines(r: Global, c: Cell, ev: Event)
    requires WellFormed(r) && Enabled(r, c, ev) && ev.DoRelease?
    ensures DeadlineStep(r, c, CellStep(r, c, ev))
  {
    var d := DropLease(c, ev.lease);
    if d.entry.Some? {
      CancelledPhase(r, d);
      SettledDeadlines(r, c, CancelUnusedStart(r, d));
    }
  }

  lemma ConnectorDeadlines(r: Global, c: Cell, ev: Event)
    requires WellFormed(r) && Enabled(r, c, ev)
    requires ev.DoOpenConnector? || ev.DoCloseConnector?
    ensures DeadlineStep(r, c, CellStep(r, c, ev))
  {
  }

  lemma StartDeadlines(r: Global, c: Cell, ev: Event)
    requires WellFormed(r) && CellOk(r, c) && Enabled(r, c, ev)
    requires ev.DoSpawn? || ev.DoStartReturned? || ev.DoPublish?
    ensures DeadlineStep(r, c, CellStep(r, c, ev))
  {
  }

  lemma SettledPhase(r: Global, c: Cell, wasStarting: bool, reaped: bool, delay: nat)
    requires WellFormed(r) && c.entry.Some?
    ensures var d := SettleStart(r, c, wasStarting, reaped, delay);
            d.entry.Some? ==>
              if r.closing || wasStarting then d.entry.value.phase == Failed || d.entry.value.phase == Cold
              else SamePhase(c, d)
  {
  }

  lemma CompletedPhase(r: Global, c: Cell, g: Gen, reaped: bool, delay: nat)
    requires WellFormed(r)
    ensures var d := CompleteStartFailure(r, c, g, reaped, delay);
            d.entry.Some? ==> SamePhase(c, d) || d.entry.value.phase == Failed || d.entry.value.phase == Cold
  {
    if Current(c, g) && c.entry.value.startPending {
      var e := c.entry.value;
      SettledPhase(r, Put(c, SettledEntry(e, g, reaped)), e.phase == Starting, reaped, delay);
    }
  }

  lemma ReportDeadlines(r: Global, c: Cell, ev: Event)
    requires WellFormed(r) && Enabled(r, c, ev) && ev.DoReportStartFailure?
    ensures DeadlineStep(r, c, CellStep(r, c, ev))
  {
    var reaped := !c.runners[ev.gen].hasInstance || ev.outcome || ev.gen !in c.live;
    CompletedPhase(r, c, ev.gen, reaped, ev.delay);
    assert CellStep(r, c, ev).entry == CompleteStartFailure(r, c, ev.gen, reaped, ev.delay).entry;
  }

  lemma ExitDeadlines(r: Global, c: Cell, ev: Event)
    requires WellFormed(r) && Enabled(r, c, ev)
    requires ev.DoExitObserved? || ev.DoDetachedReaped? || ev.DoProcessExit?
    ensures DeadlineStep(r, c, CellStep(r, c, ev))
  {
    if ev.DoExitObserved? {
      if Serves(c, ev.gen) {
        ServingExitCloses(r, c, ev.gen, ev.delay);
      } else {
        QuietExit(r, c, ev.gen, ev.delay);
      }
      assert CellStep(r, c, ev).entry == GenerationExited(r, c, ev.gen, ev.delay).entry;
    }
  }

  lemma StopDeadlines(r: Global, c: Cell, ev: Event)
    requires WellFormed(r) && CellOk(r, c) && Enabled(r, c, ev) && ev.DoStopFinished?
    ensures DeadlineStep(r, c, CellStep(r, c, ev))
  {
  }

  lemma FireDeadlines(r: Global, c: Cell, ev: Event)
    requires WellFormed(r) && CellOk(r, c) && Enabled(r, c, ev) && ev.DoFire?
    ensures DeadlineStep(r, c, CellStep(r, c, ev))
  {
  }

  lemma StepDeadlines(r: Global, c: Cell, ev: Event)
    requires WellFormed(r) && CellOk(r, c) && Enabled(r, c, ev)
    ensures DeadlineStep(r, c, CellStep(r, c, ev))
  {
    if ev.DoAcquire? {
      AcquireDeadlines(r, c, ev);
    } else if ev.DoRelease? {
      ReleaseDeadlines(r, c, ev);
    } else if ev.DoOpenConnector? || ev.DoCloseConnector? {
      ConnectorDeadlines(r, c, ev);
    } else if ev.DoSpawn? || ev.DoStartReturned? || ev.DoPublish? {
      StartDeadlines(r, c, ev);
    } else if ev.DoReportStartFailure? {
      ReportDeadlines(r, c, ev);
    } else if ev.DoStopFinished? {
      StopDeadlines(r, c, ev);
    } else if ev.DoFire? {
      FireDeadlines(r, c, ev);
    } else {
      ExitDeadlines(r, c, ev);
    }
  }

  lemma ShutDeadlines(r: Global, c: Cell)
    requires CellOk(r, c)
    ensures !r.closing ==> ShutCell(c).entry.Some? ==>
              ShutCell(c).entry.value.phase != Idle && (ShutCell(c).entry.value.phase == Starting ==>
                InPhase(c, ShutCell(c).entry.value.gen, Starting))
    ensures FinalCell(c).entry.Some? ==> FinalCell(c).entry.value.phase == Cold
  {
  }

  // Every step but those of the shutdown.
  lemma TakeDeadlines(s: State, a: Action, k: Key)
    requires Inv(s) && CanTake(s, a) && !Take(s, a).global.closing
    ensures DeadlineStep(Take(s, a).global, CellOf(s, k), CellOf(Take(s, a), k))
  {
    InvAt(s, k);
    if a.At? && a.key == k {
      StepDeadlines(s.global, CellOf(s, k), a.event);
    }
  }

  lemma RunDeadlines(states: seq<State>, actions: seq<Action>, i: nat, k: Key)
    requires IsRun(states, actions) && i < |actions| && !states[i + 1].global.closing
    ensures DeadlineStep(states[i + 1].global, CellOf(states[i], k), CellOf(states[i + 1], k))
    ensures states[i + 1].global.options == states[i].global.options && !states[i].global.closing
  {
    RunInv(states, actions, i);
    assert StepAt(states, actions, i);
    TakeDeadlines(states[i], actions[i], k);
  }

  // The entry of k is in this phase of generation g from state i to state j.
  predicate Stays(states: seq<State>, k: Key, g: Gen, phase: Phase, i: nat, j: nat)
    requires i <= j < |states|
    decreases j
  {
    InPhase(CellOf(states[j], k), g, phase) && (i < j ==> Stays(states, k, g, phase, i, j - 1))
  }

  // An idle generation has been idle since a state b, where it had just become so,
  // and its deadline lies one idle timeout after that moment.
  lemma {:induction false} IdleSince(states: seq<State>, actions: seq<Action>, i: nat, k: Key, g: Gen)
    returns (b: nat)
    requires IsRun(states, actions) && i < |states|
    requires !states[i].global.closing && InPhase(CellOf(states[i], k), g, Idle)
    ensures 1 <= b <= i && Stays(states, k, g, Idle, b, i) && !InPhase(CellOf(states[b - 1], k), g, Idle)
    ensures var e := CellOf(states[i], k).entry.value; e.idleDeadline == states[b].global.now + e.idleTimeout
    decreases i
  {
    assert i > 0;
    RunDeadlines(states, actions, i - 1, k);
    if InPhase(CellOf(states[i - 1], k), g, Idle) {
      b := IdleSince(states, actions, i - 1, k, g);
    } else {
      b := i;
    }
  }

  // A starting generation has been starting since the state b in which its number
  // was consumed, and its deadline lies one start timeout after that moment.
  lemma {:induction false} StartingSince(states: seq<State>, actions: seq<Action>, i: nat, k: Key, g: Gen)
    returns (b: nat)
    requires IsRun(states, actions) && i < |states|
    requires !states[i].global.closing && InPhase(CellOf(states[i], k), g, Starting)
    ensures 1 <= b <= i && Stays(states, k, g, Starting, b, i) && !InPhase(CellOf(states[b - 1], k), g, Starting)
    ensures CellOf(states[i], k).entry.value.startDeadline ==
            states[b].global.now + states[i].global.options.startTimeout
    decreases i
  {
    assert i > 0;
    RunDeadlines(states, actions, i - 1, k);
    if InPhase(CellOf(states[i - 1], k), g, Starting) {
      b := StartingSince(states, actions, i - 1, k, g);
    } else {
      b := i;
    }
  }

  // ---- What the timers wait for ---------------------------------------------------------------

  // An idle generation begins to stop in a step of its key only by the idle timer,
  // at its deadline or later.
  lemma IdleStopStep(r: Global, c: Cell, ev: Event, g: Gen)
    requires WellFormed(r) && CellOk(r, c) && Enabled(r, c, ev) && InPhase(c, g, Idle)
    requires var d := CellStep(r, c, ev); d.entry.Some? && d.entry.value.phase == Stopping
    ensures ev.DoFire? && ev.callback.kind == IdleTimer && c.entry.value.idleDeadline <= r.now
  {
  }

  // A generation that was idle stops, outside shutdown, only after it has been
  // idle for its whole idle timeout.
  lemma IdleStopWaits(states: seq<State>, actions: seq<Action>, i: nat, k: Key, g: Gen) returns (b: nat)
    requires IsRun(states, actions) && i < |actions|
    requires !states[i + 1].global.closing
    requires InPhase(CellOf(states[i], k), g, Idle) && InPhase(CellOf(states[i + 1], k), g, Stopping)
    ensures 1 <= b <= i && Stays(states, k, g, Idle, b, i) && !InPhase(CellOf(states[b - 1], k), g, Idle)
    ensures states[b].global.now + CellOf(states[i], k).entry.value.idleTimeout <= states[i].global.now
  {
    TimePasses(states, actions, i);
    b := IdleSince(states, actions, i, k, g);
    RunCell(states, actions, i, k);
    assert StepAt(states, actions, i);
    var a := actions[i];
    assert a.At? && a.key == k;
    IdleStopStep(states[i].global, CellOf(states[i], k), a.event, g);
  }

  // A starting generation fails by itself, neither given up nor reported, only at
  // its start deadline or later.
  lemma StartFailStep(r: Global, c: Cell, ev: Event, g: Gen)
    requires WellFormed(r) && CellOk(r, c) && Enabled(r, c, ev) && InPhase(c, g, Starting)
    requires !ev.DoRelease? && !ev.DoReportStartFailure?
    requires var d := CellStep(r, c, ev); d.entry.Some? && d.entry.value.phase == Failed
    ensures c.entry.value.startDeadline <= r.now
  {
  }

  lemma StartTimeoutWaits(states: seq<State>, actions: seq<Action>, i: nat, k: Key, g: Gen) returns (b: nat)
    requires IsRun(states, actions) && i < |actions| && !states[i + 1].global.closing
    requires InPhase(CellOf(states[i], k), g, Starting) && InPhase(CellOf(states[i + 1], k), g, Failed)
    requires actions[i].At? ==> !actions[i].event.DoRelease? && !actions[i].event.DoReportStartFailure?
    ensures 1 <= b <= i && Stays(states, k, g, Starting, b, i) && !InPhase(CellOf(states[b - 1], k), g, Starting)
    ensures states[b].global.now + states[i].global.options.startTimeout <= states[i].global.now
  {
    TimePasses(states, actions, i);
    b := StartingSince(states, actions, i, k, g);
    RunCell(states, actions, i, k);
    assert StepAt(states, actions, i);
    var a := actions[i];
    assert a.At? && a.key == k;
    StartFailStep(states[i].global, CellOf(states[i], k), a.event, g);
  }

  // ---- Nobody waits in vain ---------------------------------------------------------------------

  // The lease is still waiting, or its caller has been sent one result: the lease is
  // active, or it is closed and the result says why.
  predicate WaitingOrTold(d: Cell, l: LeaseId)
  {
    && l in d.leases
    && var x := d.leases[l];
       || (x.state == Opening && x.sent == 0)
       || (x.sent == 1 && (x.state == Active || (x.state == Closed && x.err != NoCause)))
  }

  lemma JoinTells(r: Global, c: Cell, idleTimeout: nat, m: LeaseId, l: LeaseId)
    requires WellFormed(r) && m !in c.leases
    requires l in c.leases && c.leases[l].state == Opening && c.leases[l].sent == 0
    ensures WaitingOrTold(Join(r, AddLease(c, idleTimeout, m), m).cell, l)
  {
    var d := AddLease(c, idleTimeout, m);
    assert d.leases[l] == c.leases[l];
  }

  lemma AcquireTells(r: Global, c: Cell, ev: Event, l: LeaseId)
    requires WellFormed(r) && Enabled(r, c, ev) && ev.DoAcquire?
    requires l in c.leases && c.leases[l].state == Opening && c.leases[l].sent == 0
    ensures WaitingOrTold(CellStep(r, c, ev), l)
  {
    JoinTells(r, c, ev.idleTimeout, ev.lease, l);
  }

  lemma ReleaseTells(r: Global, c: Cell, ev: Event, l: LeaseId)
    requires WellFormed(r) && Enabled(r, c, ev) && ev.DoRelease? && ev.lease != l
    requires l in c.leases && c.leases[l].state == Opening && c.leases[l].sent == 0
    ensures WaitingOrTold(CellStep(r, c, ev), l)
  {
    ReleaseOthers(r, c, ev.lease);
  }

  lemma ConnectorTells(r: Global, c: Cell, ev: Event, l: LeaseId)
    requires WellFormed(r) && Enabled(r, c, ev) && (ev.DoOpenConnector? || ev.DoCloseConnector?)
    requires l in c.leases && c.leases[l].state == Opening && c.leases[l].sent == 0
    ensures WaitingOrTold(CellStep(r, c, ev), l)
  {
    assert CellStep(r, c, ev).leases == c.leases;
  }

  lemma ReadyLeases(r: Global, c: Cell, g: Gen)
    requires WellFormed(r) && c.entry.Some?
    ensures MaybeIdle(r, ReadyCell(r, c, g)).leases == ActivateLeases(c.leases, c.entry.value.leases, g)
  {
    assert ReadyCell(r, c, g).leases == ActivateLeases(c.leases, c.entry.value.leases, g);
  }

  lemma TimeoutLeases(r: Global, c: Cell, delay: nat)
    requires WellFormed(r) && c.entry.Some?
    ensures TimeoutStart(r, c, delay).leases == CloseLeases(c.leases, c.entry.value.leases, StartFailed)
  {
  }

  // What a publication does to the leases.
  lemma PublishLeases(r: Global, c: Cell, g: Gen, delay: nat)
    requires WellFormed(r)
    ensures var kept := Publish(r, c, g, delay).leases;
            || kept == c.leases
            || (c.entry.Some? && kept == CloseLeases(c.leases, c.entry.value.leases, StartFailed))
            || (c.entry.Some? && kept == ActivateLeases(c.leases, c.entry.value.leases, g))
  {
    if c.entry.Some? {
      ReadyLeases(r, c, g);
      TimeoutLeases(r, c, delay);
    }
  }

  lemma PublishTells(r: Global, c: Cell, ev: Event, l: LeaseId)
    requires WellFormed(r) && Enabled(r, c, ev) && ev.DoPublish?
    requires l in c.leases && c.leases[l].state == Opening && c.leases[l].sent == 0
    ensures WaitingOrTold(CellStep(r, c, ev), l)
  {
    PublishLeases(r, c, ev.gen, ev.delay);
    assert CellStep(r, c, ev).leases == Publish(r, c, ev.gen, ev.delay).leases;
  }

  lemma LaunchTells(r: Global, c: Cell, ev: Event, l: LeaseId)
    requires WellFormed(r) && Enabled(r, c, ev) && (ev.DoSpawn? || ev.DoStartReturned?)
    requires l in c.leases && c.leases[l].state == Opening && c.leases[l].sent == 0
    ensures WaitingOrTold(CellStep(r, c, ev), l)
  {
  }

  // What a failed start does to the leases.
  lemma CompletedLeases(r: Global, c: Cell, g: Gen, reaped: bool, delay: nat)
    requires WellFormed(r)
    ensures var kept := CompleteStartFailure(r, c, g, reaped, delay).leases;
            || kept == c.leases
            || (c.entry.Some? && kept == CloseLeases(c.leases, c.entry.value.leases, ShuttingDown))
            || (c.entry.Some? && kept == CloseLeases(c.leases, c.entry.value.leases, StartFailed))
  {
  }

  lemma ReportTells(r: Global, c: Cell, ev: Event, l: LeaseId)
    requires WellFormed(r) && Enabled(r, c, ev) && ev.DoReportStartFailure?
    requires l in c.leases && c.leases[l].state == Opening && c.leases[l].sent == 0
    ensures WaitingOrTold(CellStep(r, c, ev), l)
  {
    var reaped := !c.runners[ev.gen].hasInstance || ev.outcome || ev.gen !in c.live;
    CompletedLeases(r, c, ev.gen, reaped, ev.delay);
    assert CellStep(r, c, ev).leases == CompleteStartFailure(r, c, ev.gen, reaped, ev.delay).leases;
  }

  lemma ExitTells(r: Global, c: Cell, ev: Event, l: LeaseId)
    requires WellFormed(r) && Enabled(r, c, ev)
    requires ev.DoExitObserved? || ev.DoDetachedReaped? || ev.DoProcessExit?
    requires l in c.leases && c.leases[l].state == Opening && c.leases[l].sent == 0
    ensures WaitingOrTold(CellStep(r, c, ev), l)
  {
  }

  // The leases of a cell whose generation has been reaped.
  lemma ReapedLeases(r: Global, c: Cell, delay: nat)
    requires WellFormed(r) && c.entry.Some?
    ensures var all, ids, kept := c.leases, c.entry.value.leases, Reaped(r, c, delay).leases;
            || kept == all
            || kept == CloseLeases(all, ids, ShuttingDown)
            || kept == CloseLeases(all, ids, Exhausted)
            || kept == AssignLeases(all, ids, r.nextGeneration + 1)
  {
  }

  lemma UnreapedLeases(r: Global, c: Cell, delay: nat)
    requires WellFormed(r) && c.entry.Some?
    ensures Fail(r, Invalidate(c, Unavailable), delay).leases ==
            CloseLeases(c.leases, c.entry.value.leases, Unavailable)
  {
  }

  lemma StopLeases(r: Global, c: Cell, g: Gen, outcome: bool, delay: nat)
    requires WellFormed(r)
    ensures var kept := CompleteStop(r, c, g, outcome, delay).leases;
            || kept == c.leases
            || (c.entry.Some? && kept == CloseLeases(c.leases, c.entry.value.leases, Unavailable))
            || (c.entry.Some? && kept == Reaped(r, c, delay).leases)
  {
    if c.entry.Some? {
      UnreapedLeases(r, c, delay);
    }
  }

  lemma StopTells(r: Global, c: Cell, ev: Event, l: LeaseId)
    requires WellFormed(r) && Enabled(r, c, ev) && ev.DoStopFinished?
    requires l in c.leases && c.leases[l].state == Opening && c.leases[l].sent == 0
    ensures WaitingOrTold(CellStep(r, c, ev), l)
  {
    StopLeases(r, c, ev.gen, ev.outcome, ev.delay);
    if c.entry.Some? {
      ReapedLeases(r, c, ev.delay);
    }
    assert CellStep(r, c, ev).leases == CompleteStop(r, c, ev.gen, ev.outcome, ev.delay).leases;
  }

  lemma FireTells(r: Global, c: Cell, ev: Event, l: LeaseId)
    requires WellFormed(r) && Enabled(r, c, ev) && ev.DoFire?
    requires l in c.leases && c.leases[l].state == Opening && c.leases[l].sent == 0
    ensures WaitingOrTold(CellStep(r, c, ev), l)
  {
  }

  lemma ShutTellsWaiter(c: Cell, l: LeaseId)
    requires l in c.leases && c.leases[l].state == Opening && c.leases[l].sent == 0
    ensures WaitingOrTold(ShutCell(c), l) && WaitingOrTold(FinalCell(c), l)
  {
  }

  lemma StepTells(r: Global, c: Cell, ev: Event, l: LeaseId)
    requires WellFormed(r) && Enabled(r, c, ev) && ev != DoRelease(l)
    requires l in c.leases && c.leases[l].state == Opening && c.leases[l].sent == 0
    ensures WaitingOrTold(CellStep(r, c, ev), l)
  {
    if ev.DoAcquire? {
      AcquireTells(r, c, ev, l);
    } else if ev.DoRelease? {
      ReleaseTells(r, c, ev, l);
    } else if ev.DoOpenConnector? || ev.DoCloseConnector? {
      ConnectorTells(r, c, ev, l);
    } else if ev.DoReportStartFailure? {
      ReportTells(r, c, ev, l);
    } else if ev.DoStopFinished? {
      StopTells(r, c, ev, l);
    } else if ev.DoFire? {
      FireTells(r, c, ev, l);
    } else if ev.DoExitObserved? || ev.DoDetachedReaped? || ev.DoProcessExit? {
      ExitTells(r, c, ev, l);
    } else if ev.DoPublish? {
      PublishTells(r, c, ev, l);
    } else {
      LaunchTells(r, c, ev, l);
    }
  }

  // A waiting lease stops waiting in two ways only: its caller releases it, or its
  // caller is sent the result.
  lemma NobodyWaitsInVain(states: seq<State>, actions: seq<Action>, i: nat, k: Key, l: LeaseId)
    requires IsRun(states, actions) && i < |actions| && actions[i] != At(k, DoRelease(l))
    requires l in CellOf(states[i], k).leases && CellOf(states[i], k).leases[l].state == Opening
    ensures WaitingOrTold(CellOf(states[i + 1], k), l)
  {
    RunCell(states, actions, i, k);
    assert StepAt(states, actions, i);
    var c := CellOf(states[i], k);
    assert LeaseOk(c, l, c.leases[l]);
    var a := actions[i];
    if a.At? && a.key == k {
      StepTells(states[i].global, c, a.event, l);
    } else {
      ShutTellsWaiter(c, l);
    }
  }
}
