// How long a failed resource is kept from starting again.

module ResourceRetry {
  import opened Backoff
  import opened ResourceModel
  import opened ResourceInvariant
  import opened ResourceRuns

  // No entry waits longer than the maximum backoff from now.
  predicate RetryOk(r: Global, c: Cell)
  {
    c.entry.Some? ==> c.entry.value.retryDeadline <= r.now + r.options.backoffMaximum
  }

  // How a step may leave the retry deadline of an entry that was there before.
  predicate RetryStep(r: Global, c: Cell, d: Cell)
  {
    d.entry.Some? ==>
      && (d.entry.value.retryDeadline <= r.now + r.options.backoffMaximum ||
          (c.entry.Some? && d.entry.value.retryDeadline == c.entry.value.retryDeadline))
      && (c.entry.Some? && c.entry.value.phase == Failed && d.entry.value.phase == Failed &&
          d.entry.value.gen == c.entry.value.gen ==>
            d.entry.value.retryDeadline == c.entry.value.retryDeadline)
  }

  predicate Bounded(r: Global, ev: Event)
  {
    (ev.DoPublish? || ev.DoReportStartFailure? || ev.DoExitObserved? || ev.DoStopFinished? || ev.DoFire?) ==>
      ev.delay <= r.options.backoffMaximum
  }

  lemma RefuseRetry(c: Cell, l: LeaseId)
    requires c.entry.Some? && l in c.leases
    ensures var d := RefuseLease(c, l);
            d.entry.Some? ==>
              && d.entry.value.retryDeadline == c.entry.value.retryDeadline
              && d.entry.value.phase == c.entry.value.phase && d.entry.value.gen == c.entry.value.gen
  {
  }

  lemma JoinRetry(r: Global, c: Cell, l: LeaseId)
    requires WellFormed(r) && c.entry.Some? && l in c.leases
    ensures RetryStep(r, c, Join(r, c, l).cell)
  {
    RefuseRetry(c, l);
  }

  lemma AddRetry(c: Cell, idleTimeout: nat, l: LeaseId)
    ensures var e := AddLease(c, idleTimeout, l).entry.value;
            if c.entry.None? then e.retryDeadline == 0
            else e.retryDeadline == c.entry.value.retryDeadline && e.gen == c.entry.value.gen &&
                 (c.entry.value.phase == Failed ==> e.phase == Failed)
  {
  }

  lemma RetryCompose(r: Global, c: Cell, d: Cell, e: Cell)
    requires WellFormed(r) && d.entry.Some? && RetryStep(r, d, e)
    requires if c.entry.None? then d.entry.value.retryDeadline == 0
             else d.entry.value.retryDeadline == c.entry.value.retryDeadline &&
                  d.entry.value.gen == c.entry.value.gen &&
                  (c.entry.value.phase == Failed ==> d.entry.value.phase == Failed)
    ensures RetryStep(r, c, e)
  {
  }

  lemma AcquireRetry(r: Global, c: Cell, ev: Event)
    requires WellFormed(r) && Enabled(r, c, ev) && ev.DoAcquire?
    ensures RetryStep(r, c, CellStep(r, c, ev))
  {
    var d := AddLease(c, ev.idleTimeout, ev.lease);
    AddRetry(c, ev.idleTimeout, ev.lease);
    JoinRetry(r, d, ev.lease);
    RetryCompose(r, c, d, Join(r, d, ev.lease).cell);
  }

  lemma ReleaseRetry(r: Global, c: Cell, ev: Event)
    requires WellFormed(r) && Enabled(r, c, ev) && ev.DoRelease?
    ensures RetryStep(r, c, CellStep(r, c, ev))
  {
  }

  lemma ConnectorRetry(r: Global, c: Cell, ev: Event)
    requires WellFormed(r) && Enabled(r, c, ev) && (ev.DoOpenConnector? || ev.DoCloseConnector?)
    ensures RetryStep(r, c, CellStep(r, c, ev))
  {
  }

  lemma PublishRetry(r: Global, c: Cell, ev: Event)
    requires WellFormed(r) && Enabled(r, c, ev) && Bounded(r, ev) && ev.DoPublish?
    ensures c.entry.Some? ==> RetryStep(r, c, CellStep(r, c, ev))
  {
  }

  lemma ReportRetry(r: Global, c: Cell, ev: Event)
    requires WellFormed(r) && Enabled(r, c, ev) && Bounded(r, ev) && ev.DoReportStartFailure?
    ensures c.entry.Some? ==> RetryStep(r, c, CellStep(r, c, ev))
  {
  }

  lemma ServingExitRetry(r: Global, c: Cell, g: Gen, delay: nat)
    requires WellFormed(r) && c.entry.Some? && delay <= r.options.backoffMaximum
    requires Current(c, g) && (c.entry.value.phase == Ready || c.entry.value.phase == Idle)
    ensures RetryStep(r, c, ExitObserved(r, c, g, delay))
  {
  }

  lemma ExitRetry(r: Global, c: Cell, ev: Event)
    requires WellFormed(r) && Enabled(r, c, ev) && Bounded(r, ev) && ev.DoExitObserved?
    ensures c.entry.Some? ==> RetryStep(r, c, CellStep(r, c, ev))
  {
    if Current(c, ev.gen) && (c.entry.value.phase == Ready || c.entry.value.phase == Idle) {
      ServingExitRetry(r, c, ev.gen, ev.delay);
    }
  }

  lemma GiveUpRetry(r: Global, c: Cell, delay: nat)
    requires WellFormed(r) && c.entry.Some? && delay <= r.options.backoffMaximum && c.entry.value.phase == Stopping
    ensures RetryStep(r, c, Fail(r, Invalidate(c, Unavailable), delay))
  {
  }

  lemma ReapedRetry(r: Global, c: Cell, delay: nat)
    requires WellFormed(r) && c.entry.Some? && delay <= r.options.backoffMaximum && c.entry.value.phase == Stopping
    ensures RetryStep(r, c, Reaped(r, c, delay))
  {
  }

  lemma StopRetry(r: Global, c: Cell, ev: Event)
    requires WellFormed(r) && Enabled(r, c, ev) && Bounded(r, ev) && ev.DoStopFinished?
    ensures c.entry.Some? ==> RetryStep(r, c, CellStep(r, c, ev))
  {
    if Current(c, ev.gen) && c.entry.value.phase == Stopping {
      GiveUpRetry(r, c, ev.delay);
      ReapedRetry(r, c, ev.delay);
    }
  }

  lemma TimeoutRetry(r: Global, c: Cell, g: Gen, at: Time, delay: nat)
    requires WellFormed(r) && delay <= r.options.backoffMaximum && c.entry.Some?
    ensures RetryStep(r, c, ExpireStart(r, c, g, at, delay))
  {
  }

  lemma OtherTimersRetry(r: Global, c: Cell, cb: Callback, delay: nat)
    requires WellFormed(r) && c.entry.Some? && cb.kind != StartTimer
    ensures RetryStep(r, c, RunCallback(r, c, cb, delay))
  {
  }

  lemma FiredRetry(r: Global, c: Cell, cb: Callback, d: Cell)
    requires RetryStep(r, c.(timers := c.timers - multiset{cb}), d)
    ensures RetryStep(r, c, d)
  {
  }

  lemma FireRetry(r: Global, c: Cell, ev: Event)
    requires WellFormed(r) && Enabled(r, c, ev) && Bounded(r, ev) && ev.DoFire?
    ensures c.entry.Some? ==> RetryStep(r, c, CellStep(r, c, ev))
  {
    if c.entry.Some? {
      var fired := c.(timers := c.timers - multiset{ev.callback});
      if ev.callback.kind == StartTimer {
        TimeoutRetry(r, fired, ev.callback.gen, ev.callback.at, ev.delay);
      } else {
        OtherTimersRetry(r, fired, ev.callback, ev.delay);
      }
      FiredRetry(r, c, ev.callback, CellStep(r, c, ev));
    }
  }

  // A cell without an entry gets one from an acquire only.
  lemma NoEntryStays(r: Global, c: Cell, ev: Event)
    requires WellFormed(r) && Enabled(r, c, ev) && c.entry.None? && !ev.DoAcquire?
    ensures CellStep(r, c, ev).entry.None?
  {
  }

  lemma CellRetry(r: Global, c: Cell, ev: Event)
    requires WellFormed(r) && Enabled(r, c, ev) && (c.entry.Some? ==> Bounded(r, ev))
    ensures RetryStep(r, c, CellStep(r, c, ev))
  {
    if ev.DoAcquire? {
      AcquireRetry(r, c, ev);
    } else if ev.DoRelease? {
      ReleaseRetry(r, c, ev);
    } else if ev.DoOpenConnector? || ev.DoCloseConnector? {
      ConnectorRetry(r, c, ev);
    } else if c.entry.None? {
      NoEntryStays(r, c, ev);
    } else if ev.DoPublish? {
      PublishRetry(r, c, ev);
    } else if ev.DoReportStartFailure? {
      ReportRetry(r, c, ev);
    } else if ev.DoExitObserved? {
      ExitRetry(r, c, ev);
    } else if ev.DoStopFinished? {
      StopRetry(r, c, ev);
    } else if ev.DoFire? {
      FireRetry(r, c, ev);
    }
  }

  lemma PlausibleIsBounded(s: State, k: Key, ev: Event)
    requires WellFormed(s.global) && Plausible(s, At(k, ev)) && CellOf(s, k).entry.Some?
    ensures Bounded(s.global, ev)
  {
  }

  lemma ShutRetry(r: Global, c: Cell)
    requires WellFormed(r)
    ensures RetryStep(r, c, ShutCell(c)) && RetryStep(r, c, FinalCell(c))
  {
  }

  lemma TakeRetry(s: State, a: Action, k: Key)
    requires Inv(s) && CanTake(s, a) && Plausible(s, a)
    ensures RetryStep(s.global, CellOf(s, k), CellOf(Take(s, a), k))
  {
    if a.At? {
      if a.key == k {
        if CellOf(s, k).entry.Some? {
          PlausibleIsBounded(s, k, a.event);
        }
        CellRetry(s.global, CellOf(s, k), a.event);
      }
    } else if !a.Tick? {
      ShutRetry(s.global, CellOf(s, k));
    }
  }

  // Time moves on and options never change.
  lemma TakeGlobal(s: State, a: Action)
    requires Inv(s) && CanTake(s, a)
    ensures s.global.now <= Take(s, a).global.now && Take(s, a).global.options == s.global.options
  {
  }

  lemma RunRetry(states: seq<State>, actions: seq<Action>, i: nat, k: Key)
    requires IsRun(states, actions) && i < |actions|
    ensures RetryStep(states[i].global, CellOf(states[i], k), CellOf(states[i + 1], k))
    ensures states[i].global.now <= states[i + 1].global.now
    ensures states[i + 1].global.options == states[i].global.options
  {
    RunInv(states, actions, i);
    assert StepAt(states, actions, i);
    TakeRetry(states[i], actions[i], k);
    TakeGlobal(states[i], actions[i]);
  }

  // At every moment of every run no entry is kept from starting for longer than
  // the maximum backoff from that moment.
  lemma {:induction false} RetryWithinMaximum(states: seq<State>, actions: seq<Action>, i: nat, k: Key)
    requires IsRun(states, actions) && i < |states|
    ensures RetryOk(states[i].global, CellOf(states[i], k))
  {
    if i > 0 {
      RetryWithinMaximum(states, actions, i - 1, k);
      RunRetry(states, actions, i - 1, k);
    }
  }

  // The entry of k is failed in generation g from state i to state j.
  predicate StaysFailed(states: seq<State>, k: Key, g: Gen, i: nat, j: nat)
    requires i <= j < |states|
    decreases j
  {
    && CellOf(states[j], k).entry.Some? && CellOf(states[j], k).entry.value.phase == Failed
    && CellOf(states[j], k).entry.value.gen == g
    && (i < j ==> StaysFailed(states, k, g, i, j - 1))
  }

  // A failure fixes the retry deadline: as long as the entry stays failed it does
  // not move, so it is at most the maximum backoff past the failure.
  lemma {:induction false} FailureFixesDeadline(
    states: seq<State>, actions: seq<Action>, i: nat, j: nat, k: Key, g: Gen)
    requires IsRun(states, actions) && i <= j < |states| && StaysFailed(states, k, g, i, j)
    ensures CellOf(states[i], k).entry.Some?
    ensures CellOf(states[j], k).entry.value.retryDeadline == CellOf(states[i], k).entry.value.retryDeadline
    ensures CellOf(states[j], k).entry.value.retryDeadline <=
            states[i].global.now + states[i].global.options.backoffMaximum
  {
    if i == j {
      RetryWithinMaximum(states, actions, i, k);
    } else {
      FailureFixesDeadline(states, actions, i, j - 1, k, g);
      RunRetry(states, actions, j - 1, k);
    }
  }
}
