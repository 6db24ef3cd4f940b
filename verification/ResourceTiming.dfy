// When the resource registry acts, over whole runs: no start before a backoff has
// passed, no idle stop before the idle timeout has, a start deadline as long as the
// start timeout, a delay that grows with the failures, and an answer for everybody
// who waits.

module ResourceTiming {
  import opened Backoff
  import opened ResourceModel
  import opened ResourceInvariant
  import opened ResourceRuns
  import opened ResourceEffects

  // ---- The schedule of an entry ----------------------------------------------------------

  // A starting entry is not backing off, and a failed one is kept for the
  // retention after its retry deadline, unless it was given up without a failure.
  predicate Scheduled(r: Global, c: Cell)
  {
    c.entry.Some? && !r.closing ==>
      && (c.entry.value.phase == Starting ==> c.entry.value.retryDeadline == 0)
      && (c.entry.value.phase == Failed ==>
            || c.entry.value.failureDeadline == c.entry.value.retryDeadline + r.options.failureRetention
            || (c.entry.value.failureDeadline == 0 && c.entry.value.retryDeadline == 0))
  }

  lemma AcquireScheduled(r: Global, c: Cell, ev: Event)
    requires WellFormed(r) && CellOk(r, c) && Enabled(r, c, ev) && Scheduled(r, c) && ev.DoAcquire?
    ensures Scheduled(r, CellStep(r, c, ev))
  {
  }

  lemma CallerScheduled(r: Global, c: Cell, ev: Event)
    requires WellFormed(r) && CellOk(r, c) && Enabled(r, c, ev) && Scheduled(r, c)
    requires ev.DoRelease? || ev.DoOpenConnector? || ev.DoCloseConnector?
    ensures Scheduled(r, CellStep(r, c, ev))
  {
  }

  lemma StartScheduled(r: Global, c: Cell, ev: Event)
    requires WellFormed(r) && CellOk(r, c) && Enabled(r, c, ev) && Scheduled(r, c)
    requires ev.DoSpawn? || ev.DoStartReturned? || ev.DoPublish?
    ensures Scheduled(r, CellStep(r, c, ev))
  {
  }

  lemma ReportScheduled(r: Global, c: Cell, ev: Event)
    requires WellFormed(r) && CellOk(r, c) && Enabled(r, c, ev) && Scheduled(r, c)
    requires ev.DoReportStartFailure?
    ensures Scheduled(r, CellStep(r, c, ev))
  {
  }

  lemma ExitScheduled(r: Global, c: Cell, ev: Event)
    requires WellFormed(r) && CellOk(r, c) && Enabled(r, c, ev) && Scheduled(r, c)
    requires ev.DoExitObserved? || ev.DoDetachedReaped? || ev.DoProcessExit?
    ensures Scheduled(r, CellStep(r, c, ev))
  {
  }

  lemma StopScheduled(r: Global, c: Cell, ev: Event)
    requires WellFormed(r) && CellOk(r, c) && Enabled(r, c, ev) && Scheduled(r, c) && ev.DoStopFinished?
    ensures Scheduled(r, CellStep(r, c, ev))
  {
  }

  lemma FireScheduled(r: Global, c: Cell, ev: Event)
    requires WellFormed(r) && CellOk(r, c) && Enabled(r, c, ev) && Scheduled(r, c) && ev.DoFire?
    ensures Scheduled(r, CellStep(r, c, ev))
  {
  }

  lemma StepScheduled(r: Global, c: Cell, ev: Event)
    requires WellFormed(r) && CellOk(r, c) && Enabled(r, c, ev) && Scheduled(r, c)
    ensures Scheduled(r, CellStep(r, c, ev))
  {
    if ev.DoAcquire? {
      AcquireScheduled(r, c, ev);
    } else if ev.DoRelease? || ev.DoOpenConnector? || ev.DoCloseConnector? {
      CallerScheduled(r, c, ev);
    } else if ev.DoSpawn? || ev.DoStartReturned? || ev.DoPublish? {
      StartScheduled(r, c, ev);
    } else if ev.DoReportStartFailure? {
      ReportScheduled(r, c, ev);
    } else if ev.DoStopFinished? {
      StopScheduled(r, c, ev);
    } else if ev.DoFire? {
      FireScheduled(r, c, ev);
    } else {
      ExitScheduled(r, c, ev);
    }
  }

  lemma {:induction false} RunScheduled(states: seq<State>, actions: seq<Action>, i: nat, k: Key)
    requires IsRun(states, actions) && i < |states|
    ensures Scheduled(states[i].global, CellOf(states[i], k))
  {
    if i > 0 {
      RunScheduled(states, actions, i - 1, k);
      RunCell(states, actions, i - 1, k);
      assert StepAt(states, actions, i - 1);
      var a := actions[i - 1];
      if a.At? && a.key == k {
        StepScheduled(states[i - 1].global, CellOf(states[i - 1], k), a.event);
      }
    }
  }

  // ---- Backoff ----------------------------------------------------------------------------

  // d has no lease and no goroutine that c does not have.
  predicate NothingNew(c: Cell, d: Cell)
  {
    d.leases.Keys == c.leases.Keys && d.runners.Keys <= c.runners.Keys
  }

  // The entry of c is still there, failed, with the same generation and deadlines.
  predicate StillFailed(c: Cell, d: Cell)
  {
    && c.entry.Some? && d.entry.Some? && d.entry.value.phase == Failed && c.entry.value.phase == Failed
    && d.entry.value.gen == c.entry.value.gen
    && d.entry.value.retryDeadline == c.entry.value.retryDeadline
    && d.entry.value.failureDeadline == c.entry.value.failureDeadline
  }

  lemma BackoffCallers(r: Global, c: Cell, ev: Event)
    requires WellFormed(r) && CellOk(r, c) && Enabled(r, c, ev) && Scheduled(r, c) && !r.closing && BackingOff(r, c)
    requires ev.DoAcquire? || ev.DoRelease? || ev.DoOpenConnector? || ev.DoCloseConnector?
    ensures var d := CellStep(r, c, ev); NothingNew(c, d) && StillFailed(c, d) && !Starts(r, c, ev)
  {
  }

  lemma BackoffWorkers(r: Global, c: Cell, ev: Event)
    requires WellFormed(r) && CellOk(r, c) && Enabled(r, c, ev) && Scheduled(r, c) && !r.closing && BackingOff(r, c)
    requires !(ev.DoAcquire? || ev.DoRelease? || ev.DoOpenConnector? || ev.DoCloseConnector? || ev.DoFire?)
    ensures var d := CellStep(r, c, ev); NothingNew(c, d) && StillFailed(c, d) && !Starts(r, c, ev)
  {
  }

  lemma BackoffTimers(r: Global, c: Cell, ev: Event)
    requires WellFormed(r) && CellOk(r, c) && Enabled(r, c, ev) && Scheduled(r, c) && !r.closing && BackingOff(r, c)
    requires ev.DoFire?
    ensures var d := CellStep(r, c, ev); NothingNew(c, d) && StillFailed(c, d) && !Starts(r, c, ev)
  {
  }

  lemma ClosingCallers(r: Global, c: Cell, ev: Event)
    requires WellFormed(r) && CellOk(r, c) && Enabled(r, c, ev) && r.closing
    requires ev.DoAcquire? || ev.DoRelease? || ev.DoOpenConnector? || ev.DoCloseConnector? || ev.DoFire?
    ensures NothingNew(c, CellStep(r, c, ev)) && !Starts(r, c, ev)
  {
  }

  lemma ClosingReport(r: Global, c: Cell, ev: Event)
    requires WellFormed(r) && CellOk(r, c) && Enabled(r, c, ev) && r.closing && ev.DoReportStartFailure?
    ensures NothingNew(c, CellStep(r, c, ev)) && !Starts(r, c, ev)
  {
  }

  lemma ClosingReaped(r: Global, c: Cell, delay: nat)
    requires WellFormed(r) && r.closing && c.entry.Some?
    ensures NothingNew(c, Reaped(r, c, delay)) && NothingNew(c, Fail(r, Invalidate(c, Unavailable), delay))
  {
  }

  lemma ClosingStop(r: Global, c: Cell, ev: Event)
    requires WellFormed(r) && Enabled(r, c, ev) && r.closing && ev.DoStopFinished?
    ensures NothingNew(c, CellStep(r, c, ev)) && !Starts(r, c, ev)
  {
    if c.entry.Some? {
      ClosingReaped(r, c, ev.delay);
    }
  }

  lemma ClosingWorkers(r: Global, c: Cell, ev: Event)
    requires WellFormed(r) && CellOk(r, c) && Enabled(r, c, ev) && r.closing
    requires !(ev.DoAcquire? || ev.DoRelease? || ev.DoOpenConnector? || ev.DoCloseConnector? || ev.DoFire?)
    requires !ev.DoReportStartFailure? && !ev.DoStopFinished?
    ensures NothingNew(c, CellStep(r, c, ev)) && !Starts(r, c, ev)
  {
  }

  lemma ClosingStep(r: Global, c: Cell, ev: Event)
    requires WellFormed(r) && CellOk(r, c) && Enabled(r, c, ev) && r.closing
    ensures NothingNew(c, CellStep(r, c, ev)) && !Starts(r, c, ev)
  {
    if ev.DoAcquire? || ev.DoRelease? || ev.DoOpenConnector? || ev.DoCloseConnector? || ev.DoFire? {
      ClosingCallers(r, c, ev);
    } else if ev.DoReportStartFailure? {
      ClosingReport(r, c, ev);
    } else if ev.DoStopFinished? {
      ClosingStop(r, c, ev);
    } else {
      ClosingWorkers(r, c, ev);
    }
  }

  lemma BackoffStep(r: Global, c: Cell, ev: Event)
    requires WellFormed(r) && CellOk(r, c) && Enabled(r, c, ev) && Scheduled(r, c) && !r.closing && BackingOff(r, c)
    ensures var d := CellStep(r, c, ev); NothingNew(c, d) && StillFailed(c, d) && !Starts(r, c, ev)
  {
    if ev.DoAcquire? || ev.DoRelease? || ev.DoOpenConnector? || ev.DoCloseConnector? {
      BackoffCallers(r, c, ev);
    } else if ev.DoFire? {
      BackoffTimers(r, c, ev);
    } else {
      BackoffWorkers(r, c, ev);
    }
  }

  // What a run keeps of a key that is backing off.
  predicate Waits(s: State, t: State, k: Key)
  {
    && NothingNew(CellOf(s, k), CellOf(t, k))
    && (t.global.closing || StillFailed(CellOf(s, k), CellOf(t, k)))
  }

  lemma WaitAt(s: State, k: Key, ev: Event)
    requires Inv(s) && CanTake(s, At(k, ev)) && Scheduled(s.global, CellOf(s, k))
    requires s.global.closing || BackingOff(s.global, CellOf(s, k))
    ensures Waits(s, Take(s, At(k, ev)), k) && Take(s, At(k, ev)).global == s.global
  {
    InvAt(s, k);
    if s.global.closing {
      ClosingStep(s.global, CellOf(s, k), ev);
    } else {
      BackoffStep(s.global, CellOf(s, k), ev);
    }
  }

  lemma ShutNothingNew(c: Cell)
    ensures NothingNew(c, ShutCell(c)) && NothingNew(c, FinalCell(c))
  {
  }

  lemma WaitStep(s: State, a: Action, k: Key)
    requires Inv(s) && CanTake(s, a) && Scheduled(s.global, CellOf(s, k))
    requires s.global.closing || BackingOff(s.global, CellOf(s, k))
    ensures Waits(s, Take(s, a), k)
    ensures a.At? && a.key == k ==> Take(s, a).global == s.global
    ensures s.global.now <= Take(s, a).global.now && (s.global.closing ==> Take(s, a).global.closing)
  {
    if a.At? && a.key == k {
      WaitAt(s, k, a.event);
    } else {
      ShutNothingNew(CellOf(s, k));
    }
  }

  // The run is at state j and the retry deadline that the entry of k had at state
  // i lies ahead.
  predicate StillAhead(states: seq<State>, i: nat, j: nat, k: Key)
  {
    && i <= j < |states| && BackingOff(states[i].global, CellOf(states[i], k))
    && states[j].global.now < CellOf(states[i], k).entry.value.retryDeadline
  }

  lemma WaitRunStep(states: seq<State>, actions: seq<Action>, j: nat, k: Key)
    requires IsRun(states, actions) && j < |actions|
    requires states[j].global.closing || BackingOff(states[j].global, CellOf(states[j], k))
    ensures Waits(states[j], states[j + 1], k)
    ensures actions[j].At? && actions[j].key == k ==> states[j + 1].global == states[j].global
    ensures states[j].global.now <= states[j + 1].global.now
    ensures states[j].global.closing ==> states[j + 1].global.closing
  {
    RunInv(states, actions, j);
    RunScheduled(states, actions, j, k);
    assert StepAt(states, actions, j);
    WaitStep(states[j], actions[j], k);
  }

  lemma TimePasses(states: seq<State>, actions: seq<Action>, i: nat)
    requires IsRun(states, actions) && i < |actions|
    ensures states[i].global.now <= states[i + 1].global.now
    ensures states[i + 1].global.options == states[i].global.options
    ensures states[i].global.closing ==> states[i + 1].global.closing
  {
    assert StepAt(states, actions, i);
  }

  // As long as the retry deadline of a failed entry lies ahead, its key keeps the
  // failed entry, unless the registry begins to close, and gets no new lease and no
  // goroutine for a new generation.
  lemma {:induction false} NoStartDuringBackoff(states: seq<State>, actions: seq<Action>, i: nat, j: nat, k: Key)
    requires IsRun(states, actions) && StillAhead(states, i, j, k)
    ensures Waits(states[i], states[j], k)
    decreases j
  {
    if i < j {
      TimePasses(states, actions, j - 1);
      NoStartDuringBackoff(states, actions, i, j - 1, k);
      WaitRunStep(states, actions, j - 1, k);
    }
  }

  // Nor does it consume a generation number or change anything else that keys share.
  lemma BackoffConsumesNothing(states: seq<State>, actions: seq<Action>, i: nat, j: nat, k: Key)
    requires IsRun(states, actions) && StillAhead(states, i, j, k) && j < |actions|
    requires actions[j].At? && actions[j].key == k
    ensures states[j + 1].global == states[j].global
    ensures Waits(states[i], states[j + 1], k)
  {
    NoStartDuringBackoff(states, actions, i, j, k);
    WaitRunStep(states, actions, j, k);
  }
}
