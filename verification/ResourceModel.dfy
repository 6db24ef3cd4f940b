// State and atomic steps of the resource lifecycle registry
// (internal/agent/resource).
//
// Every mutex-held block of the program is one step. Goroutines are outstanding
// workers and timer callbacks are pending callbacks; either may take its next
// step at any later moment, carrying the generation and deadline it captured.
// Leases, connectors, goroutines and callbacks all carry the key they were made
// for, so the state keeps them beside the entry of that key; a step on one key
// reads and writes the cell of that key and the registry-wide fields only.

module ResourceModel {
  import opened Backoff

  type Key = nat
  type Gen = nat
  type LeaseId = nat
  type ConnectorId = nat

  // Instants are positive; 0 stands for the zero time.Time.
  type Time = nat

  const MAX_UINT64: nat := 0xFFFF_FFFF_FFFF_FFFF

  datatype Option<T> = None | Some(value: T)

  datatype Phase = Cold | Starting | Ready | Idle | Stopping | Failed

  datatype LeaseState = Opening | Active | Releasing | Closed

  datatype Cause =
    | NoCause
    | ShuttingDown
    | Unavailable
    | Exited
    | StartFailed
    | Exhausted

  // sent counts the results put into the one-slot ready channel and closes
  // counts close(done).
  datatype Lease = Lease(
    state: LeaseState,
    gen: Gen,
    sent: nat,
    closes: nat,
    err: Cause)

  datatype Connector = Connector(
    gen: Gen,
    closed: bool,
    closes: nat,
    err: Cause)

  datatype Entry = Entry(
    gen: Gen,
    phase: Phase,
    instance: Option<Gen>,
    reaped: bool,
    startPending: bool,
    leases: set<LeaseId>,
    connectors: set<ConnectorId>,
    startCancel: bool,
    startTimer: bool,
    idleTimer: bool,
    stableTimer: bool,
    failureTimer: bool,
    startDeadline: Time,
    readyAt: Time,
    idleDeadline: Time,
    retryDeadline: Time,
    failureDeadline: Time,
    idleTimeout: nat,
    failures: nat)

  datatype TimerKind = StartTimer | IdleTimer | StableTimer | FailureTimer

  datatype Callback = Callback(kind: TimerKind, gen: Gen, at: Time)

  // Where the goroutine that owns a generation stands: inside the factory,
  // about to publish, cleaning up a failed start (with or without a process),
  // waiting for the exit of a process it could not reap, reaping a process
  // nobody asked for any more, or watching a published process.
  datatype RunnerPhase =
    | Launching
    | Publishing
    | Cleaning(hasInstance: bool)
    | Awaiting
    | Detached
    | Watching

  // What the registry holds for one key. runners are the goroutines that own a
  // generation, stoppers those terminating one, and live holds the generations
  // whose process is started and not yet reaped.
  datatype Cell = Cell(
    entry: Option<Entry>,
    leases: map<LeaseId, Lease>,
    connectors: map<ConnectorId, Connector>,
    runners: map<Gen, RunnerPhase>,
    stoppers: set<Gen>,
    live: set<Gen>,
    timers: multiset<Callback>)

  const EMPTY_CELL := Cell(None, map[], map[], map[], {}, {}, multiset{})

  // The registry-wide fields.
  datatype Global = Global(
    options: Options,
    now: Time,
    nextGeneration: Gen,
    closing: bool,
    shutdownDone: bool)

  datatype State = State(global: Global, cells: map<Key, Cell>)

  function CellOf(s: State, k: Key): Cell
  {
    if k in s.cells then s.cells[k] else EMPTY_CELL
  }

  predicate WellFormed(r: Global)
  {
    Usable(r.options) && 0 < r.now && r.nextGeneration <= MAX_UINT64
  }

  function Initial(options: Options, now: Time): State
  {
    State(Global(options, now, 0, false, false), map[])
  }

  function FreshEntry(idleTimeout: nat): Entry
  {
    Entry(0, Cold, None, false, false, {}, {}, false, false, false, false, false, 0, 0, 0, 0, 0, idleTimeout, 0)
  }

  function Put(c: Cell, e: Entry): Cell
  {
    c.(entry := Some(e))
  }

  function Arm(c: Cell, cb: Callback): Cell
  {
    c.(timers := c.timers + multiset{cb})
  }

  // ---- Helpers on one entry -------------------------------------------------

  function CancelStart(e: Entry): Entry
  {
    e.(startTimer := false, startCancel := false, startDeadline := 0)
  }

  function CancelIdle(e: Entry): Entry
  {
    e.(idleTimer := false, idleDeadline := 0)
  }

  function CancelStable(e: Entry): Entry
  {
    e.(stableTimer := false)
  }

  function CancelRetention(e: Entry): Entry
  {
    e.(failureTimer := false, failureDeadline := 0)
  }

  // ---- Leases and connectors --------------------------------------------------

  function CloseLease(x: Lease, cause: Cause, notify: bool): Lease
  {
    if x.state == Closed then x
    else x.(
      state := Closed,
      err := cause,
      sent := if notify && x.state == Opening then x.sent + 1 else x.sent,
      closes := x.closes + 1)
  }

  function CloseLeases(all: map<LeaseId, Lease>, ids: set<LeaseId>, cause: Cause): map<LeaseId, Lease>
  {
    map l | l in all :: if l in ids then CloseLease(all[l], cause, true) else all[l]
  }

  function ActivateLease(x: Lease, gen: Gen): Lease
  {
    x.(state := Active, gen := gen, sent := x.sent + 1)
  }

  function ActivateLeases(all: map<LeaseId, Lease>, ids: set<LeaseId>, gen: Gen): map<LeaseId, Lease>
  {
    map l | l in all ::
      if l in ids && all[l].state == Opening && all[l].gen == gen then ActivateLease(all[l], gen) else all[l]
  }

  function AssignLeases(all: map<LeaseId, Lease>, ids: set<LeaseId>, gen: Gen): map<LeaseId, Lease>
  {
    map l | l in all :: if l in ids && all[l].state == Opening then all[l].(gen := gen) else all[l]
  }

  function CloseConnector(x: Connector, cause: Cause): Connector
  {
    if x.closed then x else x.(closed := true, closes := x.closes + 1, err := cause)
  }

  function CloseConnectors(all: map<ConnectorId, Connector>, ids: set<ConnectorId>, cause: Cause)
    : map<ConnectorId, Connector>
  {
    map c | c in all :: if c in ids then CloseConnector(all[c], cause) else all[c]
  }

  function InvalidateLeases(c: Cell, cause: Cause): (d: Cell)
    requires c.entry.Some?
    ensures d.entry.Some?
  {
    Put(c, c.entry.value.(leases := {})).(leases := CloseLeases(c.leases, c.entry.value.leases, cause))
  }

  function InvalidateConnectors(c: Cell, cause: Cause): (d: Cell)
    requires c.entry.Some?
    ensures d.entry.Some?
  {
    Put(c, c.entry.value.(connectors := {})).(
    connectors := CloseConnectors(c.connectors, c.entry.value.connectors, cause))
  }

  function Invalidate(c: Cell, cause: Cause): (d: Cell)
    requires c.entry.Some?
    ensures d.entry.Some?
  {
    InvalidateConnectors(InvalidateLeases(c, cause), cause)
  }

  // ---- Retention ----------------------------------------------------------------

  predicate ColdDeletable(e: Entry)
  {
    && e.phase == Cold && e.instance == None && !e.reaped && !e.startPending
    && e.leases == {} && e.connectors == {}
    && !e.startCancel && !e.startTimer && !e.idleTimer && !e.stableTimer && !e.failureTimer
    && e.startDeadline == 0 && e.idleDeadline == 0 && e.retryDeadline == 0 && e.failureDeadline == 0
  }

  function DeleteCold(c: Cell): Cell
    requires c.entry.Some?
  {
    if ColdDeletable(c.entry.value) then c.(entry := None) else c
  }

  predicate FailedDeletable(e: Entry, now: Time)
  {
    && e.phase == Failed && e.instance == None && !e.startPending
    && e.leases == {} && e.connectors == {}
    && e.failureDeadline <= now
  }

  function DeleteFailed(c: Cell, now: Time): Cell
    requires c.entry.Some?
  {
    if FailedDeletable(c.entry.value, now) then c.(entry := None) else c
  }

  function ScheduleRetention(r: Global, c: Cell): (d: Cell)
    requires WellFormed(r) && c.entry.Some?
    ensures d.entry.Some?
  {
    var e := c.entry.value;
    var at := e.retryDeadline + r.options.failureRetention;
    Arm(Put(c, e.(failureTimer := true, failureDeadline := at)), Callback(FailureTimer, e.gen, at))
  }

  // ---- Failure ---------------------------------------------------------------------

  function NextFailures(r: Global, e: Entry): nat
  {
    var kept := if e.readyAt != 0 && r.now - e.readyAt >= r.options.stableReady then 0 else e.failures;
    if kept < MAX_UINT32 then kept + 1 else kept
  }

  // failLocked, with the backoff delay it arrived at.
  function Fail(r: Global, c: Cell, delay: nat): (d: Cell)
    requires WellFormed(r) && c.entry.Some?
    ensures d.entry.Some?
  {
    var e := c.entry.value;
    var failures := NextFailures(r, e);
    ScheduleRetention(
      r,
      Put(c, e.(failures := failures, phase := Failed, retryDeadline := r.now + delay, idleDeadline := 0)))
  }

  // ---- Start ---------------------------------------------------------------------------

  // Starts generation r.nextGeneration + 1.
  function StartLocked(r: Global, c: Cell): (d: Cell)
    requires WellFormed(r) && c.entry.Some?
    ensures d.entry.Some?
  {
    var g := r.nextGeneration + 1;
    var e := c.entry.value;
    var deadline := r.now + r.options.startTimeout;
    Arm(c, Callback(StartTimer, g, deadline)).(
    leases := AssignLeases(c.leases, e.leases, g),
    entry := Some(CancelRetention(e).(
      gen := g, phase := Starting, instance := None, reaped := false, startPending := true,
      startCancel := true, startTimer := true, startDeadline := deadline,
      readyAt := 0, idleDeadline := 0, retryDeadline := 0)),
    runners := c.runners[g := Launching])
  }

  function TimeoutStart(r: Global, c: Cell, delay: nat): (d: Cell)
    requires WellFormed(r) && c.entry.Some?
    ensures d.entry.Some?
  {
    InvalidateLeases(Fail(r, Put(c, CancelStart(c.entry.value)), delay), StartFailed)
  }

  function CancelUnusedStart(r: Global, c: Cell): (d: Cell)
    requires WellFormed(r) && c.entry.Some?
    ensures d.entry.Some?
  {
    var e := c.entry.value;
    if e.phase != Starting || e.leases != {} || e.connectors != {} then c
    else
      var failed := CancelStart(e).(phase := Failed, instance := None, reaped := false, readyAt := 0);
      if e.failures == 0 then Put(c, failed)
      else ScheduleRetention(r, Put(c, failed.(retryDeadline := r.now)))
  }

  // ---- Idle and stop -------------------------------------------------------------------

  function MaybeIdle(r: Global, c: Cell): (d: Cell)
    requires c.entry.Some?
    ensures d.entry.Some?
  {
    var e := c.entry.value;
    if e.phase != Ready || e.leases != {} || e.connectors != {} then c
    else
      var at := r.now + e.idleTimeout;
      Arm(Put(c, e.(phase := Idle, idleDeadline := at, idleTimer := true)), Callback(IdleTimer, e.gen, at))
  }

  function BeginStop(c: Cell): Cell
    requires c.entry.Some?
  {
    var e := CancelStable(CancelIdle(c.entry.value)).(phase := Stopping, reaped := false);
    Put(c, e).(stoppers := c.stoppers + {e.gen})
  }

  // ---- Acquire ---------------------------------------------------------------------------

  datatype AcquireError =
    | AcquireShuttingDown
    | PolicyMismatch
    | AcquireUnavailable
    | RetryAt(at: Time)
    | GenerationsExhausted

  // Why an acquire is refused before a lease is created.
  function Refusal(r: Global, c: Cell, idleTimeout: nat): Option<AcquireError>
  {
    if r.closing then Some(AcquireShuttingDown)
    else if c.entry.None? then None
    else
      var e := c.entry.value;
      if e.idleTimeout != idleTimeout then Some(PolicyMismatch)
      else if e.startPending && e.phase != Starting then Some(AcquireUnavailable)
      else if e.phase == Failed && e.instance != None then Some(AcquireUnavailable)
      else if e.phase == Failed && r.now < e.retryDeadline then Some(RetryAt(e.retryDeadline))
      else None
  }

  // The cell with the opening lease l in its entry, an idle entry being ready
  // again.
  function AddLease(c: Cell, idleTimeout: nat, l: LeaseId): (d: Cell)
    ensures d.entry.Some? && l in d.leases
  {
    var e := if c.entry.Some? then c.entry.value else FreshEntry(idleTimeout);
    var woken := if e.phase == Idle then CancelIdle(e).(phase := Ready) else e;
    Put(c, woken.(leases := woken.leases + {l})).(leases := c.leases[l := Lease(Opening, 0, 0, 0, NoCause)])
  }

  // Undoes AddLease when no generation number is left.
  function RefuseLease(c: Cell, l: LeaseId): Cell
    requires c.entry.Some? && l in c.leases
  {
    DeleteCold(Put(c, c.entry.value.(leases := c.entry.value.leases - {l})).(
               leases := c.leases[l := CloseLease(c.leases[l], Exhausted, true)]))
  }

  datatype Acquired = Acquired(cell: Cell, started: bool, error: Option<AcquireError>)

  // Binds a lease that has just joined its entry.
  function Join(r: Global, d: Cell, l: LeaseId): Acquired
    requires WellFormed(r) && d.entry.Some? && l in d.leases
  {
    var e := d.entry.value;
    match e.phase
    case Ready => Acquired(d.(leases := d.leases[l := ActivateLease(d.leases[l], e.gen)]), false, None)
    case Starting => Acquired(d.(leases := d.leases[l := d.leases[l].(gen := e.gen)]), false, None)
    case Stopping => Acquired(d, false, None)
    case _ =>
      if r.nextGeneration < MAX_UINT64 then Acquired(StartLocked(r, d), true, None)
      else Acquired(RefuseLease(d, l), false, Some(GenerationsExhausted))
  }

  function Acquire(r: Global, c: Cell, idleTimeout: nat, l: LeaseId): Acquired
    requires WellFormed(r)
  {
    var refusal := Refusal(r, c, idleTimeout);
    if refusal.Some? then Acquired(c, false, refusal)
    else Join(r, AddLease(c, idleTimeout, l), l)
  }

  // ---- Release and connectors -----------------------------------------------------------

  function DropLease(c: Cell, l: LeaseId): Cell
    requires l in c.leases
  {
    var closed := c.(leases := c.leases[l := CloseLease(c.leases[l].(state := Releasing), NoCause, false)]);
    if c.entry.None? then closed
    else Put(closed, c.entry.value.(leases := c.entry.value.leases - {l}))
  }

  function Release(r: Global, c: Cell, l: LeaseId): Cell
    requires WellFormed(r) && l in c.leases
  {
    if c.leases[l].state == Closed || c.leases[l].state == Releasing then c
    else
      var dropped := DropLease(c, l);
      if dropped.entry.None? then dropped else MaybeIdle(r, CancelUnusedStart(r, dropped))
  }

  predicate ConnectorAllowed(r: Global, c: Cell, l: LeaseId)
    requires l in c.leases
  {
    && !r.closing && c.leases[l].state == Active && c.entry.Some?
    && var e := c.entry.value;
       e.gen == c.leases[l].gen && e.phase == Ready && e.instance != None
  }

  function OpenConnector(r: Global, c: Cell, l: LeaseId, n: ConnectorId): Cell
    requires l in c.leases
  {
    if !ConnectorAllowed(r, c, l) then c
    else
      var e := c.entry.value;
      Put(c, e.(connectors := e.connectors + {n})).(
      connectors := c.connectors[n := Connector(c.leases[l].gen, false, 0, NoCause)])
  }

  function ShutConnector(r: Global, c: Cell, n: ConnectorId): Cell
    requires n in c.connectors
  {
    if c.connectors[n].closed then c
    else
      var closed := c.(connectors := c.connectors[n := CloseConnector(c.connectors[n], NoCause)]);
      if c.entry.None? then closed
      else MaybeIdle(r, Put(closed, c.entry.value.(connectors := c.entry.value.connectors - {n})))
  }

  // ---- Start worker -----------------------------------------------------------------------

  // factory.Start and the checks on what it returned.
  function StartReturned(c: Cell, g: Gen, ok: bool, hasInstance: bool): Cell
  {
    c.(runners := c.runners[g := if ok then Publishing else Cleaning(hasInstance)])
  }

  predicate Current(c: Cell, g: Gen)
  {
    c.entry.Some? && c.entry.value.gen == g
  }

  function ReadyEntry(r: Global, e: Entry): Entry
  {
    CancelStart(e).(
      startPending := false, instance := Some(e.gen), readyAt := r.now,
      retryDeadline := 0, phase := Ready, stableTimer := true)
  }

  // The cell whose generation g has just become ready.
  function ReadyCell(r: Global, c: Cell, g: Gen): (d: Cell)
    requires WellFormed(r) && c.entry.Some?
    ensures d.entry.Some?
  {
    var e := ReadyEntry(r, c.entry.value);
    var ready := Put(c, e).(
                   leases := ActivateLeases(c.leases, e.leases, g),
                   runners := c.runners[g := Watching]);
    Arm(ready, Callback(StableTimer, g, r.now + r.options.stableReady))
  }

  // The mutex-held block in which a started generation becomes ready, or learns
  // that nobody wants it.
  function Publish(r: Global, c: Cell, g: Gen, delay: nat): Cell
    requires WellFormed(r)
  {
    if Current(c, g) && c.entry.value.startPending && c.entry.value.phase != Starting then
      c.(runners := c.runners[g := Cleaning(true)])
    else if r.closing || !Current(c, g) || c.entry.value.phase != Starting then
      c.(runners := c.runners[g := Detached])
    else if c.entry.value.startDeadline <= r.now then
      TimeoutStart(r, c, delay).(runners := c.runners[g := Cleaning(true)])
    else
      MaybeIdle(r, ReadyCell(r, c, g))
  }

  // How a failed start ends while the registry is closing.
  function AbandonStart(c: Cell, reaped: bool): Cell
    requires c.entry.Some?
  {
    var invalid := InvalidateLeases(c, ShuttingDown);
    DeleteCold(Put(invalid, invalid.entry.value.(phase := if reaped then Cold else Failed)))
  }

  function SettledEntry(e: Entry, g: Gen, reaped: bool): Entry
  {
    (if e.phase == Starting then CancelStart(e) else e).(
      instance := if reaped then None else Some(g), startPending := false)
  }

  // What a settled start that failed leads to.
  function SettleStart(r: Global, c: Cell, wasStarting: bool, reaped: bool, delay: nat): Cell
    requires WellFormed(r) && c.entry.Some?
  {
    if r.closing then AbandonStart(c, reaped)
    else if !wasStarting then if reaped then DeleteFailed(c, r.now) else c
    else InvalidateLeases(Fail(r, c, delay), StartFailed)
  }

  // completeStartFailure; reaped is the cleanup outcome after observing Done.
  function CompleteStartFailure(r: Global, c: Cell, g: Gen, reaped: bool, delay: nat): Cell
    requires WellFormed(r)
  {
    if !Current(c, g) || !c.entry.value.startPending then c
    else
      var e := c.entry.value;
      SettleStart(r, Put(c, SettledEntry(e, g, reaped)), e.phase == Starting, reaped, delay)
  }

  // cleanupFailedStart: the stop attempt's outcome is observed again under the
  // mutex, and a process that outlived it keeps its worker.
  function ReportStartFailure(r: Global, c: Cell, g: Gen, outcome: bool, delay: nat): Cell
    requires WellFormed(r) && g in c.runners && c.runners[g].Cleaning?
  {
    var hasInstance := c.runners[g].hasInstance;
    var reaped := !hasInstance || outcome || g !in c.live;
    CompleteStartFailure(r, c, g, reaped, delay).(
    runners := if hasInstance && !outcome then c.runners[g := Awaiting] else c.runners - {g})
  }

  // generationExited.
  function GenerationExited(r: Global, c: Cell, g: Gen, delay: nat): Cell
    requires WellFormed(r)
  {
    if !Current(c, g) then c
    else
      var e := c.entry.value;
      match e.phase
      case Stopping => Put(c, e.(reaped := true))
      case Failed => DeleteFailed(Put(c, e.(instance := None)), r.now)
      case Ready | Idle =>
        Fail(r, Invalidate(Put(c, CancelStable(CancelIdle(e)).(instance := None)), Exited), delay)
      case _ => c
  }

  function ExitObserved(r: Global, c: Cell, g: Gen, delay: nat): Cell
    requires WellFormed(r)
  {
    GenerationExited(r, c, g, delay).(runners := c.runners - {g})
  }

  // ---- Stop worker ---------------------------------------------------------------------------

  function ColdEntry(e: Entry): Entry
  {
    e.(instance := None, reaped := false, failures := 0, retryDeadline := 0, phase := Cold)
  }

  predicate StopRestarts(r: Global, c: Cell, g: Gen, outcome: bool)
  {
    && Current(c, g) && c.entry.value.phase == Stopping
    && (outcome || c.entry.value.reaped || g !in c.live)
    && !r.closing && c.entry.value.leases != {} && r.nextGeneration < MAX_UINT64
  }

  // What becomes of a stopping entry whose generation has been reaped.
  function Reaped(r: Global, c: Cell, delay: nat): Cell
    requires WellFormed(r) && c.entry.Some?
  {
    var reset := Put(c, ColdEntry(c.entry.value));
    if r.closing then
      DeleteCold(Invalidate(reset, ShuttingDown))
    else if c.entry.value.leases == {} then
      DeleteCold(reset)
    else if r.nextGeneration < MAX_UINT64 then
      StartLocked(r, reset)
    else
      Fail(r, InvalidateLeases(reset, Exhausted), delay)
  }

  function CompleteStop(r: Global, c: Cell, g: Gen, outcome: bool, delay: nat): Cell
    requires WellFormed(r)
  {
    if !Current(c, g) || c.entry.value.phase != Stopping then c
    else
      var e := c.entry.value;
      if !(outcome || e.reaped || g !in c.live) then
        Fail(r, Invalidate(c, Unavailable), delay)
      else
        Reaped(r, c, delay)
  }

  function StopFinished(r: Global, c: Cell, g: Gen, outcome: bool, delay: nat): Cell
    requires WellFormed(r)
  {
    CompleteStop(r, c, g, outcome, delay).(stoppers := c.stoppers - {g})
  }

  // ---- Timer callbacks ------------------------------------------------------------------------

  function ExpireStart(r: Global, c: Cell, g: Gen, at: Time, delay: nat): Cell
    requires WellFormed(r)
  {
    if r.closing || !Current(c, g) || c.entry.value.phase != Starting then c
    else if c.entry.value.startDeadline != at || r.now < at then c
    else TimeoutStart(r, Put(c, c.entry.value.(startTimer := false)), delay)
  }

  function ExpireIdle(r: Global, c: Cell, g: Gen, at: Time): Cell
  {
    if r.closing || !Current(c, g) || c.entry.value.phase != Idle then c
    else if c.entry.value.idleDeadline != at || r.now < at then c
    else BeginStop(c)
  }

  function ResetStable(r: Global, c: Cell, g: Gen): Cell
  {
    if r.closing || !Current(c, g) then c
    else if c.entry.value.phase != Ready && c.entry.value.phase != Idle then c
    else Put(c, c.entry.value.(stableTimer := false, failures := 0))
  }

  function ExpireFailure(r: Global, c: Cell, g: Gen, at: Time): Cell
  {
    if r.closing || !Current(c, g) || c.entry.value.phase != Failed then c
    else if c.entry.value.failureDeadline != at || r.now < at then c
    else DeleteFailed(Put(c, c.entry.value.(failureTimer := false)), r.now)
  }

  function RunCallback(r: Global, c: Cell, cb: Callback, delay: nat): Cell
    requires WellFormed(r)
  {
    match cb.kind
    case StartTimer => ExpireStart(r, c, cb.gen, cb.at, delay)
    case IdleTimer => ExpireIdle(r, c, cb.gen, cb.at)
    case StableTimer => ResetStable(r, c, cb.gen)
    case FailureTimer => ExpireFailure(r, c, cb.gen, cb.at)
  }

  // ---- Shutdown -----------------------------------------------------------------------------

  predicate StopsAtShutdown(e: Entry)
  {
    (e.phase == Ready || e.phase == Idle || e.phase == Failed) && e.instance != None
  }

  // What beginShutdownLocked does to one key.
  function ShutCell(c: Cell): Cell
  {
    if c.entry.None? then c
    else
      var e := c.entry.value;
      var quiet := CancelRetention(CancelStable(CancelIdle(CancelStart(e))));
      var invalid := Invalidate(Put(c, quiet), ShuttingDown);
      if StopsAtShutdown(e) then BeginStop(invalid)
      else if e.phase == Ready || e.phase == Idle || e.phase == Failed then
        Put(invalid, invalid.entry.value.(phase := Cold))
      else invalid
  }

  function ShutCells(cells: map<Key, Cell>): map<Key, Cell>
  {
    map k | k in cells :: ShutCell(cells[k])
  }

  // What the final wait leaves of one key.
  function FinalCell(c: Cell): Cell
  {
    if c.entry.None? then c
    else Put(c, c.entry.value.(
               phase := Cold, instance := None, reaped := false, startPending := false,
               startDeadline := 0, idleDeadline := 0, retryDeadline := 0, failureDeadline := 0))
  }

  function FinalCells(cells: map<Key, Cell>): map<Key, Cell>
  {
    map k | k in cells :: FinalCell(cells[k])
  }

  // ---- The machine ---------------------------------------------------------------------------

  // A step on one key.
  datatype Event =
    | DoAcquire(idleTimeout: nat, lease: LeaseId)
    | DoRelease(lease: LeaseId)
    | DoOpenConnector(lease: LeaseId, connector: ConnectorId)
    | DoCloseConnector(connector: ConnectorId)
    | DoSpawn(gen: Gen)
    | DoStartReturned(gen: Gen, ok: bool, hasInstance: bool)
    | DoPublish(gen: Gen, delay: nat)
    | DoReportStartFailure(gen: Gen, outcome: bool, delay: nat)
    | DoExitObserved(gen: Gen, delay: nat)
    | DoDetachedReaped(gen: Gen)
    | DoProcessExit(gen: Gen)
    | DoStopFinished(gen: Gen, outcome: bool, delay: nat)
    | DoFire(callback: Callback, delay: nat)

  // When the environment may take the step. A stop outcome claims a reap only
  // of a process that has exited, a factory returns without an instance only
  // when it left no process behind, and a callback fires no earlier than the
  // instant it was scheduled for.
  predicate Enabled(r: Global, c: Cell, ev: Event)
  {
    match ev
    case DoAcquire(idleTimeout, l) => l !in c.leases && 0 < idleTimeout
    case DoRelease(l) => l in c.leases
    case DoOpenConnector(l, n) => l in c.leases && n !in c.connectors
    case DoCloseConnector(n) => n in c.connectors
    case DoSpawn(g) => g in c.runners && c.runners[g] == Launching
    case DoStartReturned(g, ok, hasInstance) =>
      && g in c.runners && c.runners[g] == Launching
      && (ok ==> hasInstance) && (!hasInstance ==> g !in c.live)
    case DoPublish(g, _) => g in c.runners && c.runners[g] == Publishing
    case DoReportStartFailure(g, outcome, _) =>
      g in c.runners && c.runners[g].Cleaning? && (outcome ==> g !in c.live)
    case DoExitObserved(g, _) =>
      g in c.runners && (c.runners[g] == Awaiting || c.runners[g] == Watching) && g !in c.live
    case DoDetachedReaped(g) => g in c.runners && c.runners[g] == Detached && g !in c.live
    case DoProcessExit(g) => g in c.live
    case DoStopFinished(g, outcome, _) => g in c.stoppers && (outcome ==> g !in c.live)
    case DoFire(cb, _) => cb in c.timers && cb.at <= r.now
  }

  // Whether the step consumes a generation number.
  predicate Starts(r: Global, c: Cell, ev: Event)
    requires WellFormed(r)
  {
    match ev
    case DoAcquire(idleTimeout, l) => Acquire(r, c, idleTimeout, l).started
    case DoStopFinished(g, outcome, _) => StopRestarts(r, c, g, outcome)
    case _ => false
  }

  function CellStep(r: Global, c: Cell, ev: Event): Cell
    requires WellFormed(r) && Enabled(r, c, ev)
  {
    match ev
    case DoAcquire(idleTimeout, l) => Acquire(r, c, idleTimeout, l).cell
    case DoRelease(l) => Release(r, c, l)
    case DoOpenConnector(l, n) => OpenConnector(r, c, l, n)
    case DoCloseConnector(n) => ShutConnector(r, c, n)
    case DoSpawn(g) => c.(live := c.live + {g})
    case DoStartReturned(g, ok, hasInstance) => StartReturned(c, g, ok, hasInstance)
    case DoPublish(g, delay) => Publish(r, c, g, delay)
    case DoReportStartFailure(g, outcome, delay) => ReportStartFailure(r, c, g, outcome, delay)
    case DoExitObserved(g, delay) => ExitObserved(r, c, g, delay)
    case DoDetachedReaped(g) => c.(runners := c.runners - {g})
    case DoProcessExit(g) => c.(live := c.live - {g})
    case DoStopFinished(g, outcome, delay) => StopFinished(r, c, g, outcome, delay)
    case DoFire(cb, delay) => RunCallback(r, c.(timers := c.timers - multiset{cb}), cb, delay)
  }

  // The entry a failure in the step would be counted on.
  function FailureBasis(c: Cell, ev: Event): Entry
    requires c.entry.Some?
  {
    var e := c.entry.value;
    if ev.DoStopFinished? && (ev.outcome || e.reaped || ev.gen !in c.live) then ColdEntry(e) else e
  }

  // The backoff delay after a failure of the entry, for the jitter's answer.
  function DelayAfter(r: Global, e: Entry, jittered: int): nat
    requires WellFormed(r)
  {
    RetryDelay(r.options, NextFailures(r, e), jittered)
  }

  // The delay of an action is one that the backoff arrives at for some answer of
  // the jitter callback.
  ghost predicate Plausible(s: State, a: Action)
    requires WellFormed(s.global)
  {
    a.At? && CellOf(s, a.key).entry.Some? &&
    (a.event.DoPublish? || a.event.DoReportStartFailure? || a.event.DoExitObserved? ||
     a.event.DoStopFinished? || a.event.DoFire?) ==>
      exists jittered: int ::
        a.event.delay == DelayAfter(s.global, FailureBasis(CellOf(s, a.key), a.event), jittered)
  }

  // The global fields after the step.
  function GlobalStep(r: Global, c: Cell, ev: Event): Global
    requires WellFormed(r)
  {
    if Starts(r, c, ev) then r.(nextGeneration := r.nextGeneration + 1) else r
  }

  datatype Action =
    | At(key: Key, event: Event)
    | Tick(elapsed: nat)
    | BeginShutdown
    | FinishShutdown

  // No goroutine counted by the worker group is outstanding.
  predicate WorkersDone(s: State)
  {
    forall k <- s.cells :: s.cells[k].runners == map[] && s.cells[k].stoppers == {}
  }

  predicate CanTake(s: State, a: Action)
  {
    match a
    case At(k, ev) => Enabled(s.global, CellOf(s, k), ev)
    case Tick(_) => true
    case BeginShutdown => !s.global.closing
    case FinishShutdown => s.global.closing && !s.global.shutdownDone && WorkersDone(s)
  }

  function Take(s: State, a: Action): State
    requires WellFormed(s.global) && CanTake(s, a)
  {
    match a
    case At(k, ev) =>
      State(GlobalStep(s.global, CellOf(s, k), ev), s.cells[k := CellStep(s.global, CellOf(s, k), ev)])
    case Tick(elapsed) => s.(global := s.global.(now := s.global.now + elapsed))
    case BeginShutdown =>
      State(s.global.(closing := true), ShutCells(s.cells))
    case FinishShutdown =>
      State(s.global.(shutdownDone := true), FinalCells(s.cells))
  }
}
