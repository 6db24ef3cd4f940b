// The image store shared by processes that prepare and processes that remove
// images (internal/oci/prepare.go, object_linux.go, removal_linux.go).
//
// A process is its program point together with what it has learned so far; the
// locks it holds follow from that point, so a process that dies at any point
// drops all of them. Every lock attempt, every read and every write of the disk
// is one step.

module OciProtocol {
  type RefId = nat
  type Obj = nat
  type Pid = nat

  datatype Option<T> = None | Some(value: T)

  // Removing an object tree takes many system calls: until the last one the
  // object is damaged, and may or may not still pass the checks of openObject.
  datatype Health = Intact | Damaged(passes: bool)

  datatype Proc =
    // Prepare
    | RefLocked(r: RefId)
    | Materialized(r: RefId, o: Obj)
    | Exclusive(r: RefId, o: Obj)
    | Opened(r: RefId, o: Obj)
    | Published(r: RefId, o: Obj)
    | Retaining(r: RefId, o: Obj)
    | Shared(r: RefId, o: Obj)
    | Holding(o: Obj)
    // RemoveImages
    | LockingRefs(ids: set<RefId>, got: set<RefId>)
    | LockingObjects(ids: set<RefId>, candidates: set<Obj>, held: set<Obj>, busy: set<Obj>)
    | Counting(ids: set<RefId>, held: set<Obj>, names: set<RefId>, live: set<Obj>, missed: set<RefId>)
    | RemovingRefs(ids: set<RefId>, held: set<Obj>, live: set<Obj>, missed: set<RefId>, left: set<RefId>)
    | RemovingObjects(ids: set<RefId>, held: set<Obj>, missed: set<RefId>, left: set<Obj>, current: Option<Obj>)

  datatype State = State(refs: map<RefId, Obj>, objects: map<Obj, Health>, procs: map<Pid, Proc>)

  const INITIAL := State(map[], map[], map[])

  // ---- Locks ---------------------------------------------------------------------------

  function RefLocks(x: Proc): set<RefId>
  {
    match x
    case RefLocked(r) => {r}
    case Materialized(r, _) => {r}
    case Exclusive(r, _) => {r}
    case Opened(r, _) => {r}
    case Published(r, _) => {r}
    case Retaining(r, _) => {r}
    case Shared(r, _) => {r}
    case Holding(_) => {}
    case LockingRefs(_, got) => got
    case LockingObjects(ids, _, _, _) => ids
    case Counting(ids, _, _, _, _) => ids
    case RemovingRefs(ids, _, _, _, _) => ids
    case RemovingObjects(ids, _, _, _, _) => ids
  }

  function ExclusiveLocks(x: Proc): set<Obj>
  {
    match x
    case Exclusive(_, o) => {o}
    case Opened(_, o) => {o}
    case Published(_, o) => {o}
    case LockingObjects(_, _, held, _) => held
    case Counting(_, held, _, _, _) => held
    case RemovingRefs(_, held, _, _, _) => held
    case RemovingObjects(_, held, _, _, _) => held
    case _ => {}
  }

  function SharedLocks(x: Proc): set<Obj>
  {
    match x
    case Shared(_, o) => {o}
    case Holding(o) => {o}
    case _ => {}
  }

  predicate RefFree(procs: map<Pid, Proc>, r: RefId)
  {
    forall q <- procs :: r !in RefLocks(procs[q])
  }

  predicate SharedFree(procs: map<Pid, Proc>, o: Obj)
  {
    forall q <- procs :: o !in ExclusiveLocks(procs[q])
  }

  predicate ExclusiveFree(procs: map<Pid, Proc>, o: Obj)
  {
    forall q <- procs :: o !in ExclusiveLocks(procs[q]) && o !in SharedLocks(procs[q])
  }

  // ---- The disk ------------------------------------------------------------------------

  predicate Passes(h: Health)
  {
    h.Intact? || h.passes
  }

  // openObject finds the object.
  predicate Found(objects: map<Obj, Health>, o: Obj)
  {
    o in objects && Passes(objects[o])
  }

  // ---- Steps ---------------------------------------------------------------------------

  datatype Step =
    | PrepareStart(r: RefId)
    | ReadReference
    | Materialize(o: Obj)
    | LockExclusive
    | OpenExisting
    | PublishObject
    | PublishReference
    | ReleaseExclusive
    | LockShared
    | OpenShared
    | FindMissing
    | RemoveStart(ids: set<RefId>)
    | LockReference(r: RefId)
    | SelectCandidates(candidates: set<Obj>)
    | LockObject(o: Obj)
    | SkipBusy(o: Obj)
    | ListReferences
    | CountReference(r: RefId)
    | MissReference(r: RefId)
    | StartReferences
    | DeleteReference(r: RefId)
    | StartObjects
    | BeginObject(o: Obj, passes: bool)
    | FinishObject
    | Quit

  // The program points at which a step of an existing process applies.
  predicate At(x: Proc, a: Step)
  {
    match a
    case PrepareStart(_) => false
    case ReadReference => x.RefLocked?
    case Materialize(_) => x.RefLocked?
    case LockExclusive => x.Materialized?
    case OpenExisting => x.Exclusive?
    case PublishObject => x.Exclusive?
    case PublishReference => x.Opened?
    case ReleaseExclusive => x.Published?
    case LockShared => x.Retaining?
    case OpenShared => x.Shared?
    case FindMissing => x.Shared?
    case RemoveStart(_) => false
    case LockReference(r) => x.LockingRefs? && r in x.ids && r !in x.got
    case SelectCandidates(_) => x.LockingRefs? && x.got == x.ids
    case LockObject(o) => x.LockingObjects? && o in x.candidates && o !in x.held && o !in x.busy
    case SkipBusy(o) => x.LockingObjects? && o in x.candidates && o !in x.held && o !in x.busy
    case ListReferences => x.LockingObjects? && x.candidates <= x.held + x.busy
    case CountReference(r) => x.Counting? && r in x.names
    case MissReference(r) => x.Counting? && r in x.names
    case StartReferences => x.Counting? && x.names == {}
    case DeleteReference(r) => x.RemovingRefs? && r in x.left
    case StartObjects => x.RemovingRefs? && x.left == {}
    case BeginObject(o, _) => x.RemovingObjects? && x.current.None? && o in x.left
    case FinishObject => x.RemovingObjects? && x.current.Some?
    case Quit => true
  }

  // What the disk and the lock table demand of the step. An object may also be
  // published over a remnant that no longer opens, where the rename could fail.
  predicate Allowed(s: State, x: Proc, a: Step)
    requires At(x, a)
  {
    match a
    case ReadReference => x.r in s.refs
    case LockExclusive => ExclusiveFree(s.procs, x.o)
    case OpenExisting => Found(s.objects, x.o)
    case PublishObject => !Found(s.objects, x.o)
    case LockShared => SharedFree(s.procs, x.o)
    case OpenShared => Found(s.objects, x.o)
    case FindMissing => !Found(s.objects, x.o)
    case LockReference(r) => RefFree(s.procs, r)
    case LockObject(o) => ExclusiveFree(s.procs, o)
    case _ => true
  }

  predicate Enabled(s: State, p: Pid, a: Step)
  {
    if a.PrepareStart? then p !in s.procs && RefFree(s.procs, a.r)
    else if a.RemoveStart? then p !in s.procs
    else p in s.procs && At(s.procs[p], a) && Allowed(s, s.procs[p], a)
  }

  // The next program point.
  function Next(refs: map<RefId, Obj>, x: Proc, a: Step): Proc
    requires At(x, a) && (a.ReadReference? ==> x.r in refs)
  {
    match a
    case ReadReference => Retaining(x.r, refs[x.r])
    case Materialize(o) => Materialized(x.r, o)
    case LockExclusive => Exclusive(x.r, x.o)
    case OpenExisting => Opened(x.r, x.o)
    case PublishObject => Opened(x.r, x.o)
    case PublishReference => Published(x.r, x.o)
    case ReleaseExclusive => Retaining(x.r, x.o)
    case LockShared => Shared(x.r, x.o)
    case OpenShared => Holding(x.o)
    case FindMissing => RefLocked(x.r)
    case LockReference(r) => LockingRefs(x.ids, x.got + {r})
    case SelectCandidates(candidates) => LockingObjects(x.ids, candidates, {}, {})
    case LockObject(o) => LockingObjects(x.ids, x.candidates, x.held + {o}, x.busy)
    case SkipBusy(o) => LockingObjects(x.ids, x.candidates, x.held, x.busy + {o})
    case ListReferences => Counting(x.ids, x.held, refs.Keys - x.ids, {}, {})
    case CountReference(r) =>
      Counting(x.ids, x.held, x.names - {r}, if r in refs then x.live + {refs[r]} else x.live, x.missed)
    case MissReference(r) => Counting(x.ids, x.held, x.names - {r}, x.live, x.missed + {r})
    case StartReferences => RemovingRefs(x.ids, x.held, x.live, x.missed, x.ids)
    case DeleteReference(r) => RemovingRefs(x.ids, x.held, x.live, x.missed, x.left - {r})
    case StartObjects => RemovingObjects(x.ids, x.held, x.missed, x.held - x.live, None)
    case BeginObject(o, _) => RemovingObjects(x.ids, x.held, x.missed, x.left, Some(o))
    case FinishObject => RemovingObjects(x.ids, x.held, x.missed, x.left - {x.current.value}, None)
    case _ => x
  }

  function RefsAfter(refs: map<RefId, Obj>, x: Proc, a: Step): map<RefId, Obj>
    requires At(x, a)
  {
    if a.PublishReference? then refs[x.r := x.o]
    else if a.DeleteReference? then refs - {a.r}
    else refs
  }

  function ObjectsAfter(objects: map<Obj, Health>, x: Proc, a: Step): map<Obj, Health>
    requires At(x, a)
  {
    if a.PublishObject? then objects[x.o := Intact]
    else if a.BeginObject? then if a.o in objects then objects[a.o := Damaged(a.passes)] else objects
    else if a.FinishObject? then objects - {x.current.value}
    else objects
  }

  function Moved(s: State, p: Pid, a: Step): State
    requires p in s.procs && At(s.procs[p], a) && Allowed(s, s.procs[p], a)
  {
    var x := s.procs[p];
    State(RefsAfter(s.refs, x, a), ObjectsAfter(s.objects, x, a), s.procs[p := Next(s.refs, x, a)])
  }

  function Take(s: State, p: Pid, a: Step): State
    requires Enabled(s, p, a)
  {
    if a.PrepareStart? then s.(procs := s.procs[p := RefLocked(a.r)])
    else if a.RemoveStart? then s.(procs := s.procs[p := LockingRefs(a.ids, {})])
    else if a.Quit? then s.(procs := s.procs - {p})
    else Moved(s, p, a)
  }
}
