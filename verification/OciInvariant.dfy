// The inductive invariant of the image store protocol.

module OciInvariant {
  import opened OciProtocol

  // Two processes never hold conflicting locks.
  predicate Compatible(x: Proc, y: Proc)
  {
    && RefLocks(x) !! RefLocks(y)
    && ExclusiveLocks(x) !! ExclusiveLocks(y)
    && ExclusiveLocks(x) !! SharedLocks(y)
    && SharedLocks(x) !! ExclusiveLocks(y)
  }

  predicate LocksOk(procs: map<Pid, Proc>)
  {
    forall p <- procs, q <- procs :: p != q ==> Compatible(procs[p], procs[q])
  }

  predicate Shaped(x: Proc)
  {
    && (x.LockingRefs? ==> x.got <= x.ids)
    && (x.Counting? ==> x.names !! x.ids)
    && (x.RemovingRefs? ==> x.left <= x.ids)
    && (x.RemovingObjects? ==> x.left <= x.held && (x.current.Some? ==> x.current.value in x.left))
  }

  // What a process has learned about the references is still so.
  predicate KnowsRefs(x: Proc, refs: map<RefId, Obj>)
  {
    match x
    case Published(r, o) => r in refs && refs[r] == o
    case Retaining(r, o) => r in refs && refs[r] == o
    case Shared(r, o) => r in refs && refs[r] == o
    case Counting(ids, held, names, live, missed) =>
      forall r <- refs :: refs[r] in held ==> r in ids || r in names || r in missed || refs[r] in live
    case RemovingRefs(ids, held, live, missed, left) =>
      forall r <- refs :: refs[r] in held ==> r in left || r in missed || refs[r] in live
    case RemovingObjects(ids, held, missed, left, current) =>
      && (current.Some? ==> current.value !in refs.Values)
      && forall r <- refs :: refs[r] in left ==> r in missed
    case _ => true
  }

  // What a process has learned about an object is still so.
  predicate KnowsObjects(x: Proc, objects: map<Obj, Health>)
  {
    (x.Opened? || x.Published? || x.Holding?) ==> Found(objects, x.o)
  }

  // The part that locking alone guarantees.
  predicate Guarded(s: State)
  {
    && LocksOk(s.procs)
    && (forall p <- s.procs :: Shaped(s.procs[p]))
    && (forall p <- s.procs :: KnowsObjects(s.procs[p], s.objects))
  }

  // Every published reference names an object that openObject finds.
  predicate RefsOk(refs: map<RefId, Obj>, objects: map<Obj, Health>)
  {
    forall r <- refs :: Found(objects, refs[r])
  }

  predicate Inv(s: State)
  {
    && Guarded(s)
    && (forall p <- s.procs :: KnowsRefs(s.procs[p], s.refs))
    && RefsOk(s.refs, s.objects)
  }

  // ---- Locks -----------------------------------------------------------------------------

  lemma LocksAfterMove(procs: map<Pid, Proc>, p: Pid, x: Proc)
    requires LocksOk(procs)
    requires forall q <- procs :: q != p ==> Compatible(x, procs[q])
    ensures LocksOk(procs[p := x])
  {
    var t := procs[p := x];
    forall a, b | a in t && b in t && a != b
      ensures Compatible(t[a], t[b])
    {
      assert a in procs && b in procs ==> Compatible(procs[a], procs[b]);
    }
  }

  // A step grants at most one lock, and only a free one.
  lemma NextCompatible(refs: map<RefId, Obj>, x: Proc, a: Step, y: Proc)
    requires At(x, a) && (a.ReadReference? ==> x.r in refs)
    requires Compatible(x, y) && Shaped(x)
    requires (a.LockExclusive? ==> x.o !in ExclusiveLocks(y) && x.o !in SharedLocks(y))
    requires (a.LockShared? ==> x.o !in ExclusiveLocks(y))
    requires (a.LockReference? ==> a.r !in RefLocks(y))
    requires (a.LockObject? ==> a.o !in ExclusiveLocks(y) && a.o !in SharedLocks(y))
    ensures Compatible(Next(refs, x, a), y) && Shaped(Next(refs, x, a))
  {
  }

  lemma MoveKeepsLocks(s: State, p: Pid, a: Step)
    requires LocksOk(s.procs) && p in s.procs && At(s.procs[p], a) && Allowed(s, s.procs[p], a)
    requires Shaped(s.procs[p])
    ensures LocksOk(s.procs[p := Next(s.refs, s.procs[p], a)])
  {
    forall q | q in s.procs && q != p
      ensures Compatible(Next(s.refs, s.procs[p], a), s.procs[q])
    {
      NextCompatible(s.refs, s.procs[p], a, s.procs[q]);
    }
    LocksAfterMove(s.procs, p, Next(s.refs, s.procs[p], a));
  }

  lemma NextKnowsObjects(s: State, x: Proc, a: Step)
    requires At(x, a) && Allowed(s, x, a) && KnowsObjects(x, s.objects) && Shaped(x)
    ensures KnowsObjects(Next(s.refs, x, a), ObjectsAfter(s.objects, x, a)) && Shaped(Next(s.refs, x, a))
  {
  }

  // A step changes only objects its process has locked exclusively.
  lemma OnlyLockedObjectsChange(objects: map<Obj, Health>, x: Proc, a: Step, o: Obj)
    requires At(x, a) && Shaped(x) && o !in ExclusiveLocks(x)
    ensures o in objects <==> o in ObjectsAfter(objects, x, a)
    ensures o in objects ==> ObjectsAfter(objects, x, a)[o] == objects[o]
  {
  }

  lemma OthersKnowObjects(objects: map<Obj, Health>, x: Proc, a: Step, y: Proc)
    requires At(x, a) && Compatible(x, y) && Shaped(x) && KnowsObjects(y, objects)
    ensures KnowsObjects(y, ObjectsAfter(objects, x, a))
  {
    if y.Opened? || y.Published? || y.Holding? {
      OnlyLockedObjectsChange(objects, x, a, y.o);
    }
  }

  lemma MoveKeepsGuarded(s: State, p: Pid, a: Step)
    requires Guarded(s) && p in s.procs && At(s.procs[p], a) && Allowed(s, s.procs[p], a)
    ensures Guarded(Moved(s, p, a))
  {
    var t := Moved(s, p, a);
    MoveKeepsLocks(s, p, a);
    NextKnowsObjects(s, s.procs[p], a);
    forall q | q in t.procs
      ensures KnowsObjects(t.procs[q], t.objects)
    {
      if q != p {
        OthersKnowObjects(s.objects, s.procs[p], a, s.procs[q]);
      }
    }
  }

  // ---- References ------------------------------------------------------------------------

  // The step does not begin to remove an object that a missed reference names.
  predicate Careful(refs: map<RefId, Obj>, x: Proc, a: Step)
  {
    a.BeginObject? && x.RemovingObjects? ==> forall r <- x.missed :: r in refs ==> refs[r] != a.o
  }

  lemma NextKnowsRefs(refs: map<RefId, Obj>, x: Proc, a: Step)
    requires At(x, a) && (a.ReadReference? ==> x.r in refs)
    requires Shaped(x) && KnowsRefs(x, refs) && Careful(refs, x, a)
    ensures KnowsRefs(Next(refs, x, a), RefsAfter(refs, x, a))
  {
  }

  lemma OthersKnowRefs(refs: map<RefId, Obj>, x: Proc, a: Step, y: Proc)
    requires At(x, a) && Compatible(x, y) && Shaped(x) && Shaped(y) && KnowsRefs(x, refs) && KnowsRefs(y, refs)
    ensures KnowsRefs(y, RefsAfter(refs, x, a))
  {
  }

  lemma MoveKeepsRefs(s: State, x: Proc, a: Step)
    requires At(x, a) && Allowed(s, x, a) && Careful(s.refs, x, a)
    requires Shaped(x) && KnowsRefs(x, s.refs) && KnowsObjects(x, s.objects) && RefsOk(s.refs, s.objects)
    ensures RefsOk(RefsAfter(s.refs, x, a), ObjectsAfter(s.objects, x, a))
  {
  }

  lemma MoveKeeps(s: State, p: Pid, a: Step)
    requires Inv(s) && p in s.procs && At(s.procs[p], a) && Allowed(s, s.procs[p], a)
    requires Careful(s.refs, s.procs[p], a)
    ensures Inv(Moved(s, p, a))
  {
    var t := Moved(s, p, a);
    MoveKeepsGuarded(s, p, a);
    MoveKeepsRefs(s, s.procs[p], a);
    NextKnowsRefs(s.refs, s.procs[p], a);
    forall q | q in t.procs
      ensures KnowsRefs(t.procs[q], t.refs)
    {
      if q != p {
        OthersKnowRefs(s.refs, s.procs[p], a, s.procs[q]);
      }
    }
  }

  // ---- One step ----------------------------------------------------------------------------

  lemma StartKeeps(s: State, p: Pid, x: Proc)
    requires Guarded(s) && p !in s.procs && Shaped(x) && KnowsObjects(x, s.objects)
    requires ExclusiveLocks(x) == {} && SharedLocks(x) == {} && forall r <- RefLocks(x) :: RefFree(s.procs, r)
    ensures Guarded(s.(procs := s.procs[p := x]))
  {
    LocksAfterMove(s.procs, p, x);
  }

  lemma TakeKeepsGuarded(s: State, p: Pid, a: Step)
    requires Guarded(s) && Enabled(s, p, a)
    ensures Guarded(Take(s, p, a))
  {
    if a.PrepareStart? {
      StartKeeps(s, p, RefLocked(a.r));
    } else if a.RemoveStart? {
      StartKeeps(s, p, LockingRefs(a.ids, {}));
    } else if !a.Quit? {
      MoveKeepsGuarded(s, p, a);
    }
  }

  predicate CarefulStep(s: State, p: Pid, a: Step)
  {
    p in s.procs ==> Careful(s.refs, s.procs[p], a)
  }

  lemma TakeKeeps(s: State, p: Pid, a: Step)
    requires Inv(s) && Enabled(s, p, a) && CarefulStep(s, p, a)
    ensures Inv(Take(s, p, a))
  {
    TakeKeepsGuarded(s, p, a);
    if !a.PrepareStart? && !a.RemoveStart? && !a.Quit? {
      MoveKeeps(s, p, a);
    }
  }

  // ---- Damage --------------------------------------------------------------------------------

  // Every damaged object is in the middle of being removed by a live process.
  predicate Tended(s: State)
  {
    forall o <- s.objects :: s.objects[o].Damaged? ==> exists p <- s.procs :: Removing(s.procs[p], o)
  }

  predicate Removing(x: Proc, o: Obj)
  {
    x.RemovingObjects? && x.current == Some(o)
  }

  // No process stops in the middle of removing an object.
  predicate Patient(s: State, p: Pid, a: Step)
  {
    a.Quit? && p in s.procs && s.procs[p].RemovingObjects? ==> s.procs[p].current.None?
  }

  lemma MoveKeepsTended(s: State, p: Pid, a: Step)
    requires Guarded(s) && Tended(s) && p in s.procs && At(s.procs[p], a) && Allowed(s, s.procs[p], a) && !a.Quit?
    ensures Tended(Moved(s, p, a))
  {
    var t, x := Moved(s, p, a), s.procs[p];
    forall o | o in t.objects && t.objects[o].Damaged?
      ensures exists q <- t.procs :: Removing(t.procs[q], o)
    {
      if a.BeginObject? && a.o == o {
        assert Removing(t.procs[p], o);
      } else {
        var q :| q in s.procs && Removing(s.procs[q], o);
        assert Removing(t.procs[q], o);
      }
    }
  }

  lemma TakeKeepsTended(s: State, p: Pid, a: Step)
    requires Guarded(s) && Tended(s) && Enabled(s, p, a) && Patient(s, p, a)
    ensures Tended(Take(s, p, a))
  {
    if a.PrepareStart? || a.RemoveStart? || a.Quit? {
      var t := Take(s, p, a);
      forall o | o in t.objects && t.objects[o].Damaged?
        ensures exists q <- t.procs :: Removing(t.procs[q], o)
      {
        var q :| q in s.procs && Removing(s.procs[q], o);
        assert Removing(t.procs[q], o);
      }
    } else {
      MoveKeepsTended(s, p, a);
    }
  }

  lemma ReferencedIsIntact(s: State, r: RefId)
    requires Inv(s) && Tended(s) && r in s.refs
    ensures s.refs[r] in s.objects && s.objects[s.refs[r]] == Intact
  {
    assert Found(s.objects, s.refs[r]);
    forall q | q in s.procs
      ensures !Removing(s.procs[q], s.refs[r])
    {
      assert KnowsRefs(s.procs[q], s.refs);
    }
  }

  lemma HeldIsIntact(s: State, p: Pid)
    requires Guarded(s) && Tended(s) && p in s.procs && s.procs[p].Holding?
    ensures s.procs[p].o in s.objects && s.objects[s.procs[p].o] == Intact
  {
    assert KnowsObjects(s.procs[p], s.objects);
    forall q | q in s.procs
      ensures !Removing(s.procs[q], s.procs[p].o)
    {
      assert q != p ==> Compatible(s.procs[p], s.procs[q]) && Shaped(s.procs[q]);
    }
  }
}
