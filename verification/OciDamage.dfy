// What an interrupted removal leaves behind.
//
// An object tree is removed by many system calls. A removal that dies between
// the first and the last leaves a remnant, and a later prepare may take it for
// the object.

module OciDamage {
  import opened OciProtocol
  import opened OciInvariant
  import opened OciTheorems
  import opened OciMissed

  // ---- Interruptions --------------------------------------------------------------------

  predicate BeginsAt(events: seq<Event>, j: nat, o: Obj)
    requires j < |events|
  {
    events[j].step.BeginObject? && events[j].step.o == o
  }

  // The event publishes o as a new object.
  predicate PublishesAt(states: seq<State>, events: seq<Event>, i: nat, o: Obj)
    requires |states| == |events| + 1 && i < |events|
  {
    && events[i].step.PublishObject? && events[i].p in states[i].procs
    && At(states[i].procs[events[i].p], PublishObject) && states[i].procs[events[i].p].o == o
  }

  predicate Unpublished(states: seq<State>, events: seq<Event>, o: Obj, from: nat, to: nat)
    requires |states| == |events| + 1 && to <= |events|
  {
    forall m | from <= m < to :: !PublishesAt(states, events, m, o)
  }

  // p takes no step.
  predicate Silent(events: seq<Event>, p: Pid, from: nat, to: nat)
    requires to <= |events|
  {
    forall m | from <= m < to :: events[m].p != p
  }

  // At j a process begins to remove o, its next step at k is to die, and o is not
  // published again before i.
  predicate Interruption(states: seq<State>, events: seq<Event>, i: nat, o: Obj, j: nat, k: nat)
    requires |states| == |events| + 1 && i <= |events|
  {
    && j < k < i && BeginsAt(events, j, o) && events[k] == Event(events[j].p, Quit)
    && Silent(events, events[j].p, j + 1, k) && Unpublished(states, events, o, j + 1, i)
  }

  predicate Interrupted(states: seq<State>, events: seq<Event>, i: nat, o: Obj)
    requires |states| == |events| + 1 && i <= |events|
  {
    exists j, k | 0 <= j < i && 0 <= k < i :: Interruption(states, events, i, o, j, k)
  }

  // ---- Damage comes from a removal that began ----------------------------------------------

  lemma DamageStep(s: State, p: Pid, a: Step, o: Obj)
    requires Guarded(s) && Enabled(s, p, a) && o in Take(s, p, a).objects && Take(s, p, a).objects[o].Damaged?
    ensures !(a.PublishObject? && s.procs[p].o == o)
    ensures (o in s.objects && s.objects[o].Damaged?) ||
            (a.BeginObject? && a.o == o && p in Take(s, p, a).procs && Removing(Take(s, p, a).procs[p], o))
  {
  }

  lemma RemovingStep(s: State, p: Pid, a: Step, q: Pid, o: Obj)
    requires Enabled(s, p, a) && q in s.procs && Removing(s.procs[q], o) && o in Take(s, p, a).objects
    ensures p != q ==> q in Take(s, p, a).procs && Take(s, p, a).procs[q] == s.procs[q]
    ensures p == q ==> a == Quit
  {
  }

  // The history of a damaged object: a process began to remove it, and is still
  // at it or died without another step.
  lemma {:induction false} DamageHistory(states: seq<State>, events: seq<Event>, i: nat, o: Obj)
    returns (j: nat, k: nat)
    requires IsRun(states, events) && i < |states| && o in states[i].objects && states[i].objects[o].Damaged?
    ensures j < k <= i && BeginsAt(events, j, o)
    ensures Silent(events, events[j].p, j + 1, k) && Unpublished(states, events, o, j + 1, i)
    ensures k < i ==> events[k] == Event(events[j].p, Quit)
    ensures k == i ==> events[j].p in states[i].procs && Removing(states[i].procs[events[j].p], o)
  {
    var n := i - 1;
    assert StepAt(states, events, n);
    RunGuarded(states, events, n);
    DamageStep(states[n], events[n].p, events[n].step, o);
    if o in states[n].objects && states[n].objects[o].Damaged? {
      j, k := DamageHistory(states, events, n, o);
      if k == n {
        RemovingStep(states[n], events[n].p, events[n].step, events[j].p, o);
        if events[n].p != events[j].p {
          k := i;
        }
      }
    } else {
      j, k := n, i;
    }
  }

  // ---- Damage stays until the object is published again --------------------------------------

  lemma UnpublishedStep(s: State, p: Pid, a: Step, o: Obj)
    requires Guarded(s) && Enabled(s, p, a) && !(a.PublishObject? && s.procs[p].o == o) && o in Take(s, p, a).objects
    ensures o in s.objects
    ensures s.objects[o].Damaged? || (a.BeginObject? && a.o == o) ==> Take(s, p, a).objects[o].Damaged?
  {
  }

  lemma {:induction false} StaysDamaged(states: seq<State>, events: seq<Event>, j: nat, i: nat, o: Obj)
    requires IsRun(states, events) && j < i < |states| && BeginsAt(events, j, o)
    requires Unpublished(states, events, o, j + 1, i) && o in states[i].objects
    ensures states[i].objects[o].Damaged?
    decreases i
  {
    var n := i - 1;
    assert StepAt(states, events, n);
    RunGuarded(states, events, n);
    assert n > j ==> !PublishesAt(states, events, n, o);
    UnpublishedStep(states[n], events[n].p, events[n].step, o);
    if j < n {
      StaysDamaged(states, events, j, n, o);
    }
  }

  // ---- Adopted remnants -------------------------------------------------------------------------

  // o is named by a published reference or held by a process that prepared it.
  predicate InUse(s: State, o: Obj)
  {
    o in s.refs.Values || exists p <- s.procs :: s.procs[p].Holding? && s.procs[p].o == o
  }

  lemma InUseIsNotRemoved(s: State, o: Obj, q: Pid)
    requires Inv(s) && InUse(s, o) && q in s.procs
    ensures !Removing(s.procs[q], o)
  {
    assert KnowsRefs(s.procs[q], s.refs) && Shaped(s.procs[q]);
    if o !in s.refs.Values {
      var p :| p in s.procs && s.procs[p].Holding? && s.procs[p].o == o;
      assert p != q ==> Compatible(s.procs[p], s.procs[q]);
    }
  }

  lemma InUseIsFound(s: State, o: Obj)
    requires Inv(s) && InUse(s, o)
    ensures Found(s.objects, o)
  {
    if o in s.refs.Values {
      var r :| r in s.refs && s.refs[r] == o;
    } else {
      var p :| p in s.procs && s.procs[p].Holding? && s.procs[p].o == o;
      assert KnowsObjects(s.procs[p], s.objects);
    }
  }

  // An object in use is a remnant exactly when a removal of it died between its
  // first and its last step and nobody has published the object since.
  lemma RemnantIffInterrupted(states: seq<State>, events: seq<Event>, i: nat, o: Obj)
    requires IsRun(states, events) && HarmlessMisses(states, events) && i < |states| && InUse(states[i], o)
    ensures o in states[i].objects
    ensures states[i].objects[o] != Intact <==> Interrupted(states, events, i, o)
  {
    RunInv(states, events, i);
    InUseIsFound(states[i], o);
    if states[i].objects[o].Damaged? {
      var j, k := DamageHistory(states, events, i, o);
      if k == i {
        InUseIsNotRemoved(states[i], o, events[j].p);
      }
      assert Interruption(states, events, i, o, j, k);
    }
    if Interrupted(states, events, i, o) {
      var j, k :| 0 <= j < i && 0 <= k < i && Interruption(states, events, i, o, j, k);
      StaysDamaged(states, events, j, i, o);
    }
  }

  // ---- A concrete run ------------------------------------------------------------------------------

  // A removal has locked reference 0.
  lemma LockedReference() returns (states: seq<State>, events: seq<Event>)
    ensures IsRun(states, events) && AllRead(events)
    ensures states[|events|] == State(map[0 := 5], map[5 := Intact], map[2 := LockingRefs({0}, {0})])
  {
    states, events := OneImage();
    states, events := Extend(states, events, 2, RemoveStart({0}),
                             State(map[0 := 5], map[5 := Intact], map[2 := LockingRefs({0}, {})]));
    assert {} + {0} == {0};
    states, events := Advance(states, events, 2, LockReference(0), LockingRefs({0}, {}), LockingRefs({0}, {0}));
  }

  // It has locked the object of the reference as well.
  lemma LockedRemoval() returns (states: seq<State>, events: seq<Event>)
    ensures IsRun(states, events) && AllRead(events)
    ensures states[|events|] == State(map[0 := 5], map[5 := Intact], map[2 := LockingObjects({0}, {5}, {5}, {})])
  {
    states, events := LockedReference();
    assert {} + {5} == {5};
    var x, y := LockingRefs({0}, {0}), LockingObjects({0}, {5}, {}, {});
    states, events := Advance(states, events, 2, SelectCandidates({5}), x, y);
    x, y := y, LockingObjects({0}, {5}, {5}, {});
    states, events := Advance(states, events, 2, LockObject(5), x, y);
  }

  // It has counted and deleted the reference.
  lemma UnreferencedRemoval() returns (states: seq<State>, events: seq<Event>)
    ensures IsRun(states, events) && AllRead(events)
    ensures states[|events|] == State(map[], map[5 := Intact], map[2 := RemovingRefs({0}, {5}, {}, {}, {})])
  {
    states, events := LockedRemoval();
    var x, y := LockingObjects({0}, {5}, {5}, {}), Counting({0}, {5}, {}, {}, {});
    states, events := Advance(states, events, 2, ListReferences, x, y);
    x, y := y, RemovingRefs({0}, {5}, {}, {}, {0});
    states, events := Advance(states, events, 2, StartReferences, x, y);
    x, y := y, RemovingRefs({0}, {5}, {}, {}, {});
    states, events := Advance(states, events, 2, DeleteReference(0), x, y);
  }

  // It dies after the first of many calls that would remove the object.
  lemma LeftRemnant() returns (states: seq<State>, events: seq<Event>)
    ensures IsRun(states, events) && AllRead(events)
    ensures states[|events|] == State(map[], map[5 := Damaged(true)], map[])
  {
    states, events := UnreferencedRemoval();
    var x, y := RemovingRefs({0}, {5}, {}, {}, {}), RemovingObjects({0}, {5}, {}, {5}, None);
    states, events := Advance(states, events, 2, StartObjects, x, y);
    x, y := y, RemovingObjects({0}, {5}, {}, {5}, Some(5));
    states, events := Advance(states, events, 2, BeginObject(5, true), x, y);
    states, events := Extend(states, events, 2, Quit, State(map[], map[5 := Damaged(true)], map[]));
  }

  // A prepare of the same object has locked the remnant.
  lemma LockedRemnant() returns (states: seq<State>, events: seq<Event>)
    ensures IsRun(states, events) && AllRead(events)
    ensures states[|events|] == State(map[], map[5 := Damaged(true)], map[3 := Exclusive(0, 5)])
  {
    states, events := LeftRemnant();
    states, events := Extend(states, events, 3, PrepareStart(0),
                             State(map[], map[5 := Damaged(true)], map[3 := RefLocked(0)]));
    states, events := Advance(states, events, 3, Materialize(5), RefLocked(0), Materialized(0, 5));
    states, events := Advance(states, events, 3, LockExclusive, Materialized(0, 5), Exclusive(0, 5));
  }

  // It opens the remnant and publishes its reference.
  lemma ReferencedRemnant() returns (states: seq<State>, events: seq<Event>)
    ensures IsRun(states, events) && AllRead(events)
    ensures states[|events|] == State(map[0 := 5], map[5 := Damaged(true)], map[3 := Published(0, 5)])
  {
    states, events := LockedRemnant();
    states, events := Advance(states, events, 3, OpenExisting, Exclusive(0, 5), Opened(0, 5));
    states, events := Advance(states, events, 3, PublishReference, Opened(0, 5), Published(0, 5));
  }

  // In the end a published reference names, and a process holds, a remnant.
  lemma RemnantIsAdopted() returns (states: seq<State>, events: seq<Event>)
    ensures IsRun(states, events) && AllRead(events) && !PatientRun(states, events)
    ensures states[|events|] == State(map[0 := 5], map[5 := Damaged(true)], map[3 := Holding(5)])
  {
    states, events := ReferencedRemnant();
    states, events := Advance(states, events, 3, ReleaseExclusive, Published(0, 5), Retaining(0, 5));
    states, events := Advance(states, events, 3, LockShared, Retaining(0, 5), Shared(0, 5));
    states, events := Advance(states, events, 3, OpenShared, Shared(0, 5), Holding(5));
    RemnantMeansImpatience(states, events, 0);
  }

  lemma RemnantMeansImpatience(states: seq<State>, events: seq<Event>, r: RefId)
    requires IsRun(states, events) && AllRead(events) && r in states[|events|].refs
    requires states[|events|].refs[r] in states[|events|].objects
    requires states[|events|].objects[states[|events|].refs[r]] != Intact
    ensures !PatientRun(states, events)
  {
    if PatientRun(states, events) {
      ReadRunsAreHarmless(states, events);
      ReferencedAreIntact(states, events, |events|);
    }
  }
}
