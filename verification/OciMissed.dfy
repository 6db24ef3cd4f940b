// What happens when a removal cannot read a reference.
//
// referenceObjectCounts skips references that cannot be read or decoded.

module OciMissed {
  import opened OciProtocol
  import opened OciInvariant
  import opened OciTheorems

  // ---- Building runs -------------------------------------------------------------------

  lemma Extend(states: seq<State>, events: seq<Event>, p: Pid, a: Step, next: State)
    returns (more: seq<State>, log: seq<Event>)
    requires IsRun(states, events) && Enabled(states[|events|], p, a) && next == Take(states[|events|], p, a)
    ensures IsRun(more, log) && more == states + [next] && log == events + [Event(p, a)]
  {
    more, log := states + [next], events + [Event(p, a)];
    forall i | 0 <= i < |log|
      ensures StepAt(more, log, i)
    {
      if i < |events| {
        assert StepAt(states, events, i);
      }
    }
  }

  // A step of the only process of the last state.
  lemma Advance(states: seq<State>, events: seq<Event>, p: Pid, a: Step, x: Proc, y: Proc)
    returns (more: seq<State>, log: seq<Event>)
    requires IsRun(states, events) && states[|events|].procs == map[p := x]
    requires At(x, a) && Allowed(states[|events|], x, a) && !a.Quit? && y == Next(states[|events|].refs, x, a)
    ensures IsRun(more, log) && log == events + [Event(p, a)]
    ensures var s := states[|events|];
            more[|log|] == State(RefsAfter(s.refs, x, a), ObjectsAfter(s.objects, x, a), map[p := y])
  {
    more, log := Extend(states, events, p, a, Take(states[|events|], p, a));
  }

  // One image is prepared under reference 0 as object 5.
  lemma OneImage() returns (states: seq<State>, events: seq<Event>)
    ensures IsRun(states, events) && AllRead(events)
    ensures states[|events|] == State(map[0 := 5], map[5 := Intact], map[])
  {
    states, events := ExclusiveImage();
    states, events := Advance(states, events, 1, PublishObject, Exclusive(0, 5), Opened(0, 5));
    states, events := Advance(states, events, 1, PublishReference, Opened(0, 5), Published(0, 5));
    states, events := Extend(states, events, 1, Quit, State(map[0 := 5], map[5 := Intact], map[]));
  }

  lemma ExclusiveImage() returns (states: seq<State>, events: seq<Event>)
    ensures IsRun(states, events) && AllRead(events)
    ensures states[|events|] == State(map[], map[], map[1 := Exclusive(0, 5)])
  {
    states, events := Extend([INITIAL], [], 1, PrepareStart(0), State(map[], map[], map[1 := RefLocked(0)]));
    states, events := Advance(states, events, 1, Materialize(5), RefLocked(0), Materialized(0, 5));
    states, events := Advance(states, events, 1, LockExclusive, Materialized(0, 5), Exclusive(0, 5));
  }

  // ---- How a removal ends that saw no reference to an object ------------------------------

  // The events of log from n on miss no reference.
  predicate ReadsFrom(log: seq<Event>, n: nat)
  {
    forall i | n <= i < |log| :: !log[i].step.MissReference?
  }

  // p counts everything it has left, none of which names o.
  lemma {:induction false} CountRest(states: seq<State>, events: seq<Event>, p: Pid, o: Obj)
    returns (more: seq<State>, log: seq<Event>)
    requires IsRun(states, events) && p in states[|events|].procs
    requires var s := states[|events|]; var x := s.procs[p];
             && x.Counting? && o in x.held && o !in x.live
             && forall q <- x.names :: q in s.refs ==> s.refs[q] != o
    ensures IsRun(more, log) && events <= log && states <= more && ReadsFrom(log, |events|)
    ensures var s, t := states[|events|], more[|log|];
            && t.refs == s.refs && p in t.procs && t.procs[p].Counting? && t.procs[p].names == {}
            && t.procs[p].ids == s.procs[p].ids && o in t.procs[p].held && o !in t.procs[p].live
    decreases |states[|events|].procs[p].names|
  {
    var s := states[|events|];
    if s.procs[p].names == {} {
      more, log := states, events;
    } else {
      var q :| q in s.procs[p].names;
      var t := Take(s, p, CountReference(q));
      var ms, ml := Extend(states, events, p, CountReference(q), t);
      assert |t.procs[p].names| < |s.procs[p].names|;
      more, log := CountRest(ms, ml, p, o);
    }
  }

  // p deletes its selected references, among which r is not.
  lemma {:induction false} DeleteRest(states: seq<State>, events: seq<Event>, p: Pid, r: RefId, o: Obj)
    returns (more: seq<State>, log: seq<Event>)
    requires IsRun(states, events) && p in states[|events|].procs
    requires var s := states[|events|]; var x := s.procs[p];
             && x.RemovingRefs? && o in x.held && o !in x.live && r !in x.left && r in s.refs && s.refs[r] == o
    ensures IsRun(more, log) && events <= log && states <= more && ReadsFrom(log, |events|)
    ensures var t := more[|log|];
            && p in t.procs && t.procs[p].RemovingRefs? && t.procs[p].left == {}
            && o in t.procs[p].held && o !in t.procs[p].live && r in t.refs && t.refs[r] == o
    decreases |states[|events|].procs[p].left|
  {
    var s := states[|events|];
    if s.procs[p].left == {} {
      more, log := states, events;
    } else {
      var q :| q in s.procs[p].left;
      var t := Take(s, p, DeleteReference(q));
      var ms, ml := Extend(states, events, p, DeleteReference(q), t);
      assert |t.procs[p].left| < |s.procs[p].left|;
      more, log := DeleteRest(ms, ml, p, r, o);
    }
  }

  // p deletes o although r names it.
  lemma DeleteObject(states: seq<State>, events: seq<Event>, p: Pid, r: RefId, o: Obj)
    returns (more: seq<State>, log: seq<Event>)
    requires IsRun(states, events) && p in states[|events|].procs
    requires var s := states[|events|]; var x := s.procs[p];
             && x.RemovingRefs? && x.left == {} && o in x.held && o !in x.live && r in s.refs && s.refs[r] == o
    ensures IsRun(more, log) && events <= log && states <= more && ReadsFrom(log, |events|)
    ensures r in more[|log|].refs && more[|log|].refs[r] !in more[|log|].objects
  {
    var s := states[|events|];
    var t := Take(s, p, StartObjects);
    more, log := Extend(states, events, p, StartObjects, t);
    var u := Take(t, p, BeginObject(o, false));
    more, log := Extend(more, log, p, BeginObject(o, false), u);
    more, log := Extend(more, log, p, FinishObject, Take(u, p, FinishObject));
  }

  // ---- Moving other references out of the way -------------------------------------------------

  lemma {:induction false} UpperBound(s: set<nat>) returns (b: nat)
    ensures forall x <- s :: x < b
  {
    if s == {} {
      b := 0;
    } else {
      var x :| x in s;
      b := UpperBound(s - {x});
      assert forall y <- s :: y == x || y in s - {x};
      b := if x < b then b else x + 1;
    }
  }

  function Locked(procs: map<Pid, Proc>): set<Obj>
  {
    (set z, x | z in procs && x in ExclusiveLocks(procs[z]) :: x) +
    (set z, x | z in procs && x in SharedLocks(procs[z]) :: x)
  }

  lemma UnlockedIsFree(procs: map<Pid, Proc>, o: Obj)
    requires o !in Locked(procs)
    ensures ExclusiveFree(procs, o)
  {
    forall z | z in procs
      ensures o !in ExclusiveLocks(procs[z]) && o !in SharedLocks(procs[z])
    {
    }
  }

  // Whoever else has locked the reference gives it up.
  lemma FreeReference(states: seq<State>, events: seq<Event>, p: Pid, q: RefId)
    returns (more: seq<State>, log: seq<Event>)
    requires IsRun(states, events) && p in states[|events|].procs && q !in RefLocks(states[|events|].procs[p])
    ensures IsRun(more, log) && events <= log && states <= more && ReadsFrom(log, |events|)
    ensures var s, t := states[|events|], more[|log|];
            && t.refs == s.refs && p in t.procs && t.procs[p] == s.procs[p] && RefFree(t.procs, q)
  {
    var s := states[|events|];
    if z :| z in s.procs && q in RefLocks(s.procs[z]) {
      RunGuarded(states, events, |events|);
      more, log := Extend(states, events, z, Quit, Take(s, z, Quit));
      forall y | y in more[|log|].procs
        ensures q !in RefLocks(more[|log|].procs[y])
      {
        assert Compatible(s.procs[z], s.procs[y]);
      }
    } else {
      more, log := states, events;
    }
  }

  // A newcomer n is about to publish the reference for the object b.
  lemma PrepareElsewhere(states: seq<State>, events: seq<Event>, n: Pid, q: RefId, b: Obj)
    returns (more: seq<State>, log: seq<Event>)
    requires IsRun(states, events) && n !in states[|events|].procs && RefFree(states[|events|].procs, q)
    requires b !in Locked(states[|events|].procs)
    ensures IsRun(more, log) && events <= log && states <= more && ReadsFrom(log, |events|)
    ensures var s, t := states[|events|], more[|log|];
            t == State(s.refs, s.objects, s.procs[n := Exclusive(q, b)])
  {
    var s := states[|events|];
    UnlockedIsFree(s.procs, b);
    var t := s.(procs := s.procs[n := RefLocked(q)]);
    more, log := Extend(states, events, n, PrepareStart(q), t);
    var u := s.(procs := s.procs[n := Materialized(q, b)]);
    assert t.procs[n := Materialized(q, b)] == u.procs;
    more, log := Extend(more, log, n, Materialize(b), u);
    var v := s.(procs := s.procs[n := Exclusive(q, b)]);
    assert u.procs[n := Exclusive(q, b)] == v.procs;
    more, log := Extend(more, log, n, LockExclusive, v);
  }

  lemma PublishElsewhere(states: seq<State>, events: seq<Event>, n: Pid, q: RefId, b: Obj)
    returns (more: seq<State>, log: seq<Event>)
    requires IsRun(states, events) && n in states[|events|].procs
    requires states[|events|].procs[n] == Exclusive(q, b) && !Found(states[|events|].objects, b)
    ensures IsRun(more, log) && events <= log && states <= more && ReadsFrom(log, |events|)
    ensures var s, t := states[|events|], more[|log|];
            t.refs == s.refs[q := b] && t.procs == s.procs[n := Published(q, b)]
  {
    var s := states[|events|];
    var t := Take(s, n, PublishObject);
    more, log := Extend(states, events, n, PublishObject, t);
    more, log := Extend(more, log, n, PublishReference, Take(t, n, PublishReference));
  }

  // Another process moves the reference q to an object other than o.
  lemma MoveAway(states: seq<State>, events: seq<Event>, p: Pid, q: RefId, o: Obj)
    returns (more: seq<State>, log: seq<Event>)
    requires IsRun(states, events) && p in states[|events|].procs && q !in RefLocks(states[|events|].procs[p])
    ensures IsRun(more, log) && events <= log && states <= more && ReadsFrom(log, |events|)
    ensures var s, t := states[|events|], more[|log|];
            && p in t.procs && t.procs[p] == s.procs[p]
            && q in t.refs && t.refs[q] != o && t.refs == s.refs[q := t.refs[q]]
  {
    more, log := FreeReference(states, events, p, q);
    var s := more[|log|];
    var n := UpperBound(s.procs.Keys);
    var b := UpperBound(Locked(s.procs) + s.objects.Keys + {o});
    assert o < b && b !in Locked(s.procs) && b !in s.objects && n !in s.procs;
    more, log := PrepareElsewhere(more, log, n, q, b);
    more, log := PublishElsewhere(more, log, n, q, b);
  }

  // The other references to o that x has still to read.
  function Rivals(refs: map<RefId, Obj>, x: Proc, r: RefId, o: Obj): set<RefId>
    requires x.Counting?
  {
    set q | q in x.names && q != r && q in refs && refs[q] == o
  }

  // All of them can be moved away before x reads them.
  lemma {:induction false} MoveRivals(states: seq<State>, events: seq<Event>, p: Pid, r: RefId, o: Obj)
    returns (more: seq<State>, log: seq<Event>)
    requires IsRun(states, events) && p in states[|events|].procs && states[|events|].procs[p].Counting?
    requires r in states[|events|].refs && states[|events|].refs[r] == o
    ensures IsRun(more, log) && events <= log && states <= more && ReadsFrom(log, |events|)
    ensures var s, t := states[|events|], more[|log|];
            && p in t.procs && t.procs[p] == s.procs[p] && r in t.refs && t.refs[r] == o
            && Rivals(t.refs, t.procs[p], r, o) == {}
    decreases |Rivals(states[|events|].refs, states[|events|].procs[p], r, o)|
  {
    var s := states[|events|];
    var rivals := Rivals(s.refs, s.procs[p], r, o);
    if rivals == {} {
      more, log := states, events;
    } else {
      var q :| q in rivals;
      RunGuarded(states, events, |events|);
      assert Shaped(s.procs[p]);
      var ms, ml := MoveAway(states, events, p, q, o);
      var t := ms[|ml|];
      assert Rivals(t.refs, t.procs[p], r, o) == rivals - {q};
      more, log := MoveRivals(ms, ml, p, r, o);
    }
  }

  // ---- The exact condition -----------------------------------------------------------------------

  // After p misses r, a run in which everything else is read may end with r
  // naming a deleted object.
  ghost predicate MayDangle(states: seq<State>, events: seq<Event>, p: Pid, r: RefId)
  {
    exists more, log :: Dangles(states, events, p, r, more, log)
  }

  predicate Dangles(
    states: seq<State>, events: seq<Event>, p: Pid, r: RefId, more: seq<State>, log: seq<Event>)
  {
    && IsRun(more, log) && states <= more && events < log
    && log[|events|] == Event(p, MissReference(r)) && ReadsFrom(log, |events| + 1)
    && r in more[|log|].refs && more[|log|].refs[r] !in more[|log|].objects
  }

  // The miss and what follows, once no rival is left.
  lemma DangleAfterMiss(states: seq<State>, events: seq<Event>, p: Pid, r: RefId, o: Obj)
    returns (more: seq<State>, log: seq<Event>)
    requires IsRun(states, events) && p in states[|events|].procs
    requires var s := states[|events|]; var x := s.procs[p];
             && x.Counting? && r !in x.names && r !in x.ids && o in x.held && o !in x.live
             && r in s.refs && s.refs[r] == o && Rivals(s.refs, x, r, o) == {}
    ensures IsRun(more, log) && events <= log && ReadsFrom(log, |events|)
    ensures r in more[|log|].refs && more[|log|].refs[r] !in more[|log|].objects
    ensures states <= more
  {
    var s := states[|events|];
    forall q | q in s.procs[p].names && q in s.refs
      ensures s.refs[q] != o
    {
      assert q !in Rivals(s.refs, s.procs[p], r, o);
    }
    more, log := CountRest(states, events, p, o);
    var t := more[|log|];
    more, log := Extend(more, log, p, StartReferences, Take(t, p, StartReferences));
    more, log := DeleteRest(more, log, p, r, o);
    more, log := DeleteObject(more, log, p, r, o);
  }

  lemma HarmfulMissDangles(states: seq<State>, events: seq<Event>, p: Pid, r: RefId)
    requires IsRun(states, events) && p in states[|events|].procs
    requires states[|events|].procs[p].Counting? && r in states[|events|].procs[p].names
    requires Harmful(states[|events|].refs, states[|events|].procs[p], r)
    ensures MayDangle(states, events, p, r)
  {
    var s := states[|events|];
    var o := s.refs[r];
    RunGuarded(states, events, |events|);
    assert Shaped(s.procs[p]);
    var more, log := Extend(states, events, p, MissReference(r), Take(s, p, MissReference(r)));
    more, log := MoveRivals(more, log, p, r, o);
    more, log := DangleAfterMiss(more, log, p, r, o);
    assert Dangles(states, events, p, r, more, log);
  }

  lemma HarmlessMissNeverDangles(
    states: seq<State>, events: seq<Event>, p: Pid, r: RefId, more: seq<State>, log: seq<Event>)
    requires IsRun(states, events) && HarmlessMisses(states, events) && p in states[|events|].procs
    requires !Harmful(states[|events|].refs, states[|events|].procs[p], r)
    ensures !Dangles(states, events, p, r, more, log)
  {
    if Dangles(states, events, p, r, more, log) {
      forall i | 0 <= i < |log|
        ensures HarmlessStep(more[i], log[i].p, log[i].step)
      {
        if i < |events| {
          assert HarmlessStep(states[i], events[i].p, events[i].step);
          assert more[i] == states[i] && log[i] == events[i];
        } else if i == |events| {
          assert more[i] == states[i];
        }
      }
      HarmlessMissesNeverDangle(more, log, |log|, r);
    }
  }

  // A missed reference can end up naming a deleted object exactly when it names an
  // object that the removal has locked and has not counted a reference to.
  lemma MissDanglesIffHarmful(states: seq<State>, events: seq<Event>, p: Pid, r: RefId)
    requires IsRun(states, events) && HarmlessMisses(states, events) && p in states[|events|].procs
    requires states[|events|].procs[p].Counting? && r in states[|events|].procs[p].names
    ensures MayDangle(states, events, p, r) <==> Harmful(states[|events|].refs, states[|events|].procs[p], r)
  {
    if Harmful(states[|events|].refs, states[|events|].procs[p], r) {
      HarmfulMissDangles(states, events, p, r);
    } else {
      forall more, log
        ensures !Dangles(states, events, p, r, more, log)
      {
        HarmlessMissNeverDangles(states, events, p, r, more, log);
      }
    }
  }

  // ---- A concrete run --------------------------------------------------------------------

  // A removal has selected object 5.
  lemma SelectedRemoval() returns (states: seq<State>, events: seq<Event>)
    ensures IsRun(states, events)
    ensures states[|events|] ==
            State(map[0 := 5], map[5 := Intact], map[2 := LockingObjects({}, {5}, {}, {})])
  {
    states, events := OneImage();
    states, events := Extend(states, events, 2, RemoveStart({}),
                             State(map[0 := 5], map[5 := Intact], map[2 := LockingRefs({}, {})]));
    states, events := Advance(states, events, 2, SelectCandidates({5}), LockingRefs({}, {}),
                              LockingObjects({}, {5}, {}, {}));
  }

  // It has locked the object and is about to count the references.
  lemma StartedRemoval() returns (states: seq<State>, events: seq<Event>)
    ensures IsRun(states, events)
    ensures states[|events|] ==
            State(map[0 := 5], map[5 := Intact], map[2 := Counting({}, {5}, {0}, {}, {})])
  {
    states, events := SelectedRemoval();
    var x, y := LockingObjects({}, {5}, {}, {}), LockingObjects({}, {5}, {5}, {});
    assert {} + {5} == {5};
    states, events := Advance(states, events, 2, LockObject(5), x, y);
    x, y := y, Counting({}, {5}, {0}, {}, {});
    states, events := Advance(states, events, 2, ListReferences, x, y);
  }

  // The one reference to object 5 cannot be read, and names nothing afterwards.
  lemma MissedReferenceDangles() returns (states: seq<State>, events: seq<Event>)
    ensures IsRun(states, events) && !AllRead(events)
    ensures 0 in states[|events|].refs && states[|events|].refs[0] !in states[|events|].objects
  {
    var before, log := StartedRemoval();
    HarmfulMissDangles(before, log, 2, 0);
    states, events :| Dangles(before, log, 2, 0, states, events);
    assert events[|log|].step.MissReference?;
  }
}
