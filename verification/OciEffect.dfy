// What a removal that runs to its end has removed, whatever other processes did
// meanwhile.

module OciEffect {
  import opened OciProtocol
  import opened OciInvariant
  import opened OciTheorems

  // The objects that the process p has found referenced since it started its
  // removal.
  function Seen(states: seq<State>, events: seq<Event>, i: nat, p: Pid): set<Obj>
    requires |states| == |events| + 1 && i <= |events|
    decreases i
  {
    if i == 0 then {}
    else
      var seen, e := Seen(states, events, i - 1, p), events[i - 1];
      if e.p == p && e.step.RemoveStart? then {}
      else if e.p == p && e.step.CountReference? && e.step.r in states[i - 1].refs then
        seen + {states[i - 1].refs[e.step.r]}
      else seen
  }

  // The references that the process p was asked to remove when it last started.
  function Asked(events: seq<Event>, i: nat, p: Pid): set<RefId>
    requires i <= |events|
    decreases i
  {
    if i == 0 then {}
    else if events[i - 1].p == p && events[i - 1].step.RemoveStart? then events[i - 1].step.ids
    else Asked(events, i - 1, p)
  }

  // The program points of a removal.
  predicate Removes(x: Proc)
  {
    x.LockingRefs? || x.LockingObjects? || x.Counting? || x.RemovingRefs? || x.RemovingObjects?
  }

  lemma {:induction false} RemovesWhatWasAsked(states: seq<State>, events: seq<Event>, i: nat, p: Pid)
    requires IsRun(states, events) && i < |states| && p in states[i].procs && Removes(states[i].procs[p])
    ensures states[i].procs[p].ids == Asked(events, i, p)
    decreases i
  {
    assert i > 0;
    assert StepAt(states, events, i - 1);
    if p in states[i - 1].procs && Removes(states[i - 1].procs[p]) {
      RemovesWhatWasAsked(states, events, i - 1, p);
    }
  }

  // What a removal has achieved so far: the references it has dealt with are gone,
  // and so are the objects, except those that seen names.
  predicate Achieved(x: Proc, refs: map<RefId, Obj>, objects: map<Obj, Health>, seen: set<Obj>)
  {
    match x
    case Counting(_, _, _, live, _) => live <= seen
    case RemovingRefs(ids, _, live, _, left) => live <= seen && forall r <- ids :: r in left || r !in refs
    case RemovingObjects(ids, held, _, left, _) =>
      && (forall r <- ids :: r !in refs)
      && (forall o <- held :: o in left || o in seen || o !in objects)
    case _ => true
  }

  function SeenBy(refs: map<RefId, Obj>, a: Step): set<Obj>
  {
    if a.CountReference? && a.r in refs then {refs[a.r]} else {}
  }

  lemma NextAchieved(s: State, x: Proc, a: Step, seen: set<Obj>)
    requires At(x, a) && Allowed(s, x, a) && Shaped(x) && Achieved(x, s.refs, s.objects, seen)
    ensures Achieved(Next(s.refs, x, a), RefsAfter(s.refs, x, a), ObjectsAfter(s.objects, x, a),
                     seen + SeenBy(s.refs, a))
  {
  }

  lemma OthersAchieved(s: State, x: Proc, a: Step, y: Proc, seen: set<Obj>)
    requires At(x, a) && Shaped(x) && Compatible(x, y) && Achieved(y, s.refs, s.objects, seen)
    ensures Achieved(y, RefsAfter(s.refs, x, a), ObjectsAfter(s.objects, x, a), seen)
  {
    if y.RemovingObjects? {
      forall o | o in y.held
        ensures o in y.left || o in seen || o !in ObjectsAfter(s.objects, x, a)
      {
        OnlyLockedObjectsChange(s.objects, x, a, o);
      }
    }
  }

  lemma TakeAchieves(s: State, q: Pid, a: Step, p: Pid, seen: set<Obj>)
    requires Guarded(s) && Enabled(s, q, a) && p in Take(s, q, a).procs
    requires p in s.procs ==> Achieved(s.procs[p], s.refs, s.objects, seen)
    ensures var t := Take(s, q, a);
            Achieved(t.procs[p], t.refs, t.objects, if q == p then seen + SeenBy(s.refs, a) else seen)
  {
    if q in s.procs && !a.Quit? {
      if q == p {
        NextAchieved(s, s.procs[p], a, seen);
      } else {
        assert Compatible(s.procs[q], s.procs[p]);
        OthersAchieved(s, s.procs[q], a, s.procs[p], seen);
      }
    }
  }

  lemma FreshAchieved(s: State, q: Pid, a: Step, p: Pid, seen: set<Obj>)
    requires Enabled(s, q, a) && q == p && (a.RemoveStart? || a.PrepareStart?)
    ensures var t := Take(s, q, a); Achieved(t.procs[p], t.refs, t.objects, seen)
  {
  }

  lemma {:induction false} RunAchieves(states: seq<State>, events: seq<Event>, i: nat, p: Pid)
    requires IsRun(states, events) && i < |states| && p in states[i].procs
    ensures Achieved(states[i].procs[p], states[i].refs, states[i].objects, Seen(states, events, i, p))
    decreases i
  {
    assert i > 0;
    var s, q, a := states[i - 1], events[i - 1].p, events[i - 1].step;
    assert StepAt(states, events, i - 1);
    RunGuarded(states, events, i - 1);
    if q == p && (a.RemoveStart? || a.PrepareStart?) {
      FreshAchieved(s, q, a, p, Seen(states, events, i, p));
    } else {
      if p in s.procs {
        RunAchieves(states, events, i - 1, p);
      }
      TakeAchieves(s, q, a, p, Seen(states, events, i - 1, p));
    }
  }

  // At step k the removal p read a reference to o that it had not been asked to
  // remove, and it has not started anew since.
  predicate FoundReferenced(states: seq<State>, events: seq<Event>, k: nat, i: nat, p: Pid, o: Obj)
    requires |states| == |events| + 1 && i <= |events|
  {
    && k < i && events[k].p == p && events[k].step.CountReference?
    && events[k].step.r in states[k].refs && states[k].refs[events[k].step.r] == o
    && events[k].step.r !in Asked(events, i, p)
    && forall m | k <= m < i :: events[m].p == p ==> !events[m].step.RemoveStart?
  }

  lemma {:induction false} SeenWasReferenced(states: seq<State>, events: seq<Event>, i: nat, p: Pid, o: Obj)
    returns (k: nat)
    requires IsRun(states, events) && i < |states| && o in Seen(states, events, i, p)
    ensures FoundReferenced(states, events, k, i, p, o)
    decreases i
  {
    k := i - 1;
    assert StepAt(states, events, k);
    RunGuarded(states, events, k);
    if o in Seen(states, events, k, p) {
      k := SeenWasReferenced(states, events, k, p, o);
    } else {
      RemovesWhatWasAsked(states, events, k, p);
    }
  }

  // The removal p is through: every object it set out to remove is dealt with.
  predicate Finished(s: State, p: Pid)
  {
    p in s.procs && s.procs[p].RemovingObjects? && s.procs[p].left == {}
  }

  // A removal that is through has deleted every reference it was asked to remove.
  lemma FinishedRemovesReferences(states: seq<State>, events: seq<Event>, i: nat, p: Pid)
    requires IsRun(states, events) && i < |states| && Finished(states[i], p)
    ensures forall r <- Asked(events, i, p) :: r !in states[i].refs
  {
    RemovesWhatWasAsked(states, events, i, p);
    RunAchieves(states, events, i, p);
  }

  // And every object it had locked, except those for which it read a reference
  // that stays.
  lemma FinishedRemovesObjects(states: seq<State>, events: seq<Event>, i: nat, p: Pid, o: Obj)
    requires IsRun(states, events) && i < |states| && Finished(states[i], p)
    requires o in states[i].procs[p].held && o in states[i].objects
    ensures exists k: nat :: FoundReferenced(states, events, k, i, p, o)
  {
    RunAchieves(states, events, i, p);
    var k := SeenWasReferenced(states, events, i, p, o);
  }

  // ---- What a preparation leaves alone -------------------------------------------------------

  // An object that opens is adopted as it is: whoever holds its exclusive lock to
  // publish it changes nothing, and objects are published only where none opens.
  lemma ExistingIsAdopted(states: seq<State>, events: seq<Event>, i: nat)
    requires IsRun(states, events) && i < |events| && events[i].p in states[i].procs
    requires states[i].procs[events[i].p].Exclusive? && Found(states[i].objects, states[i].procs[events[i].p].o)
    ensures states[i + 1].objects == states[i].objects && states[i + 1].refs == states[i].refs
  {
    assert StepAt(states, events, i);
  }

  // A preparation publishes its reference to the object it has prepared, and to no
  // other, and touches no other reference.
  lemma PublicationNames(states: seq<State>, events: seq<Event>, i: nat)
    requires IsRun(states, events) && i < |events| && events[i].step.PublishReference?
    ensures var p := events[i].p;
            && p in states[i].procs && states[i].procs[p].Opened?
            && states[i + 1].refs == states[i].refs[states[i].procs[p].r := states[i].procs[p].o]
            && Found(states[i + 1].objects, states[i].procs[p].o)
  {
    assert StepAt(states, events, i);
    RunGuarded(states, events, i);
    assert KnowsObjects(states[i].procs[events[i].p], states[i].objects);
  }
}
