// What holds over every run of any number of preparing and removing processes.

module OciTheorems {
  import opened OciProtocol
  import opened OciInvariant

  datatype Event = Event(p: Pid, step: Step)

  predicate IsRun(states: seq<State>, events: seq<Event>)
  {
    && |states| == |events| + 1
    && states[0] == INITIAL
    && forall i | 0 <= i < |events| :: StepAt(states, events, i)
  }

  predicate StepAt(states: seq<State>, events: seq<Event>, i: nat)
    requires |states| == |events| + 1 && i < |events|
  {
    Enabled(states[i], events[i].p, events[i].step) &&
    states[i + 1] == Take(states[i], events[i].p, events[i].step)
  }

  // Every reference file that a removal lists can be read and decoded.
  predicate AllRead(events: seq<Event>)
  {
    forall i | 0 <= i < |events| :: !events[i].step.MissReference?
  }

  // No removal is cut short in the middle of an object.
  predicate PatientRun(states: seq<State>, events: seq<Event>)
    requires |states| == |events| + 1
  {
    forall i | 0 <= i < |events| :: Patient(states[i], events[i].p, events[i].step)
  }

  lemma {:induction false} RunGuarded(states: seq<State>, events: seq<Event>, i: nat)
    requires IsRun(states, events) && i < |states|
    ensures Guarded(states[i])
  {
    if i > 0 {
      RunGuarded(states, events, i - 1);
      assert StepAt(states, events, i - 1);
      TakeKeepsGuarded(states[i - 1], events[i - 1].p, events[i - 1].step);
    }
  }

  // Missing r costs the removal x a reference it needed to see: r names an object
  // that x has locked and has not found referenced yet.
  predicate Harmful(refs: map<RefId, Obj>, x: Proc, r: RefId)
  {
    x.Counting? && r in refs && refs[r] in x.held && refs[r] !in x.live
  }

  predicate HarmlessStep(s: State, p: Pid, a: Step)
  {
    a.MissReference? && p in s.procs ==> !Harmful(s.refs, s.procs[p], a.r)
  }

  predicate HarmlessMisses(states: seq<State>, events: seq<Event>)
    requires |states| == |events| + 1
  {
    forall i | 0 <= i < |events| :: HarmlessStep(states[i], events[i].p, events[i].step)
  }

  // A reference x missed names nothing that x will remove.
  predicate Spared(x: Proc, o: Obj)
  {
    && (x.Counting? || x.RemovingRefs? ==> o !in x.held || o in x.live)
    && (x.RemovingObjects? ==> o !in x.left)
  }

  function Missed(x: Proc): set<RefId>
  {
    if x.Counting? || x.RemovingRefs? || x.RemovingObjects? then x.missed else {}
  }

  predicate MissesSpared(x: Proc, refs: map<RefId, Obj>)
  {
    forall q <- Missed(x) :: q in refs ==> Spared(x, refs[q])
  }

  lemma NextMissesSpared(refs: map<RefId, Obj>, x: Proc, a: Step)
    requires At(x, a) && (a.ReadReference? ==> x.r in refs) && Shaped(x) && MissesSpared(x, refs)
    requires a.MissReference? ==> !Harmful(refs, x, a.r)
    ensures MissesSpared(Next(refs, x, a), RefsAfter(refs, x, a))
  {
  }

  lemma OthersMissesSpared(refs: map<RefId, Obj>, x: Proc, a: Step, y: Proc)
    requires At(x, a) && Compatible(x, y) && Shaped(y) && MissesSpared(y, refs)
    ensures MissesSpared(y, RefsAfter(refs, x, a))
  {
  }

  predicate AllSpared(s: State)
  {
    forall p <- s.procs :: MissesSpared(s.procs[p], s.refs)
  }

  lemma TakeKeepsSpared(s: State, p: Pid, a: Step)
    requires Guarded(s) && AllSpared(s) && Enabled(s, p, a) && HarmlessStep(s, p, a)
    ensures AllSpared(Take(s, p, a))
  {
    if !a.PrepareStart? && !a.RemoveStart? && !a.Quit? {
      var t := Moved(s, p, a);
      NextMissesSpared(s.refs, s.procs[p], a);
      forall q | q in t.procs
        ensures MissesSpared(t.procs[q], t.refs)
      {
        if q != p {
          OthersMissesSpared(s.refs, s.procs[p], a, s.procs[q]);
        }
      }
    }
  }

  // A removal that spares what it missed is careful.
  lemma SparingIsCareful(s: State, p: Pid, a: Step)
    requires AllSpared(s) && Enabled(s, p, a)
    ensures CarefulStep(s, p, a)
  {
    if p in s.procs && a.BeginObject? {
      assert MissesSpared(s.procs[p], s.refs);
    }
  }

  lemma {:induction false} RunInv(states: seq<State>, events: seq<Event>, i: nat)
    requires IsRun(states, events) && HarmlessMisses(states, events) && i < |states|
    ensures Inv(states[i]) && AllSpared(states[i])
  {
    if i > 0 {
      RunInv(states, events, i - 1);
      var p, a := events[i - 1].p, events[i - 1].step;
      assert StepAt(states, events, i - 1) && HarmlessStep(states[i - 1], p, a);
      SparingIsCareful(states[i - 1], p, a);
      TakeKeeps(states[i - 1], p, a);
      TakeKeepsSpared(states[i - 1], p, a);
    }
  }

  lemma ReadRunsAreHarmless(states: seq<State>, events: seq<Event>)
    requires |states| == |events| + 1 && AllRead(events)
    ensures HarmlessMisses(states, events)
  {
  }

  lemma {:induction false} RunTended(states: seq<State>, events: seq<Event>, i: nat)
    requires IsRun(states, events) && PatientRun(states, events) && i < |states|
    ensures Tended(states[i])
  {
    if i > 0 {
      RunTended(states, events, i - 1);
      RunGuarded(states, events, i - 1);
      assert StepAt(states, events, i - 1);
      TakeKeepsTended(states[i - 1], events[i - 1].p, events[i - 1].step);
    }
  }

  // ---- Leases ------------------------------------------------------------------------

  lemma OtherLeavesHeld(s: State, p: Pid, q: Pid, a: Step)
    requires Guarded(s) && p in s.procs && s.procs[p].Holding? && Enabled(s, q, a)
    requires p in Take(s, q, a).procs && Take(s, q, a).procs[p] == s.procs[p]
    ensures s.procs[p].o in s.objects && s.procs[p].o in Take(s, q, a).objects
    ensures Take(s, q, a).objects[s.procs[p].o] == s.objects[s.procs[p].o]
  {
    assert KnowsObjects(s.procs[p], s.objects);
    if !a.PrepareStart? && !a.RemoveStart? && !a.Quit? {
      assert q != p ==> Compatible(s.procs[p], s.procs[q]);
      OnlyLockedObjectsChange(s.objects, s.procs[q], a, s.procs[p].o);
    }
  }

  // While a prepared image is held its object is neither deleted nor damaged,
  // whatever any other process does, misses or leaves unfinished.
  lemma {:induction false} HeldNeverDeleted(states: seq<State>, events: seq<Event>, i: nat, j: nat, p: Pid, o: Obj)
    requires IsRun(states, events) && i <= j < |states|
    requires forall k | i <= k <= j :: p in states[k].procs && states[k].procs[p] == Holding(o)
    ensures Found(states[i].objects, o) && Found(states[j].objects, o)
    ensures states[j].objects[o] == states[i].objects[o]
  {
    RunGuarded(states, events, i);
    assert KnowsObjects(states[i].procs[p], states[i].objects);
    if i < j {
      HeldNeverDeleted(states, events, i, j - 1, p, o);
      assert StepAt(states, events, j - 1);
      RunGuarded(states, events, j - 1);
      OtherLeavesHeld(states[j - 1], p, events[j - 1].p, events[j - 1].step);
    }
  }

  // ---- References --------------------------------------------------------------------

  // As long as no miss is harmful, every published reference names an object
  // that can be opened.
  lemma HarmlessMissesNeverDangle(states: seq<State>, events: seq<Event>, i: nat, r: RefId)
    requires IsRun(states, events) && HarmlessMisses(states, events) && i < |states| && r in states[i].refs
    ensures Found(states[i].objects, states[i].refs[r])
  {
    RunInv(states, events, i);
  }

  // In particular when every reference file can be read and decoded.
  lemma ReferencesNeverDangle(states: seq<State>, events: seq<Event>, i: nat, r: RefId)
    requires IsRun(states, events) && AllRead(events) && i < |states| && r in states[i].refs
    ensures Found(states[i].objects, states[i].refs[r])
  {
    ReadRunsAreHarmless(states, events);
    HarmlessMissesNeverDangle(states, events, i, r);
  }

  // The errors for a missing published object cannot happen: once a process has
  // its shared lease, cached or freshly published, the object opens.
  lemma RetainedObjectOpens(states: seq<State>, events: seq<Event>, i: nat, p: Pid)
    requires IsRun(states, events) && HarmlessMisses(states, events) && i < |states|
    requires p in states[i].procs && states[i].procs[p].Shared?
    ensures Enabled(states[i], p, OpenShared)
    ensures var x := states[i].procs[p]; x.r in states[i].refs && states[i].refs[x.r] == x.o
  {
    RunInv(states, events, i);
    assert KnowsRefs(states[i].procs[p], states[i].refs);
  }

  // ---- Whole objects ---------------------------------------------------------------------

  // Without interrupted removals every held object is whole, whatever else a
  // removal misses.
  lemma HeldAreIntact(states: seq<State>, events: seq<Event>, i: nat)
    requires IsRun(states, events) && PatientRun(states, events) && i < |states|
    ensures forall p <- states[i].procs :: states[i].procs[p].Holding? ==>
              var o := states[i].procs[p].o; o in states[i].objects && states[i].objects[o] == Intact
  {
    var s := states[i];
    RunGuarded(states, events, i);
    RunTended(states, events, i);
    forall p | p in s.procs && s.procs[p].Holding?
      ensures s.procs[p].o in s.objects && s.objects[s.procs[p].o] == Intact
    {
      HeldIsIntact(s, p);
    }
  }

  // And as long as no miss is harmful, every referenced object is whole too.
  lemma ReferencedAreIntact(states: seq<State>, events: seq<Event>, i: nat)
    requires IsRun(states, events) && HarmlessMisses(states, events) && PatientRun(states, events) && i < |states|
    ensures forall r <- states[i].refs ::
              states[i].refs[r] in states[i].objects && states[i].objects[states[i].refs[r]] == Intact
  {
    var s := states[i];
    RunInv(states, events, i);
    RunTended(states, events, i);
    forall r | r in s.refs
      ensures s.refs[r] in s.objects && s.objects[s.refs[r]] == Intact
    {
      ReferencedIsIntact(s, r);
    }
  }
}
