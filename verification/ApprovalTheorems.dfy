// What holds over every interleaving of approval operations.

module ApprovalTheorems {
  import opened ApprovalModel

  // ---- One record --------------------------------------------------------------------------

  predicate RecordOk(x: Record)
  {
    && x.closes == (if Final(x) then 1 else 0)
    && (x.redeemed ==> x.status != Pending)
    && (x.response.Some? <==> x.status == Completed)
  }

  predicate SameHeld(x: Record, y: Record)
  {
    x.status == Pending && y.status == Pending && x.action == y.action && x.params == y.params
  }

  predicate Unique(records: Records)
  {
    forall i <- records, j <- records :: SameHeld(records[i], records[j]) ==> i == j
  }

  predicate Inv(records: Records)
  {
    && |records| <= MAX_LIVE_RECORDS
    && Unique(records)
    && forall id <- records :: RecordOk(records[id])
  }

  // How one step may change one record.
  predicate RecordStep(x: Record, y: Record)
  {
    && y.action == x.action && y.params == x.params
    && (Final(x) ==> y == x)
    && (x.redeemed ==> y.redeemed)
    && (y.status == Pending ==> x.status == Pending)
    && (y.status == Executing ==> x.status == Executing || x.status == Pending)
    && (RecordOk(x) ==> RecordOk(y))
  }

  // A step that creates nothing.
  lemma TakeOld(records: Records, e: Event)
    requires !e.Create? && !(e.Authorize? && e.grant.None? && Resolve(e.rule, e.req.default, e.yolo) == Ask)
    ensures Take(records, e).Keys == records.Keys
    ensures forall id <- records :: RecordStep(records[id], Take(records, e)[id])
  {
  }

  lemma CreateKeeps(records: Records, req: Request, newId: Id)
    requires Inv(records) && newId !in records
    ensures Inv(Created(records, req, newId))
    ensures forall id <- records ::
              id in Created(records, req, newId) && Created(records, req, newId)[id] == records[id]
  {
  }

  lemma OldKeeps(records: Records, t: Records)
    requires Inv(records) && t.Keys == records.Keys
    requires forall id <- records :: RecordStep(records[id], t[id])
    ensures Inv(t)
  {
    assert |records.Keys| == |records| && |t.Keys| == |t|;
  }

  lemma TakeKeeps(records: Records, e: Event)
    requires Inv(records) && Enabled(records, e)
    ensures Inv(Take(records, e))
    ensures forall id <- records :: id in Take(records, e) && RecordStep(records[id], Take(records, e)[id])
  {
    if e.Create? {
      CreateKeeps(records, e.req, e.newId);
    } else if e.Authorize? && e.grant.None? && Resolve(e.rule, e.req.default, e.yolo) == Ask {
      CreateKeeps(records, e.req, e.newId);
    } else {
      TakeOld(records, e);
      OldKeeps(records, Take(records, e));
    }
  }

  // ---- Runs ------------------------------------------------------------------------------------

  predicate IsRun(states: seq<Records>, events: seq<Event>)
  {
    && |states| == |events| + 1
    && states[0] == map[]
    && forall i | 0 <= i < |events| :: StepAt(states, events, i)
  }

  predicate StepAt(states: seq<Records>, events: seq<Event>, i: nat)
    requires |states| == |events| + 1 && i < |events|
  {
    Enabled(states[i], events[i]) && states[i + 1] == Take(states[i], events[i])
  }

  lemma {:induction false} RunInv(states: seq<Records>, events: seq<Event>, i: nat)
    requires IsRun(states, events) && i < |states|
    ensures Inv(states[i])
  {
    if i > 0 {
      RunInv(states, events, i - 1);
      assert StepAt(states, events, i - 1);
      TakeKeeps(states[i - 1], events[i - 1]);
    }
  }

  lemma RunStep(states: seq<Records>, events: seq<Event>, i: nat)
    requires IsRun(states, events) && i < |events|
    ensures forall id <- states[i] :: id in states[i + 1] && RecordStep(states[i][id], states[i + 1][id])
  {
    RunInv(states, events, i);
    assert StepAt(states, events, i);
    TakeKeeps(states[i], events[i]);
  }

  // At most one pending record holds a request, the number of records stays
  // bounded, and a decided channel has been closed exactly when its record is
  // final.
  lemma RecordsStayWellFormed(states: seq<Records>, events: seq<Event>, i: nat)
    requires IsRun(states, events) && i < |states|
    ensures |states[i]| <= MAX_LIVE_RECORDS && Unique(states[i])
    ensures forall id <- states[i] :: states[i][id].closes == if Final(states[i][id]) then 1 else 0
    ensures forall id <- states[i] :: states[i][id].response.Some? <==> states[i][id].status == Completed
  {
    RunInv(states, events, i);
  }

  // Records are never forgotten; what identifies them never changes, and a final
  // record, with its response, never changes at all.
  lemma {:induction false} FinalIsForever(states: seq<Records>, events: seq<Event>, i: nat, j: nat, id: Id)
    requires IsRun(states, events) && i <= j < |states| && id in states[i]
    ensures id in states[j]
    ensures states[j][id].action == states[i][id].action && states[j][id].params == states[i][id].params
    ensures Final(states[i][id]) ==> states[j][id] == states[i][id]
    ensures states[i][id].redeemed ==> states[j][id].redeemed
    ensures states[i][id].status != Pending ==> states[j][id].status != Pending
  {
    if i < j {
      FinalIsForever(states, events, i, j - 1, id);
      RunStep(states, events, j - 1);
    }
  }

  // The channel of a record closes in exactly the step that makes it final.
  lemma ClosesOnBecomingFinal(states: seq<Records>, events: seq<Event>, i: nat, id: Id)
    requires IsRun(states, events) && i < |events| && id in states[i + 1]
    ensures Closes(states[i], events[i], id) <==>
            Final(states[i + 1][id]) && !(id in states[i] && Final(states[i][id]))
    ensures Closes(states[i], events[i], id) ==> id in states[i] && states[i][id].closes == 0
  {
    RunInv(states, events, i);
    assert StepAt(states, events, i);
  }

  // ---- Grants ----------------------------------------------------------------------------------

  lemma RedeemMarks(states: seq<Records>, events: seq<Event>, i: nat, id: Id)
    requires IsRun(states, events) && i < |events| && Redeems(states[i], events[i], id)
    ensures id in states[i + 1] && states[i + 1][id].redeemed
  {
    assert StepAt(states, events, i);
  }

  // No approval is redeemed twice.
  lemma RedeemedAtMostOnce(states: seq<Records>, events: seq<Event>, i: nat, j: nat, id: Id)
    requires IsRun(states, events) && i < |events| && j < |events|
    requires Redeems(states[i], events[i], id) && Redeems(states[j], events[j], id)
    ensures i == j
  {
    if i < j {
      RedeemMarks(states, events, i, id);
      FinalIsForever(states, events, i + 1, j, id);
    } else if j < i {
      RedeemMarks(states, events, j, id);
      FinalIsForever(states, events, j + 1, i, id);
    }
  }

  // Exactly one approval of a record observes the change.
  lemma ApprovedAtMostOnce(states: seq<Records>, events: seq<Event>, i: nat, j: nat, id: Id)
    requires IsRun(states, events) && i < j < |events| && Approves(states[i], events[i], id)
    ensures !Approves(states[j], events[j], id)
  {
    assert StepAt(states, events, i);
    FinalIsForever(states, events, i + 1, j, id);
  }

  lemma ExecutingByApproval(records: Records, e: Event, id: Id)
    requires Enabled(records, e) && id in Take(records, e) && Take(records, e)[id].status == Executing
    ensures (id in records && records[id].status == Executing) || Approves(records, e, id)
  {
  }

  lemma {:induction false} ExecutingWasApproved(states: seq<Records>, events: seq<Event>, j: nat, id: Id)
    returns (i: nat)
    requires IsRun(states, events) && j < |states| && id in states[j] && states[j][id].status == Executing
    ensures i < j && Approves(states[i], events[i], id)
  {
    i := j - 1;
    assert StepAt(states, events, i);
    ExecutingByApproval(states[i], events[i], id);
    if !Approves(states[i], events[i], id) {
      i := ExecutingWasApproved(states, events, i, id);
    }
  }

  // A redemption follows the approval that changed the record, for the action the
  // record was created with.
  lemma RedemptionFollowsApproval(states: seq<Records>, events: seq<Event>, j: nat, id: Id) returns (i: nat)
    requires IsRun(states, events) && j < |events| && Redeems(states[j], events[j], id)
    ensures i < j && Approves(states[i], events[i], id)
    ensures id in states[i]
    ensures states[i][id].action == if events[j].Redeem? then events[j].action else events[j].req.action
  {
    i := ExecutingWasApproved(states, events, j, id);
    FinalIsForever(states, events, i, j, id);
  }

  // When the policy asks, a request runs only by redeeming, as the only one, a
  // grant that was approved before.
  lemma AskingRunsOnlyByRedemption(states: seq<Records>, events: seq<Event>, j: nat) returns (i: nat)
    requires IsRun(states, events) && j < |events| && Runs(states[j], events[j])
    requires Resolve(events[j].rule, events[j].req.default, events[j].yolo) != Allow
    ensures events[j].grant.Some?
    ensures var id := events[j].grant.value;
            && i < j && Approves(states[i], events[i], id)
            && Redeems(states[j], events[j], id)
            && forall k | 0 <= k < |events| && k != j :: !Redeems(states[k], events[k], id)
  {
    var id := events[j].grant.value;
    i := RedemptionFollowsApproval(states, events, j, id);
    forall k | 0 <= k < |events| && k != j
      ensures !Redeems(states[k], events[k], id)
    {
      if Redeems(states[k], events[k], id) {
        RedeemedAtMostOnce(states, events, k, j, id);
      }
    }
  }

  // ---- How a record became final ---------------------------------------------------------------

  // The event carries out the saved response of id.
  predicate Saves(records: Records, e: Event, id: Id, response: Bytes)
  {
    e == Save(id, response) && id in records && records[id].status == Executing
  }

  // The event refuses id: a rejection while it is pending, or the end of all
  // records while it is open.
  predicate Refuses(records: Records, e: Event, id: Id)
  {
    || (e == Reject(id) && id in records && records[id].status == Pending)
    || (e == DenyAll && id in records && records[id].status in {Pending, Executing})
  }

  lemma CompletedBySave(records: Records, e: Event, id: Id)
    requires Enabled(records, e) && id in Take(records, e) && Take(records, e)[id].status == Completed
    requires !(id in records && records[id].status == Completed)
    ensures e.Save? && Saves(records, e, id, e.response)
    ensures Take(records, e)[id].response == Some(e.response)
  {
  }

  lemma DeniedByRefusal(records: Records, e: Event, id: Id)
    requires Enabled(records, e) && id in Take(records, e) && Take(records, e)[id].status == Denied
    requires !(id in records && records[id].status == Denied)
    ensures Refuses(records, e, id)
  {
  }

  // A completed record was saved while it was executing, and holds the bytes that
  // were saved.
  lemma {:induction false} CompletedWasSaved(states: seq<Records>, events: seq<Event>, j: nat, id: Id)
    returns (i: nat)
    requires IsRun(states, events) && j < |states| && id in states[j] && states[j][id].status == Completed
    ensures i < j && events[i].Save? && Saves(states[i], events[i], id, events[i].response)
    ensures states[j][id].response == Some(events[i].response)
  {
    i := j - 1;
    assert StepAt(states, events, i);
    if id in states[i] && states[i][id].status == Completed {
      FinalIsForever(states, events, i, j, id);
      i := CompletedWasSaved(states, events, i, id);
    } else {
      CompletedBySave(states[i], events[i], id);
    }
  }

  // A denied record was rejected while it was pending, or met the end of all
  // records while it was open; it holds no response.
  lemma {:induction false} DeniedWasRefused(states: seq<Records>, events: seq<Event>, j: nat, id: Id)
    returns (i: nat)
    requires IsRun(states, events) && j < |states| && id in states[j] && states[j][id].status == Denied
    ensures i < j && Refuses(states[i], events[i], id)
    ensures states[j][id].response == None
  {
    RunInv(states, events, j);
    i := j - 1;
    assert StepAt(states, events, i);
    if id in states[i] && states[i][id].status == Denied {
      i := DeniedWasRefused(states, events, i, id);
    } else {
      DeniedByRefusal(states[i], events[i], id);
    }
  }

  // And every refusal and every save takes effect at once.
  lemma RefusedIsDenied(states: seq<Records>, events: seq<Event>, i: nat, id: Id)
    requires IsRun(states, events) && i < |events| && Refuses(states[i], events[i], id)
    ensures id in states[i + 1] && states[i + 1][id].status == Denied
  {
    assert StepAt(states, events, i);
  }

  lemma SavedIsCompleted(states: seq<Records>, events: seq<Event>, i: nat, id: Id, response: Bytes)
    requires IsRun(states, events) && i < |events| && Saves(states[i], events[i], id, response)
    ensures id in states[i + 1] && states[i + 1][id].status == Completed
    ensures states[i + 1][id].response == Some(response)
  {
    assert StepAt(states, events, i);
  }

  lemma ApprovedIsExecuting(states: seq<Records>, events: seq<Event>, i: nat, id: Id)
    requires IsRun(states, events) && i < |events| && events[i] == Approve(id)
    requires id in states[i] && states[i][id].status == Pending
    ensures id in states[i + 1] && states[i + 1][id].status == Executing && !states[i + 1][id].redeemed
  {
    RunInv(states, events, i);
    assert StepAt(states, events, i);
  }

  // An event touches the record it names and no other, unless it ends them all.
  lemma OthersUntouched(states: seq<Records>, events: seq<Event>, i: nat, id: Id)
    requires IsRun(states, events) && i < |events| && id in states[i] && events[i] != DenyAll
    requires match events[i]
             case Approve(j) => j != id
             case Reject(j) => j != id
             case Redeem(j, _) => j != id
             case Save(j, _) => j != id
             case Authorize(grant, _, _, _, _) => grant != Some(id)
             case _ => true
    ensures id in states[i + 1] && states[i + 1][id] == states[i][id]
  {
    assert StepAt(states, events, i);
  }
}
