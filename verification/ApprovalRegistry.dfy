// The registry object: every method is one mutex-held block.

module ApprovalRegistry {
  import opened ApprovalModel
  import opened ApprovalTheorems

  datatype CreateResult = Existing(id: Id) | Fresh(id: Id) | Full

  datatype Authorization = Run | Refused | Unknown | MustWait(id: Id) | NoRoom

  class Registry {
    var records: Records

    constructor ()
      ensures records == map[] && Valid()
    {
      records := map[];
    }

    predicate Valid()
      reads this
    {
      Inv(records)
    }

    // The scan for a pending record that already holds the request.
    method FindHeld(req: Request) returns (r: Option<Id>)
      requires Valid()
      ensures r.None? <==> !Held(records, req)
      ensures r.Some? ==> r.value in records && Holds(records[r.value], req)
      ensures r.Some? ==> forall id <- records :: Holds(records[id], req) ==> id == r.value
    {
      var left := records.Keys;
      while left != {}
        invariant left <= records.Keys
        invariant forall id <- records :: id !in left ==> !Holds(records[id], req)
        decreases left
      {
        var id :| id in left;
        var x := records[id];
        if x.status == Pending && x.action == req.action && x.params == req.params {
          assert forall j <- records :: Holds(records[j], req) ==> SameHeld(records[id], records[j]);
          return Some(id);
        }
        left := left - {id};
      }
      return None;
    }

    // An identical pending request shares its record.
    method Create(req: Request, newId: Id) returns (r: CreateResult)
      requires Valid() && newId !in records
      modifies this
      ensures Valid() && records == Created(old(records), req, newId)
      ensures r.Existing? <==> old(Held(records, req))
      ensures r.Full? <==> !old(Held(records, req)) && |old(records)| >= MAX_LIVE_RECORDS
      ensures !r.Full? ==> r.id in records && Holds(records[r.id], req) && !records[r.id].redeemed
      ensures r.Fresh? ==> r.id == newId
      ensures forall j <- old(records) :: j in records && records[j] == old(records)[j]
    {
      TakeKeeps(records, Event.Create(req, newId));
      var held := FindHeld(req);
      if held.Some? {
        return Existing(held.value);
      }
      if |records| >= MAX_LIVE_RECORDS {
        return Full;
      }
      records := records[newId := Record(req.action, req.params, Pending, false, None, 0)];
      return Fresh(newId);
    }

    // The change a decision makes, when it makes one.
    method DecidePending(id: Id, approve: bool)
      requires Decidable(records, id)
      modifies this
      ensures records == Decided(old(records), id, approve)
    {
      var current := records[id].(status := if approve then Executing else Denied);
      if current.status == Denied {
        current := current.(closes := current.closes + 1);
      }
      records := records[id := current];
    }

    // approve and deny; a status is reported for every known record.
    method Decide(id: Id, approve: bool) returns (status: Option<Status>, changed: bool)
      requires Valid()
      modifies this
      ensures Valid() && records == Decided(old(records), id, approve)
      ensures changed == old(Decidable(records, id))
      ensures status == if id in records then Some(records[id].status) else None
      ensures changed ==> status == Some(if approve then Executing else Denied) && records[id].response == None
      ensures forall j <- records :: j != id ==> j in old(records) && records[j] == old(records)[j]
    {
      TakeKeeps(records, if approve then Approve(id) else Reject(id));
      if id !in records {
        return None, false;
      }
      changed := records[id].status == Pending;
      if changed {
        DecidePending(id, approve);
      }
      status := Some(records[id].status);
    }

    method RedeemGrant(id: Id, action: Action) returns (r: Authorization)
      requires Valid()
      modifies this
      ensures Valid() && records == Redeemed(old(records), id, action)
      ensures r.Run? <==> old(Redeemable(records, id, action))
      ensures r.Unknown? <==> id !in old(records)
      ensures r.Run? || r.Unknown? || r.Refused?
      ensures r.Run? ==> records[id].redeemed && records[id].status == Executing
      ensures forall j <- records :: j != id ==> j in old(records) && records[j] == old(records)[j]
    {
      TakeKeeps(records, Redeem(id, action));
      if id !in records {
        return Unknown;
      }
      var current := records[id];
      if current.status != Executing || current.redeemed || current.action != action {
        return Refused;
      }
      records := records[id := current.(redeemed := true)];
      return Run;
    }

    method Complete(id: Id, response: Bytes)
      requires Savable(records, id)
      modifies this
      ensures records == Saved(old(records), id, response)
    {
      var current := records[id].(status := Completed, response := Some(response));
      records := records[id := current.(closes := current.closes + 1)];
    }

    method SaveResponse(id: Id, response: Bytes) returns (ok: bool)
      requires Valid()
      modifies this
      ensures Valid() && records == Saved(old(records), id, response)
      ensures ok <==> id in old(records) && old(records)[id].status == Executing
      ensures ok ==> records[id].status == Completed && records[id].response == Some(response)
      ensures forall j <- records :: j != id ==> j in old(records) && records[j] == old(records)[j]
    {
      TakeKeeps(records, Save(id, response));
      ok := id in records && records[id].status == Executing;
      if ok {
        Complete(id, response);
      }
    }

    // The loop of denyAll.
    method RefuseOpen()
      modifies this
      ensures records == AllDenied(old(records))
    {
      ghost var start := records;
      var left := records.Keys;
      while left != {}
        invariant left <= records.Keys == start.Keys
        invariant forall id <- left :: records[id] == start[id]
        invariant forall id <- records :: id !in left ==> records[id] == AllDenied(start)[id]
        decreases left
      {
        var id :| id in left;
        var current := records[id];
        if current.status == Pending || current.status == Executing {
          records := records[id := current.(status := Denied, closes := current.closes + 1)];
        }
        left := left - {id};
      }
    }

    method DenyAll()
      requires Valid()
      modifies this
      ensures Valid() && records == AllDenied(old(records)) && records.Keys == old(records.Keys)
      ensures forall id <- records ::
                if old(records)[id].status in {Pending, Executing} then records[id].status == Denied
                else records[id] == old(records)[id]
    {
      TakeKeeps(records, Event.DenyAll);
      RefuseOpen();
    }

    // Resolves the policy for a request without a grant.
    method AuthorizeByPolicy(req: Request, rule: Rule, yolo: bool, newId: Id) returns (r: Authorization)
      requires Valid() && newId !in records
      modifies this
      ensures Valid()
      ensures r.Run? <==> Resolve(rule, req.default, yolo) == Allow
      ensures r.Refused? <==> Resolve(rule, req.default, yolo) == Deny
      ensures records ==
              if Resolve(rule, req.default, yolo) == Ask then Created(old(records), req, newId) else old(records)
      ensures r.MustWait? ==> r.id in records && Holds(records[r.id], req)
    {
      var verdict := Resolve(rule, req.default, yolo);
      if verdict == Allow {
        return Run;
      }
      if verdict == Deny {
        return Refused;
      }
      var created := Create(req, newId);
      return if created.Full? then NoRoom else MustWait(created.id);
    }

    // A grant redeems an approval instead of resolving the policy.
    method Authorize(grant: Option<Id>, req: Request, rule: Rule, yolo: bool, newId: Id) returns (r: Authorization)
      requires Valid() && newId !in records
      modifies this
      ensures Valid()
      ensures var e := Event.Authorize(grant, req, rule, yolo, newId);
              records == Take(old(records), e) && (r.Run? <==> Runs(old(records), e))
      ensures r.MustWait? ==> r.id in records && Holds(records[r.id], req)
    {
      if grant.Some? {
        r := RedeemGrant(grant.value, req.action);
      } else {
        r := AuthorizeByPolicy(req, rule, yolo, newId);
      }
    }
  }
}
