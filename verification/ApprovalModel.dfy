// Approval records with one-shot grants (internal/approval) and the permission
// policy that decides when one is needed (internal/permission).

module ApprovalModel {
  type Id = nat
  type Action = string
  type Bytes = seq<bv8>

  datatype Option<T> = None | Some(value: T)

  // ---- Policy --------------------------------------------------------------------------

  datatype Rule = Unset | Allowing | Denying | Asking | AlwaysAsking

  datatype Verdict = Deny | Allow | Ask

  function Resolve(rule: Rule, default: Rule, yolo: bool): (v: Verdict)
    ensures v == Deny <==> rule == Denying || (rule == Unset && default == Denying && !yolo)
    ensures v == Allow <==> rule != Denying && rule != AlwaysAsking &&
                            (yolo || rule == Allowing || (rule == Unset && default == Allowing))
  {
    if rule == Denying then Deny
    else if rule == AlwaysAsking then Ask
    else if yolo then Allow
    else if rule == Allowing then Allow
    else
      match if rule == Unset then default else rule
      case Allowing => Allow
      case Denying => Deny
      case _ => Ask
  }

  // ---- Records -----------------------------------------------------------------------------

  datatype Status = Pending | Executing | Completed | Denied

  // closes counts how often the decided channel was closed; a second close panics.
  datatype Record = Record(
    action: Action,
    params: Bytes,
    status: Status,
    redeemed: bool,
    response: Option<Bytes>,
    closes: nat)

  type Records = map<Id, Record>

  const MAX_LIVE_RECORDS: nat := 64

  datatype Request = Request(action: Action, params: Bytes, default: Rule)

  predicate Final(x: Record)
  {
    x.status == Completed || x.status == Denied
  }

  // A pending record that already holds the request.
  predicate Holds(x: Record, req: Request)
  {
    x.status == Pending && x.action == req.action && x.params == req.params
  }

  predicate Held(records: Records, req: Request)
  {
    exists id <- records :: Holds(records[id], req)
  }

  // ---- Operations ------------------------------------------------------------------------

  function Created(records: Records, req: Request, newId: Id): Records
  {
    if Held(records, req) || |records| >= MAX_LIVE_RECORDS then records
    else records[newId := Record(req.action, req.params, Pending, false, None, 0)]
  }

  predicate Decidable(records: Records, id: Id)
  {
    id in records && records[id].status == Pending
  }

  function Decided(records: Records, id: Id, approve: bool): Records
  {
    if !Decidable(records, id) then records
    else
      var x := records[id];
      records[id := if approve then x.(status := Executing) else Refuse(x)]
  }

  function Refuse(x: Record): Record
  {
    x.(status := Denied, closes := x.closes + 1)
  }

  predicate Redeemable(records: Records, id: Id, action: Action)
  {
    id in records && records[id].status == Executing && !records[id].redeemed && records[id].action == action
  }

  function Redeemed(records: Records, id: Id, action: Action): Records
  {
    if Redeemable(records, id, action) then records[id := records[id].(redeemed := true)] else records
  }

  predicate Savable(records: Records, id: Id)
  {
    id in records && records[id].status == Executing
  }

  function Saved(records: Records, id: Id, response: Bytes): Records
  {
    if !Savable(records, id) then records
    else
      var x := records[id];
      records[id := x.(status := Completed, response := Some(response), closes := x.closes + 1)]
  }

  function AllDenied(records: Records): Records
  {
    map id | id in records :: if Final(records[id]) then records[id] else Refuse(records[id])
  }

  // ---- The machine -----------------------------------------------------------------------------

  datatype Event =
    | Create(req: Request, newId: Id)
    | Approve(id: Id)
    | Reject(id: Id)
    | Redeem(id: Id, action: Action)
    | Save(id: Id, response: Bytes)
    | DenyAll
    | Authorize(grant: Option<Id>, req: Request, rule: Rule, yolo: bool, newId: Id)

  predicate Enabled(records: Records, e: Event)
  {
    (e.Create? || e.Authorize?) ==> e.newId !in records
  }

  function Take(records: Records, e: Event): Records
  {
    match e
    case Create(req, newId) => Created(records, req, newId)
    case Approve(id) => Decided(records, id, true)
    case Reject(id) => Decided(records, id, false)
    case Redeem(id, action) => Redeemed(records, id, action)
    case Save(id, response) => Saved(records, id, response)
    case DenyAll => AllDenied(records)
    case Authorize(grant, req, rule, yolo, newId) =>
      if grant.Some? then Redeemed(records, grant.value, req.action)
      else if Resolve(rule, req.default, yolo) == Ask then Created(records, req, newId)
      else records
  }

  // Authorize lets the request run.
  predicate Runs(records: Records, e: Event)
  {
    e.Authorize? &&
    if e.grant.Some? then Redeemable(records, e.grant.value, e.req.action)
    else Resolve(e.rule, e.req.default, e.yolo) == Allow
  }

  // The event redeems the grant of id.
  predicate Redeems(records: Records, e: Event, id: Id)
  {
    || (e.Redeem? && e.id == id && Redeemable(records, id, e.action))
    || (e.Authorize? && e.grant == Some(id) && Redeemable(records, id, e.req.action))
  }

  // The event is the approval that changes id.
  predicate Approves(records: Records, e: Event, id: Id)
  {
    e == Approve(id) && Decidable(records, id)
  }

  // The event closes the decided channel of id.
  predicate Closes(records: Records, e: Event, id: Id)
  {
    || (e == Reject(id) && Decidable(records, id))
    || (e.Save? && e.id == id && Savable(records, id))
    || (e == DenyAll && id in records && !Final(records[id]))
  }
}
