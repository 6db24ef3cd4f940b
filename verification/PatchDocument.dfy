// JSON documents, the lookup of internal/configpatch/compile.go and the add,
// remove and replace operations of sections 4.1 to 4.3 of RFC 6902.

module PatchDocument {
  import opened PatchPointer

  datatype Json =
    | Null
    | Bool(b: bool)
    | Int(i: int)
    | Str(s: string)
    | Arr(items: seq<Json>)
    | Obj(fields: map<string, Json>)

  type Path = seq<string>

  const EMPTY_OBJECT := Obj(map[])

  // ---- Children ----------------------------------------------------------------------

  function Child(node: Json, t: string): Option<Json>
  {
    match node
    case Obj(fields) => if t in fields then Some(fields[t]) else None
    case Arr(items) =>
      (match ParseIndex(t, |items|)
       case Some(i) => Some(items[i])
       case None => None)
    case _ => None
  }

  // node with the child at t replaced.
  function SetChild(node: Json, t: string, v: Json): Json
    requires Child(node, t).Some?
  {
    match node
    case Obj(fields) => Obj(fields[t := v])
    case Arr(items) => Arr(items[ParseIndex(t, |items|).value := v])
  }

  lemma SetChildFacts(node: Json, t: string, v: Json, w: Json)
    requires Child(node, t).Some?
    ensures Child(SetChild(node, t, v), t) == Some(v)
    ensures SetChild(SetChild(node, t, v), t, w) == SetChild(node, t, w)
    ensures SetChild(node, t, Child(node, t).value) == node
  {
  }

  lemma SetChildOther(node: Json, t: string, v: Json, u: string)
    requires Child(node, t).Some? && u != t
    ensures Child(SetChild(node, t, v), u) == Child(node, u)
  {
    if node.Arr? {
      var n := |node.items|;
      var i := ParseIndex(t, n).value;
      IndexIffNumeral(t, n, i);
      IndexIffNumeral(u, n, i);
    }
  }

  // ---- Lookup --------------------------------------------------------------------------

  datatype Found = Node(node: Json) | Missing | BadIndex | NoDescent

  function Lookup(node: Json, path: Path): Found
    decreases |path|
  {
    if path == [] then Node(node)
    else
      match node
      case Obj(fields) => if path[0] in fields then Lookup(fields[path[0]], path[1..]) else Missing
      case Arr(items) =>
        (match ParseIndex(path[0], |items|)
         case Some(i) => Lookup(items[i], path[1..])
         case None => BadIndex)
      case _ => NoDescent
  }

  lemma LookupChild(node: Json, t: string, rest: Path)
    requires Child(node, t).Some?
    ensures Lookup(node, [t] + rest) == Lookup(Child(node, t).value, rest)
  {
    assert ([t] + rest)[1..] == rest;
  }

  method LookupPath(document: Json, path: Path) returns (r: Found)
    ensures r == Lookup(document, path)
  {
    var current := document;
    for i := 0 to |path|
      invariant Lookup(document, path) == Lookup(current, path[i..])
    {
      assert path[i..][1..] == path[i + 1..];
      match current
      case Obj(fields) =>
        if path[i] !in fields {
          return Missing;
        }
        current := fields[path[i]];
      case Arr(items) =>
        var index := ParseArrayIndex(path[i], |items|);
        if index.None? {
          return BadIndex;
        }
        current := items[index.value];
      case _ =>
        return NoDescent;
    }
    return Node(current);
  }

  // ---- Edits -------------------------------------------------------------------------------

  datatype Edit = Add(value: Json) | Remove | Replace(value: Json)

  // The effect of an edit on the node that holds its target.
  function EditChild(node: Json, t: string, e: Edit): Option<Json>
  {
    match node
    case Obj(fields) =>
      (match e
       case Add(v) => Some(Obj(fields[t := v]))
       case Remove => if t in fields then Some(Obj(fields - {t})) else None
       case Replace(v) => if t in fields then Some(Obj(fields[t := v])) else None)
    case Arr(items) =>
      (match e
       case Add(v) =>
         if t == "-" then Some(Arr(items + [v]))
         else
           (match ParseIndex(t, |items| + 1)
            case Some(i) => Some(Arr(items[..i] + [v] + items[i..]))
            case None => None)
       case Remove =>
         (match ParseIndex(t, |items|)
          case Some(i) => Some(Arr(items[..i] + items[i + 1..]))
          case None => None)
       case Replace(v) =>
         (match ParseIndex(t, |items|)
          case Some(i) => Some(Arr(items[i := v]))
          case None => None))
    case _ => None
  }

  function EditAt(node: Json, path: Path, e: Edit): Option<Json>
    requires path != []
    decreases |path|
  {
    if |path| == 1 then EditChild(node, path[0], e)
    else
      match Child(node, path[0])
      case None => None
      case Some(c) =>
        (match EditAt(c, path[1..], e)
         case None => None
         case Some(d) => Some(SetChild(node, path[0], d)))
  }

  // ---- Operations -------------------------------------------------------------------------

  datatype Operation = Operation(path: string, edit: Edit)

  function ApplyOne(document: Json, op: Operation): Option<Json>
  {
    match Parse(op.path)
    case None => None
    case Some(path) => EditAt(document, path, op.edit)
  }

  function ApplyAll(document: Json, ops: seq<Operation>): Option<Json>
    decreases |ops|
  {
    if ops == [] then Some(document)
    else
      match ApplyOne(document, ops[0])
      case None => None
      case Some(d) => ApplyAll(d, ops[1..])
  }

  // Replaying a concatenation is replaying the parts in order.
  lemma {:induction false} ApplyAppend(document: Json, a: seq<Operation>, b: seq<Operation>)
    ensures ApplyAll(document, a + b) ==
            match ApplyAll(document, a) { case None => None case Some(d) => ApplyAll(d, b) }
    decreases |a|
  {
    if a == [] {
      assert a + b == b;
    } else {
      assert (a + b)[1..] == a[1..] + b;
      var d := ApplyOne(document, a[0]);
      if d.Some? {
        ApplyAppend(d.value, a[1..], b);
      }
    }
  }

  // An object document stays one.
  lemma {:induction false} RootStaysObject(document: Json, ops: seq<Operation>)
    requires document.Obj? && ApplyAll(document, ops).Some?
    ensures ApplyAll(document, ops).value.Obj?
    decreases |ops|
  {
    if ops != [] {
      RootStaysObject(ApplyOne(document, ops[0]).value, ops[1..]);
    }
  }

  // ---- Raw operations, as sections 4.1 to 4.6 of RFC 6902 give them their meaning ---------------

  datatype RawOperation =
    | Raw(path: string, edit: Edit)
    | Move(from: string, path: string)
    | Copy(from: string, path: string)
    | Test(path: string, value: Json)

  // The value at a pointer; the empty pointer is the whole document.
  function Resolve(document: Json, pointer: string): Option<Json>
  {
    if pointer == "" then Some(document)
    else
      match Parse(pointer)
      case None => None
      case Some(path) =>
        (match Lookup(document, path)
         case Node(node) => Some(node)
         case _ => None)
  }

  function Place(document: Json, pointer: string, e: Edit): Option<Json>
  {
    if pointer != "" then ApplyOne(document, Operation(pointer, e))
    else
      match e
      case Add(v) => Some(v)
      case Replace(v) => Some(v)
      case Remove => None
  }

  // A value cannot be moved into itself.
  function MoveValue(document: Json, from: string, path: string): Option<Json>
  {
    if from + "/" <= path then None
    else
      match Resolve(document, from)
      case None => None
      case Some(v) =>
        (match Place(document, from, Remove)
         case None => None
         case Some(d) => Place(d, path, Add(v)))
  }

  function ApplyRaw(document: Json, op: RawOperation): Option<Json>
  {
    match op
    case Raw(path, edit) => Place(document, path, edit)
    case Move(from, path) => MoveValue(document, from, path)
    case Copy(from, path) =>
      (match Resolve(document, from)
       case None => None
       case Some(v) => Place(document, path, Add(v)))
    case Test(path, value) => if Resolve(document, path) == Some(value) then Some(document) else None
  }

  function ApplyRaws(document: Json, ops: seq<RawOperation>): Option<Json>
    decreases |ops|
  {
    if ops == [] then Some(document)
    else
      match ApplyRaw(document, ops[0])
      case None => None
      case Some(d) => ApplyRaws(d, ops[1..])
  }

  predicate PointerOk(pointer: string)
  {
    pointer == "" || Parse(pointer).Some?
  }

  // validateOperation.
  predicate ValidRaw(op: RawOperation)
  {
    PointerOk(op.path) && (op.Move? || op.Copy? ==> op.from != "" && PointerOk(op.from))
  }

  // ---- Edits addressed by paths below a node -------------------------------------------------

  datatype Change = Change(path: Path, edit: Edit)

  predicate Addressed(changes: seq<Change>)
  {
    forall c <- changes :: c.path != []
  }

  function Rendered(changes: seq<Change>): (ops: seq<Operation>)
    ensures |ops| == |changes|
    ensures forall i | 0 <= i < |ops| :: ops[i] == Operation(Format(changes[i].path), changes[i].edit)
  {
    seq(|changes|, i requires 0 <= i < |changes| => Operation(Format(changes[i].path), changes[i].edit))
  }

  function Under(prefix: Path, changes: seq<Change>): (r: seq<Change>)
    ensures |r| == |changes|
    ensures forall i | 0 <= i < |r| :: r[i] == Change(prefix + changes[i].path, changes[i].edit)
  {
    seq(|changes|, i requires 0 <= i < |changes| => Change(prefix + changes[i].path, changes[i].edit))
  }

  function ChangeAll(node: Json, changes: seq<Change>): Option<Json>
    requires Addressed(changes)
    decreases |changes|
  {
    if changes == [] then Some(node)
    else
      match EditAt(node, changes[0].path, changes[0].edit)
      case None => None
      case Some(d) => ChangeAll(d, changes[1..])
  }

  // Formatted pointers address what the paths address.
  lemma {:induction false} RenderedApplies(document: Json, changes: seq<Change>)
    requires Addressed(changes)
    ensures ApplyAll(document, Rendered(changes)) == ChangeAll(document, changes)
    decreases |changes|
  {
    if changes != [] {
      ParseFormat(changes[0].path);
      assert Rendered(changes)[1..] == Rendered(changes[1..]);
      var d := EditAt(document, changes[0].path, changes[0].edit);
      if d.Some? {
        RenderedApplies(d.value, changes[1..]);
      }
    }
  }

  // Changes below one child change that child and nothing else.
  lemma {:induction false} UnderChild(node: Json, t: string, changes: seq<Change>)
    requires Child(node, t).Some? && Addressed(changes)
    ensures Addressed(Under([t], changes))
    ensures ChangeAll(node, Under([t], changes)) ==
            match ChangeAll(Child(node, t).value, changes)
            { case None => None case Some(d) => Some(SetChild(node, t, d)) }
    decreases |changes|
  {
    var under := Under([t], changes);
    SetChildFacts(node, t, Child(node, t).value, Child(node, t).value);
    if changes != [] {
      var c := changes[0];
      assert under[0].path == [t] + c.path && ([t] + c.path)[1..] == c.path;
      assert under[1..] == Under([t], changes[1..]);
      var d := EditAt(Child(node, t).value, c.path, c.edit);
      if d.Some? {
        var next := SetChild(node, t, d.value);
        UnderChild(next, t, changes[1..]);
        SetChildFacts(node, t, d.value, d.value);
        var e := ChangeAll(d.value, changes[1..]);
        if e.Some? {
          SetChildFacts(node, t, d.value, e.value);
        }
      }
    }
  }
}
