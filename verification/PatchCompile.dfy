// The intent compiler (internal/configpatch/compile.go, apply.go, patch.go): the
// operations it emits, against what each intent means for the document.

module PatchCompile {
  import opened PatchPointer
  import opened PatchDocument

  // One member that must be present or absent at a pointer.
  datatype Intent = Intent(pointer: string, value: Json)

  datatype Patch = Patch(ensure: seq<Intent>, remove: seq<Intent>, operations: seq<RawOperation>)

  datatype CompileError = BadPointer | IndexError | DescentError

  datatype Result<T> = Ok(value: T) | Err(error: CompileError)

  // ---- What ensure means -------------------------------------------------------------

  function NewNode(want: Json): Json
  {
    if want.Obj? || want.Arr? then want else Arr([want])
  }

  // The node at the pointer afterwards.
  function EnsuredNode(node: Option<Json>, want: Json): Json
  {
    match node
    case None => NewNode(want)
    case Some(Arr(items)) => if want in items then Arr(items) else Arr(items + [want])
    case Some(_) => want
  }

  // The document afterwards, with missing objects created on the way.
  function Ensured(node: Option<Json>, path: Path, want: Json): Option<Json>
    decreases |path|
  {
    if path == [] then Some(EnsuredNode(node, want))
    else
      var t, rest := path[0], path[1..];
      match node
      case None =>
        (match Ensured(None, rest, want)
         case None => None
         case Some(d) => Some(Obj(map[t := d])))
      case Some(Obj(fields)) =>
        (match Ensured(if t in fields then Some(fields[t]) else None, rest, want)
         case None => None
         case Some(d) => Some(Obj(fields[t := d])))
      case Some(Arr(items)) =>
        (match ParseIndex(t, |items|)
         case None => None
         case Some(i) =>
           match Ensured(Some(items[i]), rest, want)
           case None => None
           case Some(d) => Some(Arr(items[i := d])))
      case Some(_) => None
  }

  // ---- What compileEnsure emits ----------------------------------------------------------

  // The changes for an existing child at t.
  function ExistingChanges(t: string, child: Json, want: Json): (r: seq<Change>)
    ensures Addressed(r)
  {
    match child
    case Arr(items) => if want in items then [] else [Change([t, "-"], Add(want))]
    case _ => if child == want then [] else [Change([t], Replace(want))]
  }

  // The changes below node, with paths relative to it.
  function EnsureChanges(node: Json, path: Path, want: Json): (r: Result<seq<Change>>)
    requires path != []
    ensures r.Ok? ==> Addressed(r.value)
    decreases |path|
  {
    var t, rest := path[0], path[1..];
    if node.Obj? && t !in node.fields then
      if rest == [] then Ok([Change([t], Add(NewNode(want)))])
      else Below([Change([t], Add(EMPTY_OBJECT))], [t], EnsureChanges(EMPTY_OBJECT, rest, want))
    else if !node.Obj? && !node.Arr? then Err(DescentError)
    else if Child(node, t).None? then Err(IndexError)
    else if rest == [] then Ok(ExistingChanges(t, Child(node, t).value, want))
    else Below([], [t], EnsureChanges(Child(node, t).value, rest, want))
  }

  // Changes already emitted followed by changes below a prefix.
  function Below(done: seq<Change>, prefix: Path, r: Result<seq<Change>>): (all: Result<seq<Change>>)
    ensures all.Ok? <==> r.Ok?
    ensures r.Ok? && Addressed(done) && Addressed(r.value) ==> Addressed(all.value)
  {
    match r
    case Err(e) => Err(e)
    case Ok(changes) => Ok(done + Under(prefix, changes))
  }

  lemma UnderUnder(prefix: Path, t: string, changes: seq<Change>)
    ensures Under(prefix, Under([t], changes)) == Under(prefix + [t], changes)
  {
    forall i | 0 <= i < |changes|
      ensures prefix + ([t] + changes[i].path) == prefix + [t] + changes[i].path
    {
    }
  }

  lemma BelowRoot(r: Result<seq<Change>>)
    ensures Below([], [], r) == r
  {
    if r.Ok? {
      forall i | 0 <= i < |r.value|
        ensures [] + r.value[i].path == r.value[i].path
      {
      }
      assert [] + Under([], r.value) == r.value;
    }
  }

  lemma BelowBelow(done: seq<Change>, prefix: Path, more: seq<Change>, t: string, r: Result<seq<Change>>)
    ensures Below(done, prefix, Below(more, [t], r)) == Below(done + Under(prefix, more), prefix + [t], r)
  {
    if r.Ok? {
      UnderUnder(prefix, t, r.value);
      var under := Under([t], r.value);
      assert Under(prefix, more + under) == Under(prefix, more) + Under(prefix, under);
      assert done + (Under(prefix, more) + Under(prefix, under)) == done + Under(prefix, more) + Under(prefix, under);
    }
  }

  // ---- compileEnsure -------------------------------------------------------------------------

  // The operations a compilation renders.
  function Operations(r: Result<seq<Change>>): Result<seq<Operation>>
  {
    match r
    case Err(e) => Err(e)
    case Ok(changes) => Ok(Rendered(changes))
  }

  function CompiledEnsure(document: Json, item: Intent): Result<seq<Operation>>
  {
    match Parse(item.pointer)
    case None => Err(BadPointer)
    case Some(path) => Operations(EnsureChanges(document, path, item.value))
  }

  lemma RenderedAppend(a: seq<Change>, b: seq<Change>)
    ensures Rendered(a + b) == Rendered(a) + Rendered(b)
  {
  }

  lemma FormatDash(path: Path)
    ensures Format(path + ["-"]) == Format(path) + "/-"
  {
    assert (path + ["-"])[..|path|] == path;
    assert "-"[1..] == "";
    assert ReplaceChar("-", '~', '~', '0') == "-";
  }

  method EnsureExisting(path: Path, t: string, child: Json, want: Json) returns (ops: seq<Operation>)
    ensures ops == Rendered(Under(path, ExistingChanges(t, child, want)))
  {
    FormatDash(path + [t]);
    assert path + [t] + ["-"] == path + [t, "-"];
    var pointer := FormatPointer(path + [t]);
    if child.Arr? {
      for i := 0 to |child.items|
        invariant want !in child.items[..i]
      {
        if child.items[i] == want {
          return [];
        }
      }
      return [Operation(pointer + "/-", Add(want))];
    }
    if child == want {
      return [];
    }
    return [Operation(pointer, Replace(want))];
  }

  // What compileEnsure still has to say from token i on, after it emitted done.
  function Remaining(done: seq<Change>, path: Path, i: nat, node: Json, want: Json): Result<seq<Change>>
    requires i < |path|
  {
    Below(done, path[..i], EnsureChanges(node, path[i..], want))
  }

  // An empty object emitted for a missing token.
  lemma DescendCreate(done: seq<Change>, path: Path, i: nat, node: Json, want: Json)
    requires i + 1 < |path| && node.Obj? && path[i] !in node.fields
    ensures var more := done + [Change(path[..i + 1], Add(EMPTY_OBJECT))];
            && Remaining(done, path, i, node, want) == Remaining(more, path, i + 1, EMPTY_OBJECT, want)
            && Rendered(more) == Rendered(done) + [Operation(Format(path[..i + 1]), Add(EMPTY_OBJECT))]
  {
    var t, prefix := path[i], path[..i];
    var add := [Change([t], Add(EMPTY_OBJECT))];
    assert path[i..][1..] == path[i + 1..] && prefix + [t] == path[..i + 1];
    BelowBelow(done, prefix, add, t, EnsureChanges(EMPTY_OBJECT, path[i + 1..], want));
    assert Under(prefix, add) == [Change(path[..i + 1], Add(EMPTY_OBJECT))];
    RenderedAppend(done, [Change(path[..i + 1], Add(EMPTY_OBJECT))]);
  }

  lemma DescendInto(done: seq<Change>, path: Path, i: nat, node: Json, want: Json)
    requires i + 1 < |path| && Child(node, path[i]).Some?
    ensures Remaining(done, path, i, node, want) ==
            Remaining(done, path, i + 1, Child(node, path[i]).value, want)
  {
    var t, prefix := path[i], path[..i];
    assert path[i..][1..] == path[i + 1..] && prefix + [t] == path[..i + 1];
    BelowBelow(done, prefix, [], t, EnsureChanges(Child(node, t).value, path[i + 1..], want));
    assert done + Under(prefix, []) == done;
  }

  lemma DescendFails(done: seq<Change>, path: Path, i: nat, node: Json, want: Json)
    requires i < |path| && Child(node, path[i]).None? && !node.Obj?
    ensures Remaining(done, path, i, node, want) == Err(if node.Arr? then IndexError else DescentError)
  {
  }

  method CompileEnsure(document: Json, item: Intent) returns (r: Result<seq<Operation>>)
    ensures r == CompiledEnsure(document, item)
  {
    var parsed := ParsePointer(item.pointer);
    if parsed.None? {
      return Err(BadPointer);
    }
    var path, want := parsed.value, item.value;
    var ops: seq<Operation> := [];
    ghost var done: seq<Change> := [];
    var current := document;
    var i := 0;
    assert path[0..] == path && path[..0] == [];
    BelowRoot(EnsureChanges(document, path, want));
    while i < |path| - 1
      invariant 0 <= i < |path|
      invariant ops == Rendered(done)
      invariant EnsureChanges(document, path, want) == Remaining(done, path, i, current, want)
    {
      var t := path[i];
      if current.Obj? && t !in current.fields {
        DescendCreate(done, path, i, current, want);
        var pointer := FormatPointer(path[..i + 1]);
        ops := ops + [Operation(pointer, Add(EMPTY_OBJECT))];
        done := done + [Change(path[..i + 1], Add(EMPTY_OBJECT))];
        current := EMPTY_OBJECT;
      } else if current.Obj? {
        DescendInto(done, path, i, current, want);
        current := current.fields[t];
      } else if current.Arr? {
        var index := ParseArrayIndex(t, |current.items|);
        if index.None? {
          DescendFails(done, path, i, current, want);
          return Err(IndexError);
        }
        DescendInto(done, path, i, current, want);
        current := current.items[index.value];
      } else {
        DescendFails(done, path, i, current, want);
        return Err(DescentError);
      }
      i := i + 1;
    }
    r := EnsureLast(current, path[..i], path[i], want, done, ops);
    assert path[i..] == [path[i]];
  }

  // The iteration of compileEnsure for the last token.
  method EnsureLast(current: Json, path: Path, t: string, want: Json, ghost done: seq<Change>, ops: seq<Operation>)
    returns (r: Result<seq<Operation>>)
    requires ops == Rendered(done)
    ensures r == Operations(Below(done, path, EnsureChanges(current, [t], want)))
  {
    var child: Json;
    assert [t][1..] == [];
    if current.Obj? {
      if t !in current.fields {
        var pointer := FormatPointer(path + [t]);
        RenderedAppend(done, [Change(path + [t], Add(NewNode(want)))]);
        assert Under(path, [Change([t], Add(NewNode(want)))]) == [Change(path + [t], Add(NewNode(want)))];
        assert Rendered([Change(path + [t], Add(NewNode(want)))]) == [Operation(pointer, Add(NewNode(want)))];
        assert EnsureChanges(current, [t], want) == Ok([Change([t], Add(NewNode(want)))]);
        return Ok(ops + [Operation(pointer, Add(NewNode(want)))]);
      }
      child := current.fields[t];
    } else if current.Arr? {
      var index := ParseArrayIndex(t, |current.items|);
      if index.None? {
        return Err(IndexError);
      }
      child := current.items[index.value];
    } else {
      return Err(DescentError);
    }
    var more := EnsureExisting(path, t, child, want);
    RenderedAppend(done, Under(path, ExistingChanges(t, child, want)));
    return Ok(ops + more);
  }

  // ---- What remove means --------------------------------------------------------------------

  function Without(items: seq<Json>, value: Json): seq<Json>
  {
    if items == [] then []
    else
      Without(items[..|items| - 1], value) + if items[|items| - 1] == value then [] else [items[|items| - 1]]
  }

  // document with the node at path replaced.
  function PutAt(node: Json, path: Path, v: Json): Json
    requires Lookup(node, path).Node?
    decreases |path|
  {
    if path == [] then v
    else SetChild(node, path[0], PutAt(Child(node, path[0]).value, path[1..], v))
  }

  // A missing node, or a different scalar or object, is left alone.
  function Removed(document: Json, path: Path, value: Json): Option<Json>
    requires path != []
  {
    match Lookup(document, path)
    case Missing => Some(document)
    case BadIndex => None
    case NoDescent => None
    case Node(node) =>
      if node.Arr? then Some(PutAt(document, path, Arr(Without(node.items, value))))
      else if node == value then EditAt(document, path, Remove)
      else Some(document)
  }

  // ---- compileRemove ---------------------------------------------------------------------------

  function Removals(path: Path, items: seq<Json>, n: nat, value: Json): (r: seq<Change>)
    requires n <= |items|
    ensures Addressed(r)
  {
    if n == 0 then []
    else
      (if items[n - 1] == value then [Change(path + [Itoa(n - 1)], Remove)] else []) +
      Removals(path, items, n - 1, value)
  }

  function CompiledRemove(document: Json, item: Intent): Result<seq<Operation>>
  {
    match Parse(item.pointer)
    case None => Err(BadPointer)
    case Some(path) =>
      match Lookup(document, path)
      case Missing => Ok([])
      case BadIndex => Err(IndexError)
      case NoDescent => Err(DescentError)
      case Node(node) =>
        if node.Arr? then Ok(Rendered(Removals(path, node.items, |node.items|, item.value)))
        else Ok(if node == item.value then [Operation(item.pointer, Remove)] else [])
  }

  // The loop of compileRemove, from the last element to the first.
  method RemoveElements(path: Path, items: seq<Json>, value: Json) returns (ops: seq<Operation>)
    ensures ops == Rendered(Removals(path, items, |items|, value))
  {
    ops := [];
    var i := |items|;
    ghost var all := Removals(path, items, |items|, value);
    assert all == [] + all;
    ghost var done: seq<Change> := [];
    while i > 0
      invariant 0 <= i <= |items|
      invariant ops == Rendered(done) && all == done + Removals(path, items, i, value)
    {
      i := i - 1;
      if items[i] == value {
        var pointer := FormatPointer(path + [Itoa(i)]);
        NextRemoval(done, Change(path + [Itoa(i)], Remove), Removals(path, items, i, value));
        ops, done := ops + [Operation(pointer, Remove)], done + [Change(path + [Itoa(i)], Remove)];
      }
    }
    assert done + [] == done;
  }

  lemma NextRemoval(done: seq<Change>, change: Change, rest: seq<Change>)
    ensures done + ([change] + rest) == done + [change] + rest
    ensures Rendered(done + [change]) == Rendered(done) + [Operation(Format(change.path), change.edit)]
  {
    RenderedAppend(done, [change]);
  }

  method CompileRemove(document: Json, item: Intent) returns (r: Result<seq<Operation>>)
    ensures r == CompiledRemove(document, item)
  {
    var parsed := ParsePointer(item.pointer);
    if parsed.None? {
      return Err(BadPointer);
    }
    var path := parsed.value;
    var current := LookupPath(document, path);
    match current
    case Missing => return Ok([]);
    case BadIndex => return Err(IndexError);
    case NoDescent => return Err(DescentError);
    case Node(node) =>
      if !node.Arr? {
        return Ok(if node == item.value then [Operation(item.pointer, Remove)] else []);
      }
      var ops := RemoveElements(path, node.items, item.value);
      return Ok(ops);
  }

  // ---- Whole patches ------------------------------------------------------------------------------

  function EnsureStep(document: Json, item: Intent): Option<Json>
  {
    match Parse(item.pointer)
    case None => None
    case Some(path) => Ensured(Some(document), path, item.value)
  }

  function RemoveStep(document: Json, item: Intent): Option<Json>
  {
    match Parse(item.pointer)
    case None => None
    case Some(path) => Removed(document, path, item.value)
  }

  function RemoveSteps(document: Json, items: seq<Intent>): Option<Json>
  {
    if items == [] then Some(document)
    else
      match RemoveSteps(document, items[..|items| - 1])
      case None => None
      case Some(d) => RemoveStep(d, items[|items| - 1])
  }

  function EnsureSteps(document: Json, items: seq<Intent>): Option<Json>
  {
    if items == [] then Some(document)
    else
      match EnsureSteps(document, items[..|items| - 1])
      case None => None
      case Some(d) => EnsureStep(d, items[|items| - 1])
  }

  // What the intents of a patch mean: its removals one by one, then its ensures
  // one by one.
  function Meaning(document: Json, patch: Patch): Option<Json>
  {
    match RemoveSteps(document, patch.remove)
    case None => None
    case Some(d) => EnsureSteps(d, patch.ensure)
  }

  // What a whole patch means: its raw operations, which have to leave an object,
  // then its intents.
  function Effect(document: Json, patch: Patch): Option<Json>
  {
    match ApplyRaws(document, patch.operations)
    case None => None
    case Some(d) => if d.Obj? then Meaning(d, patch) else None
  }
}
