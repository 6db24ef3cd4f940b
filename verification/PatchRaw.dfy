// What raw operations do to a document, told by what pointers find before and
// after, and how they go together with the intents of a patch.

module PatchRaw {
  import opened PatchPointer
  import opened PatchDocument
  import opened PatchCompile
  import opened PatchMeaning
  import opened PatchTheorems

  // ---- One edit -------------------------------------------------------------------------

  // The node takes the edit of its child at t: an object takes every addition and
  // changes members it has; an array takes additions at its end or at the numeral
  // of an index up to its length, and changes elements it has.
  predicate Takes(node: Json, t: string, e: Edit)
  {
    match node
    case Obj(fields) => e.Add? || t in fields
    case Arr(items) =>
      if e.Add? then t == "-" || exists i :: 0 <= i <= |items| && t == Itoa(i)
      else exists i :: 0 <= i < |items| && t == Itoa(i)
    case _ => false
  }

  // The members afterwards: all others are what they were.
  predicate MembersEdited(before: map<string, Json>, after: map<string, Json>, t: string, e: Edit)
  {
    && (forall u <- before :: u != t ==> u in after && after[u] == before[u])
    && (forall u <- after :: u != t ==> u in before)
    && (if e.Remove? then t !in after else t in after && after[t] == e.value)
  }

  // The elements afterwards: those behind an inserted or a removed one move up or
  // down by one.
  predicate ElementsEdited(before: seq<Json>, after: seq<Json>, i: nat, e: Edit)
  {
    match e
    case Add(v) =>
      && |after| == |before| + 1 && i <= |before| && after[i] == v
      && (forall k | 0 <= k < i :: after[k] == before[k])
      && (forall k | i <= k < |before| :: after[k + 1] == before[k])
    case Remove =>
      && |after| + 1 == |before| && i < |before|
      && (forall k | 0 <= k < i :: after[k] == before[k])
      && (forall k | i < k < |before| :: after[k - 1] == before[k])
    case Replace(v) =>
      && |after| == |before| && i < |before| && after[i] == v
      && (forall k | 0 <= k < |before| :: k != i ==> after[k] == before[k])
  }

  // The node that holds the target, before and after the edit.
  ghost predicate NodeEdited(before: Json, after: Json, t: string, e: Edit)
  {
    match before
    case Obj(fields) => after.Obj? && MembersEdited(fields, after.fields, t, e)
    case Arr(items) =>
      after.Arr? &&
      (if e.Add? && t == "-" then ElementsEdited(items, after.items, |items|, e)
       else exists i: nat :: t == Itoa(i) && ElementsEdited(items, after.items, i, e))
    case _ => false
  }

  lemma ChildEdited(node: Json, t: string, e: Edit)
    ensures EditChild(node, t, e).Some? <==> Takes(node, t, e)
    ensures EditChild(node, t, e).Some? ==> NodeEdited(node, EditChild(node, t, e).value, t, e)
  {
    if node.Arr? && !(e.Add? && t == "-") {
      var n := |node.items| + if e.Add? then 1 else 0;
      forall i | 0 <= i < n
        ensures ParseIndex(t, n) == Some(i) <==> t == Itoa(i)
      {
        IndexIffNumeral(t, n, i);
      }
      var index := ParseIndex(t, n);
      if index.Some? {
        IndexIffNumeral(t, n, index.value);
        assert ElementsEdited(node.items, EditChild(node, t, e).value.items, index.value, e);
      }
    }
  }

  // The document afterwards: the node at path is edited at t, and every pointer
  // that leaves the path finds what it found before.
  ghost predicate Edited(before: Json, after: Json, path: Path, t: string, e: Edit)
  {
    && Lookup(before, path).Node? && Lookup(after, path).Node?
    && NodeEdited(Lookup(before, path).node, Lookup(after, path).node, t, e)
    && forall q | Diverges(path, q) :: Lookup(after, q) == Lookup(before, q)
  }

  lemma {:induction false} NoParentNoEdit(node: Json, path: Path, t: string, e: Edit)
    requires !Lookup(node, path).Node?
    ensures EditAt(node, path + [t], e).None?
    decreases |path|
  {
    if Child(node, path[0]).Some? {
      assert path == [path[0]] + path[1..];
      LookupChild(node, path[0], path[1..]);
      assert (path + [t])[1..] == path[1..] + [t];
      NoParentNoEdit(Child(node, path[0]).value, path[1..], t, e);
    }
  }

  // An edit succeeds exactly when the node that holds its target is there and
  // takes it, and does nothing else.
  lemma EditExact(document: Json, path: Path, t: string, e: Edit)
    ensures EditAt(document, path + [t], e).Some? <==>
              Lookup(document, path).Node? && Takes(Lookup(document, path).node, t, e)
    ensures EditAt(document, path + [t], e).Some? ==>
              Edited(document, EditAt(document, path + [t], e).value, path, t, e)
  {
    if Lookup(document, path).Node? {
      var node := Lookup(document, path).node;
      ChildEdited(node, t, e);
      EditBelow(document, path, t, e);
      if EditChild(node, t, e).Some? {
        var after := EditChild(node, t, e).value;
        PutAtFacts(document, path, after, after);
        forall q | Diverges(path, q)
          ensures Lookup(PutAt(document, path, after), q) == Lookup(document, q)
        {
          PutAtElsewhere(document, path, after, q);
        }
      }
    } else {
      NoParentNoEdit(document, path, t, e);
    }
  }

  // ---- What pointers find afterwards ---------------------------------------------------------

  lemma {:induction false} LookupAppend(node: Json, path: Path, rest: Path)
    requires Lookup(node, path).Node?
    ensures Lookup(node, path + rest) == Lookup(Lookup(node, path).node, rest)
    decreases |path|
  {
    if path == [] {
      assert path + rest == rest;
    } else {
      LookupStep(node, path);
      assert (path + rest)[1..] == path[1..] + rest;
      LookupAppend(Child(node, path[0]).value, path[1..], rest);
    }
  }

  // An added or replaced value is found at its pointer, a removed member is not
  // found any more, and pointers to or through other members of the same object
  // find what they found.
  lemma EditedFinds(before: Json, after: Json, path: Path, t: string, e: Edit)
    requires Edited(before, after, path, t, e)
    ensures !e.Remove? && (t != "-" || Lookup(before, path).node.Obj?) ==> Lookup(after, path + [t]) == Node(e.value)
    ensures e.Remove? && Lookup(before, path).node.Obj? ==> Lookup(after, path + [t]) == Missing
    ensures Lookup(before, path).node.Obj? ==>
              forall u, rest: Path :: u != t ==>
                Lookup(after, path + ([u] + rest)) == Lookup(before, path + ([u] + rest))
  {
    LookupAppend(after, path, [t]);
    var node := Lookup(after, path).node;
    assert [t][1..] == [];
    if node.Arr? && t != "-" {
      var i: nat :| t == Itoa(i) && ElementsEdited(Lookup(before, path).node.items, node.items, i, e);
      if i < |node.items| {
        IndexIffNumeral(t, |node.items|, i);
      }
    }
    if node.Obj? {
      forall u, rest: Path | u != t
        ensures Lookup(after, path + ([u] + rest)) == Lookup(before, path + ([u] + rest))
      {
        LookupAppend(after, path, [u] + rest);
        LookupAppend(before, path, [u] + rest);
      }
    }
  }

  // ---- The raw operations -----------------------------------------------------------------------

  // Add, remove and replace.
  lemma RawEdits(document: Json, pointer: string, path: Path, t: string, e: Edit)
    requires Parse(pointer) == Some(path + [t])
    ensures var r := ApplyRaw(document, Raw(pointer, e));
            && (r.Some? <==> Lookup(document, path).Node? && Takes(Lookup(document, path).node, t, e))
            && (r.Some? ==> Edited(document, r.value, path, t, e))
  {
    EditExact(document, path, t, e);
  }

  // The empty pointer addresses the document, which can be replaced but not
  // removed.
  lemma RawRoot(document: Json, v: Json)
    ensures ApplyRaw(document, Raw("", Add(v))) == Some(v)
    ensures ApplyRaw(document, Raw("", Replace(v))) == Some(v)
    ensures ApplyRaw(document, Raw("", Remove)) == None
  {
  }

  // Copy adds what it finds.
  lemma RawCopies(document: Json, from: string, source: Path, pointer: string, path: Path, t: string)
    requires Parse(from) == Some(source) && Parse(pointer) == Some(path + [t])
    ensures var r := ApplyRaw(document, Copy(from, pointer));
            && (r.Some? <==>
                  && Lookup(document, source).Node?
                  && Lookup(document, path).Node?
                  && Takes(Lookup(document, path).node, t, Add(Lookup(document, source).node)))
            && (r.Some? ==> Edited(document, r.value, path, t, Add(Lookup(document, source).node)))
  {
    if Lookup(document, source).Node? {
      EditExact(document, path, t, Add(Lookup(document, source).node));
    }
  }

  // Move is a removal followed by an addition of what was removed, and it fails on
  // a target below its source.
  ghost predicate Moved(before: Json, after: Json, from: Path, s: string, path: Path, t: string)
  {
    && Lookup(before, from + [s]).Node?
    && exists bare ::
         && Edited(before, bare, from, s, Remove)
         && Edited(bare, after, path, t, Add(Lookup(before, from + [s]).node))
  }

  lemma {:induction false} RemovableIffFound(node: Json, path: Path)
    requires path != []
    ensures EditAt(node, path, Remove).Some? <==> Lookup(node, path).Node?
    decreases |path|
  {
    if Child(node, path[0]).Some? {
      assert path == [path[0]] + path[1..];
      LookupChild(node, path[0], path[1..]);
      if |path| > 1 {
        RemovableIffFound(Child(node, path[0]).value, path[1..]);
      }
    }
  }

  lemma RawMoves(
    document: Json, from: string, source: Path, s: string, pointer: string, path: Path, t: string)
    requires Parse(from) == Some(source + [s]) && Parse(pointer) == Some(path + [t])
    ensures var r := ApplyRaw(document, Move(from, pointer));
            && (r.Some? <==>
                  && !(from + "/" <= pointer)
                  && Lookup(document, source + [s]).Node?
                  && var bare := EditAt(document, source + [s], Remove);
                     && bare.Some? && Lookup(bare.value, path).Node?
                     && Takes(Lookup(bare.value, path).node, t, Add(Lookup(document, source + [s]).node)))
            && (r.Some? ==> Moved(document, r.value, source, s, path, t))
  {
    EditExact(document, source, s, Remove);
    RemovableIffFound(document, source + [s]);
    var bare := EditAt(document, source + [s], Remove);
    if bare.Some? {
      EditExact(bare.value, path, t, Add(Lookup(document, source + [s]).node));
    }
  }

  // Test changes nothing and succeeds exactly on the value it names.
  lemma RawTests(document: Json, pointer: string, path: Path, value: Json)
    requires Parse(pointer) == Some(path)
    ensures ApplyRaw(document, Test(pointer, value)) ==
            if Lookup(document, path) == Node(value) then Some(document) else None
  {
  }

  // Operations are replayed in order.
  lemma {:induction false} RawAppend(document: Json, a: seq<RawOperation>, b: seq<RawOperation>)
    ensures ApplyRaws(document, a + b) ==
            match ApplyRaws(document, a) { case None => None case Some(d) => ApplyRaws(d, b) }
    ensures |a| == 1 ==> ApplyRaws(document, a) == ApplyRaw(document, a[0])
    decreases |a|
  {
    if a == [] {
      assert a + b == b;
    } else {
      assert (a + b)[1..] == a[1..] + b;
      var d := ApplyRaw(document, a[0]);
      if d.Some? {
        RawAppend(d.value, a[1..], b);
      }
    }
  }

  // ---- What a removal leaves ---------------------------------------------------------------------

  lemma {:induction false} WithoutFilters(items: seq<Json>, value: Json, v: Json)
    ensures multiset(Without(items, value))[v] == if v == value then 0 else multiset(items)[v]
  {
    if items != [] {
      var front, last := items[..|items| - 1], items[|items| - 1];
      assert items == front + [last];
      WithoutFilters(front, value, v);
    }
  }

  // A removal fails where its pointer runs into a scalar or off an array. It takes
  // every element equal to the value out of an array and leaves the others as
  // often as they were there, it takes away a node that is equal to the value, and
  // it changes nothing else, nothing at all where there is another node or none.
  lemma RemovedExactly(document: Json, item: Intent, path: Path, t: string)
    requires Parse(item.pointer) == Some(path + [t])
    ensures var found, r := Lookup(document, path + [t]), RemoveStep(document, item);
            && (r.Some? <==> found.Node? || found.Missing?)
            && (found.Missing? ==> r == Some(document))
            && (found.Node? && !found.node.Arr? && found.node != item.value ==> r == Some(document))
            && (found.Node? && !found.node.Arr? && found.node == item.value ==>
                  Edited(document, r.value, path, t, Remove))
            && (found.Node? && found.node.Arr? ==>
                  && Lookup(r.value, path + [t]).Node? && Lookup(r.value, path + [t]).node.Arr?
                  && (forall v :: multiset(Lookup(r.value, path + [t]).node.items)[v] ==
                                  if v == item.value then 0 else multiset(found.node.items)[v])
                  && forall q | Diverges(path + [t], q) :: Lookup(r.value, q) == Lookup(document, q))
  {
    var target := path + [t];
    var found := Lookup(document, target);
    if found.Node? {
      if found.node.Arr? {
        var kept := Without(found.node.items, item.value);
        PutAtFacts(document, target, Arr(kept), Null);
        forall v
          ensures multiset(kept)[v] == if v == item.value then 0 else multiset(found.node.items)[v]
        {
          WithoutFilters(found.node.items, item.value, v);
        }
        forall q | Diverges(target, q)
          ensures Lookup(PutAt(document, target, Arr(kept)), q) == Lookup(document, q)
        {
          PutAtElsewhere(document, target, Arr(kept), q);
        }
      } else {
        RemovableIffFound(document, target);
        EditExact(document, path, t, Remove);
      }
    }
  }

  // ---- Operations and intents together ------------------------------------------------------------

  // The operations come first: adding a member that the patch also removes leaves
  // nothing of it, while removing it first would leave it added.
  lemma OrderMatters(patch: Patch)
    requires patch == Patch([], [Intent("/a", Int(1))], [Raw("/a", Add(Int(1)))])
    ensures Effect(EMPTY_OBJECT, patch) == Some(EMPTY_OBJECT)
    ensures Meaning(EMPTY_OBJECT, patch) == Some(EMPTY_OBJECT)
    ensures ApplyRaws(EMPTY_OBJECT, patch.operations) == Some(Obj(map["a" := Int(1)]))
  {
    ParseSlashA();
    var added := Obj(map["a" := Int(1)]);
    RawAppend(EMPTY_OBJECT, patch.operations, []);
    assert EditAt(EMPTY_OBJECT, ["a"], Add(Int(1))) == Some(added);
    assert patch.remove[..0] == [];
    assert Lookup(EMPTY_OBJECT, ["a"]) == Missing;
    assert Lookup(added, ["a"]) == Node(Int(1));
    assert EditAt(added, ["a"], Remove) == Some(EMPTY_OBJECT);
    assert RemoveSteps(added, []) == Some(added) && RemoveSteps(EMPTY_OBJECT, []) == Some(EMPTY_OBJECT);
  }
}
