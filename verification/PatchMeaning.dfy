// The compiled operations of every intent apply, and do what the intent means.

module PatchMeaning {
  import opened PatchPointer
  import opened PatchDocument
  import opened PatchCompile

  // ---- Ensure ------------------------------------------------------------------------

  // A missing node is created as an empty object first.
  lemma {:induction false} MissingIsEmptyObject(path: Path, want: Json)
    requires path != []
    ensures Ensured(None, path, want) == Ensured(Some(EMPTY_OBJECT), path, want)
    ensures Ensured(None, path, want).Some?
    decreases |path|
  {
    if |path| > 1 {
      MissingIsEmptyObject(path[1..], want);
    }
  }

  // A change list that starts by adding an empty object and continues below it.
  lemma CreateThenFill(node: Json, t: string, changes: seq<Change>)
    requires node.Obj? && t !in node.fields && Addressed(changes)
    ensures var all := [Change([t], Add(EMPTY_OBJECT))] + Under([t], changes);
            && Addressed(all)
            && ChangeAll(node, all) ==
               match ChangeAll(EMPTY_OBJECT, changes)
               { case None => None case Some(d) => Some(Obj(node.fields[t := d])) }
  {
    var created := Obj(node.fields[t := EMPTY_OBJECT]);
    var under := Under([t], changes);
    var all := [Change([t], Add(EMPTY_OBJECT))] + under;
    UnderChild(created, t, changes);
    assert all[1..] == under;
    assert EditAt(node, [t], Add(EMPTY_OBJECT)) == Some(created);
    var d := ChangeAll(EMPTY_OBJECT, changes);
    if d.Some? {
      assert node.fields[t := EMPTY_OBJECT][t := d.value] == node.fields[t := d.value];
    }
  }

  lemma ExistingApplies(node: Json, t: string, want: Json)
    requires Child(node, t).Some?
    ensures ChangeAll(node, ExistingChanges(t, Child(node, t).value, want)) ==
            Some(SetChild(node, t, EnsuredNode(Child(node, t), want)))
  {
    var child := Child(node, t).value;
    SetChildFacts(node, t, child, child);
    var changes := ExistingChanges(t, child, want);
    if changes != [] {
      assert changes[1..] == [];
      if child.Arr? {
        assert [t, "-"][1..] == ["-"];
        assert EditAt(child, ["-"], Add(want)) == Some(Arr(child.items + [want]));
      } else {
        assert EditAt(node, [t], Replace(want)) == EditChild(node, t, Replace(want));
      }
    }
  }

  // Compilation succeeds exactly when ensuring has a meaning; its changes then
  // apply, and give that meaning.
  lemma {:induction false} EnsureApplies(node: Json, path: Path, want: Json)
    requires path != []
    ensures EnsureChanges(node, path, want).Ok? <==> Ensured(Some(node), path, want).Some?
    ensures EnsureChanges(node, path, want).Ok? ==>
              ChangeAll(node, EnsureChanges(node, path, want).value) == Ensured(Some(node), path, want)
    decreases |path|
  {
    var t, rest := path[0], path[1..];
    if node.Obj? && t !in node.fields {
      if rest == [] {
        assert [Change([t], Add(NewNode(want)))][1..] == [];
        assert EditAt(node, [t], Add(NewNode(want))) == Some(Obj(node.fields[t := NewNode(want)]));
      } else {
        EnsureApplies(EMPTY_OBJECT, rest, want);
        MissingIsEmptyObject(rest, want);
        CreateThenFill(node, t, EnsureChanges(EMPTY_OBJECT, rest, want).value);
      }
    } else if Child(node, t).Some? {
      var child := Child(node, t).value;
      if rest == [] {
        ExistingApplies(node, t, want);
      } else {
        EnsureApplies(child, rest, want);
        var below := EnsureChanges(child, rest, want);
        if below.Ok? {
          UnderChild(node, t, below.value);
          assert [] + Under([t], below.value) == Under([t], below.value);
        }
      }
    }
  }

  lemma CompiledEnsureApplies(document: Json, item: Intent)
    ensures CompiledEnsure(document, item).Ok? <==> EnsureStep(document, item).Some?
    ensures CompiledEnsure(document, item).Ok? ==>
              ApplyAll(document, CompiledEnsure(document, item).value) == EnsureStep(document, item)
  {
    var parsed := Parse(item.pointer);
    if parsed.Some? {
      EnsureApplies(document, parsed.value, item.value);
      var changes := EnsureChanges(document, parsed.value, item.value);
      if changes.Ok? {
        RenderedApplies(document, changes.value);
      }
    }
  }

  // ---- Remove ------------------------------------------------------------------------

  lemma {:induction false} LookupStep(node: Json, path: Path)
    requires path != [] && Lookup(node, path).Node?
    ensures Child(node, path[0]).Some?
    ensures Lookup(Child(node, path[0]).value, path[1..]) == Lookup(node, path)
  {
  }

  lemma {:induction false} PutAtFacts(node: Json, path: Path, v: Json, w: Json)
    requires Lookup(node, path).Node?
    ensures Lookup(PutAt(node, path, v), path) == Node(v)
    ensures PutAt(PutAt(node, path, v), path, w) == PutAt(node, path, w)
    ensures PutAt(node, path, Lookup(node, path).node) == node
    decreases |path|
  {
    if path != [] {
      LookupStep(node, path);
      var child, rest := Child(node, path[0]).value, path[1..];
      PutAtFacts(child, rest, v, w);
      SetChildFacts(node, path[0], PutAt(child, rest, v), PutAt(child, rest, w));
      assert path == [path[0]] + rest;
      LookupChild(SetChild(node, path[0], PutAt(child, rest, v)), path[0], rest);
    }
  }

  // An edit of a child of the node at path.
  lemma {:induction false} EditBelow(node: Json, path: Path, t: string, e: Edit)
    requires Lookup(node, path).Node?
    ensures EditAt(node, path + [t], e) ==
            match EditChild(Lookup(node, path).node, t, e)
            { case None => None case Some(d) => Some(PutAt(node, path, d)) }
    decreases |path|
  {
    if path == [] {
      assert path + [t] == [t];
    } else {
      LookupStep(node, path);
      assert (path + [t])[1..] == path[1..] + [t];
      EditBelow(Child(node, path[0]).value, path[1..], t, e);
    }
  }

  lemma FirstThenRest(node: Json, c: Change, rest: seq<Change>)
    requires c.path != [] && Addressed(rest)
    ensures ChangeAll(node, [c] + rest) ==
            match EditAt(node, c.path, c.edit) { case None => None case Some(d) => ChangeAll(d, rest) }
  {
    assert ([c] + rest)[1..] == rest;
  }

  // One element that equals the value goes; one that differs stays.
  lemma WithoutLast(front: seq<Json>, last: Json, value: Json, tail: seq<Json>)
    ensures last == value ==> Without(front + [last], value) == Without(front, value)
    ensures last != value ==> Without(front + [last], value) + tail == Without(front, value) + ([last] + tail)
  {
    assert (front + [last])[..|front|] == front;
  }

  // Removing from the last element to the first leaves exactly the elements that
  // differ from the value, in order.
  lemma {:induction false} RemovalsFilter(
    document: Json, path: Path, items: seq<Json>, n: nat, tail: seq<Json>, value: Json)
    requires Lookup(document, path).Node? && n <= |items|
    ensures ChangeAll(PutAt(document, path, Arr(items[..n] + tail)), Removals(path, items, n, value)) ==
            Some(PutAt(document, path, Arr(Without(items[..n], value) + tail)))
    decreases n
  {
    if n == 0 {
      assert items[..0] == [];
    } else {
      var front, last := items[..n - 1], items[n - 1];
      assert items[..n] == front + [last];
      WithoutLast(front, last, value, tail);
      if last == value {
        RemovalsFilter(document, path, items, n - 1, tail, value);
        RemoveOne(document, path, front, last, tail);
        FirstThenRest(PutAt(document, path, Arr(front + [last] + tail)), Change(path + [Itoa(n - 1)], Remove),
                      Removals(path, items, n - 1, value));
      } else {
        RemovalsFilter(document, path, items, n - 1, [last] + tail, value);
        assert items[..n] + tail == front + ([last] + tail);
        assert Removals(path, items, n, value) == Removals(path, items, n - 1, value);
      }
    }
  }

  lemma RemoveElement(front: seq<Json>, x: Json, tail: seq<Json>, t: string)
    requires ParseIndex(t, |front + [x] + tail|) == Some(|front|)
    ensures EditChild(Arr(front + [x] + tail), t, Remove) == Some(Arr(front + tail))
  {
    var items := front + [x] + tail;
    assert items[..|front|] + items[|front| + 1..] == front + tail;
  }

  lemma RemoveOneAt(document: Json, path: Path, front: seq<Json>, x: Json, tail: seq<Json>, t: string)
    requires Lookup(document, path).Node? && ParseIndex(t, |front + [x] + tail|) == Some(|front|)
    ensures EditAt(PutAt(document, path, Arr(front + [x] + tail)), path + [t], Remove) ==
            Some(PutAt(document, path, Arr(front + tail)))
  {
    PutAtFacts(document, path, Arr(front + [x] + tail), Arr(front + tail));
    EditBelow(PutAt(document, path, Arr(front + [x] + tail)), path, t, Remove);
    RemoveElement(front, x, tail, t);
  }

  lemma RemoveOne(document: Json, path: Path, front: seq<Json>, x: Json, tail: seq<Json>)
    requires Lookup(document, path).Node?
    ensures EditAt(PutAt(document, path, Arr(front + [x] + tail)), path + [Itoa(|front|)], Remove) ==
            Some(PutAt(document, path, Arr(front + tail)))
  {
    IndexIffNumeral(Itoa(|front|), |front + [x] + tail|, |front|);
    RemoveOneAt(document, path, front, x, tail, Itoa(|front|));
  }

  lemma {:induction false} RemoveFound(node: Json, path: Path)
    requires path != [] && Lookup(node, path).Node?
    ensures EditAt(node, path, Remove).Some?
    decreases |path|
  {
    LookupStep(node, path);
    if |path| > 1 {
      RemoveFound(Child(node, path[0]).value, path[1..]);
    }
  }

  lemma CompiledRemoveApplies(document: Json, item: Intent)
    ensures CompiledRemove(document, item).Ok? <==> RemoveStep(document, item).Some?
    ensures CompiledRemove(document, item).Ok? ==>
              ApplyAll(document, CompiledRemove(document, item).value) == RemoveStep(document, item)
  {
    var parsed := Parse(item.pointer);
    if parsed.Some? && Lookup(document, parsed.value).Node? {
      var path := parsed.value;
      var node := Lookup(document, path).node;
      if node.Arr? {
        var items := node.items;
        PutAtFacts(document, path, node, node);
        assert items[..|items|] + [] == items && items[..|items|] == items;
        RemovalsFilter(document, path, items, |items|, [], item.value);
        assert Without(items, item.value) + [] == Without(items, item.value);
        RenderedApplies(document, Removals(path, items, |items|, item.value));
      } else {
        RemoveFound(document, path);
        assert [Operation(item.pointer, Remove)][1..] == [];
      }
    }
  }
}
