// What a maintainer may rely on when writing a patch.

module PatchTheorems {
  import opened PatchPointer
  import opened PatchDocument
  import opened PatchCompile
  import opened PatchMeaning

  // ---- Ensure: the node at the pointer ---------------------------------------------------

  function NodeOf(found: Found): Option<Json>
  {
    if found.Node? then Some(found.node) else None
  }

  // What a path finds below an optional node.
  function Find(node: Option<Json>, path: Path): Found
  {
    if node.Some? then Lookup(node.value, path) else Missing
  }

  // Ensuring has a meaning exactly where the pointer does not run into a scalar
  // or off an array, and sets the node there.
  lemma {:induction false} EnsuredTarget(node: Option<Json>, path: Path, want: Json)
    ensures Ensured(node, path, want).Some? <==> Find(node, path).Node? || Find(node, path).Missing?
    ensures Ensured(node, path, want).Some? ==>
              Lookup(Ensured(node, path, want).value, path) == Node(EnsuredNode(NodeOf(Find(node, path)), want))
    decreases |path|
  {
    if path != [] {
      var t, rest := path[0], path[1..];
      if node.None? {
        EnsuredTarget(None, rest, want);
      } else if node.value.Obj? {
        var fields := node.value.fields;
        EnsuredTarget(if t in fields then Some(fields[t]) else None, rest, want);
      } else if Child(node.value, t).Some? {
        EnsuredTarget(Child(node.value, t), rest, want);
      }
    }
  }

  // Which node that is: an array that holds the value already is kept and any other
  // gains it as its last element; whatever else was there gives way to it; and
  // where there was nothing, an object or an array is put as it is and a scalar
  // becomes an array of its own.
  lemma EnsuredExactly(document: Json, item: Intent, path: Path)
    requires Parse(item.pointer) == Some(path)
    ensures EnsureStep(document, item).Some? <==> Lookup(document, path).Node? || Lookup(document, path).Missing?
    ensures EnsureStep(document, item).Some? ==>
            var before, want := Lookup(document, path), item.value;
            Lookup(EnsureStep(document, item).value, path) ==
            Node(if before.Missing? then
                   if want.Obj? || want.Arr? then want else Arr([want])
                 else if !before.node.Arr? then
                   want
                 else if want in before.node.items then
                   before.node
                 else
                   Arr(before.node.items + [want]))
  {
    EnsuredTarget(Some(document), path, item.value);
  }

  // The wanted value is present: it is the node, or an element of it.
  lemma EnsuredIsPresent(document: Json, item: Intent, path: Path)
    requires Parse(item.pointer) == Some(path) && EnsureStep(document, item).Some?
    ensures var after := Lookup(EnsureStep(document, item).value, path);
            && after.Node?
            && (after.node == item.value || (after.node.Arr? && item.value in after.node.items))
            && (Lookup(document, path).Node? && Lookup(document, path).node.Arr? ==>
                  after.node.Arr? && Lookup(document, path).node.items <= after.node.items)
  {
    EnsuredTarget(Some(document), path, item.value);
  }

  // ---- Ensure: every other pointer ---------------------------------------------------------

  predicate Diverges(p: Path, q: Path)
  {
    exists k :: 0 <= k < |p| && k < |q| && p[k] != q[k]
  }

  lemma DivergesRest(p: Path, q: Path)
    requires p != [] && q != [] && p[0] == q[0] && Diverges(p, q)
    ensures Diverges(p[1..], q[1..])
  {
    var k :| 0 <= k < |p| && k < |q| && p[k] != q[k];
    assert p[1..][k - 1] != q[1..][k - 1];
  }

  // Pointers that leave the ensured one find what they found before.
  lemma {:induction false} EnsuredElsewhere(node: Option<Json>, path: Path, want: Json, q: Path)
    requires Ensured(node, path, want).Some? && Diverges(path, q)
    ensures Lookup(Ensured(node, path, want).value, q) == Find(node, q)
    decreases |path|
  {
    var t, rest := path[0], path[1..];
    var after := Ensured(node, path, want).value;
    if q[0] == t {
      DivergesRest(path, q);
      if node.None? {
        EnsuredElsewhere(None, rest, want, q[1..]);
      } else if node.value.Obj? {
        EnsuredElsewhere(if t in node.value.fields then Some(node.value.fields[t]) else None, rest, want, q[1..]);
      } else {
        EnsuredElsewhere(Child(node.value, t), rest, want, q[1..]);
      }
    } else if node.Some? && node.value.Arr? {
      var items := node.value.items;
      var i := ParseIndex(t, |items|).value;
      IndexIffNumeral(t, |items|, i);
      IndexIffNumeral(q[0], |items|, i);
    }
  }

  lemma UnrelatedPointersKeep(document: Json, item: Intent, path: Path, q: Path)
    requires Parse(item.pointer) == Some(path) && EnsureStep(document, item).Some? && Diverges(path, q)
    ensures Lookup(EnsureStep(document, item).value, q) == Lookup(document, q)
  {
    EnsuredElsewhere(Some(document), path, item.value, q);
  }

  // ---- Ensure: a second time -------------------------------------------------------------------

  // Whether compiling emits nothing depends only on the node at the pointer.
  predicate Satisfied(node: Json, want: Json)
  {
    if node.Arr? then want in node.items else node == want
  }

  lemma {:induction false} SilentIffSatisfied(node: Json, path: Path, want: Json)
    requires path != []
    ensures EnsureChanges(node, path, want) == Ok([]) <==>
            Lookup(node, path).Node? && Satisfied(Lookup(node, path).node, want)
    decreases |path|
  {
    var t, rest := path[0], path[1..];
    if Child(node, t).Some? {
      var child := Child(node, t).value;
      assert path == [t] + rest;
      LookupChild(node, t, rest);
      if rest != [] {
        SilentIffSatisfied(child, rest, want);
        var below := EnsureChanges(child, rest, want);
        if below.Ok? {
          assert |[] + Under([t], below.value)| == |below.value|;
        }
      }
    }
  }

  lemma NotItsOwnElement(want: Json)
    requires want.Arr?
    ensures want !in want.items
  {
    forall i | 0 <= i < |want.items|
      ensures want.items[i] != want
    {
    }
  }

  // A second compilation emits nothing exactly when the wanted value is not an
  // array or the pointer named an array to begin with.
  lemma SecondEnsureIsSilentIff(document: Json, item: Intent, path: Path)
    requires Parse(item.pointer) == Some(path) && EnsureStep(document, item).Some?
    ensures CompiledEnsure(EnsureStep(document, item).value, item) == Ok([]) <==>
            !item.value.Arr? || (Lookup(document, path).Node? && Lookup(document, path).node.Arr?)
  {
    var after := EnsureStep(document, item).value;
    EnsuredTarget(Some(document), path, item.value);
    SilentIffSatisfied(after, path, item.value);
    if item.value.Arr? {
      NotItsOwnElement(item.value);
    }
    var changes := EnsureChanges(after, path, item.value);
    if changes.Ok? {
      assert |Rendered(changes.value)| == |changes.value|;
    }
  }

  lemma ParseSlashA()
    ensures Parse("/a") == Some(["a"])
  {
    assert "/a"[1..] == "a";
    SplitPiece("a", "", '/');
    UnescapeIsDecode("a");
    assert UnescapeAll(["a"]) == ["a"];
  }

  // Ensuring an array where there is none nests it on the second application.
  lemma EnsuringAnArrayTwiceNests(item: Intent)
    requires item == Intent("/a", Arr([Int(1)]))
    ensures var once := EnsureStep(EMPTY_OBJECT, item);
            && once.Some? && Lookup(once.value, ["a"]) == Node(Arr([Int(1)]))
            && EnsureStep(once.value, item).Some?
            && Lookup(EnsureStep(once.value, item).value, ["a"]) == Node(Arr([Int(1), Arr([Int(1)])]))
  {
    ParseSlashA();
    NotItsOwnElement(item.value);
    EnsuredTarget(Some(EMPTY_OBJECT), ["a"], item.value);
    EnsuredTarget(EnsureStep(EMPTY_OBJECT, item), ["a"], item.value);
    assert [Int(1)] + [item.value] == [Int(1), item.value];
  }

  // ---- Scalars at one pointer ----------------------------------------------------------------------

  predicate Scalar(v: Json)
  {
    !v.Arr? && !v.Obj?
  }

  predicate ScalarsAt(items: seq<Intent>, pointer: string)
  {
    forall x <- items :: x.pointer == pointer && Scalar(x.value)
  }

  // The elements once every listed value is removed.
  function WithoutAll(items: seq<Json>, values: seq<Intent>): seq<Json>
  {
    if values == [] then items
    else Without(WithoutAll(items, values[..|values| - 1]), values[|values| - 1].value)
  }

  // The elements once every listed value is appended unless present.
  function WithAll(items: seq<Json>, values: seq<Intent>): seq<Json>
  {
    if values == [] then items
    else
      var front, v := WithAll(items, values[..|values| - 1]), values[|values| - 1].value;
      if v in front then front else front + [v]
  }

  // The array a patch leaves at its pointer.
  function PatchedItems(items: seq<Json>, patch: Patch): seq<Json>
  {
    WithAll(WithoutAll(items, patch.remove), patch.ensure)
  }

  function ItemsAt(found: Found): seq<Json>
  {
    if found.Node? && found.node.Arr? then found.node.items else []
  }

  predicate MissingOrArray(found: Found)
  {
    found.Missing? || (found.Node? && found.node.Arr?)
  }

  lemma {:induction false} RemovesAtOnePointer(document: Json, items: seq<Intent>, pointer: string, path: Path)
    requires ScalarsAt(items, pointer) && Parse(pointer) == Some(path) && MissingOrArray(Lookup(document, path))
    ensures RemoveSteps(document, items) ==
            Some(if Lookup(document, path).Missing? then document
                 else PutAt(document, path, Arr(WithoutAll(Lookup(document, path).node.items, items))))
  {
    if items == [] {
      if Lookup(document, path).Node? {
        PutAtFacts(document, path, Null, Null);
      }
    } else {
      var front, last := items[..|items| - 1], items[|items| - 1];
      assert last in items;
      RemovesAtOnePointer(document, front, pointer, path);
      if Lookup(document, path).Node? {
        var kept := WithoutAll(Lookup(document, path).node.items, front);
        PutAtFacts(document, path, Arr(kept), Arr(Without(kept, last.value)));
      }
    }
  }

  // The document after the ensures: the array at the pointer, and all the rest.
  lemma {:induction false} EnsuresAtOnePointer(document: Json, items: seq<Intent>, pointer: string, path: Path)
    requires ScalarsAt(items, pointer) && Parse(pointer) == Some(path) && MissingOrArray(Lookup(document, path))
    ensures EnsureSteps(document, items).Some?
    ensures var d := EnsureSteps(document, items).value; var before := Lookup(document, path);
            && Lookup(d, path) ==
               (if items == [] && before.Missing? then Missing else Node(Arr(WithAll(ItemsAt(before), items))))
            && forall q :: Diverges(path, q) ==> Lookup(d, q) == Lookup(document, q)
  {
    if items != [] {
      var front, last := items[..|items| - 1], items[|items| - 1];
      assert last in items;
      EnsuresAtOnePointer(document, front, pointer, path);
      var d := EnsureSteps(document, front).value;
      EnsuredTarget(Some(d), path, last.value);
      assert [] + [last.value] == [last.value];
      forall q | Diverges(path, q)
        ensures Lookup(EnsureStep(d, last).value, q) == Lookup(d, q)
      {
        UnrelatedPointersKeep(d, last, path, q);
      }
    }
  }

  // ---- The contents of the array ---------------------------------------------------------------

  predicate Lists(values: seq<Intent>, v: Json)
  {
    exists x <- values :: x.value == v
  }

  // The order-preserving filter by a whole list of values.
  function Kept(items: seq<Json>, values: seq<Intent>): seq<Json>
  {
    if items == [] then []
    else
      var last := items[|items| - 1];
      Kept(items[..|items| - 1], values) + if Lists(values, last) then [] else [last]
  }

  lemma {:induction false} KeptNone(items: seq<Json>)
    ensures Kept(items, []) == items
  {
    if items != [] {
      KeptNone(items[..|items| - 1]);
    }
  }

  lemma {:induction false} WithoutKept(items: seq<Json>, values: seq<Intent>)
    requires values != []
    ensures Without(Kept(items, values[..|values| - 1]), values[|values| - 1].value) == Kept(items, values)
  {
    if items != [] {
      var front, last := items[..|items| - 1], items[|items| - 1];
      var earlier, v := values[..|values| - 1], values[|values| - 1];
      WithoutKept(front, values);
      assert values == earlier + [v];
      assert Lists(values, last) <==> Lists(earlier, last) || last == v.value;
      var kept := Kept(front, earlier);
      if !Lists(earlier, last) {
        assert (kept + [last])[..|kept|] == kept;
      } else {
        assert kept + [] == kept;
      }
    }
  }

  // Removing one value after another is one filter.
  lemma {:induction false} WithoutAllIsKept(items: seq<Json>, values: seq<Intent>)
    ensures WithoutAll(items, values) == Kept(items, values)
  {
    if values == [] {
      KeptNone(items);
    } else {
      WithoutAllIsKept(items, values[..|values| - 1]);
      WithoutKept(items, values);
    }
  }

  lemma {:induction false} KeptMembers(items: seq<Json>, values: seq<Intent>, v: Json)
    ensures v in Kept(items, values) <==> v in items && !Lists(values, v)
  {
    if items != [] {
      var front, last := items[..|items| - 1], items[|items| - 1];
      assert items == front + [last];
      KeptMembers(front, values, v);
    }
  }

  lemma {:induction false} KeptAll(items: seq<Json>, values: seq<Intent>)
    requires forall v <- items :: !Lists(values, v)
    ensures Kept(items, values) == items
  {
    if items != [] {
      assert items[|items| - 1] in items;
      KeptAll(items[..|items| - 1], values);
    }
  }

  // The kept elements come first and the added ones are exactly the ensured
  // values that were not among them.
  lemma {:induction false} WithAllMembers(items: seq<Json>, values: seq<Intent>, v: Json)
    ensures items <= WithAll(items, values)
    ensures v in WithAll(items, values) <==> v in items || Lists(values, v)
  {
    if values != [] {
      var front, last := values[..|values| - 1], values[|values| - 1];
      assert values == front + [last];
      WithAllMembers(items, front, v);
    }
  }

  lemma {:induction false} WithAllPresent(items: seq<Json>, values: seq<Intent>)
    requires forall x <- values :: x.value in items
    ensures WithAll(items, values) == items
  {
    if values != [] {
      assert values[|values| - 1] in values;
      WithAllPresent(items, values[..|values| - 1]);
    }
  }

  // ---- The whole patch ---------------------------------------------------------------------------

  // Scalar intents on one pointer that is missing or an array leave there the old
  // elements without the removed values, then the missing ensured values in
  // order, and touch nothing else.
  lemma ScalarPatchResult(document: Json, patch: Patch, pointer: string, path: Path)
    requires ScalarsAt(patch.ensure, pointer) && ScalarsAt(patch.remove, pointer)
    requires Parse(pointer) == Some(path) && MissingOrArray(Lookup(document, path))
    ensures Meaning(document, patch).Some?
    ensures var before := Lookup(document, path);
            Lookup(Meaning(document, patch).value, path) ==
            if before.Missing? && patch.ensure == [] then Missing
            else Node(Arr(WithAll(Kept(ItemsAt(before), patch.remove), patch.ensure)))
    ensures forall q :: Diverges(path, q) ==> Lookup(Meaning(document, patch).value, q) == Lookup(document, q)
  {
    var before := Lookup(document, path);
    RemovesAtOnePointer(document, patch.remove, pointer, path);
    WithoutAllIsKept(ItemsAt(before), patch.remove);
    var d := RemoveSteps(document, patch.remove).value;
    if before.Node? {
      PutAtFacts(document, path, Arr(WithoutAll(before.node.items, patch.remove)), Null);
      forall q | Diverges(path, q)
        ensures Lookup(d, q) == Lookup(document, q)
      {
        PutAtElsewhere(document, path, Arr(WithoutAll(before.node.items, patch.remove)), q);
      }
    }
    EnsuresAtOnePointer(d, patch.ensure, pointer, path);
  }

  lemma {:induction false} PutAtElsewhere(node: Json, path: Path, v: Json, q: Path)
    requires Lookup(node, path).Node? && Diverges(path, q)
    ensures Lookup(PutAt(node, path, v), q) == Lookup(node, q)
    decreases |path|
  {
    LookupStep(node, path);
    var t, rest := path[0], path[1..];
    var child := Child(node, t).value;
    assert q == [q[0]] + q[1..];
    if q[0] == t {
      DivergesRest(path, q);
      PutAtElsewhere(child, rest, v, q[1..]);
      SetChildFacts(node, t, PutAt(child, rest, v), Null);
      LookupChild(PutAt(node, path, v), t, q[1..]);
      LookupChild(node, t, q[1..]);
    } else {
      SetChildOther(node, t, PutAt(child, rest, v), q[0]);
    }
  }

  // Ensuring what is satisfied leaves the document as it is.
  lemma {:induction false} SatisfiedEnsuresKeep(document: Json, items: seq<Intent>, pointer: string, path: Path)
    requires ScalarsAt(items, pointer) && Parse(pointer) == Some(path)
    requires Lookup(document, path).Node? && Lookup(document, path).node.Arr?
    requires forall x <- items :: x.value in Lookup(document, path).node.items
    ensures EnsureSteps(document, items) == Some(document)
  {
    if items != [] {
      var front, last := items[..|items| - 1], items[|items| - 1];
      assert last in items;
      SatisfiedEnsuresKeep(document, front, pointer, path);
      SilentIffSatisfied(document, path, last.value);
      EnsureApplies(document, path, last.value);
    }
  }

  // Applying a valid scalar patch twice is applying it once.
  lemma ScalarPatchTwice(document: Json, patch: Patch, pointer: string, path: Path)
    requires ScalarsAt(patch.ensure, pointer) && ScalarsAt(patch.remove, pointer)
    requires Parse(pointer) == Some(path) && MissingOrArray(Lookup(document, path))
    requires forall e <- patch.ensure, x <- patch.remove :: e != x
    ensures Meaning(document, patch).Some?
    ensures Meaning(Meaning(document, patch).value, patch) == Meaning(document, patch)
  {
    ScalarPatchResult(document, patch, pointer, path);
    var items := ItemsAt(Lookup(document, path));
    var d := Meaning(document, patch).value;
    RemovesAtOnePointer(d, patch.remove, pointer, path);
    if Lookup(d, path).Node? {
      var result := PatchedItems(items, patch);
      WithoutAllIsKept(items, patch.remove);
      assert Lookup(d, path) == Node(Arr(result));
      ResultIsClean(items, patch, pointer);
      PutAtFacts(d, path, Null, Null);
      SatisfiedEnsuresKeep(d, patch.ensure, pointer, path);
    }
  }

  lemma ResultIsClean(items: seq<Json>, patch: Patch, pointer: string)
    requires ScalarsAt(patch.ensure, pointer) && ScalarsAt(patch.remove, pointer)
    requires forall e <- patch.ensure, x <- patch.remove :: e != x
    ensures WithoutAll(PatchedItems(items, patch), patch.remove) == PatchedItems(items, patch)
    ensures forall x <- patch.ensure :: x.value in PatchedItems(items, patch)
  {
    var kept := WithoutAll(items, patch.remove);
    var result := WithAll(kept, patch.ensure);
    WithoutAllIsKept(items, patch.remove);
    forall v | v in result
      ensures !Lists(patch.remove, v)
    {
      WithAllMembers(kept, patch.ensure, v);
      KeptMembers(items, patch.remove, v);
    }
    WithoutAllIsKept(result, patch.remove);
    KeptAll(result, patch.remove);
    forall x | x in patch.ensure
      ensures x.value in result
    {
      WithAllMembers(kept, patch.ensure, x.value);
    }
  }

  // ---- What apply computes -----------------------------------------------------------------------

  lemma EnsureStaysObject(document: Json, items: seq<Intent>)
    requires document.Obj? && EnsureSteps(document, items).Some?
    ensures EnsureSteps(document, items).value.Obj?
  {
    if items != [] {
      EnsureStaysObject(document, items[..|items| - 1]);
    }
  }

  lemma RemoveStaysObject(document: Json, items: seq<Intent>)
    requires document.Obj? && RemoveSteps(document, items).Some?
    ensures RemoveSteps(document, items).value.Obj?
  {
    if items != [] {
      RemoveStaysObject(document, items[..|items| - 1]);
    }
  }

  // Applying a valid patch of scalar intents on one pointer to an object twice is
  // applying it once.
  lemma ScalarPatchAppliesOnce(document: Json, patch: Patch, pointer: string, path: Path)
    requires document.Obj? && patch.operations == []
    requires ScalarsAt(patch.ensure, pointer) && ScalarsAt(patch.remove, pointer)
    requires Parse(pointer) == Some(path) && MissingOrArray(Lookup(document, path))
    requires forall e <- patch.ensure, x <- patch.remove :: e != x
    ensures Effect(document, patch).Some?
    ensures Effect(Effect(document, patch).value, patch) == Effect(document, patch)
  {
    ScalarPatchTwice(document, patch, pointer, path);
    RemoveStaysObject(document, patch.remove);
    EnsureStaysObject(RemoveSteps(document, patch.remove).value, patch.ensure);
  }
}
