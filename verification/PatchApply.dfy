// Compiling and applying whole patches (internal/configpatch/compile.go,
// apply.go, patch.go).

module PatchApply {
  import opened PatchPointer
  import opened PatchDocument
  import opened PatchCompile
  import opened PatchMeaning

  predicate ValidPatch(patch: Patch)
  {
    && (forall e <- patch.ensure :: Parse(e.pointer).Some?)
    && (forall x <- patch.remove :: Parse(x.pointer).Some?)
    && (forall e <- patch.ensure, x <- patch.remove :: e != x)
    && (forall op <- patch.operations :: ValidRaw(op))
  }

  method CheckOperations(ops: seq<RawOperation>) returns (ok: bool)
    ensures ok == forall op <- ops :: ValidRaw(op)
  {
    for i := 0 to |ops|
      invariant forall j | 0 <= j < i :: ValidRaw(ops[j])
    {
      if !ValidRaw(ops[i]) {
        assert ops[i] in ops;
        return false;
      }
    }
    return true;
  }

  method CheckIntents(items: seq<Intent>) returns (ok: bool)
    ensures ok == forall x <- items :: Parse(x.pointer).Some?
  {
    for i := 0 to |items|
      invariant forall j | 0 <= j < i :: Parse(items[j].pointer).Some?
    {
      var parsed := ParsePointer(items[i].pointer);
      if parsed.None? {
        assert items[i] in items;
        return false;
      }
    }
    return true;
  }

  // No member is both ensured and removed. Every operation has a pointer or the
  // whole document as its target, and a source that is a pointer where it has one.
  method Validate(patch: Patch) returns (ok: bool)
    ensures ok == ValidPatch(patch)
    ensures ok ==> forall op <- patch.operations ::
              && (op.path == "" || Parse(op.path).Some?)
              && (op.Move? || op.Copy? ==> Parse(op.from).Some?)
    ensures (exists op <- patch.operations :: (op.Move? || op.Copy?) && Parse(op.from).None?) ==> !ok
  {
    var ensuresOk := CheckIntents(patch.ensure);
    if !ensuresOk {
      return false;
    }
    var removesOk := CheckIntents(patch.remove);
    if !removesOk {
      return false;
    }
    for i := 0 to |patch.ensure|
      invariant forall k | 0 <= k < i :: forall x <- patch.remove :: patch.ensure[k] != x
    {
      for j := 0 to |patch.remove|
        invariant forall k | 0 <= k < j :: patch.ensure[i] != patch.remove[k]
      {
        var e, x := patch.ensure[i], patch.remove[j];
        if e.pointer == x.pointer && e.value == x.value {
          assert e in patch.ensure && x in patch.remove && e == x;
          return false;
        }
      }
    }
    ok := CheckOperations(patch.operations);
  }

  // applyOperations: a fold of the operations.
  method ApplyOperations(document: Json, ops: seq<Operation>) returns (r: Option<Json>)
    ensures r == ApplyAll(document, ops)
  {
    var current := document;
    for i := 0 to |ops|
      invariant ApplyAll(document, ops) == ApplyAll(current, ops[i..])
    {
      assert ops[i..][1..] == ops[i + 1..];
      var next := ApplyOne(current, ops[i]);
      if next.None? {
        return None;
      }
      current := next.value;
    }
    return Some(current);
  }

  // Compiles the removals, simulating each on the document before the next.
  method CompileRemoves(document: Json, items: seq<Intent>) returns (r: Option<seq<Operation>>, current: Json)
    ensures r.Some? <==> RemoveSteps(document, items).Some?
    ensures r.Some? ==> RemoveSteps(document, items) == Some(current) == ApplyAll(document, r.value)
  {
    current := document;
    var compiled: seq<Operation> := [];
    for i := 0 to |items|
      invariant RemoveSteps(document, items[..i]) == Some(current) == ApplyAll(document, compiled)
    {
      assert items[..i + 1][..i] == items[..i];
      CompiledRemoveApplies(current, items[i]);
      var ops := CompileRemove(current, items[i]);
      if ops.Err? {
        RemovesFail(document, items, i + 1);
        return None, current;
      }
      ApplyAppend(document, compiled, ops.value);
      var next := ApplyOperations(current, ops.value);
      current, compiled := next.value, compiled + ops.value;
    }
    assert items[..|items|] == items;
    return Some(compiled), current;
  }

  lemma {:induction false} RemovesFail(document: Json, items: seq<Intent>, i: nat)
    requires i <= |items| && RemoveSteps(document, items[..i]).None?
    ensures RemoveSteps(document, items).None?
    decreases |items|
  {
    if i < |items| {
      var front := items[..|items| - 1];
      assert front[..i] == items[..i];
      RemovesFail(document, front, i);
    } else {
      assert items[..i] == items;
    }
  }

  method CompileEnsures(document: Json, items: seq<Intent>) returns (r: Option<seq<Operation>>)
    ensures r.Some? <==> EnsureSteps(document, items).Some?
    ensures r.Some? ==> EnsureSteps(document, items) == ApplyAll(document, r.value)
  {
    var current := document;
    var compiled: seq<Operation> := [];
    for i := 0 to |items|
      invariant EnsureSteps(document, items[..i]) == Some(current) == ApplyAll(document, compiled)
    {
      assert items[..i + 1][..i] == items[..i];
      CompiledEnsureApplies(current, items[i]);
      var ops := CompileEnsure(current, items[i]);
      if ops.Err? {
        EnsuresFail(document, items, i + 1);
        return None;
      }
      ApplyAppend(document, compiled, ops.value);
      var next := ApplyOperations(current, ops.value);
      current, compiled := next.value, compiled + ops.value;
    }
    assert items[..|items|] == items;
    return Some(compiled);
  }

  lemma {:induction false} EnsuresFail(document: Json, items: seq<Intent>, i: nat)
    requires i <= |items| && EnsureSteps(document, items[..i]).None?
    ensures EnsureSteps(document, items).None?
    decreases |items|
  {
    if i < |items| {
      var front := items[..|items| - 1];
      assert front[..i] == items[..i];
      EnsuresFail(document, front, i);
    } else {
      assert items[..i] == items;
    }
  }

  // Replaying all compiled operations on the original document gives the
  // document the compiler simulated step by step.
  method CompileIntents(document: Json, patch: Patch) returns (r: Option<seq<Operation>>)
    ensures r.Some? <==> Meaning(document, patch).Some?
    ensures r.Some? ==> ApplyAll(document, r.value) == Meaning(document, patch)
  {
    var removes, current := CompileRemoves(document, patch.remove);
    if removes.None? {
      return None;
    }
    var adds := CompileEnsures(current, patch.ensure);
    if adds.None? {
      return None;
    }
    ApplyAppend(document, removes.value, adds.value);
    return Some(removes.value + adds.value);
  }

  method ApplyRawOperations(document: Json, ops: seq<RawOperation>) returns (r: Option<Json>)
    ensures r == ApplyRaws(document, ops)
  {
    var current := document;
    for i := 0 to |ops|
      invariant ApplyRaws(document, ops) == ApplyRaws(current, ops[i..])
    {
      assert ops[i..][1..] == ops[i + 1..];
      var next := ApplyRaw(current, ops[i]);
      if next.None? {
        return None;
      }
      current := next.value;
    }
    return Some(current);
  }

  // Whether the raw operations of the patch can be replayed and leave an object.
  predicate Replayable(document: Json, patch: Patch)
  {
    ApplyRaws(document, patch.operations).Some? && ApplyRaws(document, patch.operations).value.Obj?
  }

  // A patch that applies does what it means; it applies exactly when it is valid
  // and means something. Its operations are replayed first, so a patch without
  // intents is their replay, and the intents meet the document they leave.
  method Apply(document: Json, patch: Patch) returns (r: Option<Json>)
    requires document.Obj?
    ensures r == if ValidPatch(patch) then Effect(document, patch) else None
    ensures !ValidPatch(patch) || !Replayable(document, patch) ==> r == None
    ensures ValidPatch(patch) && Replayable(document, patch) ==>
              r == Meaning(ApplyRaws(document, patch.operations).value, patch)
    ensures ValidPatch(patch) && Replayable(document, patch) && patch.ensure == [] && patch.remove == [] ==>
              r == ApplyRaws(document, patch.operations)
    ensures r.Some? ==> r.value.Obj?
  {
    var ok := Validate(patch);
    if !ok {
      return None;
    }
    var current := document;
    if |patch.operations| > 0 {
      var raw := ApplyRawOperations(current, patch.operations);
      if raw.None? || !raw.value.Obj? {
        return None;
      }
      current := raw.value;
    }
    var ops := CompileIntents(current, patch);
    if ops.None? {
      return None;
    }
    r := ApplyOperations(current, ops.value);
    RootStaysObject(current, ops.value);
  }
}
