// What a removal selects: the references to delete, the objects that may become
// unreferenced, and how often the remaining references name each object.

module OciSelection {
  type Id = nat
  type Key = nat

  datatype Option<T> = None | Some(value: T)

  datatype Kind = Reference | Object

  // A catalog row; key is the object it stands for, absent when unknown, and
  // named says how many references an object row lists.
  datatype Info = Info(kind: Kind, id: Id, key: Option<Key>, named: nat)

  predicate RefersTo(e: Info, key: Option<Key>)
  {
    e.kind == Reference && e.key == key
  }

  // ---- References ------------------------------------------------------------------

  predicate Selects(info: Info, entries: seq<Info>, force: bool, id: Id)
  {
    if info.kind == Reference then info.id == id
    else force && exists e <- entries :: RefersTo(e, info.key) && e.id == id
  }

  method SelectedReferenceIds(selected: seq<Info>, entries: seq<Info>, force: bool) returns (r: set<Id>)
    ensures forall id :: id in r <==> exists info <- selected :: Selects(info, entries, force, id)
  {
    r := {};
    for i := 0 to |selected|
      invariant forall id :: id in r <==> exists j :: 0 <= j < i && Selects(selected[j], entries, force, id)
    {
      var info := selected[i];
      if info.kind == Reference {
        r := r + {info.id};
      } else if force {
        ghost var before := r;
        for k := 0 to |entries|
          invariant forall id :: id in r <==>
                      id in before || exists m :: 0 <= m < k && RefersTo(entries[m], info.key) && entries[m].id == id
        {
          if entries[k].kind == Reference && entries[k].key == info.key {
            r := r + {entries[k].id};
          }
        }
        forall id
          ensures id in r <==> id in before || Selects(info, entries, force, id)
        {
          if Selects(info, entries, force, id) {
            var e :| e in entries && RefersTo(e, info.key) && e.id == id;
          }
        }
      }
    }
  }

  // ---- Objects ---------------------------------------------------------------------

  predicate AllSelected(entries: seq<Info>, key: Key, ids: set<Id>)
  {
    forall e <- entries :: RefersTo(e, Some(key)) ==> e.id in ids
  }

  predicate Offers(info: Info, entries: seq<Info>, ids: set<Id>, key: Key)
  {
    info.key == Some(key) && (info.kind == Object || AllSelected(entries, key, ids))
  }

  predicate Forces(info: Info, entries: seq<Info>, ids: set<Id>, key: Key)
  {
    info.key == Some(key) && if info.kind == Object then info.named != 0 else AllSelected(entries, key, ids)
  }

  // An object that still has references is selected without force.
  predicate Refused(info: Info, force: bool)
  {
    info.kind == Object && info.key.Some? && info.named != 0 && !force
  }

  datatype Candidates = StillReferenced | Candidates(objects: set<Key>, allowBusy: set<Key>)

  method CheckAllSelected(entries: seq<Info>, key: Key, ids: set<Id>) returns (all: bool)
    ensures all == AllSelected(entries, key, ids)
  {
    for i := 0 to |entries|
      invariant forall j | 0 <= j < i :: RefersTo(entries[j], Some(key)) ==> entries[j].id in ids
    {
      if entries[i].kind == Reference && entries[i].key == Some(key) && entries[i].id !in ids {
        assert entries[i] in entries;
        return false;
      }
    }
    return true;
  }

  method RemovalObjectCandidates(selected: seq<Info>, entries: seq<Info>, force: bool, ids: set<Id>)
    returns (r: Candidates)
    ensures r.StillReferenced? <==> exists info <- selected :: Refused(info, force)
    ensures r.Candidates? ==> forall key ::
              && (key in r.objects <==> exists info <- selected :: Offers(info, entries, ids, key))
              && (key in r.allowBusy <==> force && exists info <- selected :: Forces(info, entries, ids, key))
  {
    var objects: set<Key>, allowBusy: set<Key> := {}, {};
    for i := 0 to |selected|
      invariant forall j | 0 <= j < i :: !Refused(selected[j], force)
      invariant forall key :: key in objects <==> exists j :: 0 <= j < i && Offers(selected[j], entries, ids, key)
      invariant forall key :: key in allowBusy <==>
                  force && exists j :: 0 <= j < i && Forces(selected[j], entries, ids, key)
    {
      var info := selected[i];
      if info.key.Some? {
        var key := info.key.value;
        if info.kind == Object {
          if info.named != 0 && !force {
            assert Refused(selected[i], force) && selected[i] in selected;
            return StillReferenced;
          }
          objects := objects + {key};
          if force && info.named != 0 {
            allowBusy := allowBusy + {key};
          }
        } else {
          var all := CheckAllSelected(entries, key, ids);
          if all {
            objects := objects + {key};
            if force {
              allowBusy := allowBusy + {key};
            }
          }
        }
      }
    }
    return Candidates.Candidates(objects, allowBusy);
  }

  // ---- Counting --------------------------------------------------------------------

  // A file in the references directory; key is absent when the file cannot be
  // read, cannot be decoded or names no usable object.
  datatype File = File(id: Id, key: Option<Key>)

  predicate Counts(f: File, excluded: set<Id>, key: Key)
  {
    f.id !in excluded && f.key == Some(key)
  }

  function Count(files: seq<File>, excluded: set<Id>, key: Key): nat
  {
    if files == [] then 0
    else
      Count(files[..|files| - 1], excluded, key) + if Counts(files[|files| - 1], excluded, key) then 1 else 0
  }

  method ReferenceObjectCounts(files: seq<File>, excluded: set<Id>) returns (r: map<Key, nat>)
    ensures forall key :: Count(files, excluded, key) == if key in r then r[key] else 0
    ensures forall key :: key in r <==> exists f <- files :: Counts(f, excluded, key)
  {
    r := map[];
    for i := 0 to |files|
      invariant forall key :: Count(files[..i], excluded, key) == if key in r then r[key] else 0
      invariant forall key :: key in r <==> exists j :: 0 <= j < i && Counts(files[j], excluded, key)
    {
      assert files[..i + 1][..i] == files[..i];
      var f := files[i];
      if f.id !in excluded && f.key.Some? {
        var key := f.key.value;
        r := r[key := (if key in r then r[key] else 0) + 1];
      }
    }
    assert files[..|files|] == files;
  }

  // ---- What the selection guarantees -------------------------------------------------

  // An object row lists references exactly when some entry refers to it.
  predicate Consistent(selected: seq<Info>, entries: seq<Info>)
  {
    forall info <- selected :: info.kind == Object ==>
      (info.named == 0 <==> forall e <- entries :: !RefersTo(e, info.key))
  }

  // The rows of the second read stand for rows of the first: the same reference,
  // or the same object.
  predicate Resolved(first: seq<Info>, second: seq<Info>)
  {
    forall b <- second :: exists a <- first :: SameRow(a, b)
  }

  predicate SameRow(a: Info, b: Info)
  {
    a.kind == b.kind && a.id == b.id && (a.kind == Object ==> a.key == b.key)
  }

  // The catalog lists the reference as one to a selected object, or it is selected
  // itself.
  predicate Covered(selected: seq<Info>, entries: seq<Info>, id: Id)
  {
    || (exists info <- selected :: info.kind == Reference && info.id == id)
    || (exists e <- entries :: e.id == id && NamesSelected(selected, e))
  }

  predicate NamesSelected(selected: seq<Info>, e: Info)
  {
    exists info <- selected :: info.kind == Object && RefersTo(e, info.key)
  }

  // Everything a removal works with: the selection and the catalog of its first
  // read, which give the references it locks, and those of its second read,
  // which give the objects it may delete.
  ghost predicate TwoReads(
    selected: seq<Info>, entries: seq<Info>, force: bool, ids: set<Id>, selected2: seq<Info>, entries2: seq<Info>)
  {
    && (forall id :: id in ids <==> exists info <- selected :: Selects(info, entries, force, id))
    && Resolved(selected, selected2) && Consistent(selected2, entries2)
    && !exists info <- selected2 :: Refused(info, force)
  }

  lemma CoveredIsLocked(
    selected: seq<Info>, entries: seq<Info>, ids: set<Id>, selected2: seq<Info>, entries2: seq<Info>, id: Id)
    requires TwoReads(selected, entries, true, ids, selected2, entries2)
    ensures Covered(selected, entries, id) <==> id in ids
  {
    if e :| e in entries && e.id == id && NamesSelected(selected, e) {
      var info :| info in selected && info.kind == Object && RefersTo(e, info.key);
      assert Selects(info, entries, true, id);
    }
    if info :| info in selected && info.kind == Reference && info.id == id {
      assert Selects(info, entries, true, id);
    }
    if id in ids {
      var info :| info in selected && Selects(info, entries, true, id);
      if info.kind == Object {
        var e :| e in entries && RefersTo(e, info.key) && e.id == id;
        assert NamesSelected(selected, e);
      }
    }
  }

  // A removal that goes ahead has selected every reference that names a candidate
  // at its second read exactly when each of them was covered at the first read.
  // Only force, and only an object row, leaves room for a reference that was not.
  lemma CandidateKeepsNoReferenceIff(
    selected: seq<Info>, entries: seq<Info>, force: bool, ids: set<Id>, selected2: seq<Info>, entries2: seq<Info>,
    key: Key)
    requires TwoReads(selected, entries, force, ids, selected2, entries2)
    requires exists info <- selected2 :: Offers(info, entries2, ids, key)
    ensures AllSelected(entries2, key, ids) <==>
            !force || forall e <- entries2 :: RefersTo(e, Some(key)) ==> Covered(selected, entries, e.id)
  {
    var info :| info in selected2 && Offers(info, entries2, ids, key);
    if force {
      forall e | e in entries2
        ensures Covered(selected, entries, e.id) <==> e.id in ids
      {
        CoveredIsLocked(selected, entries, ids, selected2, entries2, e.id);
      }
    } else {
      assert !Refused(info, force);
    }
  }

  // In particular when no reference to the object appeared between the reads.
  lemma QuietReadsSelectAll(
    selected: seq<Info>, entries: seq<Info>, force: bool, ids: set<Id>, selected2: seq<Info>, entries2: seq<Info>,
    key: Key)
    requires TwoReads(selected, entries, force, ids, selected2, entries2)
    requires exists info <- selected2 :: Offers(info, entries2, ids, key)
    requires forall e <- entries2 :: RefersTo(e, Some(key)) ==>
               exists d <- entries :: RefersTo(d, Some(key)) && d.id == e.id
    ensures AllSelected(entries2, key, ids)
  {
    var info :| info in selected2 && Offers(info, entries2, ids, key);
    if info.kind == Object && force {
      var row :| row in selected && SameRow(row, info);
      forall e | e in entries2 && RefersTo(e, Some(key))
        ensures e.id in ids
      {
        assert Selects(row, entries, force, e.id);
      }
    } else if info.kind == Object {
      assert !Refused(info, force);
    }
  }

  // A reference published between the reads keeps naming a candidate: only the
  // count made under the object's lock saves the object.
  lemma LateReferenceIsNotSelected(row: Info, late: Info)
    requires row == Info(Object, 1, Some(5), 0) && late == Info(Reference, 2, Some(5), 0)
    ensures var row2 := row.(named := 1);
            && TwoReads([row], [], true, {}, [row2], [late])
            && Offers(row2, [late], {}, 5) && !AllSelected([late], 5, {})
            && Count([File(2, Some(5))], {}, 5) == 1
  {
    var row2 := row.(named := 1);
    assert SameRow(row, row2) && row in [row];
    assert RefersTo(late, row2.key) && late in [late];
    assert [File(2, Some(5))][..0] == [];
  }
}
