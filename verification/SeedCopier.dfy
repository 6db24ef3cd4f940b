// The copier itself: counters and the hard-link table are updated while the
// source tree is walked.

module SeedCopier {
  import opened SeedModel
  import opened SeedTheorems

  datatype Maybe = Fine | Error(error: Error)

  function Ended(r: Outcome): Maybe
  {
    if r.Copied? then Fine else Error(r.error)
  }

  class Copier {
    const limits: Limits
    var entries: nat
    var bytes: nat
    var metadata: nat
    var table: map<Inode, Hardlink>
    var dest: map<Path, nat>
    var next: nat

    constructor (limits: Limits)
      ensures this.limits == limits && View() == START && Valid()
    {
      this.limits := limits;
      entries, bytes, metadata, table, dest, next := 0, 0, 0, map[], map[], 0;
      new;
      assert PathBytes(map[]) == 0;
    }

    function View(): State
      reads this
    {
      State(entries, bytes, metadata, table, dest, next)
    }

    // For any source whatsoever: neither budget is exceeded, the metadata total is
    // the summed length of the stored paths, and every stored file has names left.
    // So no subtraction below underflows.
    predicate Valid()
      reads this
    {
      bytes <= limits.bytes && metadata <= limits.metadata && Accounted(table, metadata)
    }

    method ReserveBytes(size: nat) returns (r: Maybe)
      requires Valid()
      modifies this`bytes
      ensures Valid()
      ensures r == Ended(Reserve(limits, old(View()), size))
      ensures View() == if r.Fine? then Reserve(limits, old(View()), size).state else old(View())
    {
      if size > limits.bytes - bytes {
        return Error(TooManyBytes);
      }
      bytes := bytes + size;
      return Fine;
    }

    method CreateFile(path: Path) returns (r: Maybe)
      modifies this`dest, this`next
      ensures r == Ended(Create(old(View()), path))
      ensures View() == if r.Fine? then Create(old(View()), path).state else old(View())
    {
      if path in dest {
        return Error(AlreadyExists);
      }
      dest, next := dest[path := next], next + 1;
      return Fine;
    }

    // The branch of copyRegular for an inode in the table.
    method LinkRegular(path: Path, inode: Inode, links: nat) returns (r: Maybe)
      requires Valid() && inode in table
      modifies this`dest, this`table, this`metadata
      ensures Valid()
      ensures r == Ended(LinkStep(old(View()), path, inode, links))
      ensures r.Fine? ==> View() == LinkStep(old(View()), path, inode, links).state
    {
      var existing := table[inode];
      if links != existing.links {
        return Error(LinkCountChanged);
      }
      if path in dest {
        return Error(AlreadyExists);
      }
      if existing.path !in dest {
        return Error(LinkSourceMissing);
      }
      CountedAccounted(table, metadata, inode);
      dest := dest[path := dest[existing.path]];
      existing := existing.(remaining := existing.remaining - 1);
      if existing.remaining == 0 {
        table := table - {inode};
        metadata := metadata - |existing.path|;
      } else {
        table := table[inode := existing];
      }
      return Fine;
    }

    method CopyRegular(path: Path, inode: Inode, size: nat, links: nat) returns (r: Maybe)
      requires Valid()
      modifies this`bytes, this`dest, this`next, this`table, this`metadata
      ensures Valid()
      ensures var kind := Regular(inode, size, links);
              && r == Ended(KindStep(limits, old(View()), path, kind))
              && (r.Fine? ==> View() == KindStep(limits, old(View()), path, kind).state)
    {
      if inode in table {
        r := LinkRegular(path, inode, links);
        return;
      }
      r := ReserveBytes(size);
      if r.Error? {
        return;
      }
      r := CreateFile(path);
      if r.Error? {
        return;
      }
      if links > 1 {
        if |path| > limits.metadata - metadata {
          return Error(TooMuchMetadata);
        }
        RememberedBytes(table, path, inode, links);
        metadata := metadata + |path|;
        table := table[inode := Hardlink(path, links, links - 1)];
      }
    }

    // Copies exactly the links that stay inside the tree, fit the limits and have a
    // path of their own.
    method CopySymlink(path: Path, length: nat, local: bool) returns (r: Maybe)
      requires Valid()
      modifies this`bytes, this`dest, this`next
      ensures Valid()
      ensures var kind := Symlink(length, local);
              && r == Ended(KindStep(limits, old(View()), path, kind))
              && (r.Fine? ==> View() == KindStep(limits, old(View()), path, kind).state)
      ensures r == Error(TargetTooLong) <==> length > limits.pathBytes
      ensures r == Error(Unsupported) <==> length <= limits.pathBytes && !local
      ensures r == Error(TooManyBytes) <==>
                length <= limits.pathBytes && local && old(bytes) + length > limits.bytes
      ensures r == Error(AlreadyExists) <==>
                length <= limits.pathBytes && local && old(bytes) + length <= limits.bytes && path in old(dest)
      ensures r.Fine? <==>
                length <= limits.pathBytes && local && old(bytes) + length <= limits.bytes && path !in old(dest)
      ensures r.Fine? ==> dest == old(dest)[path := old(next)] && bytes == old(bytes) + length
    {
      if length > limits.pathBytes {
        return Error(TargetTooLong);
      }
      if !local {
        return Error(Unsupported);
      }
      r := ReserveBytes(length);
      if r.Fine? {
        r := CreateFile(path);
      }
    }

    method CopyKind(path: Path, kind: Kind) returns (r: Maybe)
      requires Valid()
      modifies this`bytes, this`dest, this`next, this`table, this`metadata
      ensures Valid()
      ensures r == Ended(KindStep(limits, old(View()), path, kind))
      ensures r.Fine? ==> View() == KindStep(limits, old(View()), path, kind).state
    {
      match kind
      case Folder(depth) =>
        r := CreateFile(path);
        if r.Fine? && depth > limits.depth {
          r := Error(TooDeep);
        }
      case Regular(inode, size, links) => r := CopyRegular(path, inode, size, links);
      case Symlink(length, local) => r := CopySymlink(path, length, local);
      case Foreign => r := Error(Unsupported);
    }

    // copyEntry, up to the descent into a directory.
    method CopyPlain(e: Entry) returns (r: Maybe)
      requires Valid()
      modifies this`entries, this`bytes, this`dest, this`next, this`table, this`metadata
      ensures Valid()
      ensures r == Ended(Step(limits, old(View()), e))
      ensures r.Fine? ==> View() == Step(limits, old(View()), e).state
    {
      if !ValidComponent(e.name) {
        return Error(BadName);
      }
      if |e.path| > limits.pathBytes {
        return Error(PathTooLong);
      }
      if entries >= limits.entries {
        return Error(TooManyEntries);
      }
      entries := entries + 1;
      r := CopyKind(e.path, e.kind);
    }

    // Walks the tree; the result is the result of copying its entries in order.
    method CopyDirectory(forest: Forest, relative: Path, depth: nat) returns (r: Maybe)
      requires Valid()
      modifies this`entries, this`bytes, this`dest, this`next, this`table, this`metadata
      ensures Valid()
      ensures r == Ended(Run(limits, old(View()), Entries(forest, relative, depth)))
      ensures r.Fine? ==> View() == Run(limits, old(View()), Entries(forest, relative, depth)).state
      decreases forest
    {
      var rest := forest;
      while rest.Node?
        invariant Valid()
        invariant rest == forest || rest < forest
        invariant Run(limits, old(View()), Entries(forest, relative, depth)) ==
                  Run(limits, View(), Entries(rest, relative, depth))
        decreases rest
      {
        var Node(name, item, tail) := rest;
        var path := Join(relative, name);
        ghost var own := ItemEntries(item, name, path, depth);
        RunAppend(limits, View(), own, Entries(tail, relative, depth));
        match item {
        case Plain(kind) =>
          r := CopyPlain(Entry(name, path, kind));
          assert own[1..] == [];
        case Directory(inner) =>
          r := CopyPlain(Entry(name, path, Folder(depth + 1)));
          assert own[1..] == Entries(inner, path, depth + 1);
          if r.Fine? {
            r := CopyDirectory(inner, path, depth + 1);
          }
        }
        if r.Error? {
          return;
        }
        rest := tail;
      }
      return Fine;
    }
  }
}
