// What the seed copier keeps while it walks any sane source tree.

module SeedTheorems {
  import opened SeedModel

  // ---- Sums over the table ---------------------------------------------------------------

  lemma {:induction false} PathBytesWithout(table: map<Inode, Hardlink>, k: Inode)
    requires k in table
    ensures PathBytes(table) == |table[k].path| + PathBytes(table - {k})
    decreases |table|
  {
    var m := Smallest(table.Keys);
    if m != k {
      PathBytesWithout(table - {m}, k);
      assert table - {m} - {k} == table - {k} - {m};
      assert (table - {k}).Keys == table.Keys - {k};
      assert m in table.Keys - {k};
      var n := Smallest((table - {k}).Keys);
      assert n in table.Keys && m <= n && n <= m;
    }
  }

  lemma PathBytesUpdate(table: map<Inode, Hardlink>, k: Inode, x: Hardlink)
    ensures PathBytes(table[k := x]) == |x.path| + PathBytes(table - {k})
    ensures k !in table ==> table - {k} == table
  {
    PathBytesWithout(table[k := x], k);
    assert table[k := x] - {k} == table - {k};
  }

  // ---- Counting names -------------------------------------------------------------------------

  lemma CountAppend(entries: seq<Entry>, e: Entry, inode: Inode)
    ensures Count(entries + [e], inode) == Count(entries, inode) + if Names(e, inode) then 1 else 0
  {
    assert (entries + [e])[..|entries|] == entries;
  }

  lemma {:induction false} CountPositive(entries: seq<Entry>, inode: Inode)
    ensures Count(entries, inode) > 0 <==> exists i :: 0 <= i < |entries| && Names(entries[i], inode)
  {
    if entries != [] {
      var front := entries[..|entries| - 1];
      CountPositive(front, inode);
      if Count(front, inode) > 0 {
        var i :| 0 <= i < |front| && Names(front[i], inode);
        assert Names(entries[i], inode);
      }
    }
  }

  lemma SanePrefix(entries: seq<Entry>, e: Entry)
    requires Sane(entries + [e])
    ensures Sane(entries)
  {
    var all := entries + [e];
    assert forall i | 0 <= i < |entries| :: all[i] == entries[i];
    forall i | 0 <= i < |entries| && entries[i].kind.Regular?
      ensures Count(entries, entries[i].kind.inode) <= Cap(entries[i].kind.links)
    {
      CountAppend(entries, e, entries[i].kind.inode);
      assert all[i].kind.Regular?;
    }
  }

  // ---- The invariant ----------------------------------------------------------------------------

  predicate Budget(l: Limits, s: State, entries: seq<Entry>)
  {
    && s.entries == |entries| <= l.entries
    && s.bytes == BytesOf(entries) <= l.bytes
    && s.metadata == PathBytes(s.table) <= l.metadata
  }

  // Two destinations share a file exactly when their sources do.
  predicate Linked(dest: map<Path, nat>, next: nat, entries: seq<Entry>)
  {
    && (forall i | 0 <= i < |entries| :: entries[i].path in dest)
    && (forall p <- dest :: dest[p] < next)
    && (forall i, j | 0 <= i < |entries| && 0 <= j < |entries| ::
          dest[entries[i].path] == dest[entries[j].path] <==> i == j || SameFile(entries[i], entries[j]))
  }

  // The table holds the files that have more names to come.
  ghost predicate Pending(table: map<Inode, Hardlink>, entries: seq<Entry>)
  {
    && (forall k <- table ::
          && 0 < Count(entries, k) < table[k].links
          && table[k].remaining == table[k].links - Count(entries, k)
          && exists i :: FirstName(table[k], entries, i, k))
    && (forall i | 0 <= i < |entries| && entries[i].kind.Regular? ::
          Count(entries, entries[i].kind.inode) < entries[i].kind.links ==> entries[i].kind.inode in table)
  }

  predicate FirstName(x: Hardlink, entries: seq<Entry>, i: int, k: Inode)
  {
    0 <= i < |entries| && Names(entries[i], k) && entries[i].path == x.path && entries[i].kind.links == x.links
  }

  ghost predicate Inv(l: Limits, s: State, entries: seq<Entry>)
  {
    Budget(l, s, entries) && Linked(s.dest, s.next, entries) && Pending(s.table, entries)
  }

  // ---- Destinations -------------------------------------------------------------------------------

  lemma LinkedFresh(dest: map<Path, nat>, next: nat, entries: seq<Entry>, e: Entry)
    requires Linked(dest, next, entries) && e.path !in dest
    requires forall i | 0 <= i < |entries| :: !SameFile(entries[i], e)
    ensures Linked(dest[e.path := next], next + 1, entries + [e])
  {
    var all, d := entries + [e], dest[e.path := next];
    assert forall i | 0 <= i < |entries| :: all[i] == entries[i] && d[all[i].path] == dest[entries[i].path];
  }

  lemma LinkedSame(dest: map<Path, nat>, next: nat, entries: seq<Entry>, e: Entry, k: nat)
    requires Linked(dest, next, entries) && e.path !in dest
    requires k < |entries| && SameFile(entries[k], e)
    ensures Linked(dest[e.path := dest[entries[k].path]], next, entries + [e])
  {
    var all, d := entries + [e], dest[e.path := dest[entries[k].path]];
    assert forall i | 0 <= i < |entries| :: all[i] == entries[i] && d[all[i].path] == dest[entries[i].path];
  }

  // ---- Steps ------------------------------------------------------------------------------------------

  lemma PendingOther(table: map<Inode, Hardlink>, entries: seq<Entry>, e: Entry)
    requires Pending(table, entries) && !e.kind.Regular?
    ensures Pending(table, entries + [e])
  {
    var all := entries + [e];
    forall k | k in table
      ensures Count(all, k) == Count(entries, k) && exists i :: FirstName(table[k], all, i, k)
    {
      CountAppend(entries, e, k);
      var i :| FirstName(table[k], entries, i, k);
      assert FirstName(table[k], all, i, k);
    }
    forall i | 0 <= i < |all| && all[i].kind.Regular?
      ensures Count(all, all[i].kind.inode) < all[i].kind.links ==> all[i].kind.inode in table
    {
      assert i < |entries| && all[i] == entries[i];
      CountAppend(entries, e, all[i].kind.inode);
    }
  }

  // The table after one more name of the inode.
  lemma PendingNamed(table: map<Inode, Hardlink>, entries: seq<Entry>, e: Entry, t: map<Inode, Hardlink>)
    requires Pending(table, entries) && e.kind.Regular? && Sane(entries + [e])
    requires t - {e.kind.inode} == table - {e.kind.inode}
    requires var k := e.kind.inode; var n := Count(entries, k) + 1;
             if n < e.kind.links then
               k in t && t[k].links == e.kind.links && t[k].remaining == e.kind.links - n &&
               exists i :: FirstName(t[k], entries + [e], i, k)
             else k !in t
    ensures Pending(t, entries + [e])
  {
    var all, k := entries + [e], e.kind.inode;
    forall m | m in t && m != k
      ensures m in table && t[m] == table[m] && Count(all, m) == Count(entries, m)
      ensures exists i :: FirstName(t[m], all, i, m)
    {
      assert m in t - {k} && (t - {k})[m] == t[m];
      CountAppend(entries, e, m);
      var i :| FirstName(table[m], entries, i, m);
      assert FirstName(t[m], all, i, m);
    }
    CountAppend(entries, e, k);
    forall i | 0 <= i < |all| && all[i].kind.Regular?
      ensures Count(all, all[i].kind.inode) < all[i].kind.links ==> all[i].kind.inode in t
    {
      var m := all[i].kind.inode;
      CountAppend(entries, e, m);
      if m == k {
        assert SameFile(all[i], all[|entries|]);
      } else {
        assert all[i] == entries[i];
        assert m in table ==> m in table - {k};
      }
    }
  }

  // An inode that is not in the table has not been seen.
  lemma NotInTableIsNew(table: map<Inode, Hardlink>, entries: seq<Entry>, e: Entry)
    requires Pending(table, entries) && e.kind.Regular? && Sane(entries + [e]) && e.kind.inode !in table
    ensures Count(entries, e.kind.inode) == 0
    ensures forall i | 0 <= i < |entries| :: !SameFile(entries[i], e)
  {
    var all, k := entries + [e], e.kind.inode;
    CountAppend(entries, e, k);
    CountPositive(entries, k);
    assert all[|entries|] == e;
    forall i | 0 <= i < |entries|
      ensures !Names(entries[i], k)
    {
      assert all[i] == entries[i];
    }
  }

  lemma CreateKeeps(l: Limits, s: State, entries: seq<Entry>, e: Entry, t: State)
    requires Linked(s.dest, s.next, entries) && Pending(s.table, entries) && !e.kind.Regular?
    requires Create(s, e.path) == Copied(t)
    ensures Linked(t.dest, t.next, entries + [e]) && Pending(t.table, entries + [e])
  {
    LinkedFresh(s.dest, s.next, entries, e);
    PendingOther(s.table, entries, e);
  }

  lemma BytesAppend(entries: seq<Entry>, e: Entry)
    ensures BytesOf(entries + [e]) == BytesOf(entries) + Charge(entries, e)
  {
    assert (entries + [e])[..|entries|] == entries;
  }

  // The table after a first copy.
  function Remembered(table: map<Inode, Hardlink>, path: Path, inode: Inode, links: nat): map<Inode, Hardlink>
  {
    if links <= 1 then table else table[inode := Hardlink(path, links, links - 1)]
  }

  lemma CopyShape(l: Limits, s: State, path: Path, inode: Inode, size: nat, links: nat, t: State)
    requires CopyStep(l, s, path, inode, size, links) == Copied(t) && s.bytes <= l.bytes && s.metadata <= l.metadata
    ensures path !in s.dest && t.entries == s.entries
    ensures t.bytes == s.bytes + size <= l.bytes
    ensures t.metadata == s.metadata + (if links <= 1 then 0 else |path|) <= l.metadata
    ensures t.dest == s.dest[path := s.next] && t.next == s.next + 1
    ensures t.table == Remembered(s.table, path, inode, links)
  {
  }

  lemma RememberedBytes(table: map<Inode, Hardlink>, path: Path, inode: Inode, links: nat)
    requires inode !in table
    ensures PathBytes(Remembered(table, path, inode, links)) ==
            PathBytes(table) + if links <= 1 then 0 else |path|
  {
    if links > 1 {
      PathBytesUpdate(table, inode, Hardlink(path, links, links - 1));
    }
  }

  lemma RememberedPending(table: map<Inode, Hardlink>, entries: seq<Entry>, e: Entry)
    requires Pending(table, entries) && e.kind.Regular? && Sane(entries + [e]) && e.kind.inode !in table
    ensures Pending(Remembered(table, e.path, e.kind.inode, e.kind.links), entries + [e])
  {
    var k, links := e.kind.inode, e.kind.links;
    var t := Remembered(table, e.path, k, links);
    NotInTableIsNew(table, entries, e);
    assert t - {k} == table - {k};
    if links > 1 {
      assert FirstName(t[k], entries + [e], |entries|, k);
    }
    PendingNamed(table, entries, e, t);
  }

  lemma CopyBudget(l: Limits, s: State, entries: seq<Entry>, e: Entry, t: State)
    requires Budget(l, s, entries) && e.kind.Regular? && e.kind.inode !in s.table && s.entries < l.entries
    requires BytesOf(entries + [e]) == BytesOf(entries) + e.kind.size
    requires CopyStep(l, s.(entries := s.entries + 1), e.path, e.kind.inode, e.kind.size, e.kind.links) == Copied(t)
    ensures Budget(l, t, entries + [e])
  {
    CopyShape(l, s.(entries := s.entries + 1), e.path, e.kind.inode, e.kind.size, e.kind.links, t);
    RememberedBytes(s.table, e.path, e.kind.inode, e.kind.links);
  }

  lemma CopyLinked(s: State, entries: seq<Entry>, e: Entry)
    requires Linked(s.dest, s.next, entries) && Pending(s.table, entries) && e.path !in s.dest
    requires e.kind.Regular? && Sane(entries + [e]) && e.kind.inode !in s.table
    ensures Linked(s.dest[e.path := s.next], s.next + 1, entries + [e])
    ensures BytesOf(entries + [e]) == BytesOf(entries) + e.kind.size
  {
    NotInTableIsNew(s.table, entries, e);
    LinkedFresh(s.dest, s.next, entries, e);
    BytesAppend(entries, e);
  }

  lemma CopyKeeps(l: Limits, s: State, entries: seq<Entry>, e: Entry, t: State)
    requires Inv(l, s, entries) && e.kind.Regular? && Sane(entries + [e]) && e.kind.inode !in s.table
    requires s.entries < l.entries
    requires CopyStep(l, s.(entries := s.entries + 1), e.path, e.kind.inode, e.kind.size, e.kind.links) == Copied(t)
    ensures Inv(l, t, entries + [e])
  {
    CopyShape(l, s.(entries := s.entries + 1), e.path, e.kind.inode, e.kind.size, e.kind.links, t);
    CopyLinked(s, entries, e);
    CopyBudget(l, s, entries, e, t);
    RememberedPending(s.table, entries, e);
  }

  // The table after one more link.
  function Counted(table: map<Inode, Hardlink>, inode: Inode): map<Inode, Hardlink>
    requires inode in table
  {
    var x := table[inode];
    if x.remaining <= 1 then table - {inode} else table[inode := x.(remaining := x.remaining - 1)]
  }

  lemma CountedBytes(table: map<Inode, Hardlink>, k: Inode)
    requires k in table
    ensures PathBytes(table) ==
            PathBytes(Counted(table, k)) + (if table[k].remaining <= 1 then |table[k].path| else 0)
  {
    PathBytesWithout(table, k);
    if table[k].remaining > 1 {
      PathBytesUpdate(table, k, Counted(table, k)[k]);
    }
  }

  // The metadata total is that of the table, whose files all have names left.
  predicate Accounted(table: map<Inode, Hardlink>, metadata: nat)
  {
    metadata == PathBytes(table) && forall k <- table :: table[k].remaining > 0
  }

  lemma CountedAccounted(table: map<Inode, Hardlink>, metadata: nat, k: Inode)
    requires Accounted(table, metadata) && k in table
    ensures |table[k].path| <= metadata
    ensures Accounted(Counted(table, k), metadata - if table[k].remaining <= 1 then |table[k].path| else 0)
  {
    PathBytesWithout(table, k);
    CountedBytes(table, k);
  }

  lemma CountedPending(table: map<Inode, Hardlink>, entries: seq<Entry>, e: Entry)
    requires Pending(table, entries) && e.kind.Regular? && Sane(entries + [e]) && e.kind.inode in table
    requires e.kind.links == table[e.kind.inode].links
    ensures Pending(Counted(table, e.kind.inode), entries + [e])
  {
    var k := e.kind.inode;
    var x, t := table[k], Counted(table, k);
    var i :| FirstName(x, entries, i, k);
    assert t - {k} == table - {k};
    if x.remaining > 1 {
      assert FirstName(t[k], entries + [e], i, k);
    }
    PendingNamed(table, entries, e, t);
  }

  lemma LinkShape(s: State, path: Path, inode: Inode, links: nat, t: State)
    requires inode in s.table && LinkStep(s, path, inode, links) == Copied(t)
    requires |s.table[inode].path| <= s.metadata
    ensures path !in s.dest && t.entries == s.entries && t.bytes == s.bytes && t.next == s.next
    ensures var x := s.table[inode];
            && links == x.links && x.path in s.dest && t.dest == s.dest[path := s.dest[x.path]]
            && t.table == Counted(s.table, inode)
            && t.metadata == s.metadata - (if x.remaining <= 1 then |x.path| else 0)
  {
  }

  lemma LinkKeepsLinked(s: State, entries: seq<Entry>, e: Entry, t: State)
    requires Linked(s.dest, s.next, entries) && Pending(s.table, entries)
    requires e.kind.Regular? && e.kind.inode in s.table && e.path !in s.dest && t.next == s.next
    requires var x := s.table[e.kind.inode]; x.path in s.dest && t.dest == s.dest[e.path := s.dest[x.path]]
    ensures Linked(t.dest, t.next, entries + [e])
  {
    var k := e.kind.inode;
    var i :| FirstName(s.table[k], entries, i, k);
    LinkedSame(s.dest, s.next, entries, e, i);
  }

  lemma LinkKeepsBudget(l: Limits, s: State, entries: seq<Entry>, e: Entry, t: State)
    requires Budget(l, s, entries) && Pending(s.table, entries) && s.entries < l.entries
    requires e.kind.Regular? && e.kind.inode in s.table
    requires t.entries == s.entries + 1 && t.bytes == s.bytes && t.table == Counted(s.table, e.kind.inode)
    requires var x := s.table[e.kind.inode];
             |x.path| <= s.metadata && t.metadata == s.metadata - (if x.remaining <= 1 then |x.path| else 0)
    ensures Budget(l, t, entries + [e])
  {
    var k := e.kind.inode;
    PathBytesWithout(s.table, k);
    BytesAppend(entries, e);
    CountedBytes(s.table, k);
  }

  lemma LinkKeeps(l: Limits, s: State, entries: seq<Entry>, e: Entry, t: State)
    requires Inv(l, s, entries) && e.kind.Regular? && Sane(entries + [e]) && e.kind.inode in s.table
    requires s.entries < l.entries
    requires LinkStep(s.(entries := s.entries + 1), e.path, e.kind.inode, e.kind.links) == Copied(t)
    ensures Inv(l, t, entries + [e])
  {
    PathBytesWithout(s.table, e.kind.inode);
    LinkShape(s.(entries := s.entries + 1), e.path, e.kind.inode, e.kind.links, t);
    LinkKeepsLinked(s, entries, e, t);
    LinkKeepsBudget(l, s, entries, e, t);
    CountedPending(s.table, entries, e);
  }

  lemma FolderKeeps(l: Limits, s: State, entries: seq<Entry>, e: Entry, t: State)
    requires Inv(l, s, entries) && e.kind.Folder? && s.entries < l.entries
    requires Create(s.(entries := s.entries + 1), e.path) == Copied(t)
    ensures Inv(l, t, entries + [e])
  {
    BytesAppend(entries, e);
    CreateKeeps(l, s.(entries := s.entries + 1), entries, e, t);
  }

  lemma SymlinkKeeps(l: Limits, s: State, entries: seq<Entry>, e: Entry, r: State, t: State)
    requires Inv(l, s, entries) && e.kind.Symlink? && s.entries < l.entries
    requires Reserve(l, s.(entries := s.entries + 1), e.kind.length) == Copied(r) && Create(r, e.path) == Copied(t)
    ensures Inv(l, t, entries + [e])
  {
    BytesAppend(entries, e);
    assert Budget(l, t, entries + [e]);
    CreateKeeps(l, r, entries, e, t);
  }

  lemma StepKeeps(l: Limits, s: State, entries: seq<Entry>, e: Entry, t: State)
    requires Inv(l, s, entries) && Sane(entries + [e]) && Step(l, s, e) == Copied(t)
    ensures Inv(l, t, entries + [e])
  {
    match e.kind
    case Folder(depth) => FolderKeeps(l, s, entries, e, t);
    case Regular(inode, size, links) =>
      if inode in s.table {
        LinkKeeps(l, s, entries, e, t);
      } else {
        CopyKeeps(l, s, entries, e, t);
      }
    case Symlink(length, _) =>
      SymlinkKeeps(l, s, entries, e, Reserve(l, s.(entries := s.entries + 1), length).state, t);
    case Foreign =>
  }

  lemma {:induction false} SanePrefixes(done: seq<Entry>, entries: seq<Entry>)
    requires Sane(done + entries)
    ensures Sane(done)
    decreases |entries|
  {
    if entries == [] {
      assert done + entries == done;
    } else {
      var front, last := entries[..|entries| - 1], entries[|entries| - 1];
      assert done + entries == done + front + [last];
      SanePrefix(done + front, last);
      SanePrefixes(done, front);
    }
  }

  lemma {:induction false} RunKeeps(l: Limits, s: State, done: seq<Entry>, entries: seq<Entry>)
    requires Inv(l, s, done) && Sane(done + entries) && Run(l, s, entries).Copied?
    ensures Inv(l, Run(l, s, entries).state, done + entries)
    decreases |entries|
  {
    if entries == [] {
      assert done + entries == done;
    } else {
      var e, rest := entries[0], entries[1..];
      var t := Step(l, s, e).state;
      assert done + entries == done + [e] + rest;
      SanePrefixes(done + [e], rest);
      StepKeeps(l, s, done, e, t);
      RunKeeps(l, t, done + [e], rest);
    }
  }

  lemma CopyInv(l: Limits, entries: seq<Entry>)
    requires Sane(entries) && Run(l, START, entries).Copied?
    ensures Inv(l, Run(l, START, entries).state, entries)
  {
    assert [] + entries == entries;
    RunKeeps(l, START, [], entries);
  }

  // ---- Whole copies ------------------------------------------------------------------------------

  // A copy of a sane tree that succeeds links two destinations exactly when their
  // sources share an inode, counts the bytes of each inode once, and accounts for
  // every path its table stores, within every limit.
  lemma CopyIsFaithful(l: Limits, entries: seq<Entry>)
    requires Sane(entries) && Run(l, START, entries).Copied?
    ensures var s := Run(l, START, entries).state;
            && s.entries == |entries| <= l.entries
            && s.bytes == BytesOf(entries) <= l.bytes
            && s.metadata == PathBytes(s.table) <= l.metadata
    ensures var dest := Run(l, START, entries).state.dest;
            && (forall i | 0 <= i < |entries| :: entries[i].path in dest)
            && forall i, j | 0 <= i < |entries| && 0 <= j < |entries| ::
                 dest[entries[i].path] == dest[entries[j].path] <==> i == j || SameFile(entries[i], entries[j])
  {
    CopyInv(l, entries);
  }

  // Once every name of every inode has been met the table is empty again.
  lemma CompleteTreeDrainsTable(l: Limits, entries: seq<Entry>)
    requires Sane(entries) && Run(l, START, entries).Copied?
    requires forall i | 0 <= i < |entries| && entries[i].kind.Regular? ::
               Count(entries, entries[i].kind.inode) == entries[i].kind.links
    ensures Run(l, START, entries).state.table == map[] && Run(l, START, entries).state.metadata == 0
  {
    CopyInv(l, entries);
    var table := Run(l, START, entries).state.table;
    forall k: Inode
      ensures k !in table
    {
      assert forall x: Hardlink, i :: FirstName(x, entries, i, k) ==> Count(entries, k) == x.links;
    }
    assert table == map[];
  }

  // The table agrees with every further name of its inodes.
  lemma TableAgrees(s: State, done: seq<Entry>, e: Entry)
    requires Linked(s.dest, s.next, done) && Pending(s.table, done) && Sane(done + [e])
    requires e.kind.Regular? && e.kind.inode in s.table
    ensures s.table[e.kind.inode].links == e.kind.links && s.table[e.kind.inode].path in s.dest
  {
    var k, all := e.kind.inode, done + [e];
    var i :| FirstName(s.table[k], done, i, k);
    assert all[i] == done[i] && SameFile(all[i], all[|done|]);
  }

  lemma LinkErrors(l: Limits, s: State, e: Entry)
    requires e.kind.Regular? && e.kind.inode in s.table ==>
               s.table[e.kind.inode].links == e.kind.links && s.table[e.kind.inode].path in s.dest
    ensures Step(l, s, e) != Failed(LinkCountChanged) && Step(l, s, e) != Failed(LinkSourceMissing)
  {
  }

  // On a sane tree no step finds a changed link count or a missing link source.
  lemma LinksNeverFail(l: Limits, done: seq<Entry>, e: Entry)
    requires Sane(done + [e]) && Run(l, START, done).Copied?
    ensures Step(l, Run(l, START, done).state, e) != Failed(LinkCountChanged)
    ensures Step(l, Run(l, START, done).state, e) != Failed(LinkSourceMissing)
  {
    SanePrefix(done, e);
    CopyInv(l, done);
    var s := Run(l, START, done).state;
    if e.kind.Regular? && e.kind.inode in s.table {
      TableAgrees(s, done, e);
    }
    LinkErrors(l, s, e);
  }

  // ---- Names beyond the link count ---------------------------------------------------------------

  predicate Keeps(d: map<Path, nat>, e: map<Path, nat>)
  {
    forall p <- d :: p in e && e[p] == d[p]
  }

  lemma StepKeepsDest(l: Limits, s: State, e: Entry, t: State)
    requires Step(l, s, e) == Copied(t)
    ensures Keeps(s.dest, t.dest)
  {
  }

  lemma {:induction false} RunKeepsDest(l: Limits, s: State, entries: seq<Entry>)
    requires Run(l, s, entries).Copied?
    ensures Keeps(s.dest, Run(l, s, entries).state.dest)
    decreases |entries|
  {
    if entries != [] {
      StepKeepsDest(l, s, entries[0], Step(l, s, entries[0]).state);
      RunKeepsDest(l, Step(l, s, entries[0]).state, entries[1..]);
    }
  }

  // Two destinations share a file exactly when their sources do.
  predicate Exact(dest: map<Path, nat>, entries: seq<Entry>)
  {
    && (forall i | 0 <= i < |entries| :: entries[i].path in dest)
    && forall i, j | 0 <= i < |entries| && 0 <= j < |entries| ::
         dest[entries[i].path] == dest[entries[j].path] <==> i == j || SameFile(entries[i], entries[j])
  }

  lemma AgreePrefix(entries: seq<Entry>, n: nat)
    requires n <= |entries| && Agree(entries)
    ensures Agree(entries[..n])
  {
  }

  // When the last name is the first one too many.
  lemma LastOverflows(entries: seq<Entry>)
    requires entries != [] && Agree(entries) && WithinLinks(entries[..|entries| - 1]) && !WithinLinks(entries)
    ensures var front, last := entries[..|entries| - 1], entries[|entries| - 1];
            last.kind.Regular? && Count(front, last.kind.inode) == Cap(last.kind.links)
  {
    var n := |entries| - 1;
    var front, last := entries[..n], entries[n];
    var i :| 0 <= i <= n && entries[i].kind.Regular? &&
      Count(entries, entries[i].kind.inode) > Cap(entries[i].kind.links);
    var k := entries[i].kind.inode;
    assert entries == front + [last];
    CountAppend(front, last, k);
    if i == n {
      CountPositive(front, k);
      var j :| 0 <= j < n && Names(front[j], k);
      assert front[j].kind.Regular? && SameFile(entries[j], entries[n]);
    } else {
      assert front[i].kind.Regular?;
      assert SameFile(entries[i], entries[n]);
    }
  }

  // The first name that is one too many.
  lemma {:induction false} FirstOverflow(entries: seq<Entry>) returns (n: nat)
    requires Agree(entries) && !WithinLinks(entries)
    ensures n < |entries| && Sane(entries[..n]) && entries[n].kind.Regular?
    ensures Count(entries[..n], entries[n].kind.inode) == Cap(entries[n].kind.links)
    decreases |entries|
  {
    var front := entries[..|entries| - 1];
    AgreePrefix(entries, |entries| - 1);
    if WithinLinks(front) {
      LastOverflows(entries);
      n := |entries| - 1;
    } else {
      n := FirstOverflow(front);
      assert front[..n] == entries[..n];
    }
  }

  // It is not in the table, so it is copied to a file of its own.
  lemma OverflowIsCopied(l: Limits, s: State, done: seq<Entry>, e: Entry, t: State)
    requires Inv(l, s, done) && e.kind.Regular? && Count(done, e.kind.inode) == Cap(e.kind.links)
    requires forall i | 0 <= i < |done| && SameFile(done[i], e) :: done[i].kind == e.kind
    requires Step(l, s, e) == Copied(t)
    ensures e.path in t.dest && t.dest[e.path] == s.next
  {
    var k := e.kind.inode;
    if k in s.table {
      var i :| FirstName(s.table[k], done, i, k);
      assert SameFile(done[i], e);
      assert false;
    }
  }

  lemma OverflowSplits(l: Limits, entries: seq<Entry>)
    requires Agree(entries) && !WithinLinks(entries) && Run(l, START, entries).Copied?
    ensures !Exact(Run(l, START, entries).state.dest, entries)
  {
    var n := FirstOverflow(entries);
    var done, e, rest := entries[..n], entries[n], entries[n + 1..];
    assert entries == done + ([e] + rest) && ([e] + rest)[1..] == rest;
    RunAppend(l, START, done, [e] + rest);
    CopyInv(l, done);
    var s := Run(l, START, done).state;
    var t := Step(l, s, e).state;
    forall i | 0 <= i < n && SameFile(done[i], e)
      ensures done[i].kind == e.kind
    {
      assert SameFile(entries[i], entries[n]);
    }
    OverflowIsCopied(l, s, done, e, t);
    StepKeepsDest(l, s, e, t);
    RunKeepsDest(l, t, rest);
    CountPositive(done, e.kind.inode);
    var j :| 0 <= j < n && Names(done[j], e.kind.inode);
    var dest := Run(l, START, entries).state.dest;
    assert done[j].path in s.dest && dest[entries[j].path] == s.dest[done[j].path] < s.next;
    assert dest[entries[n].path] == s.next;
    assert SameFile(entries[j], entries[n]);
  }

  // For sources whose names agree on their inodes' attributes, links are rebuilt
  // exactly when no inode has more names than links.
  lemma ExactIffWithinLinks(l: Limits, entries: seq<Entry>)
    requires Agree(entries) && Run(l, START, entries).Copied?
    ensures Exact(Run(l, START, entries).state.dest, entries) <==> WithinLinks(entries)
  {
    if WithinLinks(entries) {
      CopyIsFaithful(l, entries);
    } else {
      OverflowSplits(l, entries);
    }
  }

  // Two names of an inode whose link count is one are such a source: they are
  // copied, into two files.
  lemma TwoNamesSplit(l: Limits, a: Entry, b: Entry)
    requires l == Limits(1, 10, 10, 100, 100)
    requires a == Entry("a", "a", Regular(7, 5, 1)) && b == Entry("b", "b", Regular(7, 5, 1))
    ensures Agree([a, b]) && !WithinLinks([a, b]) && Run(l, START, [a, b]).Copied?
    ensures !Exact(Run(l, START, [a, b]).state.dest, [a, b])
  {
    TwoNamesOverflow(a, b);
    TwoNamesCopied(l, a, b);
    ExactIffWithinLinks(l, [a, b]);
  }

  lemma TwoNamesOverflow(a: Entry, b: Entry)
    requires a.kind.Regular? && a.kind == b.kind && a.kind.links == 1
    ensures !WithinLinks([a, b])
  {
    var k := a.kind.inode;
    assert [a, b][..1] == [a] && [a][..0] == [];
    assert Count([a], k) == 1;
    assert Count([a, b], k) == 2;
    assert [a, b][0].kind.Regular?;
  }

  lemma TwoNamesCopied(l: Limits, a: Entry, b: Entry)
    requires a.kind.Regular? && a.kind == b.kind && a.kind.links == 1 && a.path != b.path
    requires ValidComponent(a.name) && ValidComponent(b.name)
    requires |a.path| <= l.pathBytes && |b.path| <= l.pathBytes && 2 <= l.entries && 2 * a.kind.size <= l.bytes
    ensures Run(l, START, [a, b]).Copied?
  {
    var s := State(1, a.kind.size, 0, map[], map[a.path := 0], 1);
    assert Step(l, START, a) == Copied(s);
    assert Step(l, s, b).Copied?;
    assert [a, b][1..] == [b] && [b][1..] == [];
    assert Run(l, s, [b]) == Step(l, s, b);
  }
}
