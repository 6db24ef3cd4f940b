// Exactly which sources the seed copier accepts.

module SeedComplete {
  import opened SeedModel
  import opened SeedTheorems

  // ---- What a source may contain ------------------------------------------------------

  // A name of one component, never the directory itself or its parent.
  predicate PlainName(name: string)
  {
    && 0 < |name| <= 255 && name != "." && name != ".."
    && forall c <- name :: c != '/' && c != '\0'
  }

  predicate Admissible(l: Limits, e: Entry)
  {
    && PlainName(e.name) && |e.path| <= l.pathBytes && !e.kind.Foreign?
    && (e.kind.Folder? ==> e.kind.depth <= l.depth)
    && (e.kind.Symlink? ==> e.kind.local && e.kind.length <= l.pathBytes)
  }

  predicate DistinctPaths(entries: seq<Entry>)
  {
    forall i, j | 0 <= i < j < |entries| :: entries[i].path != entries[j].path
  }

  predicate AllAdmissible(l: Limits, entries: seq<Entry>)
  {
    forall i | 0 <= i < |entries| :: Admissible(l, entries[i])
  }

  lemma PlainNameIsComponent(name: string)
    ensures PlainName(name) <==> ValidComponent(name)
  {
  }

  lemma StepAdmits(l: Limits, s: State, e: Entry, t: State)
    requires Step(l, s, e) == Copied(t)
    ensures Admissible(l, e) && e.path !in s.dest && e.path in t.dest
    ensures t.dest.Keys == s.dest.Keys + {e.path}
  {
    PlainNameIsComponent(e.name);
  }

  function Paths(entries: seq<Entry>): set<Path>
  {
    set i | 0 <= i < |entries| :: entries[i].path
  }

  lemma PathsSplit(entries: seq<Entry>)
    requires entries != []
    ensures Paths(entries) == {entries[0].path} + Paths(entries[1..])
  {
    forall p | p in Paths(entries)
      ensures p in {entries[0].path} + Paths(entries[1..])
    {
      var i :| 0 <= i < |entries| && entries[i].path == p;
      assert i > 0 ==> entries[1..][i - 1].path == p;
    }
    forall p | p in Paths(entries[1..])
      ensures p in Paths(entries)
    {
      var i :| 0 <= i < |entries[1..]| && entries[1..][i].path == p;
      assert entries[i + 1].path == p;
    }
  }

  // Whatever is copied from any state: nothing but admissible entries, each to a
  // path of its own.
  lemma {:induction false} RunAdmits(l: Limits, s: State, entries: seq<Entry>)
    requires Run(l, s, entries).Copied?
    ensures AllAdmissible(l, entries) && DistinctPaths(entries)
    ensures Paths(entries) !! s.dest.Keys
    decreases |entries|
  {
    if entries != [] {
      var e, rest := entries[0], entries[1..];
      var t := Step(l, s, e).state;
      StepAdmits(l, s, e, t);
      RunAdmits(l, t, rest);
      PathsSplit(entries);
      forall i | 0 <= i < |entries|
        ensures Admissible(l, entries[i])
      {
        assert i > 0 ==> entries[i] == rest[i - 1];
      }
      forall i, j | 0 <= i < j < |entries|
        ensures entries[i].path != entries[j].path
      {
        assert entries[j] == rest[j - 1] && rest[j - 1].path in Paths(rest);
        assert i > 0 ==> entries[i] == rest[i - 1];
      }
    }
  }

  // A copy that succeeds contains no foreign entry, no link out of the tree, and no
  // name, path, link or depth beyond the limits.
  lemma CopiedIsAdmissible(l: Limits, entries: seq<Entry>)
    requires Run(l, START, entries).Copied?
    ensures AllAdmissible(l, entries) && DistinctPaths(entries)
  {
    RunAdmits(l, START, entries);
  }

  // ---- The metadata a source needs --------------------------------------------------------

  // The first name of an inode.
  function FirstPath(entries: seq<Entry>, inode: Inode): Path
  {
    if entries == [] then ""
    else
      var front, last := entries[..|entries| - 1], entries[|entries| - 1];
      if Count(front, inode) > 0 || !Names(last, inode) then FirstPath(front, inode) else last.path
  }

  // What one more entry adds to the paths to be remembered: the first name of a
  // file with more names, until the last of them has been met.
  function Remembers(front: seq<Entry>, e: Entry): int
  {
    if !e.kind.Regular? || e.kind.links <= 1 then 0
    else if Count(front, e.kind.inode) == 0 then |e.path|
    else if Count(front, e.kind.inode) + 1 == e.kind.links then -|FirstPath(front, e.kind.inode)|
    else 0
  }

  function Metadata(entries: seq<Entry>): int
  {
    if entries == [] then 0
    else Metadata(entries[..|entries| - 1]) + Remembers(entries[..|entries| - 1], entries[|entries| - 1])
  }

  // At no point are more path bytes to be remembered than the limit allows.
  predicate MetadataFits(l: Limits, entries: seq<Entry>)
  {
    forall n | 0 <= n <= |entries| :: Metadata(entries[..n]) <= l.metadata
  }

  predicate Tracked(s: State, entries: seq<Entry>)
  {
    && s.metadata == Metadata(entries)
    && forall k <- s.table :: s.table[k].path == FirstPath(entries, k)
  }

  lemma FirstPathAppend(entries: seq<Entry>, e: Entry, k: Inode)
    ensures FirstPath(entries + [e], k) ==
            if Count(entries, k) > 0 || !Names(e, k) then FirstPath(entries, k) else e.path
  {
    assert (entries + [e])[..|entries|] == entries;
  }

  lemma MetadataAppend(entries: seq<Entry>, e: Entry)
    ensures Metadata(entries + [e]) == Metadata(entries) + Remembers(entries, e)
  {
    assert (entries + [e])[..|entries|] == entries;
  }

  lemma CopyTracked(l: Limits, s: State, entries: seq<Entry>, e: Entry, t: State)
    requires Inv(l, s, entries) && Tracked(s, entries) && e.kind.Regular? && Sane(entries + [e])
    requires e.kind.inode !in s.table
    requires CopyStep(l, s.(entries := s.entries + 1), e.path, e.kind.inode, e.kind.size, e.kind.links) == Copied(t)
    ensures Tracked(t, entries + [e])
  {
    CopyShape(l, s.(entries := s.entries + 1), e.path, e.kind.inode, e.kind.size, e.kind.links, t);
    NotInTableIsNew(s.table, entries, e);
    MetadataAppend(entries, e);
    forall k | k in t.table
      ensures t.table[k].path == FirstPath(entries + [e], k)
    {
      FirstPathAppend(entries, e, k);
    }
  }

  lemma LinkTracked(l: Limits, s: State, entries: seq<Entry>, e: Entry, t: State)
    requires Inv(l, s, entries) && Tracked(s, entries) && e.kind.Regular? && Sane(entries + [e])
    requires e.kind.inode in s.table
    requires LinkStep(s.(entries := s.entries + 1), e.path, e.kind.inode, e.kind.links) == Copied(t)
    ensures Tracked(t, entries + [e])
  {
    var k := e.kind.inode;
    PathBytesWithout(s.table, k);
    LinkShape(s.(entries := s.entries + 1), e.path, k, e.kind.links, t);
    MetadataAppend(entries, e);
    assert s.table[k].remaining == s.table[k].links - Count(entries, k);
    forall m | m in t.table
      ensures t.table[m].path == FirstPath(entries + [e], m)
    {
      FirstPathAppend(entries, e, m);
      assert m in s.table && t.table[m].path == s.table[m].path;
      assert 0 < Count(entries, m);
    }
  }

  lemma OtherTracked(l: Limits, s: State, entries: seq<Entry>, e: Entry, t: State)
    requires Inv(l, s, entries) && Tracked(s, entries) && !e.kind.Regular? && Step(l, s, e) == Copied(t)
    ensures Tracked(t, entries + [e])
  {
    MetadataAppend(entries, e);
    forall k | k in t.table
      ensures t.table[k].path == FirstPath(entries + [e], k)
    {
      FirstPathAppend(entries, e, k);
    }
  }

  lemma StepTracked(l: Limits, s: State, entries: seq<Entry>, e: Entry, t: State)
    requires Inv(l, s, entries) && Tracked(s, entries) && Sane(entries + [e]) && Step(l, s, e) == Copied(t)
    ensures Tracked(t, entries + [e])
  {
    if !e.kind.Regular? {
      OtherTracked(l, s, entries, e, t);
    } else if e.kind.inode in s.table {
      LinkTracked(l, s, entries, e, t);
    } else {
      CopyTracked(l, s, entries, e, t);
    }
  }

  // ---- Acceptance -------------------------------------------------------------------------------

  // The entries of done have been copied to s, and nothing else.
  predicate Held(s: State, done: seq<Entry>)
  {
    s.dest.Keys == Paths(done)
  }

  lemma PathsAppend(done: seq<Entry>, e: Entry)
    ensures Paths(done + [e]) == Paths(done) + {e.path}
  {
    var all := done + [e];
    assert all[|done|] == e;
    forall p | p in Paths(done)
      ensures p in Paths(all)
    {
      var i :| 0 <= i < |done| && done[i].path == p;
      assert all[i].path == p;
    }
  }

  // The entry keeps within every limit after done.
  predicate Fits(l: Limits, done: seq<Entry>, e: Entry)
  {
    && Admissible(l, e) && e.path !in Paths(done) && |done| < l.entries
    && BytesOf(done + [e]) <= l.bytes && Metadata(done + [e]) <= l.metadata
  }

  lemma RegularFits(l: Limits, s: State, done: seq<Entry>, e: Entry)
    requires Inv(l, s, done) && Tracked(s, done) && Held(s, done) && Sane(done + [e])
    requires e.kind.Regular? && Fits(l, done, e)
    ensures Step(l, s, e).Copied?
  {
    PlainNameIsComponent(e.name);
    BytesAppend(done, e);
    MetadataAppend(done, e);
    if e.kind.inode in s.table {
      TableAgrees(s, done, e);
    } else {
      NotInTableIsNew(s.table, done, e);
    }
  }

  lemma FittingIsCopied(l: Limits, s: State, done: seq<Entry>, e: Entry)
    requires Inv(l, s, done) && Tracked(s, done) && Held(s, done) && Sane(done + [e]) && Fits(l, done, e)
    ensures Step(l, s, e).Copied?
  {
    PlainNameIsComponent(e.name);
    BytesAppend(done, e);
    if e.kind.Regular? {
      RegularFits(l, s, done, e);
    }
  }

  lemma CopiedFits(l: Limits, s: State, done: seq<Entry>, e: Entry, t: State)
    requires Inv(l, s, done) && Tracked(s, done) && Held(s, done) && Sane(done + [e]) && Step(l, s, e) == Copied(t)
    ensures Fits(l, done, e)
    ensures Inv(l, t, done + [e]) && Tracked(t, done + [e]) && Held(t, done + [e])
  {
    StepAdmits(l, s, e, t);
    StepKeeps(l, s, done, e, t);
    StepTracked(l, s, done, e, t);
    PathsAppend(done, e);
  }

  // Every entry keeps within every limit after the ones before it.
  predicate AllFit(l: Limits, done: seq<Entry>, entries: seq<Entry>)
    decreases |entries|
  {
    entries == [] || (Fits(l, done, entries[0]) && AllFit(l, done + [entries[0]], entries[1..]))
  }

  lemma {:induction false} RunIffAllFit(l: Limits, s: State, done: seq<Entry>, entries: seq<Entry>)
    requires Inv(l, s, done) && Tracked(s, done) && Held(s, done) && Sane(done + entries)
    ensures Run(l, s, entries).Copied? <==> AllFit(l, done, entries)
    decreases |entries|
  {
    if entries != [] {
      var e, rest := entries[0], entries[1..];
      assert done + entries == done + [e] + rest;
      SanePrefixes(done + [e], rest);
      if Fits(l, done, e) {
        FittingIsCopied(l, s, done, e);
      }
      if Step(l, s, e).Copied? {
        CopiedFits(l, s, done, e, Step(l, s, e).state);
        RunIffAllFit(l, Step(l, s, e).state, done + [e], rest);
      }
    }
  }

  // ---- The condition on the whole source --------------------------------------------------------

  predicate Acceptable(l: Limits, entries: seq<Entry>)
  {
    && AllAdmissible(l, entries) && DistinctPaths(entries)
    && |entries| <= l.entries && BytesOf(entries) <= l.bytes && MetadataFits(l, entries)
  }

  lemma BytesGrow(done: seq<Entry>, e: Entry)
    ensures BytesOf(done) <= BytesOf(done + [e])
  {
    BytesAppend(done, e);
  }

  lemma DistinctPrefix(done: seq<Entry>, e: Entry)
    ensures DistinctPaths(done + [e]) <==> DistinctPaths(done) && e.path !in Paths(done)
  {
    var all, n := done + [e], |done|;
    assert forall i | 0 <= i < n :: all[i] == done[i];
    assert all[n] == e;
    if DistinctPaths(all) {
      assert forall i | 0 <= i < n :: all[i].path != all[n].path;
    }
    if DistinctPaths(done) && e.path !in Paths(done) {
      assert forall i | 0 <= i < n :: done[i].path in Paths(done);
    }
  }

  lemma MetadataPrefix(l: Limits, done: seq<Entry>, e: Entry)
    ensures MetadataFits(l, done + [e]) <==> MetadataFits(l, done) && Metadata(done + [e]) <= l.metadata
  {
    var all, n := done + [e], |done|;
    assert all[..n + 1] == all;
    assert forall i | 0 <= i <= n :: all[..i] == done[..i];
    if MetadataFits(l, all) {
      assert forall i | 0 <= i <= n :: Metadata(done[..i]) == Metadata(all[..i]);
      assert Metadata(all[..n + 1]) <= l.metadata;
    }
  }

  lemma AdmissiblePrefix(l: Limits, done: seq<Entry>, e: Entry)
    ensures AllAdmissible(l, done + [e]) <==> AllAdmissible(l, done) && Admissible(l, e)
  {
    var all, n := done + [e], |done|;
    assert forall i | 0 <= i < n :: all[i] == done[i];
    assert all[n] == e;
  }

  lemma AcceptablePrefix(l: Limits, done: seq<Entry>, e: Entry)
    ensures Acceptable(l, done + [e]) <==> Acceptable(l, done) && Fits(l, done, e)
  {
    BytesGrow(done, e);
    PathsAppend(done, e);
    AdmissiblePrefix(l, done, e);
    DistinctPrefix(done, e);
    MetadataPrefix(l, done, e);
  }

  lemma {:induction false} AllFitIffAcceptable(l: Limits, done: seq<Entry>, entries: seq<Entry>)
    requires Acceptable(l, done)
    ensures AllFit(l, done, entries) <==> Acceptable(l, done + entries)
    decreases |entries|
  {
    if entries == [] {
      assert done + entries == done;
    } else {
      var e, rest := entries[0], entries[1..];
      assert done + entries == done + [e] + rest;
      AcceptablePrefix(l, done, e);
      if Fits(l, done, e) {
        AllFitIffAcceptable(l, done + [e], rest);
      } else {
        AcceptableFront(l, done + [e], rest);
      }
    }
  }

  lemma {:induction false} AcceptableFront(l: Limits, done: seq<Entry>, entries: seq<Entry>)
    ensures Acceptable(l, done + entries) ==> Acceptable(l, done)
    decreases |entries|
  {
    if entries == [] {
      assert done + entries == done;
    } else {
      var front, last := entries[..|entries| - 1], entries[|entries| - 1];
      assert done + entries == done + front + [last];
      AcceptablePrefix(l, done + front, last);
      AcceptableFront(l, done, front);
    }
  }

  // A sane source is copied exactly when its entries are admissible and have paths
  // of their own, and its number of entries, its bytes and the path bytes to be
  // remembered at any time keep within the limits.
  lemma CopiedIffAcceptable(l: Limits, entries: seq<Entry>)
    requires Sane(entries)
    ensures Run(l, START, entries).Copied? <==> Acceptable(l, entries)
  {
    assert [] + entries == entries;
    assert Paths([]) == {};
    RunIffAllFit(l, START, [], entries);
    AllFitIffAcceptable(l, [], entries);
  }

  // ---- Which fault is named ---------------------------------------------------------------

  // The fault an entry without data of its own is refused for, in the order of the
  // checks.
  lemma PlainFaults(l: Limits, s: State, e: Entry)
    requires !e.kind.Regular?
    ensures var r := Step(l, s, e);
            && (r == Failed(BadName) <==> !PlainName(e.name))
            && (r == Failed(PathTooLong) <==> PlainName(e.name) && |e.path| > l.pathBytes)
            && (r == Failed(TooManyEntries) <==>
                  PlainName(e.name) && |e.path| <= l.pathBytes && s.entries >= l.entries)
            && (PlainName(e.name) && |e.path| <= l.pathBytes && s.entries < l.entries ==>
                  match e.kind
                  case Folder(depth) =>
                    && (r == Failed(AlreadyExists) <==> e.path in s.dest)
                    && (r == Failed(TooDeep) <==> e.path !in s.dest && depth > l.depth)
                    && (r.Copied? <==> e.path !in s.dest && depth <= l.depth)
                  case Symlink(length, local) =>
                    && (r == Failed(TargetTooLong) <==> length > l.pathBytes)
                    && (r == Failed(Unsupported) <==> length <= l.pathBytes && !local)
                    && (r == Failed(TooManyBytes) <==>
                          length <= l.pathBytes && local && s.bytes + length > l.bytes)
                  case _ => r == Failed(Unsupported))
  {
  }

  // The fault a regular file is refused for: its link count, when it is remembered;
  // otherwise its bytes, its path and the metadata to remember it.
  lemma RegularFaults(l: Limits, s: State, path: Path, inode: Inode, size: nat, links: nat)
    ensures var r := KindStep(l, s, path, Regular(inode, size, links));
            if inode in s.table then
              && (r == Failed(LinkCountChanged) <==> links != s.table[inode].links)
              && (r == Failed(AlreadyExists) <==> links == s.table[inode].links && path in s.dest)
            else
              && (r == Failed(TooManyBytes) <==> s.bytes + size > l.bytes)
              && (r == Failed(AlreadyExists) <==> s.bytes + size <= l.bytes && path in s.dest)
              && (r == Failed(TooMuchMetadata) <==>
                    s.bytes + size <= l.bytes && path !in s.dest && links > 1 && s.metadata + |path| > l.metadata)
  {
  }
}
