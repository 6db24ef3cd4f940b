// The accounting of the seed copier (internal/storage/seed_linux.go): entries,
// bytes, and the table that rebuilds hard links in the destination.

module SeedModel {
  type Path = string
  type Inode = nat

  // What a source entry is; the depth of a folder is that of its own entries, and
  // local says that a symbolic link stays inside the tree. The device of an inode
  // is the device of the seed, as entries on any other device are refused.
  datatype Kind =
    | Folder(depth: nat)
    | Regular(inode: Inode, size: nat, links: nat)
    | Symlink(length: nat, local: bool)
    | Foreign

  datatype Entry = Entry(name: string, path: Path, kind: Kind)

  // validateSeedComponent.
  predicate ValidComponent(name: string)
  {
    name != "" && name != "." && name != ".." && |name| <= 255 && '/' !in name && '\0' !in name
  }

  datatype Limits = Limits(depth: nat, pathBytes: nat, entries: nat, bytes: nat, metadata: nat)

  datatype Hardlink = Hardlink(path: Path, links: nat, remaining: nat)

  // dest gives the file behind each destination path; linked paths share one.
  datatype State = State(
    entries: nat,
    bytes: nat,
    metadata: nat,
    table: map<Inode, Hardlink>,
    dest: map<Path, nat>,
    next: nat)

  const START := State(0, 0, 0, map[], map[], 0)

  datatype Error =
    | BadName | PathTooLong | TargetTooLong | TooManyEntries | TooDeep | TooManyBytes | TooMuchMetadata
    | Unsupported | LinkCountChanged | AlreadyExists | LinkSourceMissing

  datatype Outcome = Copied(state: State) | Failed(error: Error)

  // ---- One entry -----------------------------------------------------------------------

  // A new destination file.
  function Create(s: State, path: Path): Outcome
  {
    if path in s.dest then Failed(AlreadyExists)
    else Copied(s.(dest := s.dest[path := s.next], next := s.next + 1))
  }

  function Reserve(l: Limits, s: State, size: nat): Outcome
  {
    if s.bytes <= l.bytes && size <= l.bytes - s.bytes then Copied(s.(bytes := s.bytes + size))
    else Failed(TooManyBytes)
  }

  // Another name of a file that is in the table.
  function LinkStep(s: State, path: Path, inode: Inode, links: nat): Outcome
    requires inode in s.table
  {
    var existing := s.table[inode];
    if links != existing.links then Failed(LinkCountChanged)
    else if path in s.dest then Failed(AlreadyExists)
    else if existing.path !in s.dest then Failed(LinkSourceMissing)
    else
      var linked := s.(dest := s.dest[path := s.dest[existing.path]]);
      if existing.remaining <= 1 then
        Copied(linked.(table := s.table - {inode}, metadata := Less(s.metadata, |existing.path|)))
      else
        Copied(linked.(table := s.table[inode := existing.(remaining := existing.remaining - 1)]))
  }

  function Less(a: nat, b: nat): nat
  {
    if b <= a then a - b else 0
  }

  // Remembers a copied file that has more names.
  function Remember(l: Limits, s: State, path: Path, inode: Inode, links: nat): Outcome
  {
    if links <= 1 then Copied(s)
    else if s.metadata <= l.metadata && |path| <= l.metadata - s.metadata then
      Copied(s.(metadata := s.metadata + |path|, table := s.table[inode := Hardlink(path, links, links - 1)]))
    else Failed(TooMuchMetadata)
  }

  function CopyStep(l: Limits, s: State, path: Path, inode: Inode, size: nat, links: nat): Outcome
  {
    var reserved := Reserve(l, s, size);
    if reserved.Failed? then reserved
    else
      var created := Create(reserved.state, path);
      if created.Failed? then created else Remember(l, created.state, path, inode, links)
  }

  function KindStep(l: Limits, s: State, path: Path, kind: Kind): Outcome
  {
    match kind
    case Folder(depth) =>
      var created := Create(s, path);
      if created.Failed? then created else if depth > l.depth then Failed(TooDeep) else created
    case Regular(inode, size, links) =>
      if inode in s.table then LinkStep(s, path, inode, links) else CopyStep(l, s, path, inode, size, links)
    case Symlink(length, local) =>
      if length > l.pathBytes then Failed(TargetTooLong)
      else if !local then Failed(Unsupported)
      else
        var reserved := Reserve(l, s, length);
        if reserved.Failed? then reserved else Create(reserved.state, path)
    case Foreign => Failed(Unsupported)
  }

  function Step(l: Limits, s: State, e: Entry): Outcome
  {
    if !ValidComponent(e.name) then Failed(BadName)
    else if |e.path| > l.pathBytes then Failed(PathTooLong)
    else if s.entries >= l.entries then Failed(TooManyEntries)
    else KindStep(l, s.(entries := s.entries + 1), e.path, e.kind)
  }

  function Run(l: Limits, s: State, entries: seq<Entry>): Outcome
    decreases |entries|
  {
    if entries == [] then Copied(s)
    else
      match Step(l, s, entries[0])
      case Failed(error) => Failed(error)
      case Copied(t) => Run(l, t, entries[1..])
  }

  lemma {:induction false} RunAppend(l: Limits, s: State, a: seq<Entry>, b: seq<Entry>)
    ensures Run(l, s, a + b) == if Run(l, s, a).Failed? then Run(l, s, a) else Run(l, Run(l, s, a).state, b)
    decreases |a|
  {
    if a == [] {
      assert a + b == b;
    } else {
      assert (a + b)[1..] == a[1..] + b;
      var first := Step(l, s, a[0]);
      if first.Copied? {
        RunAppend(l, first.state, a[1..], b);
      }
    }
  }

  // ---- The source tree -------------------------------------------------------------------

  datatype Item = Plain(kind: Kind) | Directory(entries: Forest)

  datatype Forest = Empty | Node(name: string, item: Item, rest: Forest)

  function Join(relative: Path, name: string): Path
  {
    if relative == "" then name else relative + "/" + name
  }

  // The entries of a directory in the order the copier meets them.
  function Entries(forest: Forest, relative: Path, depth: nat): seq<Entry>
  {
    match forest
    case Empty => []
    case Node(name, item, rest) =>
      ItemEntries(item, name, Join(relative, name), depth) + Entries(rest, relative, depth)
  }

  function ItemEntries(item: Item, name: string, path: Path, depth: nat): seq<Entry>
  {
    match item
    case Plain(kind) => [Entry(name, path, kind)]
    case Directory(entries) => [Entry(name, path, Folder(depth + 1))] + Entries(entries, path, depth + 1)
  }

  // ---- Inodes of the source ---------------------------------------------------------------------------

  predicate Names(e: Entry, inode: Inode)
  {
    e.kind.Regular? && e.kind.inode == inode
  }

  function Count(entries: seq<Entry>, inode: Inode): nat
  {
    if entries == [] then 0
    else Count(entries[..|entries| - 1], inode) + if Names(entries[|entries| - 1], inode) then 1 else 0
  }

  predicate SameFile(a: Entry, b: Entry)
  {
    a.kind.Regular? && b.kind.Regular? && a.kind.inode == b.kind.inode
  }

  // The names of an inode agree on its attributes.
  predicate Agree(entries: seq<Entry>)
  {
    forall i, j | 0 <= i < |entries| && 0 <= j < |entries| ::
      SameFile(entries[i], entries[j]) ==> entries[i].kind == entries[j].kind
  }

  // A file that is named at all has at least one link.
  function Cap(links: nat): nat
  {
    if links == 0 then 1 else links
  }

  // No inode has more names than links.
  predicate WithinLinks(entries: seq<Entry>)
  {
    forall i | 0 <= i < |entries| && entries[i].kind.Regular? ::
      Count(entries, entries[i].kind.inode) <= Cap(entries[i].kind.links)
  }

  // What every file system keeps.
  predicate Sane(entries: seq<Entry>)
  {
    Agree(entries) && WithinLinks(entries)
  }

  // The bytes of an entry that comes after front: a regular file counts with the
  // first of its names only.
  function Charge(front: seq<Entry>, e: Entry): nat
  {
    match e.kind
    case Regular(inode, size, _) => if Count(front, inode) == 0 then size else 0
    case Symlink(length, _) => length
    case _ => 0
  }

  function BytesOf(entries: seq<Entry>): nat
  {
    if entries == [] then 0
    else BytesOf(entries[..|entries| - 1]) + Charge(entries[..|entries| - 1], entries[|entries| - 1])
  }

  // The summed lengths of the paths in the table.
  function PathBytes(table: map<Inode, Hardlink>): nat
    decreases |table|
  {
    if table == map[] then 0
    else
      var k := Smallest(table.Keys);
      |table[k].path| + PathBytes(table - {k})
  }

  // The smallest inode of a nonempty set.
  function Smallest(s: set<Inode>): (k: Inode)
    requires s != {}
    ensures k in s && forall x <- s :: k <= x
  {
    SmallestExists(s);
    var k :| k in s && forall x <- s :: k <= x;
    k
  }

  lemma SmallestExists(s: set<Inode>)
    requires s != {}
    ensures exists k :: k in s && forall x <- s :: k <= x
  {
    var k := SmallestOf(s);
  }

  lemma {:induction false} SmallestOf(s: set<Inode>) returns (k: Inode)
    requires s != {}
    ensures k in s && forall x <- s :: k <= x
  {
    k :| k in s;
    if s != {k} {
      var other := SmallestOf(s - {k});
      assert forall x <- s :: x == k || x in s - {k};
      k := if k < other then k else other;
    }
  }
}
