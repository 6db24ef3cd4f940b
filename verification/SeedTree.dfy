// The paths of a tree: every entry of a tree with proper names has a path of its
// own, and its depth is the number of names on it.

module SeedTree {
  import opened SeedModel
  import opened SeedComplete

  // Names without a separator, none twice in a directory, and no folders but the
  // directories of the tree.
  predicate Proper(forest: Forest)
  {
    match forest
    case Empty => true
    case Node(name, item, rest) =>
      && name != "" && '/' !in name && name !in NamesOf(rest)
      && ProperItem(item) && Proper(rest)
  }

  predicate ProperItem(item: Item)
  {
    match item
    case Plain(kind) => !kind.Folder?
    case Directory(entries) => Proper(entries)
  }

  function NamesOf(forest: Forest): set<string>
  {
    match forest
    case Empty => {}
    case Node(name, _, rest) => {name} + NamesOf(rest)
  }

  // The path is base or lies below it.
  predicate AtOrBelow(path: Path, base: Path)
  {
    path == base || base + "/" <= path
  }

  // The path lies below the directory at relative, under one of the names.
  predicate Under(path: Path, relative: Path, names: set<string>)
  {
    exists name <- names :: AtOrBelow(path, Join(relative, name))
  }

  lemma BelowBelow(path: Path, relative: Path, base: Path, name: string)
    requires relative == Join(base, name) && name != ""
    requires exists n: string :: AtOrBelow(path, Join(relative, n))
    ensures AtOrBelow(path, relative)
  {
    var n: string :| AtOrBelow(path, Join(relative, n));
    assert relative != "";
    assert relative + "/" <= relative + "/" + n;
  }

  lemma {:induction false} EntriesUnder(forest: Forest, relative: Path, depth: nat, i: nat)
    requires Proper(forest) && i < |Entries(forest, relative, depth)|
    ensures Under(Entries(forest, relative, depth)[i].path, relative, NamesOf(forest))
    decreases forest
  {
    match forest
    case Node(name, item, rest) =>
      var path := Join(relative, name);
      var here := ItemEntries(item, name, path, depth);
      if i < |here| {
        ItemUnder(item, name, relative, depth, i);
        assert Entries(forest, relative, depth)[i] == here[i];
      } else {
        EntriesUnder(rest, relative, depth, i - |here|);
        assert Entries(forest, relative, depth)[i] == Entries(rest, relative, depth)[i - |here|];
      }
  }

  lemma {:induction false} ItemUnder(item: Item, name: string, relative: Path, depth: nat, i: nat)
    requires ProperItem(item) && name != "" && i < |ItemEntries(item, name, Join(relative, name), depth)|
    ensures AtOrBelow(ItemEntries(item, name, Join(relative, name), depth)[i].path, Join(relative, name))
    decreases item
  {
    if item.Directory? && i > 0 {
      var path := Join(relative, name);
      EntriesUnder(item.entries, path, depth + 1, i - 1);
      BelowBelow(ItemEntries(item, name, path, depth)[i].path, path, relative, name);
    }
  }

  // Different names never meet on a path.
  lemma NamesPart(path: Path, relative: Path, a: string, b: string)
    requires '/' !in a && '/' !in b && a != b
    requires AtOrBelow(path, Join(relative, a))
    ensures !AtOrBelow(path, Join(relative, b))
  {
    if AtOrBelow(path, Join(relative, b)) {
      var n := |Join(relative, "")|;
      var tail := path[n..];
      Front(path, relative, a);
      Front(path, relative, b);
    }
  }

  // The name is what comes before the next separator.
  lemma Front(path: Path, relative: Path, name: string)
    requires '/' !in name && AtOrBelow(path, Join(relative, name))
    ensures |Join(relative, "")| <= |path|
    ensures UpToSlash(path[|Join(relative, "")|..]) == name
  {
    var n := |Join(relative, "")|;
    assert Join(relative, name) == Join(relative, "") + name;
    var tail := path[n..];
    if path == Join(relative, name) {
      assert tail == name;
      WholeName(name);
    } else {
      assert name + "/" <= tail;
      BeforeSlash(tail, name);
    }
  }

  function UpToSlash(path: Path): string
  {
    if path == "" || path[0] == '/' then "" else [path[0]] + UpToSlash(path[1..])
  }

  lemma {:induction false} WholeName(name: string)
    requires '/' !in name
    ensures UpToSlash(name) == name
  {
    if name != "" {
      WholeName(name[1..]);
    }
  }

  lemma {:induction false} BeforeSlash(path: Path, name: string)
    requires '/' !in name && name + "/" <= path
    ensures UpToSlash(path) == name
    decreases |name|
  {
    if name != "" {
      assert (name + "/")[1..] == name[1..] + "/";
      assert name[1..] + "/" <= path[1..];
      BeforeSlash(path[1..], name[1..]);
    }
  }

  // Every entry of a proper tree has a path of its own, so a copy never meets an
  // existing destination.
  lemma {:induction false} TreePathsDistinct(forest: Forest, relative: Path, depth: nat)
    requires Proper(forest)
    ensures DistinctPaths(Entries(forest, relative, depth))
    decreases forest
  {
    match forest
    case Empty =>
    case Node(name, item, rest) =>
      var path := Join(relative, name);
      var here, there := ItemEntries(item, name, path, depth), Entries(rest, relative, depth);
      ItemPathsDistinct(item, name, relative, depth);
      TreePathsDistinct(rest, relative, depth);
      forall i, j | 0 <= i < |here| && 0 <= j < |there|
        ensures here[i].path != there[j].path
      {
        ItemUnder(item, name, relative, depth, i);
        EntriesUnder(rest, relative, depth, j);
        var other :| other in NamesOf(rest) && AtOrBelow(there[j].path, Join(relative, other));
        ProperNames(rest, other);
        NamesPart(there[j].path, relative, other, name);
      }
      DistinctAppend(here, there);
  }

  lemma {:induction false} ProperNames(forest: Forest, name: string)
    requires Proper(forest) && name in NamesOf(forest)
    ensures '/' !in name
  {
    if name != forest.name {
      ProperNames(forest.rest, name);
    }
  }

  lemma DistinctAppend(a: seq<Entry>, b: seq<Entry>)
    requires DistinctPaths(a) && DistinctPaths(b)
    requires forall i, j | 0 <= i < |a| && 0 <= j < |b| :: a[i].path != b[j].path
    ensures DistinctPaths(a + b)
  {
    var all := a + b;
    forall i, j | 0 <= i < j < |all|
      ensures all[i].path != all[j].path
    {
      assert all[i] == if i < |a| then a[i] else b[i - |a|];
      assert all[j] == if j < |a| then a[j] else b[j - |a|];
    }
  }

  lemma {:induction false} ItemPathsDistinct(item: Item, name: string, relative: Path, depth: nat)
    requires ProperItem(item) && name != ""
    ensures DistinctPaths(ItemEntries(item, name, Join(relative, name), depth))
    decreases item
  {
    if item.Directory? {
      var path := Join(relative, name);
      var own, below := Entry(name, path, Folder(depth + 1)), Entries(item.entries, path, depth + 1);
      TreePathsDistinct(item.entries, path, depth + 1);
      forall j | 0 <= j < |below|
        ensures below[j].path != path
      {
        EntriesUnder(item.entries, path, depth + 1, j);
        var inner :| inner in NamesOf(item.entries) && AtOrBelow(below[j].path, Join(path, inner));
        assert |Join(path, inner)| > |path|;
      }
      DistinctAppend([own], below);
    }
  }

  // ---- Depth ------------------------------------------------------------------------------

  function Slashes(path: Path): nat
  {
    if path == "" then 0 else Slashes(path[..|path| - 1]) + if path[|path| - 1] == '/' then 1 else 0
  }

  // The number of names on a path.
  function NameCount(path: Path): nat
  {
    if path == "" then 0 else Slashes(path) + 1
  }

  lemma {:induction false} SlashesAppend(path: Path, name: string)
    requires '/' !in name
    ensures Slashes(path + name) == Slashes(path)
  {
    if name == "" {
      assert path + name == path;
    } else {
      var front := name[..|name| - 1];
      assert (path + name)[..|path + name| - 1] == path + front;
      SlashesAppend(path, front);
    }
  }

  lemma JoinCounts(relative: Path, name: string)
    requires name != "" && '/' !in name
    ensures NameCount(Join(relative, name)) == NameCount(relative) + 1
  {
    if relative == "" {
      SlashesAppend("", name);
      assert "" + name == name;
    } else {
      assert (relative + "/")[..|relative|] == relative;
      SlashesAppend(relative + "/", name);
    }
  }

  // A directory lies as deep as its path has names.
  lemma {:induction false} DepthIsNameCount(forest: Forest, relative: Path, depth: nat, i: nat)
    requires Proper(forest) && depth == NameCount(relative) && i < |Entries(forest, relative, depth)|
    ensures var e := Entries(forest, relative, depth)[i]; e.kind.Folder? ==> e.kind.depth == NameCount(e.path)
    decreases forest
  {
    match forest
    case Node(name, item, rest) =>
      var here := ItemEntries(item, name, Join(relative, name), depth);
      JoinCounts(relative, name);
      if i < |here| {
        if item.Directory? && i > 0 {
          DepthIsNameCount(item.entries, Join(relative, name), depth + 1, i - 1);
        }
      } else {
        DepthIsNameCount(rest, relative, depth, i - |here|);
      }
  }

  // So a proper tree on which a copy succeeds has no directory deeper than the
  // limit, counted in names on its path.
  lemma CopiedTreeIsShallow(l: Limits, forest: Forest, i: nat)
    requires Proper(forest) && Run(l, START, Entries(forest, "", 0)).Copied? && i < |Entries(forest, "", 0)|
    ensures var e := Entries(forest, "", 0)[i]; e.kind.Folder? ==> NameCount(e.path) <= l.depth
  {
    CopiedIsAdmissible(l, Entries(forest, "", 0));
    DepthIsNameCount(forest, "", 0, i);
    assert Admissible(l, Entries(forest, "", 0)[i]);
  }
}
