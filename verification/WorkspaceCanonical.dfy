/** The canonical archive: checked names, two kinds of permissions, parents spelled out, sorted by path. */
module WorkspaceCanonical {
  import opened Base
  import opened Texts
  import opened WorkspacePaths
  import opened WorkspaceArchive
  import opened WorkspaceRestore

  const ExecutableMode: nat := 493
  const PlainMode: nat := 420

  /** Any of the three execute bits. */
  predicate Executable(mode: int) { (mode / 64) % 2 == 1 || (mode / 8) % 2 == 1 || mode % 2 == 1 }

  /** Whether a file can be executed is all that is kept of permissions. */
  function Canonical(node: Node): Node {
    match node
    case Dir(_) => Dir(ExecutableMode)
    case File(mode, content) => File(if Executable(mode) then ExecutableMode else PlainMode, content)
    case Special(_) => node
  }

  /** A file anyone may execute is kept as 0755, any other as 0644, a directory as 0755. */
  lemma KindOfPermissions(o: nat, g: nat, u: nat, content: seq<bv8>)
    requires o <= 7 && g <= 7 && u <= 7
    ensures Canonical(File(o * 64 + g * 8 + u, content))
            == File(if o % 2 == 1 || g % 2 == 1 || u % 2 == 1 then 7 * 64 + 5 * 8 + 5 else 6 * 64 + 4 * 8 + 4, content)
    ensures Canonical(Dir(o * 64 + g * 8 + u)) == Dir(7 * 64 + 5 * 8 + 5)
  {
    Octal(o, g, u);
  }

  datatype Named = RootName | BadName | Name(path: string)

  function ArchivePath(value: string, directory: bool): Named {
    var v := if directory && value != "" && value[|value| - 1] == '/' then value[..|value| - 1] else value;
    if v == "." || v == "" then RootName
    else
      var p := TrimPrefix(v, "./");
      if p == "" || p[0] == '/' || '\\' in p then BadName
      else if exists part <- Split(p) :: part == "" || part == "." || part == ".." then BadName
      else Name(p)
  }

  /** A name between slashes. */
  predicate GoodPart(part: string) { part != "" && part != "." && part != ".." && '/' !in part && '\\' !in part }

  predicate BadPart(part: string) { part == "" || part == "." || part == ".." }

  /** What a path of good parts looks like. */
  ghost predicate GoodPath(path: string) {
    && path != "" && path != "." && path[0] != '/' && path[|path| - 1] != '/' && '\\' !in path && !("./" <= path)
    && forall part <- Split(path) :: !BadPart(part)
  }

  lemma DotIsPart(path: string)
    requires "./" <= path
    ensures "." in Split(path)
  {
    assert path == "." + "/" + path[2..];
    SplitAtSlash(".", path[2..]);
    assert Split(path)[0] == ".";
  }

  lemma GoodPartsGoodPath(parts: seq<string>)
    requires parts != [] && forall part <- parts :: GoodPart(part)
    ensures GoodPath(Joined(parts))
  {
    var path := Joined(parts);
    JoinedIsSplit(parts);
    GoodEnds(parts);
    if "./" <= path { DotIsPart(path); }
  }

  lemma PlainPath(path: string, directory: bool)
    requires GoodPath(path)
    ensures ArchivePath(path, directory) == Name(path)
  {
  }

  lemma DottedPath(path: string, directory: bool)
    requires GoodPath(path)
    ensures ArchivePath("./" + path, directory) == Name(path)
  {
    hide Split;
    assert ("./" + path)[|"./" + path| - 1] == path[|path| - 1] && ("./" + path)[2..] == path;
  }

  lemma SlashedPath(path: string, directory: bool)
    requires GoodPath(path) && "" in Split(path + "/")
    ensures ArchivePath(path + "/", directory) == if directory then Name(path) else BadName
  {
    hide Split;
    assert (path + "/")[..|path|] == path && (path + "/")[|path|] == '/';
  }

  lemma DottedDirectory(path: string)
    requires GoodPath(path)
    ensures ArchivePath("./" + path + "/", true) == Name(path)
  {
    hide Split;
    var value := "./" + path + "/";
    assert value[|value| - 1] == '/' && value[..|value| - 1] == "./" + path && ("./" + path)[2..] == path;
  }

  /** A name made of good parts. */
  ghost predicate Proper(path: string) {
    exists parts: seq<string> :: parts != [] && (forall part <- parts :: GoodPart(part)) && path == Joined(parts)
  }

  lemma ProperIsNamed(path: string, directory: bool)
    requires Proper(path)
    ensures ArchivePath(path, directory) == Name(path) && ArchivePath("./" + path, directory) == Name(path)
    ensures directory ==> ArchivePath(path + "/", true) == Name(path) && ArchivePath("./" + path + "/", true) == Name(path)
  {
    hide ArchivePath, GoodPath;
    var parts: seq<string> :| parts != [] && (forall part <- parts :: GoodPart(part)) && path == Joined(parts);
    GoodPartsGoodPath(parts);
    TrailingSlash(parts);
    assert (parts + [""])[|parts|] == "" && "" in parts + [""];
    PlainPath(path, directory);
    DottedPath(path, directory);
    SlashedPath(path, true);
    DottedDirectory(path);
  }

  lemma {:induction false} PartsAreWithin(s: string)
    ensures forall part, c | part in Split(s) && c in part :: c in s
  {
    if s != "" {
      var rest := Split(s[1..]);
      PartsAreWithin(s[1..]);
      assert rest[0] in rest && s == [s[0]] + s[1..];
      assert forall part <- rest[1..] :: part in rest;
    }
  }

  lemma NamedIsProper(value: string, directory: bool)
    requires ArchivePath(value, directory).Name?
    ensures Proper(ArchivePath(value, directory).path)
  {
    var path := ArchivePath(value, directory).path;
    SplitIsJoined(path);
    PartsAreWithin(path);
    var parts := Split(path);
    forall part | part in parts ensures GoodPart(part) {
    }
  }

  lemma NamedIsWritten(value: string, directory: bool)
    requires ArchivePath(value, directory).Name?
    ensures var path := ArchivePath(value, directory).path;
            value == path || value == "./" + path || (directory && (value == path + "/" || value == "./" + path + "/"))
  {
    hide Split;
  }

  /** An archived path is accepted exactly when it is made of good parts, none of them empty, `.` or `..` and none with a
      slash or backslash in it; it may start with `./`, and a directory's may end with a slash. */
  lemma ArchivePathIs(value: string, directory: bool, path: string)
    ensures ArchivePath(value, directory) == Name(path)
            <==> Proper(path) && (value == path || value == "./" + path || (directory && (value == path + "/" || value == "./" + path + "/")))
  {
    hide ArchivePath, Proper;
    if ArchivePath(value, directory) == Name(path) {
      NamedIsProper(value, directory);
      NamedIsWritten(value, directory);
    }
    if Proper(path) { ProperIsNamed(path, directory); }
  }

  /** It names the root exactly when it is nothing, or a dot. */
  lemma RootIs(value: string, directory: bool)
    ensures ArchivePath(value, directory) == RootName <==> value in {"", "."} || (directory && value in {"/", "./"})
  {
    hide Split;
    assert "/"[..0] == "" && "./"[..1] == ".";
    if directory && value != "" && value[|value| - 1] == '/' {
      var rest := value[..|value| - 1];
      assert value == rest + "/" && "" + "/" == "/" && "." + "/" == "./";
      assert (rest == "" <==> value == "/") && (rest == "." <==> value == "./");
    }
  }

  lemma TrailingSlash(parts: seq<string>)
    requires parts != [] && forall part <- parts :: '/' !in part
    ensures Split(Joined(parts) + "/") == parts + [""]
  {
    JoinedIsSplit(parts + [""]);
    JoinedMore(parts);
  }

  lemma {:induction false} JoinedMore(parts: seq<string>)
    requires parts != []
    ensures Joined(parts + [""]) == Joined(parts) + "/"
  {
    if |parts| > 1 {
      JoinedMore(parts[1..]);
      assert (parts + [""])[1..] == parts[1..] + [""];
    } else {
      assert (parts + [""])[1..] == [""];
    }
  }

  lemma {:induction false} GoodEnds(parts: seq<string>)
    requires parts != [] && forall part <- parts :: GoodPart(part)
    ensures var path := Joined(parts); path != "" && path[0] != '/' && path[|path| - 1] != '/' && '\\' !in path && path != "."
  {
    assert GoodPart(parts[0]) && parts[0][0] in parts[0] && parts[0][|parts[0]| - 1] in parts[0];
    if |parts| > 1 {
      assert forall part <- parts[1..] :: part in parts;
      GoodEnds(parts[1..]);
    }
  }

  // ---- Sorting by path ----

  lemma {:induction false} LeastExists(paths: set<string>) returns (least: string)
    requires paths != {}
    ensures least in paths && forall p <- paths :: p != least ==> Less(least, p)
    decreases |paths|
  {
    var p :| p in paths;
    var rest := paths - {p};
    if rest == {} {
      least := p;
      assert forall q <- paths :: q == p by { assert forall q <- paths :: q != p ==> q in rest; }
    } else {
      var m := LeastExists(rest);
      LessTotal(p, m);
      least := if Less(p, m) then p else m;
      forall q | q in paths && q != least ensures Less(least, q) {
        if q != p && least == p && q != m { LessTransitive(p, m, q); }
      }
    }
  }

  ghost predicate Sorted(entries: seq<Entry>) {
    forall i, j | 0 <= i < j < |entries| :: Less(entries[i].path, entries[j].path)
  }

  /** The entries are the tree's nodes, sorted. */
  ghost predicate SortedNodes(entries: seq<Entry>, tree: Tree) {
    && Sorted(entries)
    && (forall i | 0 <= i < |entries| :: entries[i].path in tree && entries[i].node == tree[entries[i].path])
    && (forall p <- tree :: exists i | 0 <= i < |entries| :: entries[i].path == p)
  }

  method Sort(tree: Tree) returns (entries: seq<Entry>)
    ensures SortedNodes(entries, tree)
  {
    entries := [];
    var todo := tree.Keys;
    while todo != {}
      invariant todo <= tree.Keys && Sorted(entries)
      invariant forall i | 0 <= i < |entries| ::
                  entries[i].path in tree && entries[i].node == tree[entries[i].path] && forall p <- todo :: Less(entries[i].path, p)
      invariant forall p <- tree :: p in todo || exists i | 0 <= i < |entries| :: entries[i].path == p
    {
      ghost var least := LeastExists(todo);
      var p :| p in todo && forall q <- todo :: q != p ==> Less(p, q);
      ghost var before := entries;
      entries := entries + [Entry(p, tree[p])];
      assert entries[|before|].path == p;
      forall q | q in tree && q !in todo - {p} ensures exists i | 0 <= i < |entries| :: entries[i].path == q {
        if q != p {
          var i :| 0 <= i < |before| && before[i].path == q;
          assert entries[i].path == q;
        }
      }
      todo := todo - {p};
    }
  }

  // ---- Normalizing ----

  /** Every node's directory is a node too. */
  ghost predicate ParentClosed(tree: Tree) { forall p <- tree :: IsDir(tree, PathDirectory(p)) }

  /** A directory above some path. */
  predicate Above(d: string, p: string)
    decreases |p|
  {
    p != "" && d != "" && (PathDirectory(p) == d || Above(d, PathDirectory(p)))
  }

  /** Everything above the path is a directory. */
  ghost predicate DirsAbove(tree: Tree, p: string) { forall d | Above(d, p) :: IsDir(tree, d) }

  lemma {:induction false} AboveFurther(parent: string, at: string, name: string)
    requires PathDirectory(at) == parent && parent != "" && (at == name || Above(at, name))
    ensures Above(parent, name)
    decreases |name|
  {
    if at != name && PathDirectory(name) != at { AboveFurther(parent, at, PathDirectory(name)); }
  }

  /** The directories added for the entries are missing ones above them. */
  ghost predicate OnlyParents(named: Tree, all: Tree) {
    && (forall k <- named :: k in all && all[k] == named[k])
    && (forall k <- all :: k in named || (all[k] == Dir(ExecutableMode) && exists p :: p in named && Above(k, p)))
  }

  ghost predicate Holds(a: Tree, b: Tree) { forall k <- a :: k in b && b[k] == a[k] }

  /** Nothing but directories, of what is named, is above the name. */
  ghost predicate NoFileAbove(named: Tree, name: string) { forall d <- named :: Above(d, name) ==> named[d].Dir? }

  /** Walk up from one name, adding what is missing; a file on the way is an error. */
  method AddParents(named: Tree, tree: Tree, name: string) returns (r: Option<Tree>)
    requires OnlyParents(named, tree) && name in named
    ensures r.Some? <==> NoFileAbove(named, name)
    ensures r.Some? ==> OnlyParents(named, r.value) && DirsAbove(r.value, name) && Holds(tree, r.value)
    ensures DirsAbove(tree, name) ==> r == Some(tree)
  {
    hide PathDirectory;
    var all := tree;
    var at := name;
    while PathDirectory(at) != ""
      invariant at == name || Above(at, name)
      invariant OnlyParents(named, all) && Holds(tree, all)
      invariant forall d | Above(d, name) :: IsDir(all, d) || Above(d, at)
      invariant DirsAbove(tree, name) ==> all == tree
      decreases |at|
    {
      var parent := PathDirectory(at);
      Shorter(at);
      AboveFurther(parent, at, name);
      if parent in all {
        if !all[parent].Dir? { return None; }
      } else {
        all := all[parent := Dir(ExecutableMode)];
      }
      at := parent;
    }
    forall d | d in named && Above(d, name) ensures named[d].Dir? {
      assert IsDir(all, d);
    }
    return Some(all);
  }

  lemma Shorter(p: string)
    ensures p != "" ==> |PathDirectory(p)| < |p|
    ensures p == "" ==> PathDirectory(p) == ""
  {
  }

  lemma ClosedFrom(named: Tree, all: Tree)
    requires OnlyParents(named, all) && forall p <- named :: DirsAbove(all, p)
    ensures ParentClosed(all)
  {
    hide PathDirectory;
    forall k | k in all ensures IsDir(all, PathDirectory(k)) {
      var d := PathDirectory(k);
      if d != "" {
        Shorter(k);
        if k in named {
          assert Above(d, k);
        } else {
          var p :| p in named && Above(k, p);
          AboveFurther(d, k, p);
        }
      }
    }
  }

  lemma {:induction false} ClosedDirsAbove(tree: Tree, p: string, d: string)
    requires ParentClosed(tree) && IsDir(tree, PathDirectory(p)) && Above(d, p)
    ensures IsDir(tree, d)
    decreases |p|
  {
    if PathDirectory(p) != d { ClosedDirsAbove(tree, PathDirectory(p), d); }
  }

  /** The entries by their checked names; None when a name is bad, or comes twice. */
  function ByPath(entries: seq<Entry>): Option<Tree> {
    if entries == [] then Some(map[])
    else
      var last := entries[|entries| - 1];
      match ByPath(entries[..|entries| - 1])
      case None => None
      case Some(tree) =>
        match ArchivePath(last.path, last.node.Dir?)
        case RootName => None
        case BadName => None
        case Name(path) => if path in tree then None else Some(tree[path := Canonical(last.node)])
  }

  lemma {:induction false} ByPathPrefix(entries: seq<Entry>, n: nat)
    requires n <= |entries| && ByPath(entries[..n]).None?
    ensures ByPath(entries).None?
    decreases |entries|
  {
    if n < |entries| {
      assert entries[..|entries| - 1][..n] == entries[..n];
      ByPathPrefix(entries[..|entries| - 1], n);
    } else {
      assert entries[..n] == entries;
    }
  }

  /** Accepted exactly when the names are good and no file is used as a directory; the result is the named
      entries and the missing directories above them, sorted. */
  method Normalize(entries: seq<Entry>) returns (r: Option<seq<Entry>>)
    ensures r.Some? <==> ByPath(entries).Some? && forall p <- ByPath(entries).value :: NoFileAbove(ByPath(entries).value, p)
    ensures r.Some? ==> ByPath(entries).Some? && exists all ::
              SortedNodes(r.value, all) && OnlyParents(ByPath(entries).value, all) && ParentClosed(all)
    ensures ByPath(entries).Some? && ParentClosed(ByPath(entries).value) ==> r.Some? && SortedNodes(r.value, ByPath(entries).value)
  {
    hide ArchivePath, Canonical, PathDirectory, SortedNodes, Above, NoFileAbove;
    var named: Tree := map[];
    for k := 0 to |entries|
      invariant ByPath(entries[..k]) == Some(named)
    {
      assert entries[..k + 1][..k] == entries[..k];
      var name := ArchivePath(entries[k].path, entries[k].node.Dir?);
      if !name.Name? || name.path in named {
        ByPathPrefix(entries, k + 1);
        return None;
      }
      named := named[name.path := Canonical(entries[k].node)];
    }
    assert entries[..|entries|] == entries;
    var all := named;
    var todo := named.Keys;
    while todo != {}
      invariant todo <= named.Keys && OnlyParents(named, all)
      invariant forall p <- named :: p in todo || (DirsAbove(all, p) && NoFileAbove(named, p))
      invariant ParentClosed(named) ==> all == named
    {
      var name :| name in todo;
      if ParentClosed(named) {
        forall d | Above(d, name) ensures IsDir(named, d) {
          ClosedDirsAbove(named, name, d);
        }
      }
      var more := AddParents(named, all, name);
      if more.None? { return None; }
      ghost var before := all;
      all := more.value;
      forall p | p in named && DirsAbove(before, p) ensures DirsAbove(all, p) {
        DirsStay(before, all, p);
      }
      todo := todo - {name};
    }
    ClosedFrom(named, all);
    var sorted := Sort(all);
    return Some(sorted);
  }

  lemma DirsStay(a: Tree, b: Tree, p: string)
    requires DirsAbove(a, p) && Holds(a, b)
    ensures DirsAbove(b, p)
  {
  }

  // ---- From one workspace, through an archive, to another ----

  function CanonicalTree(tree: Tree): Tree { map p | p in tree :: Canonical(tree[p]) }

  /** After a final slash comes an empty last part. */
  lemma {:induction false} SplitLast(s: string)
    requires s != "" && s[|s| - 1] == '/'
    ensures |Split(s)| > 1 && Split(s)[|Split(s)| - 1] == "" && "" in Split(s)
  {
    if |s| > 1 { SplitLast(s[1..]); } else { assert s[1..] == ""; }
    assert Split(s)[|Split(s)| - 1] in Split(s);
  }

  lemma PartsStay(p: string)
    requires ValidPath(p) && Trim(p) == p && !("./" <= p)
    ensures p != "" && p[0] != '/' && '\\' !in p && forall part <- Split(p) :: part != "" && part != "." && part != ".."
  {
    hide Trim, Split;
  }

  predicate GoodName(p: string) {
    && p != "" && p != "." && !("./" <= p) && p[0] != '/' && '\\' !in p
    && forall part <- Split(p) :: part != "" && part != "." && part != ".."
  }

  lemma GoodNameStays(p: string, directory: bool)
    requires GoodName(p)
    ensures ArchivePath(p, directory) == Name(p)
  {
    if p[|p| - 1] == '/' { SplitLast(p); }
  }

  lemma NameStays(tree: Tree, p: string)
    requires WellFormed(tree) && Portable(tree) && p in tree
    ensures ArchivePath(p, tree[p].Dir?) == Name(p)
  {
    hide Trim, TrimRight, ValidPath, Split, PathDirectory, ArchivePath;
    PartsStay(p);
    GoodNameStays(p, tree[p].Dir?);
  }

  lemma {:induction false} ByPathIs(entries: seq<Entry>, tree: Tree, n: nat)
    requires Lists(entries, tree) && WellFormed(tree) && Portable(tree) && n <= |entries|
    ensures ByPath(entries[..n]) == Some(Restrict(CanonicalTree(tree), FirstPaths(entries, n)))
  {
    hide ArchivePath, Canonical, WellFormed, Portable, ParentsFirst, Restrict, FirstPaths, CanonicalTree;
    if n == 0 {
      NothingFirst(entries, CanonicalTree(tree));
    } else {
      ByPathIs(entries, tree, n - 1);
      assert entries[..n][..n - 1] == entries[..n - 1] && entries[..n][n - 1] == entries[n - 1];
      var p := entries[n - 1].path;
      NameStays(tree, p);
      MoreFirstPaths(entries, n);
      NotYet(entries, tree, n);
      CanonicalAt(tree, p);
      RestrictMore(CanonicalTree(tree), FirstPaths(entries, n - 1), p);
    }
  }

  lemma CanonicalAt(tree: Tree, p: string)
    requires p in tree
    ensures p in CanonicalTree(tree) && CanonicalTree(tree)[p] == Canonical(tree[p])
  {
  }

  lemma NotYet(entries: seq<Entry>, tree: Tree, n: nat)
    requires Lists(entries, tree) && 0 < n <= |entries|
    ensures entries[n - 1].path !in Restrict(CanonicalTree(tree), FirstPaths(entries, n - 1))
  {
  }

  lemma ByPathIsCanonical(entries: seq<Entry>, tree: Tree)
    requires Lists(entries, tree) && WellFormed(tree) && Portable(tree)
    ensures ByPath(entries) == Some(CanonicalTree(tree)) && ParentClosed(CanonicalTree(tree))
  {
    ByPathIs(entries, tree, |entries|);
    assert entries[..|entries|] == entries;
    hide Portable;
    AllFirst(entries, tree);
    forall p | p in tree ensures IsDir(CanonicalTree(tree), PathDirectory(p)) {
      assert IsDir(tree, PathDirectory(p));
    }
  }

  lemma AllFirst(entries: seq<Entry>, tree: Tree)
    requires Lists(entries, tree)
    ensures Restrict(CanonicalTree(tree), FirstPaths(entries, |entries|)) == CanonicalTree(tree)
  {
    hide Canonical, ParentsFirst;
    forall p | p in tree ensures p in FirstPaths(entries, |entries|) {
      var i :| 0 <= i < |entries| && entries[i].path == p;
      assert entries[i].path in FirstPaths(entries, |entries|);
    }
  }

  lemma CanonicalNode(node: Node)
    requires 0 <= node.mode < 512
    ensures Canonical(Canonical(node)) == Canonical(node) && 0 <= Canonical(node).mode < 512
    ensures Canonical(node).Dir? == node.Dir? && Canonical(node).Special? == node.Special?
  {
  }

  lemma CanonicalTwice(tree: Tree)
    requires WellFormed(tree)
    ensures CanonicalTree(CanonicalTree(tree)) == CanonicalTree(tree)
  {
    hide Canonical, PathDirectory;
    forall p | p in tree ensures Canonical(Canonical(tree[p])) == Canonical(tree[p]) {
      CanonicalNode(tree[p]);
    }
  }

  lemma CanonicalWellFormed(tree: Tree)
    requires WellFormed(tree) && Portable(tree)
    ensures WellFormed(CanonicalTree(tree)) && Portable(CanonicalTree(tree))
  {
    hide Trim, TrimRight, ValidPath, Canonical, PathDirectory;
    forall p | p in tree
      ensures IsDir(CanonicalTree(tree), PathDirectory(p)) && 0 <= Canonical(tree[p]).mode < 512
              && Canonical(tree[p]).Special? == tree[p].Special?
    {
      CanonicalNode(tree[p]);
      assert IsDir(tree, PathDirectory(p));
      if PathDirectory(p) != "" { CanonicalNode(tree[PathDirectory(p)]); }
    }
  }

  lemma SortedBefore(entries: seq<Entry>, j: nat, i: nat)
    requires Sorted(entries) && i < |entries| && j < |entries| && Less(entries[j].path, entries[i].path)
    ensures j < i
  {
    LessTotal(entries[i].path, entries[j].path);
  }

  /** Sorted by path, a directory comes before everything below it: the archive can be restored in its order. */
  lemma SortedLists(entries: seq<Entry>, tree: Tree)
    requires SortedNodes(entries, tree) && ParentClosed(tree)
    ensures Lists(entries, tree)
  {
    hide PathDirectory, Less;
    forall i, j | 0 <= i < j < |entries| ensures entries[i].path != entries[j].path {
      LessTotal(entries[i].path, entries[j].path);
    }
    forall i | 0 <= i < |entries| && PathDirectory(entries[i].path) != ""
      ensures exists j | 0 <= j < i :: entries[j].path == PathDirectory(entries[i].path)
    {
      var p := entries[i].path;
      var d := PathDirectory(p);
      assert IsDir(tree, d);
      var j :| 0 <= j < |entries| && entries[j].path == d;
      DirectoryIsPrefix(p);
      assert d < p;
      PrefixIsLess(d, p);
      SortedBefore(entries, j, i);
    }
  }

  /** Permissions as the archive keeps them. */
  predicate CanonicalModes(tree: Tree) {
    forall p <- tree ::
      tree[p].Special? || tree[p].mode == (if tree[p].Dir? || Executable(tree[p].mode) then ExecutableMode else PlainMode)
  }

  /** The archived tree keeps everything but the permission bits, of which it keeps whether a file can be executed. */
  lemma SameTreeIff(tree: Tree)
    ensures CanonicalTree(tree) == tree <==> CanonicalModes(tree)
  {
    forall p | p in tree
      ensures Canonical(tree[p]) == tree[p]
              <==> tree[p].Special? || tree[p].mode == (if tree[p].Dir? || Executable(tree[p].mode) then ExecutableMode else PlainMode)
    {
    }
    if CanonicalTree(tree) == tree {
      forall p | p in tree ensures Canonical(tree[p]) == tree[p] { CanonicalAt(tree, p); }
    }
  }

  // ---- What came back the same went in canonical and portable ----

  /** The entry's name is taken as it is. */
  predicate Steady(entry: Entry) { ArchivePath(entry.path, entry.node.Dir?) == Name(entry.path) }

  /** A name that reads as a path, has no white space at its end and does not begin with `./`, is taken as it is, if at all. */
  lemma ReadIsSteady(path: string, directory: bool)
    requires ValidPath(path) && TrimRight(path) == path && !("./" <= path) && ArchivePath(path, directory).Name?
    ensures ArchivePath(path, directory) == Name(path)
  {
    hide Split, TrimLeft, TrimRight, IsSpace, Trim;
    if path != "" && path[|path| - 1] == '/' { SlashEnds(path); }
  }

  lemma SlashEnds(path: string)
    requires TrimRight(path) == path && path != "" && path[|path| - 1] == '/'
    ensures !ValidPath(path)
  {
    hide Split, TrimRight, IsSpace;
    TrimLeftTrims(path);
    var left := TrimLeft(path);
    if left != "" {
      assert left[|left| - 1] == '/';
      EndsTrimmed(left);
      var p := TrimPrefix(left, "./");
      if p != "" {
        assert p[|p| - 1] == '/';
        SplitLast(p);
      }
    } else {
      EndsTrimmed(left);
    }
  }

  lemma EndsTrimmed(s: string)
    requires s == "" || s[|s| - 1] == '/'
    ensures TrimRight(s) == s
  {
  }

  lemma PrefixOfPrefix(a: string, b: string, c: string)
    requires b <= c
    ensures a <= b ==> a <= c
  {
  }

  lemma EntryIsSteady(tree: Tree, entries: seq<Entry>, i: nat)
    requires WellFormed(tree) && Sourced(entries, tree) && i < |entries| && ArchivePath(entries[i].path, entries[i].node.Dir?).Name?
    ensures Steady(entries[i])
  {
    hide ArchivePath, ValidPath, PathDirectory, TrimRight, IsSpace;
    var path := entries[i].path;
    assert ReadFrom(tree, path);
    var q :| q in tree && TrimRight(q) == path;
    TrimRightTrims(q);
    PrefixOfPrefix("./", path, q);
    ReadIsSteady(path, entries[i].node.Dir?);
  }

  ghost predicate AllSteady(entries: seq<Entry>) { forall i | 0 <= i < |entries| :: Steady(entries[i]) }

  lemma {:induction false} NamesAreGood(entries: seq<Entry>, i: nat)
    requires ByPath(entries).Some? && i < |entries|
    ensures ArchivePath(entries[i].path, entries[i].node.Dir?).Name?
  {
    hide ArchivePath, Canonical;
    if i < |entries| - 1 { NamesAreGood(entries[..|entries| - 1], i); }
  }

  lemma EntriesAreSteady(tree: Tree, entries: seq<Entry>)
    requires WellFormed(tree) && Sourced(entries, tree) && ByPath(entries).Some?
    ensures AllSteady(entries)
  {
    hide Steady, WellFormed, Sourced, ByPath, ArchivePath;
    forall i | 0 <= i < |entries| ensures Steady(entries[i]) {
      NamesAreGood(entries, i);
      EntryIsSteady(tree, entries, i);
    }
  }

  /** The tree of steady entries has their paths, and their nodes made canonical. */
  ghost predicate Keeps(entries: seq<Entry>, named: Tree) {
    && (forall i | 0 <= i < |entries| :: entries[i].path in named && named[entries[i].path] == Canonical(entries[i].node))
    && (forall p <- named :: exists i | 0 <= i < |entries| :: entries[i].path == p)
  }

  lemma KeepsMore(entries: seq<Entry>, named: Tree, last: Entry)
    requires Keeps(entries, named) && last.path !in named
    ensures Keeps(entries + [last], named[last.path := Canonical(last.node)])
  {
    hide Canonical;
    var more, after := entries + [last], named[last.path := Canonical(last.node)];
    assert more[|entries|] == last;
    forall i | 0 <= i < |more| ensures more[i].path in after && after[more[i].path] == Canonical(more[i].node) {
      if i < |entries| { assert more[i] == entries[i]; }
    }
    forall p | p in after ensures exists i | 0 <= i < |more| :: more[i].path == p {
      if p != last.path {
        var i :| 0 <= i < |entries| && entries[i].path == p;
        assert more[i].path == p;
      }
    }
  }

  lemma {:induction false} SteadyKeeps(entries: seq<Entry>)
    requires AllSteady(entries) && ByPath(entries).Some?
    ensures Keeps(entries, ByPath(entries).value)
  {
    hide ArchivePath, Canonical, Keeps;
    if entries == [] {
      NothingKept();
    } else {
      var init, last := entries[..|entries| - 1], entries[|entries| - 1];
      SteadyKeeps(init);
      assert Steady(last) && init + [last] == entries;
      KeepsMore(init, ByPath(init).value, last);
    }
  }

  lemma NothingKept()
    ensures Keeps([], map[])
  {
  }

  lemma CanonicalIsDir(node: Node)
    ensures Canonical(node).Dir? <==> node.Dir?
    ensures Canonical(Canonical(node)) == Canonical(node)
  {
  }

  /** The walk's entries name every directory above them. */
  lemma WalkIsClosed(entries: seq<Entry>, named: Tree)
    requires Keeps(entries, named) && DirsFirst(entries)
    ensures ParentClosed(named)
  {
    hide Canonical, PathDirectory;
    forall p | p in named ensures IsDir(named, PathDirectory(p)) {
      var i :| 0 <= i < |entries| && entries[i].path == p;
      assert Anchored(entries[..i], PathDirectory(p));
      if PathDirectory(p) != "" {
        var j :| 0 <= j < i && entries[..i][j].path == PathDirectory(p) && entries[..i][j].node.Dir?;
        assert entries[j] == entries[..i][j];
        CanonicalIsDir(entries[j].node);
      }
    }
  }

  /** Entries that already are a canonical tree's are taken as they are. */
  lemma EncodedIsSteady(entries: seq<Entry>, named: Tree, encoded: seq<Entry>)
    requires AllSteady(entries) && Keeps(entries, named) && SortedNodes(encoded, named)
    ensures AllSteady(encoded)
  {
    hide ArchivePath, Canonical;
    forall k | 0 <= k < |encoded| ensures Steady(encoded[k]) {
      var i :| 0 <= i < |entries| && entries[i].path == encoded[k].path;
      assert Steady(entries[i]);
      CanonicalIsDir(entries[i].node);
    }
  }

  lemma DecodedIsEncoded(encoded: seq<Entry>, named: Tree, entries: seq<Entry>)
    requires Keeps(entries, named) && SortedNodes(encoded, named) && AllSteady(encoded) && ByPath(encoded).Some?
    ensures ByPath(encoded).value == named
  {
    hide Canonical, AllSteady, ByPath;
    SteadyKeeps(encoded);
    var again := ByPath(encoded).value;
    forall p | p in named ensures p in again && again[p] == named[p] {
      var k :| 0 <= k < |encoded| && encoded[k].path == p;
      var i :| 0 <= i < |entries| && entries[i].path == p;
      CanonicalIsDir(entries[i].node);
    }
    forall p | p in again ensures p in named {
      var k :| 0 <= k < |encoded| && encoded[k].path == p;
    }
  }

  lemma DecodedIsSourced(tree: Tree, entries: seq<Entry>, named: Tree, decoded: seq<Entry>)
    requires Sourced(entries, tree) && Keeps(entries, named) && SortedNodes(decoded, named)
    ensures Sourced(decoded, tree)
    ensures forall k | 0 <= k < |decoded| :: Canonical(decoded[k].node) == decoded[k].node
  {
    hide ValidPath, Canonical, ReadFrom;
    forall k | 0 <= k < |decoded|
      ensures ValidPath(decoded[k].path) && !decoded[k].node.Special? && ReadFrom(tree, decoded[k].path)
      ensures Canonical(decoded[k].node) == decoded[k].node
    {
      var i :| 0 <= i < |entries| && entries[i].path == decoded[k].path;
      assert decoded[k].node == Canonical(entries[i].node);
      CanonicalIsDir(entries[i].node);
      CanonicalFile(entries[i].node);
    }
  }

  lemma CanonicalFile(node: Node)
    ensures !node.Special? ==> !Canonical(node).Special? && 0 <= Canonical(node).mode < 512
  {
  }

  /** What is built of canonical entries is canonical. */
  lemma BuiltCanonical(decoded: seq<Entry>, tree: Tree)
    requires Build(decoded) == Some(tree) && forall k | 0 <= k < |decoded| :: Canonical(decoded[k].node) == decoded[k].node && !decoded[k].node.Special?
    ensures CanonicalTree(tree) == tree
  {
    hide Canonical, Build, Received, KeyOf, WorkspacePath;
    forall p | p in tree ensures Canonical(tree[p]) == tree[p] {
      BuiltFrom(decoded, p);
      var i :| 0 <= i < |decoded| && p == KeyOf(WorkspacePath(decoded[i].path)) && tree[p] == Received(decoded[i].node);
      CanonicalFile(decoded[i].node);
      ReceivedCanonical(decoded[i].node);
    }
  }

  lemma ReceivedCanonical(node: Node)
    requires 0 <= node.mode < 512
    ensures Received(node) == node
  {
    hide ProviderFileMode, WorkspaceMode;
    ModeRoundTrip(node.mode);
  }

  /** The whole way back: what comes out equal went in portable, with canonical permissions. */
  lemma OnlyCanonical(tree: Tree, entries: seq<Entry>, encoded: seq<Entry>, decoded: seq<Entry>)
    requires WellFormed(tree) && Sourced(entries, tree) && AllReadable(tree) && DirsFirst(entries)
    requires ByPath(entries).Some? && (ParentClosed(ByPath(entries).value) ==> SortedNodes(encoded, ByPath(entries).value))
    requires ByPath(encoded).Some? && (ParentClosed(ByPath(encoded).value) ==> SortedNodes(decoded, ByPath(encoded).value))
    requires Build(decoded) == Some(tree)
    ensures Portable(tree) && CanonicalModes(tree)
  {
    hide WellFormed, Sourced, AllReadable, DirsFirst, ByPath, ParentClosed, SortedNodes, Build, Keeps, AllSteady, Portable, CanonicalTree, CanonicalModes;
    var named := ByPath(entries).value;
    EntriesAreSteady(tree, entries);
    SteadyKeeps(entries);
    WalkIsClosed(entries, named);
    EncodedIsSteady(entries, named, encoded);
    DecodedIsEncoded(encoded, named, entries);
    DecodedIsSourced(tree, entries, named, decoded);
    OnlyPortable(decoded, tree);
    NoSpecial(decoded, tree);
    BuiltCanonical(decoded, tree);
    SameTreeIff(tree);
  }

  lemma NoSpecial(entries: seq<Entry>, tree: Tree)
    requires Sourced(entries, tree)
    ensures forall i | 0 <= i < |entries| :: !entries[i].node.Special?
  {
  }

  /** Archive, encode, decode, restore, over any prior contents that can be cleared: a portable workspace comes back with
      its permissions made canonical, and the very same tree comes back exactly when it is portable and they were. */
  method SnapshotAndRestore(source: Sandbox, target: Sandbox) returns (restored: bool)
    requires source != target && WellFormed(source.tree) && WellFormed(target.tree)
    modifies target
    ensures source.tree == old(source.tree)
    ensures Portable(source.tree) && Clearable(old(target.tree)) ==> restored && target.tree == CanonicalTree(source.tree)
    ensures restored && target.tree == source.tree
            <==> Clearable(old(target.tree)) && Portable(source.tree) && CanonicalModes(source.tree)
  {
    hide WellFormed, Portable, Clearable, Lists, Sourced, AllReadable, DirsFirst, Build, ByPath, SortedNodes, ParentClosed, CanonicalTree,
      CanonicalModes, NoFileAbove, OnlyParents;
    ghost var tree := source.tree;
    SameTreeIff(tree);
    PortableArchives(tree);
    var entries := Archive(source);
    if entries.None? { return false; }
    var encoded := Normalize(entries.value);
    if Portable(tree) {
      ByPathIsCanonical(entries.value, tree);
      CanonicalWellFormed(tree);
      CanonicalTwice(tree);
      SortedLists(encoded.value, CanonicalTree(tree));
      ByPathIsCanonical(encoded.value, CanonicalTree(tree));
    }
    if encoded.None? { return false; }
    var decoded := Normalize(encoded.value);
    if decoded.None? { return false; }
    restored := Restore(target, decoded.value);
    if Portable(tree) {
      SortedLists(decoded.value, CanonicalTree(tree));
      PortableTrimmed(CanonicalTree(tree));
      Rebuilds(decoded.value, CanonicalTree(tree));
    }
    if restored && target.tree == tree { OnlyCanonical(tree, entries.value, encoded.value, decoded.value); }
  }

  // ---- Trees that do not come back ----

  /** A private file is portable, and comes back readable to all. */
  lemma PrivateFileChanges()
    ensures var tree := map["a" := File(384, [])];
            && WellFormed(tree) && Portable(tree) && !CanonicalModes(tree)
            && CanonicalTree(tree) == map["a" := File(420, [])] && CanonicalTree(tree) != tree
  {
    var tree := map["a" := File(384, [])];
    PlainName('a');
    assert tree["a"].mode == 384 && CanonicalTree(tree)["a"] == File(420, []);
  }

  /** A name that ends in a blank reads, but as another: the file comes back without it. */
  lemma TrailingBlankIsLost()
    ensures var tree := map["a " := File(420, [])];
            && WellFormed(tree) && AllReadable(tree) && CanonicalModes(tree) && !Portable(tree)
            && ArchiveRelativePath(Root + "a ") == Some("a")
            && Build([Entry("a", File(420, []))]) == Some(map["a" := File(420, [])])
  {
    hide IsSpace, ValidPath, Build, Archivable, ArchiveRelativePath, WorkspacePath;
    var tree := map["a " := File(420, [])];
    BlankName();
    PlainName('a');
    RelativeIs("a ");
    BuildsOne(Entry("a", File(420, [])));
    assert tree["a "].mode == 420;
  }

  lemma BlankName()
    ensures !IsSpace('a') && TrimRight("a ") == "a" && Trim("a ") != "a " && PathDirectory("a ") == "" && !("./" <= "a ")
  {
    assert "a "[..1] == "a" && "a"[..0] == "" && PathDirectory("") == "";
    TrimKeeps("a ");
  }

  lemma BuildsOne(entry: Entry)
    requires WorkspacePath(entry.path) == Root + entry.path && entry.path != "" && PathDirectory(entry.path) == "" && 0 <= entry.node.mode < 512
    ensures Build([entry]) == Some(map[entry.path := entry.node])
  {
    hide WorkspacePath, Received, PathDirectory;
    assert [entry][..0] == [] && Build([entry][..0]) == Some(map[]);
    KeyOfChild(entry.path);
    ReceivedCanonical(entry.node);
  }

  lemma OnePart(c: char)
    requires c != '/'
    ensures Split([c]) == [[c]]
  {
    assert [c][1..] == "" && Split("") == [""];
    assert [c] + Split("")[0] == [c] && Split("")[1..] == [];
  }

  lemma PlainName(c: char)
    requires !IsSpace(c) && c != '/' && c != '.' && c != '\\'
    ensures ValidPath([c]) && TrimRight([c]) == [c] && Trim([c]) == [c] && PathDirectory([c]) == "" && !("./" <= [c])
    ensures WorkspacePath([c]) == Root + [c]
  {
    TrimKeeps([c]);
    assert [c][..0] == "" && PathDirectory("") == "";
    OnePart(c);
  }

  lemma PortableArchives(tree: Tree)
    ensures Portable(tree) ==> Archivable(tree)
  {
  }

  lemma PortableTrimmed(tree: Tree)
    requires Portable(tree)
    ensures Trimmed(tree)
  {
  }
}
