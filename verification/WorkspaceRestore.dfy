/** Rebuilding a workspace from archive entries, over whatever was there before. */
module WorkspaceRestore {
  import opened Base
  import opened WorkspacePaths
  import opened WorkspaceArchive

  // ---- Clearing ----

  /** The top level reads as names of the top level. */
  predicate Clearable(tree: Tree) {
    forall p <- Children(tree, "") ::
      ArchiveRelativePath(Root + p).Some? && PathDirectory(ArchiveRelativePath(Root + p).value) == ""
  }

  function Without(tree: Tree, tops: set<string>): Tree {
    map p | p in tree && forall t <- tops :: !Under(p, t) :: tree[p]
  }

  lemma {:induction false} DirectoryIsPrefix(p: string)
    ensures PathDirectory(p) != "" ==> PathDirectory(p) + "/" <= p
  {
    if p != "" && p[|p| - 1] != '/' { DirectoryIsPrefix(p[..|p| - 1]); }
  }

  /** The top-level node a path lies under. */
  function Top(p: string): string
    decreases |p|
  {
    if PathDirectory(p) == "" then p else Top(PathDirectory(p))
  }

  lemma {:induction false} TopIs(tree: Tree, p: string)
    requires WellFormed(tree) && p in tree
    ensures Top(p) in Children(tree, "") && Under(p, Top(p)) && Top(p) <= p && Top(p) != ""
    decreases |p|
  {
    var d := PathDirectory(p);
    if d != "" {
      DirectoryIsPrefix(p);
      TopIs(tree, d);
    }
  }

  lemma WithoutTops(tree: Tree)
    requires WellFormed(tree)
    ensures Without(tree, Children(tree, "")) == map[]
  {
    forall p | p in tree ensures exists t :: t in Children(tree, "") && Under(p, t) {
      TopIs(tree, p);
    }
  }

  function KeysOf(remotes: seq<string>): set<string> { set i | 0 <= i < |remotes| :: KeyOf(remotes[i]) }

  lemma MoreKeys(remotes: seq<string>, remote: string)
    ensures KeysOf(remotes + [remote]) == KeysOf(remotes) + {KeyOf(remote)}
  {
    var more := remotes + [remote];
    assert more[|remotes|] == remote && forall i | 0 <= i < |remotes| :: more[i] == remotes[i];
    forall k | k in KeysOf(remotes) + {KeyOf(remote)} ensures k in KeysOf(more) {
      if k in KeysOf(remotes) {
        var i :| 0 <= i < |remotes| && KeyOf(remotes[i]) == k;
        assert KeyOf(more[i]) == k;
      } else {
        assert KeyOf(more[|remotes|]) == k;
      }
    }
  }

  lemma WithoutMore(tree: Tree, tops: set<string>, t: string)
    ensures Without(tree, tops + {t}) == map p | p in Without(tree, tops) && !Under(p, t) :: Without(tree, tops)[p]
  {
    hide Under;
  }

  method DeleteAll(sandbox: Sandbox, remotes: seq<string>)
    modifies sandbox
    ensures sandbox.tree == Without(old(sandbox.tree), KeysOf(remotes))
  {
    hide KeysOf, KeyOf, Under;
    NoKeys();
    for i := 0 to |remotes|
      invariant sandbox.tree == Without(old(sandbox.tree), KeysOf(remotes[..i]))
    {
      assert remotes[..i + 1] == remotes[..i] + [remotes[i]];
      MoreKeys(remotes[..i], remotes[i]);
      WithoutMore(old(sandbox.tree), KeysOf(remotes[..i]), KeyOf(remotes[i]));
      sandbox.Delete(remotes[i]);
    }
    assert remotes[..|remotes|] == remotes;
  }

  lemma NoKeys()
    ensures KeysOf([]) == {}
  {
  }

  lemma WithoutBoth(tree: Tree, a: set<string>, b: set<string>)
    ensures Without(Without(tree, a), b) == Without(tree, a + b)
  {
    hide Under;
  }

  /** The top level is listed and classified; then the files are deleted, then the directories with all below. */
  method Clear(sandbox: Sandbox) returns (ok: bool)
    requires WellFormed(sandbox.tree)
    modifies sandbox
    ensures ok == Clearable(old(sandbox.tree))
    ensures sandbox.tree == if ok then map[] else old(sandbox.tree)
  {
    hide ArchiveRelativePath, PathDirectory, Under, WellFormed, KeysOf, Without;
    ghost var tree := sandbox.tree;
    var listing, names := sandbox.ListDirectory("");
    var files, directories: seq<string> := [], [];
    NoKeys();
    for k := 0 to |listing|
      invariant sandbox.tree == tree
      invariant forall i | 0 <= i < k :: ArchiveRelativePath(Root + names[i]).Some?
                                         && PathDirectory(ArchiveRelativePath(Root + names[i]).value) == ""
      invariant KeysOf(files) + KeysOf(directories) == SetOf(names[..k])
    {
      var entry := listing[k];
      var relative := ArchiveRelativePath(entry.path);
      if relative.None? || PathDirectory(relative.value) != "" {
        assert names[k] in names;
        return false;
      }
      KeyOfChild(names[k]);
      assert names[..k + 1] == names[..k] + [names[k]];
      SetOfSum(names[..k], [names[k]]);
      assert SetOf([names[k]]) == {names[k]};
      if entry.node.Dir? {
        MoreKeys(directories, entry.path);
        directories := directories + [entry.path];
      } else {
        MoreKeys(files, entry.path);
        files := files + [entry.path];
      }
    }
    assert names[..|names|] == names;
    assert SetOf(names) == Children(tree, "");
    DeleteAll(sandbox, files);
    DeleteAll(sandbox, directories);
    WithoutBoth(tree, KeysOf(files), KeysOf(directories));
    WithoutTops(tree);
    return true;
  }

  lemma KeyOfChild(p: string)
    ensures KeyOf(Root + p) == p
  {
    assert (Root + p)[|Root|..] == p;
  }

  // ---- Rebuilding ----

  /** What the provider stores for an entry: the mode it reads back from the digits it was sent. */
  function Received(node: Node): Node {
    var mode := WorkspaceMode(ProviderFileMode(node.mode));
    if mode.Some? then node.(mode := mode.value) else node
  }

  /** The tree the entries make in an empty workspace; None when one of them has no place. */
  function Build(entries: seq<Entry>): Option<Tree> {
    if entries == [] then Some(map[])
    else
      var last := entries[|entries| - 1];
      match Build(entries[..|entries| - 1])
      case None => None
      case Some(tree) => Put(tree, KeyOf(WorkspacePath(last.path)), Received(last.node))
  }

  lemma {:induction false} BuildPrefix(entries: seq<Entry>, n: nat)
    requires n <= |entries| && Build(entries[..n]).None?
    ensures Build(entries).None?
    decreases |entries|
  {
    if n < |entries| {
      assert entries[..|entries| - 1][..n] == entries[..n];
      BuildPrefix(entries[..|entries| - 1], n);
    } else {
      assert entries[..n] == entries;
    }
  }

  method Restore(sandbox: Sandbox, entries: seq<Entry>) returns (ok: bool)
    requires WellFormed(sandbox.tree)
    modifies sandbox
    ensures ok <==> Clearable(old(sandbox.tree)) && Build(entries).Some?
    ensures ok ==> sandbox.tree == Build(entries).value
  {
    hide WorkspacePath, Put, KeyOf, ProviderFileMode, WorkspaceMode, Clearable, WellFormed;
    ok := Clear(sandbox);
    if !ok { return; }
    for k := 0 to |entries|
      invariant Build(entries[..k]) == Some(sandbox.tree)
    {
      assert entries[..k + 1][..k] == entries[..k];
      var entry := entries[k];
      ok := sandbox.Store(WorkspacePath(entry.path), Received(entry.node));
      if !ok {
        BuildPrefix(entries, k + 1);
        return;
      }
    }
    assert entries[..|entries|] == entries;
    return true;
  }

  // ---- The round trip ----

  /** Trimming leaves every name alone. */
  ghost predicate Trimmed(tree: Tree) { forall p <- tree :: Trim(p) == p }

  lemma KeyOfPlace(tree: Tree, p: string)
    requires WellFormed(tree) && p in tree && Trim(p) == p
    ensures KeyOf(WorkspacePath(p)) == p
  {
    KeyOfChild(p);
  }

  function FirstPaths(entries: seq<Entry>, n: nat): set<string>
    requires n <= |entries|
  {
    set i | 0 <= i < n :: entries[i].path
  }

  function Restrict(tree: Tree, paths: set<string>): Tree { map p | p in tree && p in paths :: tree[p] }

  lemma ReceivedSame(tree: Tree, p: string)
    requires WellFormed(tree) && p in tree
    ensures Received(tree[p]) == tree[p]
  {
    hide ProviderFileMode, WorkspaceMode;
    ModeRoundTrip(tree[p].mode);
  }

  lemma NothingFirst(entries: seq<Entry>, tree: Tree)
    ensures Restrict(tree, FirstPaths(entries, 0)) == map[]
  {
  }

  lemma {:induction false} BuildsPrefix(entries: seq<Entry>, tree: Tree, n: nat)
    requires Lists(entries, tree) && WellFormed(tree) && Trimmed(tree) && n <= |entries|
    ensures Build(entries[..n]) == Some(Restrict(tree, FirstPaths(entries, n)))
  {
    hide WorkspacePath, KeyOf, Received, Trim, PathDirectory, ParentsFirst, Put, Restrict, FirstPaths;
    if n == 0 {
      NothingFirst(entries, tree);
    } else {
      BuildsPrefix(entries, tree, n - 1);
      assert entries[..n][..n - 1] == entries[..n - 1];
      var entry := entries[n - 1];
      assert entries[..n][n - 1] == entry && entry.path in tree && entry.node == tree[entry.path];
      KeyOfPlace(tree, entry.path);
      ReceivedSame(tree, entry.path);
      Placed(entries, tree, n);
    }
  }

  lemma MoreFirstPaths(entries: seq<Entry>, n: nat)
    requires 0 < n <= |entries|
    ensures FirstPaths(entries, n) == FirstPaths(entries, n - 1) + {entries[n - 1].path}
  {
  }

  lemma RestrictMore(tree: Tree, paths: set<string>, p: string)
    requires p in tree
    ensures Restrict(tree, paths + {p}) == Restrict(tree, paths)[p := tree[p]]
  {
  }

  lemma ParentPlaced(entries: seq<Entry>, tree: Tree, n: nat)
    requires Lists(entries, tree) && WellFormed(tree) && 0 < n <= |entries|
    ensures IsDir(Restrict(tree, FirstPaths(entries, n - 1)), PathDirectory(entries[n - 1].path))
  {
    hide PathDirectory;
    var d := PathDirectory(entries[n - 1].path);
    if d != "" {
      var j :| 0 <= j < n - 1 && entries[j].path == d;
      assert entries[j].path in FirstPaths(entries, n - 1);
      assert IsDir(tree, d);
    }
  }

  lemma Placed(entries: seq<Entry>, tree: Tree, n: nat)
    requires Lists(entries, tree) && WellFormed(tree) && 0 < n <= |entries|
    ensures var before := Restrict(tree, FirstPaths(entries, n - 1));
            Put(before, entries[n - 1].path, tree[entries[n - 1].path]) == Some(Restrict(tree, FirstPaths(entries, n)))
  {
    var p := entries[n - 1].path;
    ParentPlaced(entries, tree, n);
    MoreFirstPaths(entries, n);
    assert p !in FirstPaths(entries, n - 1) && p in tree && p != "";
    hide PathDirectory, Lists, WellFormed, IsDir, FirstPaths;
    RestrictMore(tree, FirstPaths(entries, n - 1), p);
  }

  /** Restoring what the archive lists rebuilds the tree, with its permission bits. */
  lemma Rebuilds(entries: seq<Entry>, tree: Tree)
    requires Lists(entries, tree) && WellFormed(tree) && Trimmed(tree)
    ensures Build(entries) == Some(tree)
  {
    BuildsPrefix(entries, tree, |entries|);
    assert entries[..|entries|] == entries;
    forall p | p in tree ensures p in FirstPaths(entries, |entries|) {
      var i :| 0 <= i < |entries| && entries[i].path == p;
      assert entries[i].path in FirstPaths(entries, |entries|);
    }
    assert Restrict(tree, FirstPaths(entries, |entries|)) == tree;
  }

  // ---- Exactly which trees survive ----

  /** Names that trimming leaves alone, that read as paths, and nothing but directories and files. */
  ghost predicate Portable(tree: Tree) { Trimmed(tree) && Archivable(tree) }

  lemma {:induction false} TopIsFirst(p: string)
    requires p != "" && p[0] != '/'
    ensures Top(p) == p || Top(p) + "/" <= p
    ensures '/' !in Top(p)
    decreases |p|
  {
    var d := PathDirectory(p);
    if d == "" {
      NoSlash(p);
    } else {
      DirectoryIsPrefix(p);
      TopIsFirst(d);
    }
  }

  lemma {:induction false} NoSlash(p: string)
    requires PathDirectory(p) == "" && p != "" && p[0] != '/'
    ensures '/' !in p
  {
    if |p| > 1 {
      NoSlash(p[..|p| - 1]);
      assert p == p[..|p| - 1] + [p[|p| - 1]];
    }
  }

  lemma {:induction false} TrimLeftSpaces(spaces: string, s: string)
    requires forall c <- spaces :: IsSpace(c)
    requires s != "" && !IsSpace(s[0])
    ensures TrimLeft(spaces + s) == s
  {
    if spaces == "" {
      assert spaces + s == s;
    } else {
      assert spaces[0] in spaces && (spaces + s)[0] == spaces[0] && (spaces + s)[1..] == spaces[1..] + s;
      assert forall c <- spaces[1..] :: c in spaces;
      TrimLeftSpaces(spaces[1..], s);
    }
  }

  lemma {:induction false} LeadingSpaces(s: string)
    ensures |TrimLeft(s)| <= |s|
    ensures forall c <- s[..|s| - |TrimLeft(s)|] :: IsSpace(c)
  {
    TrimLeftTrims(s);
    if s != "" && IsSpace(s[0]) {
      LeadingSpaces(s[1..]);
      assert s[..|s| - |TrimLeft(s)|] == [s[0]] + s[1..][..|s[1..]| - |TrimLeft(s[1..])|];
    }
  }

  /** White space and a dot is no readable name. */
  lemma DotIsUnreadable(spaces: string)
    requires forall c <- spaces :: IsSpace(c)
    ensures !ValidPath(TrimRight(spaces + "."))
  {
    var name := spaces + ".";
    assert name[|name| - 1] == '.';
    assert TrimRight(name) == name;
    TrimLeftSpaces(spaces, ".");
    assert Trim(name) == ".";
    assert "."[1..] == "" && Split("") == [""];
    assert ['.'] + "" == ".";
    assert "." in Split(".");
  }

  lemma SlashInside(t: string, q: string, k: nat)
    requires t <= q && k < |q| && q[k] == '/'
    ensures k < |t| ==> '/' in t
  {
    if k < |t| { assert t[k] == q[k]; }
  }

  /** The top-level name ends where the first slash is. */
  lemma TopOf(name: string, rest: string)
    requires name != "" && '/' !in name
    ensures Top(name + "/" + rest) == name
  {
    hide Top;
    var q := name + "/" + rest;
    assert q[0] == name[0] && name[0] in name;
    TopIsFirst(q);
    var t := Top(q);
    assert forall i | 0 <= i < |name| :: name[i] in name && q[i] == name[i];
    assert q[|name|] == '/';
    SlashInside(t, q, |name|);
    assert t != q && (t + "/")[|t|] == q[|t|];
    assert t == q[..|t|];
  }

  /** A path that begins, white space aside, with `./` lies below an unreadable name. */
  lemma DotTop(x: string) returns (n: nat)
    requires "./" <= Trim(x) && !("./" <= x)
    ensures n + 1 < |x| && x[n + 1] == '/' && x[n] == '.' && forall c <- x[..n] :: IsSpace(c)
  {
    hide IsSpace;
    TrimRightTrims(TrimLeft(x));
    TrimLeftTrims(x);
    LeadingSpaces(x);
    n := |x| - |TrimLeft(x)|;
    assert TrimLeft(x)[0] == '.' && TrimLeft(x)[1] == '/' && x[n] == '.' && x[n + 1] == '/';
  }

  lemma NoSlashInSpace(spaces: string)
    requires forall c <- spaces :: IsSpace(c)
    ensures forall i | 0 <= i < |spaces| :: spaces[i] != '/'
  {
    forall i | 0 <= i < |spaces| ensures spaces[i] != '/' {
      assert spaces[i] in spaces;
    }
  }

  lemma DotTopUnreadable(spaces: string, rest: string)
    requires forall c <- spaces :: IsSpace(c)
    ensures !ValidPath(TrimRight(Top(spaces + "." + "/" + rest)))
  {
    NoSlashInSpace(spaces);
    TopOf(spaces + ".", rest);
    DotIsUnreadable(spaces);
  }

  lemma CutAt(q: string, x: string, n: nat)
    requires x <= q && n + 1 < |x| && x[n] == '.' && x[n + 1] == '/'
    ensures q == x[..n] + "." + "/" + q[n + 2..]
  {
  }

  /** So no node's path begins, white space aside, with `./`. */
  lemma NoDot(tree: Tree, q: string)
    requires WellFormed(tree) && AllReadable(tree) && q in tree
    ensures !("./" <= Trim(TrimRight(q)))
  {
    hide IsSpace, Trim, TrimRight, TrimLeft, ValidPath, Top;
    var x := TrimRight(q);
    TrimRightTrims(q);
    if "./" <= Trim(x) {
      var n := DotTop(x);
      CutAt(q, x, n);
      DotTopUnreadable(x[..n], q[n + 2..]);
      TopIs(tree, q);
    }
  }

  lemma {:induction false} BuiltFrom(entries: seq<Entry>, k: string)
    requires Build(entries).Some? && k in Build(entries).value
    ensures k != "" && exists i | 0 <= i < |entries| ::
              k == KeyOf(WorkspacePath(entries[i].path)) && Build(entries).value[k] == Received(entries[i].node)
  {
    hide KeyOf, WorkspacePath, Received, PathDirectory;
    var n := |entries| - 1;
    var before := Build(entries[..n]).value;
    if k == KeyOf(WorkspacePath(entries[n].path)) {
    } else {
      BuiltFrom(entries[..n], k);
      var i :| 0 <= i < n && k == KeyOf(WorkspacePath(entries[..n][i].path)) && before[k] == Received(entries[..n][i].node);
      assert entries[i] == entries[..n][i];
    }
  }

  /** Where an entry of an archived tree is put: at its path without surrounding white space. */
  lemma PlaceOf(tree: Tree, path: string)
    requires WellFormed(tree) && AllReadable(tree) && ReadFrom(tree, path) && ValidPath(path)
    ensures KeyOf(WorkspacePath(path)) == (if Trim(path) == "." then "" else Trim(path))
  {
    hide TrimRight, Trim, WellFormed, AllReadable;
    var q :| q in tree && TrimRight(q) == path;
    NoDot(tree, q);
    KeyOfChild(Trim(path));
  }

  /** What comes out equal went in portable. */
  lemma OnlyPortable(entries: seq<Entry>, tree: Tree)
    requires WellFormed(tree) && AllReadable(tree) && Sourced(entries, tree) && Build(entries) == Some(tree)
    ensures Portable(tree)
  {
    hide TrimRight, Trim, TrimLeft, WellFormed, AllReadable, KeyOf, WorkspacePath, Build, ReadFrom, ProviderFileMode, WorkspaceMode;
    forall p | p in tree ensures Trim(p) == p && ValidPath(p) && TrimRight(p) == p && !tree[p].Special? {
      BuiltFrom(entries, p);
      var i :| 0 <= i < |entries| && p == KeyOf(WorkspacePath(entries[i].path)) && tree[p] == Received(entries[i].node);
      PlaceOf(tree, entries[i].path);
      TrimKeeps(entries[i].path);
      TrimKeeps(p);
      ReadableHere(tree, p);
    }
  }

  lemma ReadableHere(tree: Tree, p: string)
    requires AllReadable(tree) && p in tree
    ensures ValidPath(TrimRight(p))
  {
  }

  /** Archiving one workspace and restoring it over another, whatever that held before, rebuilds the tree
      exactly when the tree is portable. */
  method RoundTrip(source: Sandbox, target: Sandbox) returns (restored: bool)
    requires source != target && WellFormed(source.tree) && WellFormed(target.tree)
    modifies target
    ensures source.tree == old(source.tree)
    ensures Portable(source.tree) && Clearable(old(target.tree)) ==> restored && target.tree == source.tree
    ensures restored && target.tree == source.tree ==> Portable(source.tree)
  {
    hide Archivable, Trimmed, WellFormed, Clearable, Lists, Sourced, AllReadable, Build;
    ghost var tree := source.tree;
    var entries := Archive(source);
    if entries.None? { return false; }
    restored := Restore(target, entries.value);
    if Portable(tree) { Rebuilds(entries.value, tree); }
    if restored && target.tree == tree { OnlyPortable(entries.value, tree); }
  }
}
