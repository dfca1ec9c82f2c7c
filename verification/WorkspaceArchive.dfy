/** Archiving a sandbox's workspace breadth first, and rebuilding it elsewhere. */
module WorkspaceArchive {
  import opened Base
  import opened WorkspacePaths

  /** A node of the workspace tree. Sockets, links and the like cannot be archived. */
  datatype Node = Dir(mode: int) | File(mode: int, content: seq<bv8>) | Special(mode: int)

  /** The nodes below the mount, by their path. */
  type Tree = map<string, Node>

  predicate IsDir(tree: Tree, p: string) { p == "" || (p in tree && tree[p].Dir?) }

  /** What any file system guarantees of its own tree. */
  ghost predicate WellFormed(tree: Tree) {
    forall p <- tree ::
      p != "" && p[0] != '/' && !("./" <= p) && p != "." && IsDir(tree, PathDirectory(p)) && 0 <= tree[p].mode < 512
  }

  /** One line of a directory listing, in the provider's notation. */
  datatype FileInfo = FileInfo(path: string, node: Node, mode: int)

  function InfoOf(tree: Tree, p: string): FileInfo
    requires p in tree
  {
    FileInfo(Root + p, tree[p], ProviderFileMode(tree[p].mode))
  }

  function Children(tree: Tree, d: string): set<string> { set p | p in tree && PathDirectory(p) == d }

  datatype Entry = Entry(path: string, node: Node)

  /** Putting a node at a place: its directory must be there, and only a file may replace a file. */
  function Put(tree: Tree, p: string, node: Node): Option<Tree> {
    if p == "" || !IsDir(tree, PathDirectory(p)) then None
    else if p in tree && !(tree[p].File? && node.File?) then None
    else Some(tree[p := node])
  }

  /** The tree key a remote path stands for. */
  function KeyOf(remote: string): string { if Root <= remote then remote[|Root|..] else "" }

  /** The sandbox's file system. */
  class Sandbox {
    var tree: Tree

    constructor (t: Tree)
      ensures tree == t
    {
      tree := t;
    }

    /** The children of a directory, each once, in any order. */
    method ListDirectory(d: string) returns (listing: seq<FileInfo>, ghost names: seq<string>)
      ensures |listing| == |names| && forall i | 0 <= i < |names| :: names[i] in tree && listing[i] == InfoOf(tree, names[i])
      ensures forall p :: p in names <==> p in Children(tree, d)
      ensures forall i, j | 0 <= i < j < |names| :: names[i] != names[j]
    {
      var todo := Children(tree, d);
      listing, names := [], [];
      while todo != {}
        invariant todo <= Children(tree, d)
        invariant |listing| == |names| && forall i | 0 <= i < |names| :: names[i] in tree && listing[i] == InfoOf(tree, names[i])
        invariant forall p :: p in names <==> p in Children(tree, d) && p !in todo
        invariant forall i, j | 0 <= i < j < |names| :: names[i] != names[j]
      {
        var p :| p in todo;
        listing, names := listing + [InfoOf(tree, p)], names + [p];
        todo := todo - {p};
      }
    }

    method Store(remote: string, node: Node) returns (ok: bool)
      modifies this
      ensures ok == Put(old(tree), KeyOf(remote), node).Some?
      ensures tree == if ok then Put(old(tree), KeyOf(remote), node).value else old(tree)
    {
      var stored := Put(tree, KeyOf(remote), node);
      ok := stored.Some?;
      if ok { tree := stored.value; }
    }

    /** Deleting takes everything below along. */
    method Delete(remote: string)
      modifies this
      ensures tree == map p | p in old(tree) && !Under(p, KeyOf(remote)) :: old(tree)[p]
    {
      tree := map p | p in tree && !Under(p, KeyOf(remote)) :: tree[p];
    }
  }

  predicate Under(p: string, top: string) { p == top || top + "/" <= p }

  // ---- Archiving ----

  /** The names an archive can carry: what trimming on the right leaves alone. */
  predicate Archivable(tree: Tree) {
    forall p <- tree :: ValidPath(p) && TrimRight(p) == p && !tree[p].Special?
  }

  datatype Pending = Pending(remote: string, relative: string)

  /** Exactly one entry per node, parents before children. */
  ghost predicate Lists(entries: seq<Entry>, tree: Tree) {
    && (forall i | 0 <= i < |entries| :: entries[i].path in tree && entries[i].node == tree[entries[i].path])
    && (forall i, j | 0 <= i < j < |entries| :: entries[i].path != entries[j].path)
    && (forall p <- tree :: exists i | 0 <= i < |entries| :: entries[i].path == p)
    && ParentsFirst(entries)
  }

  ghost predicate ParentsFirst(entries: seq<Entry>) {
    forall i | 0 <= i < |entries| ::
      PathDirectory(entries[i].path) == "" || exists j | 0 <= j < i :: entries[j].path == PathDirectory(entries[i].path)
  }

  // ---- The breadth-first walk ----

  /** The directories among some nodes, in their order. */
  function DirsOf(tree: Tree, names: seq<string>): seq<string> {
    if names == [] then []
    else
      var last := names[|names| - 1];
      DirsOf(tree, names[..|names| - 1]) + (if last in tree && tree[last].Dir? then [last] else [])
  }

  lemma {:induction false} DirsAre(tree: Tree, names: seq<string>)
    requires forall i | 0 <= i < |names| :: names[i] in tree
    requires forall i, j | 0 <= i < j < |names| :: names[i] != names[j]
    ensures forall d :: d in DirsOf(tree, names) <==> d in names && tree[d].Dir?
    ensures forall i, j | 0 <= i < j < |DirsOf(tree, names)| :: DirsOf(tree, names)[i] != DirsOf(tree, names)[j]
  {
    if names != [] {
      var init, last := names[..|names| - 1], names[|names| - 1];
      DirsAre(tree, init);
      assert names == init + [last];
    }
  }

  ghost predicate AllDifferent(names: seq<string>) { forall i, j | 0 <= i < j < |names| :: names[i] != names[j] }

  ghost predicate ParentsBefore(names: seq<string>) {
    forall i | 0 <= i < |names| :: PathDirectory(names[i]) == "" || PathDirectory(names[i]) in names[..i]
  }

  function SetOf(names: seq<string>): set<string> { set n | n in names }

  lemma SetOfSum(a: seq<string>, b: seq<string>)
    ensures SetOf(a + b) == SetOf(a) + SetOf(b)
  {
  }

  /** The nodes seen, the directories listed, and those still to list. */
  ghost predicate Reaches(tree: Tree, seen: set<string>, done: set<string>, todo: set<string>) {
    && (forall p <- seen :: p in tree && PathDirectory(p) in done && (tree[p].Dir? ==> p in done || p in todo))
    && (forall d <- todo :: d !in done && IsDir(tree, d) && (d == "" || d in seen))
    && (forall d <- done :: d == "" || d in seen)
    && ("" in done || "" in todo)
    && (forall p <- tree :: PathDirectory(p) in done ==> p in seen)
  }

  function DirSet(tree: Tree, names: set<string>): set<string> { set n | n in names && n in tree && tree[n].Dir? }

  lemma ReachStep(tree: Tree, seen: set<string>, done: set<string>, todo: set<string>, d: string)
    requires Reaches(tree, seen, done, todo) && d in todo && "" !in tree
    ensures Children(tree, d) !! seen && DirSet(tree, Children(tree, d)) !! todo
    ensures Reaches(tree, seen + Children(tree, d), done + {d}, todo - {d} + DirSet(tree, Children(tree, d)))
  {
  }

  /** The walk so far, in order. */
  ghost predicate Walk(tree: Tree, seen: seq<string>, done: set<string>, todo: seq<string>) {
    AllDifferent(seen) && AllDifferent(todo) && ParentsBefore(seen) && Reaches(tree, SetOf(seen), done, SetOf(todo))
  }

  /** A directory's listing. */
  ghost predicate Listed(tree: Tree, d: string, names: seq<string>) {
    AllDifferent(names) && SetOf(names) == Children(tree, d)
  }

  lemma DifferentTogether(a: seq<string>, b: seq<string>)
    requires AllDifferent(a) && AllDifferent(b) && SetOf(a) !! SetOf(b)
    ensures AllDifferent(a + b)
  {
    forall i, j | 0 <= i < j < |a + b| ensures (a + b)[i] != (a + b)[j] {
      if i < |a| <= j { assert a[i] in SetOf(a) && b[j - |a|] in SetOf(b); }
    }
  }

  lemma WalkBefore(tree: Tree, seen: seq<string>, names: seq<string>, d: string)
    requires ParentsBefore(seen) && SetOf(names) == Children(tree, d) && (d == "" || d in seen)
    ensures ParentsBefore(seen + names)
  {
    var all := seen + names;
    forall i | 0 <= i < |all| ensures PathDirectory(all[i]) == "" || PathDirectory(all[i]) in all[..i] {
      if i < |seen| {
        assert all[..i] == seen[..i];
      } else {
        assert names[i - |seen|] in SetOf(names);
        assert all[..i] == seen + names[..i - |seen|];
      }
    }
  }

  lemma Tail(todo: seq<string>)
    requires todo != [] && AllDifferent(todo)
    ensures AllDifferent(todo[1..]) && SetOf(todo[1..]) == SetOf(todo) - {todo[0]} && todo[0] in SetOf(todo)
  {
    assert todo == [todo[0]] + todo[1..];
  }

  lemma DirsSet(tree: Tree, names: seq<string>)
    requires AllDifferent(names) && forall n <- SetOf(names) :: n in tree
    ensures SetOf(DirsOf(tree, names)) == DirSet(tree, SetOf(names)) && AllDifferent(DirsOf(tree, names))
  {
    assert forall i | 0 <= i < |names| :: names[i] in SetOf(names);
    DirsAre(tree, names);
  }

  lemma WalkStep(tree: Tree, seen: seq<string>, done: set<string>, todo: seq<string>, names: seq<string>)
    requires Walk(tree, seen, done, todo) && todo != [] && Listed(tree, todo[0], names) && "" !in tree
    ensures Walk(tree, seen + names, done + {todo[0]}, todo[1..] + DirsOf(tree, names))
    ensures SetOf(names) !! SetOf(seen)
  {
    Tail(todo);
    assert todo[0] == "" || todo[0] in SetOf(seen);
    hide ParentsBefore, AllDifferent, DirsOf, Reaches, SetOf;
    ReachStep(tree, SetOf(seen), done, SetOf(todo), todo[0]);
    DirsSet(tree, names);
    DifferentTogether(seen, names);
    DifferentTogether(todo[1..], DirsOf(tree, names));
    WalkBefore(tree, seen, names, todo[0]);
    SetOfSum(seen, names);
    SetOfSum(todo[1..], DirsOf(tree, names));
  }

  lemma {:induction false} DifferentSize(names: seq<string>)
    requires AllDifferent(names)
    ensures |SetOf(names)| == |names|
  {
    if names != [] {
      var init, last := names[..|names| - 1], names[|names| - 1];
      DifferentSize(init);
      assert SetOf(names) == SetOf(init) + {last};
    }
  }

  lemma SubsetSize(a: set<string>, b: set<string>)
    requires a <= b
    ensures |a| <= |b|
  {
    assert b == a + (b - a);
  }

  /** So the walk has a bound. */
  lemma WalkFits(tree: Tree, seen: seq<string>, done: set<string>, todo: seq<string>)
    requires Walk(tree, seen, done, todo)
    ensures |seen| <= |tree|
  {
    DifferentSize(seen);
    SubsetSize(SetOf(seen), tree.Keys);
  }

  /** With nothing pending, every node was seen: by its parent, and so on up to the root. */
  lemma {:induction false} AllSeen(tree: Tree, seen: set<string>, done: set<string>, p: string)
    requires Reaches(tree, seen, done, {}) && WellFormed(tree) && p in tree
    ensures p in seen
    decreases |p|
  {
    if PathDirectory(p) != "" { AllSeen(tree, seen, done, PathDirectory(p)); }
  }

  // ---- The archive loop ----

  /** Entry i was made of node seen[i]. */
  ghost predicate Made(tree: Tree, entries: seq<Entry>, seen: seq<string>) {
    && |entries| == |seen|
    && forall i | 0 <= i < |seen| ::
         && seen[i] in tree && entries[i].node == tree[seen[i]] && !entries[i].node.Special?
         && ArchiveRelativePath(Root + seen[i]) == Some(entries[i].path)
  }

  /** Where the walk stands, whatever the names of the nodes. */
  ghost predicate Queued(pending: seq<Pending>, todo: seq<string>, tree: Tree) {
    && |pending| == |todo|
    && forall i | 0 <= i < |todo| :: pending[i].remote == Remote(todo[i]) && (Archivable(tree) ==> pending[i].relative == todo[i])
  }

  lemma ArchivableEntry(tree: Tree, p: string)
    requires Archivable(tree) && p in tree
    ensures ArchiveRelativePath(Root + p) == Some(p)
  {
    RelativeIs(p);
  }

  lemma KeyOfRemote(p: string)
    ensures KeyOf(Remote(p)) == p
  {
    if p != "" { assert (Root + p)[|Root|..] == p; }
  }

  /** The nodes' paths are the entries' paths when no name is touched by trimming. */
  lemma MadeOf(tree: Tree, entries: seq<Entry>, seen: seq<string>)
    requires Archivable(tree) && Made(tree, entries, seen)
    ensures forall i | 0 <= i < |seen| :: entries[i].path == seen[i]
  {
    forall i | 0 <= i < |seen| ensures entries[i].path == seen[i] {
      ArchivableEntry(tree, seen[i]);
    }
  }

  function PathsOf(entries: seq<Entry>): set<string> { set i | 0 <= i < |entries| :: entries[i].path }

  lemma MorePaths(entries: seq<Entry>, entry: Entry)
    ensures PathsOf(entries + [entry]) == PathsOf(entries) + {entry.path}
  {
    var more := entries + [entry];
    forall p | p in PathsOf(entries) + {entry.path} ensures p in PathsOf(more) {
      if p in PathsOf(entries) {
        var i :| 0 <= i < |entries| && entries[i].path == p;
        assert more[i].path == p;
      } else {
        assert more[|entries|].path == p;
      }
    }
  }

  lemma AddEntry(tree: Tree, entries: seq<Entry>, seen: seq<string>, name: string, entry: Entry)
    requires Made(tree, entries, seen) && name in tree && entry.node == tree[name] && !entry.node.Special?
    requires ArchiveRelativePath(Root + name) == Some(entry.path)
    ensures Made(tree, entries + [entry], seen + [name])
    ensures PathsOf(entries + [entry]) == PathsOf(entries) + {entry.path}
  {
    MorePaths(entries, entry);
  }

  lemma AddPending(tree: Tree, pending: seq<Pending>, todo: seq<string>, name: string, relative: string)
    requires Queued(pending, todo, tree) && name != "" && (Archivable(tree) ==> relative == name)
    ensures Queued(pending + [Pending(Root + name, relative)], todo + [name], tree)
  {
  }

  lemma NextPending(tree: Tree, pending: seq<Pending>, todo: seq<string>)
    requires Queued(pending, todo, tree) && pending != []
    ensures todo != [] && Queued(pending[1..], todo[1..], tree)
    ensures pending[0].remote == Remote(todo[0]) && (Archivable(tree) ==> pending[0].relative == todo[0])
  {
  }

  lemma DirsOfMore(tree: Tree, names: seq<string>, k: nat)
    requires k < |names| && names[k] in tree
    ensures DirsOf(tree, names[..k + 1]) == DirsOf(tree, names[..k]) + (if tree[names[k]].Dir? then [names[k]] else [])
  {
    assert names[..k + 1] == names[..k] + [names[k]] && names[..k + 1][..k] == names[..k];
  }

  /** A listed child of a tree without unarchivable names passes every check. */
  lemma ChildPasses(tree: Tree, entries: seq<Entry>, before: seq<string>, names: seq<string>, k: nat, d: string, paths: set<string>)
    requires Archivable(tree) && Listed(tree, d, names) && k < |names| && AllDifferent(before + names)
    requires Made(tree, entries, before + names[..k]) && paths == PathsOf(entries)
    ensures names[k] in tree && ArchiveRelativePath(Root + names[k]) == Some(names[k]) && !tree[names[k]].Special?
    ensures PathDirectory(names[k]) == d && names[k] !in paths
  {
    assert names[k] in SetOf(names);
    ArchivableEntry(tree, names[k]);
    var seen := before + names[..k];
    MadeOf(tree, entries, seen);
    var all := before + names;
    assert all[|before| + k] == names[k] && forall i | 0 <= i < |seen| :: all[i] == seen[i];
  }

  lemma ChildMode(tree: Tree, name: string)
    requires WellFormed(tree) && name in tree
    ensures name != "" && WorkspaceMode(ProviderFileMode(tree[name].mode)) == Some(tree[name].mode)
  {
    ModeRoundTrip(tree[name].mode);
  }

  lemma WalkStarts(tree: Tree)
    requires WellFormed(tree)
    ensures Walk(tree, [], {}, [""]) && Queued([Pending(Mount, "")], [""], tree) && "" !in tree
  {
  }

  lemma NothingMade(tree: Tree)
    ensures Made(tree, [], []) && PathsOf([]) == {}
  {
  }

  lemma StartDirs(tree: Tree, names: seq<string>, rest: seq<string>)
    ensures names[..0] == [] && rest + DirsOf(tree, names[..0]) == rest
  {
  }

  lemma ListedAll(tree: Tree, d: string, names: seq<string>)
    requires (forall p :: p in names <==> p in Children(tree, d)) && forall i, j | 0 <= i < j < |names| :: names[i] != names[j]
    ensures Listed(tree, d, names)
  {
  }

  lemma WalkDifferent(tree: Tree, seen: seq<string>, done: set<string>, todo: seq<string>)
    requires Walk(tree, seen, done, todo)
    ensures AllDifferent(seen)
  {
  }

  lemma QueueLength(tree: Tree, pending: seq<Pending>, todo: seq<string>)
    requires Queued(pending, todo, tree)
    ensures |pending| == |todo|
  {
  }

  ghost predicate ReadFrom(tree: Tree, path: string) { exists q :: q in tree && TrimRight(q) == path }

  /** Every entry was made of a node, under that node's path as it reads. */
  ghost predicate Sourced(entries: seq<Entry>, tree: Tree) {
    forall i | 0 <= i < |entries| ::
      ValidPath(entries[i].path) && !entries[i].node.Special? && ReadFrom(tree, entries[i].path)
  }

  lemma EntriesAreSourced(tree: Tree, entries: seq<Entry>, seen: seq<string>)
    requires Made(tree, entries, seen)
    ensures Sourced(entries, tree)
  {
    hide ArchiveRelativePath, TrimRight, ValidPath;
    forall i | 0 <= i < |entries|
      ensures ValidPath(entries[i].path) && !entries[i].node.Special? && ReadFrom(tree, entries[i].path)
    {
      RelativeIs(seen[i]);
      assert seen[i] in tree && TrimRight(seen[i]) == entries[i].path;
    }
  }

  lemma EveryNodeListed(tree: Tree, entries: seq<Entry>, seen: seq<string>, done: set<string>, p: string)
    requires Reaches(tree, SetOf(seen), done, {}) && WellFormed(tree) && p in tree
    requires |entries| == |seen| && forall i | 0 <= i < |seen| :: entries[i].path == seen[i]
    ensures exists i | 0 <= i < |entries| :: entries[i].path == p
  {
    hide Reaches, WellFormed;
    AllSeen(tree, SetOf(seen), done, p);
    var i :| 0 <= i < |seen| && seen[i] == p;
    assert entries[i].path == p;
  }

  lemma ParentListed(entries: seq<Entry>, seen: seq<string>)
    requires ParentsBefore(seen) && |entries| == |seen| && forall i | 0 <= i < |seen| :: entries[i].path == seen[i]
    ensures ParentsFirst(entries)
  {
    hide PathDirectory;
    forall i | 0 <= i < |entries|
      ensures PathDirectory(entries[i].path) == "" || exists j | 0 <= j < i :: entries[j].path == PathDirectory(entries[i].path)
    {
      if PathDirectory(seen[i]) != "" {
        var j :| 0 <= j < i && seen[..i][j] == PathDirectory(seen[i]);
        assert entries[j].path == PathDirectory(entries[i].path);
      }
    }
  }

  /** Every path reads as one, though perhaps as another than it is. */
  ghost predicate AllReadable(tree: Tree) { forall p <- tree :: ValidPath(TrimRight(p)) }

  lemma AllWereReadable(tree: Tree, entries: seq<Entry>, seen: seq<string>, done: set<string>)
    requires Walk(tree, seen, done, []) && WellFormed(tree) && Made(tree, entries, seen)
    ensures AllReadable(tree)
  {
    assert SetOf([]) == {};
    hide Reaches, WellFormed, ArchiveRelativePath, TrimRight, ValidPath, AllDifferent, ParentsBefore;
    forall p | p in tree ensures ValidPath(TrimRight(p)) {
      AllSeen(tree, SetOf(seen), done, p);
      var i :| 0 <= i < |seen| && seen[i] == p;
      RelativeIs(p);
    }
  }

  lemma EntriesDiffer(entries: seq<Entry>, seen: seq<string>)
    requires AllDifferent(seen) && |entries| == |seen| && forall i | 0 <= i < |seen| :: entries[i].path == seen[i]
    ensures forall i, j | 0 <= i < j < |entries| :: entries[i].path != entries[j].path
  {
    forall i, j | 0 <= i < j < |entries| ensures entries[i].path != entries[j].path {
      assert seen[i] != seen[j];
    }
  }

  lemma EntriesAreNodes(tree: Tree, entries: seq<Entry>, seen: seq<string>)
    requires Made(tree, entries, seen) && forall i | 0 <= i < |seen| :: entries[i].path == seen[i]
    ensures |entries| == |seen|
    ensures forall i | 0 <= i < |entries| :: entries[i].path in tree && entries[i].node == tree[entries[i].path]
  {
    hide ArchiveRelativePath;
  }

  lemma WalkEnds(tree: Tree, entries: seq<Entry>, seen: seq<string>, done: set<string>)
    requires Walk(tree, seen, done, []) && WellFormed(tree) && Made(tree, entries, seen) && Archivable(tree)
    ensures Lists(entries, tree)
  {
    MadeOf(tree, entries, seen);
    EntriesAreNodes(tree, entries, seen);
    assert SetOf([]) == {};
    hide Archivable, Made, WellFormed, PathDirectory, Reaches, ParentsFirst, ParentsBefore, AllDifferent, SetOf, Lists;
    EntriesDiffer(entries, seen);
    ParentListed(entries, seen);
    forall p | p in tree ensures exists i | 0 <= i < |entries| :: entries[i].path == p {
      EveryNodeListed(tree, entries, seen, done, p);
    }
    ListsOf(entries, tree);
  }

  lemma ListsOf(entries: seq<Entry>, tree: Tree)
    requires forall i | 0 <= i < |entries| :: entries[i].path in tree && entries[i].node == tree[entries[i].path]
    requires forall i, j | 0 <= i < j < |entries| :: entries[i].path != entries[j].path
    requires forall p <- tree :: exists i | 0 <= i < |entries| :: entries[i].path == p
    requires ParentsFirst(entries)
    ensures Lists(entries, tree)
  {
    hide ParentsFirst;
  }

  /** The directory of that name is an entry. */
  ghost predicate Anchored(entries: seq<Entry>, d: string) {
    d == "" || exists j | 0 <= j < |entries| :: entries[j].path == d && entries[j].node.Dir?
  }

  /** Every entry's directory came before it. */
  ghost predicate DirsFirst(entries: seq<Entry>) {
    forall i | 0 <= i < |entries| :: Anchored(entries[..i], PathDirectory(entries[i].path))
  }

  ghost predicate AllAnchored(entries: seq<Entry>, pending: seq<Pending>) {
    forall i | 0 <= i < |pending| :: Anchored(entries, pending[i].relative)
  }

  lemma StaysAnchored(entries: seq<Entry>, entry: Entry, d: string)
    requires Anchored(entries, d)
    ensures Anchored(entries + [entry], d)
  {
    if d != "" {
      var j :| 0 <= j < |entries| && entries[j].path == d && entries[j].node.Dir?;
      assert (entries + [entry])[j] == entries[j];
    }
  }

  lemma OneMoreAnchored(entries: seq<Entry>, pending: seq<Pending>, entry: Entry)
    requires DirsFirst(entries) && AllAnchored(entries, pending) && Anchored(entries, PathDirectory(entry.path))
    ensures DirsFirst(entries + [entry]) && AllAnchored(entries + [entry], pending)
    ensures entry.node.Dir? ==> Anchored(entries + [entry], entry.path)
  {
    hide Anchored;
    var more := entries + [entry];
    forall i | 0 <= i < |more| ensures Anchored(more[..i], PathDirectory(more[i].path)) {
      if i < |entries| { assert more[..i] == entries[..i]; } else { assert more[..i] == entries; }
    }
    forall i | 0 <= i < |pending| ensures Anchored(more, pending[i].relative) {
      StaysAnchored(entries, entry, pending[i].relative);
    }
    if entry.node.Dir? { LastAnchors(entries, entry); }
  }

  lemma LastAnchors(entries: seq<Entry>, entry: Entry)
    requires entry.node.Dir?
    ensures Anchored(entries + [entry], entry.path)
  {
    assert (entries + [entry])[|entries|] == entry;
  }

  lemma NothingAnchored()
    ensures DirsFirst([]) && AllAnchored([], [Pending(Mount, "")])
  {
  }

  lemma FirstAnchored(entries: seq<Entry>, pending: seq<Pending>)
    requires AllAnchored(entries, pending) && pending != []
    ensures Anchored(entries, pending[0].relative) && AllAnchored(entries, pending[1..])
  {
    hide Anchored;
  }

  lemma OneMorePending(entries: seq<Entry>, pending: seq<Pending>, one: Pending)
    requires AllAnchored(entries, pending) && Anchored(entries, one.relative)
    ensures AllAnchored(entries, pending + [one])
  {
    hide Anchored;
  }

  /** Breadth first: a queue of directories, a set of the paths met, and the list of entries. */
  method Archive(sandbox: Sandbox) returns (r: Option<seq<Entry>>)
    requires WellFormed(sandbox.tree)
    ensures Archivable(sandbox.tree) ==> r.Some? && Lists(r.value, sandbox.tree)
    ensures r.Some? ==> Sourced(r.value, sandbox.tree) && AllReadable(sandbox.tree) && DirsFirst(r.value)
  {
    hide Anchored, DirsFirst, AllAnchored, Walk, WellFormed, Archivable, Made, Queued, AllReadable, Sourced, PathsOf, ArchiveRelativePath, DirsOf, ValidPath, TrimRight, Lists,
      ProviderFileMode, WorkspaceMode, AllDifferent, SetOf, KeyOf, Listed, PathDirectory;
    ghost var tree := sandbox.tree;
    var pending := [Pending(Mount, "")];
    var paths: set<string> := {};
    var entries: seq<Entry> := [];
    ghost var seen: seq<string>, done: set<string>, todo := [], {}, [""];
    WalkStarts(tree);
    NothingMade(tree);
    NothingAnchored();
    while pending != []
      invariant Walk(tree, seen, done, todo) && Made(tree, entries, seen) && Queued(pending, todo, tree)
      invariant paths == PathsOf(entries)
      invariant DirsFirst(entries) && AllAnchored(entries, pending)
      invariant |seen| <= |tree|
      decreases |tree| - |seen|, |pending|
    {
      NextPending(tree, pending, todo);
      ghost var d, before, rest := todo[0], seen, todo[1..];
      QueueLength(tree, pending, todo);
      var current := pending[0];
      FirstAnchored(entries, pending);
      pending := pending[1..];
      KeyOfRemote(d);
      var listing, names := sandbox.ListDirectory(KeyOf(current.remote));
      ListedAll(tree, d, names);
      WalkStep(tree, seen, done, todo, names);
      StartDirs(tree, names, rest);
      for k := 0 to |listing|
        invariant seen == before + names[..k] && Made(tree, entries, seen)
        invariant Queued(pending, rest + DirsOf(tree, names[..k]), tree)
        invariant paths == PathsOf(entries)
        invariant DirsFirst(entries) && AllAnchored(entries, pending) && Anchored(entries, current.relative)
      {
        var child := listing[k];
        ghost var name := names[k];
        ghost var queue := rest + DirsOf(tree, names[..k]);
        ChildMode(tree, name);
        DirsOfMore(tree, names, k);
        WalkDifferent(tree, before + names, done + {d}, rest + DirsOf(tree, names));
        if Archivable(tree) { ChildPasses(tree, entries, before, names, k, d, paths); }
        var relative := ArchiveRelativePath(child.path);
        if relative.None? { return None; }
        if PathDirectory(relative.value) != current.relative { return None; }
        if relative.value in paths { return None; }
        paths := paths + {relative.value};
        var mode := WorkspaceMode(child.mode);
        if mode.None? { return None; }
        match child.node {
          case Dir(_) =>
            AddEntry(tree, entries, seen, name, Entry(relative.value, Dir(mode.value)));
            AddPending(tree, pending, queue, name, relative.value);
            OneMoreAnchored(entries, pending, Entry(relative.value, Dir(mode.value)));
            StaysAnchored(entries, Entry(relative.value, Dir(mode.value)), current.relative);
            OneMorePending(entries + [Entry(relative.value, Dir(mode.value))], pending, Pending(child.path, relative.value));
            entries := entries + [Entry(relative.value, Dir(mode.value))];
            pending := pending + [Pending(child.path, relative.value)];
          case File(_, content) =>
            AddEntry(tree, entries, seen, name, Entry(relative.value, File(mode.value, content)));
            OneMoreAnchored(entries, pending, Entry(relative.value, File(mode.value, content)));
            StaysAnchored(entries, Entry(relative.value, File(mode.value, content)), current.relative);
            entries := entries + [Entry(relative.value, File(mode.value, content))];
          case Special(_) => return None;
        }
        seen := seen + [name];
        assert names[..k + 1] == names[..k] + [name];
        assert rest + DirsOf(tree, names[..k + 1]) == queue + (if tree[name].Dir? then [name] else []);
        assert queue + [] == queue;
      }
      assert names[..|names|] == names;
      done, todo := done + {d}, rest + DirsOf(tree, names);
      WalkFits(tree, seen, done, todo);
      QueueLength(tree, pending, todo);
      assert |seen| == |before| + |names|;
      if names == [] { StartDirs(tree, names, rest); }
    }
    QueueLength(tree, pending, todo);
    EntriesAreSourced(tree, entries, seen);
    AllWereReadable(tree, entries, seen, done);
    if Archivable(tree) { WalkEnds(tree, entries, seen, done); }
    return Some(entries);
  }
}
