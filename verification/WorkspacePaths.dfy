/** Workspace paths and permission bits as the sandbox provider writes them. */
module WorkspacePaths {
  import opened Base

  // ---- White space ----

  /** unicode.IsSpace. */
  predicate IsSpace(c: char) {
    || c in "\t\n\U{000B}\U{000C}\r \U{0085}\U{00A0}\U{1680}\U{2028}\U{2029}\U{202F}\U{205F}\U{3000}"
    || '\U{2000}' <= c <= '\U{200A}'
  }

  function TrimLeft(s: string): string {
    if s != "" && IsSpace(s[0]) then TrimLeft(s[1..]) else s
  }

  function TrimRight(s: string): string {
    if s != "" && IsSpace(s[|s| - 1]) then TrimRight(s[..|s| - 1]) else s
  }

  function Trim(s: string): string { TrimRight(TrimLeft(s)) }

  lemma {:induction false} TrimRightTrims(s: string)
    ensures TrimRight(s) <= s && (TrimRight(s) == "" || !IsSpace(TrimRight(s)[|TrimRight(s)| - 1]))
    ensures TrimRight(TrimRight(s)) == TrimRight(s)
  {
    if s != "" && IsSpace(s[|s| - 1]) { TrimRightTrims(s[..|s| - 1]); }
  }

  lemma {:induction false} TrimLeftTrims(s: string)
    ensures |TrimLeft(s)| <= |s| && TrimLeft(s) == s[|s| - |TrimLeft(s)|..]
    ensures TrimLeft(s) == "" || !IsSpace(TrimLeft(s)[0])
  {
    if s != "" && IsSpace(s[0]) { TrimLeftTrims(s[1..]); }
  }

  /** A path is left alone by trimming exactly when it neither starts nor ends with white space. */
  lemma TrimKeeps(s: string)
    ensures Trim(s) == s <==> s == "" || (!IsSpace(s[0]) && !IsSpace(s[|s| - 1]))
    ensures Trim(s) == s ==> TrimRight(s) == s && TrimLeft(s) == s
    ensures Trim(Trim(s)) == Trim(s)
  {
    TrimLeftTrims(s);
    TrimRightTrims(TrimLeft(s));
    TrimRightTrims(s);
  }

  lemma {:induction false} TrimRightAfter(a: string, b: string)
    requires a != "" && !IsSpace(a[|a| - 1])
    ensures TrimRight(a + b) == a + TrimRight(b)
    decreases |b|
  {
    if b == "" {
      assert a + b == a;
    } else {
      assert (a + b)[|a + b| - 1] == b[|b| - 1] && (a + b)[..|a + b| - 1] == a + b[..|b| - 1];
      if IsSpace(b[|b| - 1]) { TrimRightAfter(a, b[..|b| - 1]); }
    }
  }

  // ---- Paths ----

  const Mount := "/workspace"

  const Root := "/workspace/"

  /** Everything before the last slash. */
  function PathDirectory(value: string): (d: string)
    ensures |d| <= |value| && (value != "" ==> |d| < |value|)
  {
    if value == "" then ""
    else if value[|value| - 1] == '/' then value[..|value| - 1]
    else PathDirectory(value[..|value| - 1])
  }

  function TrimPrefix(s: string, prefix: string): string {
    if prefix <= s then s[|prefix|..] else s
  }

  /** The parts between slashes. */
  function Split(s: string): (parts: seq<string>)
    ensures parts != []
  {
    if s == "" then [""]
    else
      var rest := Split(s[1..]);
      if s[0] == '/' then [""] + rest else [[s[0]] + rest[0]] + rest[1..]
  }

  function Joined(parts: seq<string>): string {
    if parts == [] then "" else if |parts| == 1 then parts[0] else parts[0] + "/" + Joined(parts[1..])
  }

  /** The parts are what stands between the slashes: joined by slashes they are the path, and none has one in it. */
  lemma {:induction false} SplitIsJoined(s: string)
    ensures Joined(Split(s)) == s && forall part <- Split(s) :: '/' !in part
  {
    if s != "" {
      var rest := Split(s[1..]);
      SplitIsJoined(s[1..]);
      assert s == [s[0]] + s[1..] && rest[0] in rest;
      if s[0] == '/' {
        assert ([""] + rest)[1..] == rest;
        assert Joined([""] + rest) == "" + "/" + Joined(rest);
      } else {
        var parts := [[s[0]] + rest[0]] + rest[1..];
        assert parts[1..] == rest[1..];
        assert Joined(parts) == [s[0]] + Joined(rest);
        assert forall part <- rest[1..] :: part in rest;
      }
    }
  }

  lemma {:induction false} SplitAtSlash(part: string, rest: string)
    requires '/' !in part
    ensures Split(part) == [part] && Split(part + "/" + rest) == [part] + Split(rest)
    decreases |part|
  {
    var s := part + "/" + rest;
    if part == "" {
      assert s[1..] == rest;
    } else {
      assert part[0] in part && forall c <- part[1..] :: c in part;
      SplitAtSlash(part[1..], rest);
      assert s[1..] == part[1..] + "/" + rest && [part[0]] + part[1..] == part;
    }
  }

  /** And parts without slashes, joined by slashes, are split into themselves. */
  lemma {:induction false} JoinedIsSplit(parts: seq<string>)
    requires parts != [] && forall part <- parts :: '/' !in part
    ensures Split(Joined(parts)) == parts
  {
    SplitAtSlash(parts[0], if |parts| > 1 then Joined(parts[1..]) else "");
    if |parts| > 1 { JoinedIsSplit(parts[1..]); }
  }

  /** The directory of a path is what stands before its last slash. */
  lemma {:induction false} DirectoryAndName(directory: string, name: string)
    requires '/' !in name
    ensures PathDirectory(directory + "/" + name) == directory && PathDirectory(name) == ""
    decreases |name|
  {
    var path := directory + "/" + name;
    if name == "" {
      assert path[..|path| - 1] == directory;
    } else {
      var shorter := name[..|name| - 1];
      assert name[|name| - 1] in name && forall c <- shorter :: c in name;
      DirectoryAndName(directory, shorter);
      assert path[|path| - 1] == name[|name| - 1] && path[..|path| - 1] == directory + "/" + shorter;
    }
  }

  predicate ValidPath(path: string) {
    var p := TrimPrefix(Trim(path), "./");
    && p != "" && p[0] != '/' && '\\' !in p
    && forall part <- Split(p) :: part != "" && part != "." && part != ".."
  }

  /** The path below the mount the provider means, unless it means none. */
  function ArchiveRelativePath(remote: string): Option<string> {
    var r := Trim(remote);
    if !(Root <= r) then None
    else if ValidPath(r[|Root|..]) then Some(r[|Root|..]) else None
  }

  /** Where the provider is told to put a path. */
  function WorkspacePath(path: string): string {
    var p := TrimPrefix(Trim(path), "./");
    if p == "" || p == "." then Mount else Root + TrimLeftSlashes(p)
  }

  function TrimLeftSlashes(s: string): string {
    if s != "" && s[0] == '/' then TrimLeftSlashes(s[1..]) else s
  }

  /** What the provider calls the node at a path of the tree. */
  function Remote(p: string): string { if p == "" then Mount else Root + p }

  /** Trailing white space is lost when a path is read back. */
  lemma RelativeIs(p: string)
    ensures ArchiveRelativePath(Root + p) == if ValidPath(TrimRight(p)) then Some(TrimRight(p)) else None
  {
    assert (Root + p)[0] == '/';
    assert TrimLeft(Root + p) == Root + p;
    TrimRightAfter(Root, p);
    assert (Root + TrimRight(p))[|Root|..] == TrimRight(p);
  }

  // ---- Permission bits ----

  /** Decimal digits that read as the octal mode. */
  function ProviderFileMode(mode: int): int {
    var m := mode % 512;
    (m / 64) % 8 * 100 + (m / 8) % 8 * 10 + m % 8
  }

  function WorkspaceMode(value: int): Option<int> {
    if value < 0 || value > 777 then None
    else
      var owner, group, other := value / 100, (value / 10) % 10, value % 10;
      if owner > 7 || group > 7 || other > 7 then None else Some(owner * 64 + group * 8 + other)
  }

  lemma Decimal(o: nat, g: nat, u: nat)
    requires o <= 7 && g <= 7 && u <= 7
    ensures var v := o * 100 + g * 10 + u; v / 100 == o && (v / 10) % 10 == g && v % 10 == u
  {
    var v := o * 100 + g * 10 + u;
    assert v / 10 == o * 10 + g;
  }

  lemma Octal(o: nat, g: nat, u: nat)
    requires o <= 7 && g <= 7 && u <= 7
    ensures var m := o * 64 + g * 8 + u; m % 512 == m && m / 64 == o && (m / 8) % 8 == g && m % 8 == u
  {
    var m := o * 64 + g * 8 + u;
    assert m / 8 == o * 8 + g;
  }

  lemma OctalDigits(mode: nat) returns (o: nat, g: nat, u: nat)
    requires mode < 512
    ensures o <= 7 && g <= 7 && u <= 7 && mode == o * 64 + g * 8 + u
  {
    o, g, u := mode / 64, (mode % 64) / 8, mode % 8;
    assert mode % 64 % 8 == mode % 8;
  }

  lemma ModeOf(o: nat, g: nat, u: nat)
    requires o <= 7 && g <= 7 && u <= 7
    ensures ProviderFileMode(o * 64 + g * 8 + u) == o * 100 + g * 10 + u
    ensures WorkspaceMode(o * 100 + g * 10 + u) == Some(o * 64 + g * 8 + u)
  {
    Octal(o, g, u);
    Decimal(o, g, u);
    assert o % 8 == o;
  }

  /** Writing permission bits and reading them back gives the same bits, for all of them. */
  lemma ModeRoundTrip(mode: nat)
    requires mode < 512
    ensures WorkspaceMode(ProviderFileMode(mode)) == Some(mode)
  {
    hide ProviderFileMode, WorkspaceMode;
    var o, g, u := OctalDigits(mode);
    ModeOf(o, g, u);
  }

  /** Every number that reads as a mode is the one that mode is written as. */
  lemma ModeInverse(value: int)
    requires WorkspaceMode(value).Some?
    ensures 0 <= WorkspaceMode(value).value < 512 && ProviderFileMode(WorkspaceMode(value).value) == value
  {
    var o, g, u := value / 100, (value / 10) % 10, value % 10;
    assert value == o * 100 + g * 10 + u by { assert value / 10 == o * 10 + g; }
    ModeOf(o, g, u);
  }
}
