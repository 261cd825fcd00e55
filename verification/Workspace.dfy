/** File operations on a pooled sandbox are confined to its own directory of the shared VM.
    The code decides with a string test on a cleaned path; here that test is shown to be
    the component-wise containment it stands for. */
module Workspace {

  import opened Text

  /** `remote` answers isRemoteOwnedSandbox, `vmID` is empty for a dedicated VM. */
  datatype Sandbox = Sandbox(id: string, vmID: string, remote: bool)

  datatype Scoped = Accepted(path: string) | PathRequired | Escapes

  predicate IsName(c: string) { c != "" && c != "." && c != ".." }

  /** One path component entered from a directory; the root is its own parent. */
  function Enter(dir: seq<string>, c: string): seq<string> {
    if c == "" || c == "." then dir
    else if c == ".." then if dir == [] then [] else dir[..|dir| - 1]
    else dir + [c]
  }

  function Walk(dir: seq<string>, parts: seq<string>): seq<string>
    decreases |parts|
  {
    if parts == [] then dir else Walk(Enter(dir, parts[0]), parts[1..])
  }

  /** The lexical normal form of a rooted path, as a list of names. */
  function Normal(path: string): seq<string> { Walk([], Split(path, '/')) }

  function Rooted(names: seq<string>): string { "/" + Join(names, '/') }

  /** `filepath.Clean` on a rooted path. */
  function Clean(path: string): string
    requires path != "" && path[0] == '/'
  {
    Rooted(Normal(path))
  }

  function Base(id: string): string { "/workspace/" + id }

  /** `filepath.Join` of two non-empty elements. */
  function JoinPath(base: string, path: string): string
    requires base != "" && base[0] == '/'
  {
    Clean(base + "/" + path)
  }

  predicate Inside(cleaned: string, base: string) {
    base + "/" <= cleaned || cleaned == base
  }

  function ScopedPathForOperation(sb: Sandbox, path: string): Scoped {
    if TrimSpace(path) == "" then PathRequired
    else if sb.vmID == "" || sb.remote then Accepted(path)
    else
      var base := Base(sb.id);
      var cleaned := Clean(JoinPath(base, path));
      if !Inside(cleaned, base) then Escapes else Accepted(cleaned)
  }

  /** The variant that falls back to the workspace instead of failing. */
  function ScopedPath(sb: Sandbox, path: string): string {
    if sb.vmID == "" || sb.remote then path
    else
      var base := Base(sb.id);
      var cleaned := Clean(if path == "" then Clean(base) else JoinPath(base, path));
      if !Inside(cleaned, base) then base else cleaned
  }

  // Normal forms

  ghost predicate Names(dir: seq<string>) {
    AllFree(dir, '/') && forall i :: 0 <= i < |dir| ==> IsName(dir[i])
  }

  lemma {:induction false} WalkNames(dir: seq<string>, parts: seq<string>)
    requires Names(dir) && AllFree(parts, '/')
    ensures Names(Walk(dir, parts))
    decreases |parts|
  {
    if parts != [] {
      assert Free(parts[0], '/');
      forall i | 0 <= i < |parts[1..]| ensures Free(parts[1..][i], '/') {
        assert parts[1..][i] == parts[i + 1];
      }
      WalkNames(Enter(dir, parts[0]), parts[1..]);
    }
  }

  lemma NormalNames(path: string)
    ensures Names(Normal(path))
  {
    SplitFree(path, '/');
    WalkNames([], Split(path, '/'));
  }

  /** A list of proper names is walked as it stands. */
  lemma {:induction false} WalkThrough(dir: seq<string>, names: seq<string>)
    requires forall i :: 0 <= i < |names| ==> IsName(names[i])
    ensures Walk(dir, names) == dir + names
    decreases |names|
  {
    if names != [] {
      WalkThrough(dir + [names[0]], names[1..]);
      assert dir + names == dir + [names[0]] + names[1..];
    }
  }

  lemma {:induction false} WalkConcat(dir: seq<string>, a: seq<string>, b: seq<string>)
    ensures Walk(dir, a + b) == Walk(Walk(dir, a), b)
    decreases |a|
  {
    if a == [] {
      assert a + b == b;
    } else {
      assert (a + b)[1..] == a[1..] + b;
      WalkConcat(Enter(dir, a[0]), a[1..], b);
    }
  }

  lemma NormalOfRooted(names: seq<string>)
    requires Names(names)
    ensures Normal(Rooted(names)) == names
  {
    var rest := Join(names, '/');
    assert ("/" + rest)[1..] == rest;
    if names == [] {
      assert Split("/", '/') == ["", ""];
      assert Walk([], ["", ""]) == Walk([], [""]);
    } else {
      SplitJoin(names, '/');
      assert Split("/" + rest, '/') == [""] + names;
      assert ([""] + names)[1..] == names;
      WalkThrough([], names);
      assert [] + names == names;
    }
  }

  /** Cleaning a clean path changes nothing, so the second Clean is idle. */
  lemma CleanIsIdempotent(path: string)
    requires path != "" && path[0] == '/'
    ensures Clean(Clean(path)) == Clean(path)
  {
    NormalNames(path);
    NormalOfRooted(Normal(path));
  }

  // The string test

  function BaseNames(id: string): seq<string> { ["workspace"] + Split(id, '/') }

  lemma BaseIsRooted(id: string)
    ensures Base(id) == Rooted(BaseNames(id))
    ensures AllFree(BaseNames(id), '/')
  {
    JoinSplit(id, '/');
    SplitFree(id, '/');
    JoinConcat(["workspace"], Split(id, '/'), '/');
    assert Rooted(BaseNames(id)) == "/" + ("workspace" + "/" + id);
  }

  /** The test on strings, trailing slash included, is the prefix test on components. */
  lemma InsideMeansPrefix(b: seq<string>, n: seq<string>)
    requires |b| >= 2 && AllFree(b, '/') && AllFree(n, '/')
    ensures Inside(Rooted(n), Rooted(b)) <==> b <= n
  {
    var bs, ns := Join(b, '/'), Join(n, '/');
    assert Rooted(b) == "/" + bs && Rooted(n) == "/" + ns;
    assert bs != "" by { JoinConcat(b[..1], b[1..], '/'); assert b == b[..1] + b[1..]; }
    if b <= n {
      if b != n {
        assert n == b + n[|b|..];
        JoinConcat(b, n[|b|..], '/');
        assert Rooted(n) == Rooted(b) + "/" + Join(n[|b|..], '/');
      }
    } else if ns == bs {
      SplitJoin(b, '/');
      SplitJoin(n, '/');
    } else if Rooted(b) + "/" <= Rooted(n) {
      var tail := Rooted(n)[|bs| + 2..];
      assert Rooted(n) == Rooted(b) + "/" + tail;
      assert ns == Rooted(n)[1..] == bs + "/" + tail;
      SplitAfter(bs, tail, '/');
      SplitJoin(b, '/');
      SplitJoin(n, '/');
    } else {
      assert Rooted(n)[1..] == ns && Rooted(b)[1..] == bs;
    }
  }

  // Main results

  /** A path on a pooled sandbox is accepted exactly when its normal form lies under the
      workspace, component by component, and what is handed on is that normal form. */
  lemma AcceptedIffUnderWorkspace(sb: Sandbox, path: string)
    requires sb.vmID != "" && !sb.remote && TrimSpace(path) != ""
    ensures var target := Normal(Base(sb.id) + "/" + path);
            ScopedPathForOperation(sb, path)
            == if BaseNames(sb.id) <= target then Accepted(Rooted(target)) else Escapes
    ensures var r := ScopedPathForOperation(sb, path);
            r.Accepted? ==> Clean(r.path) == r.path
  {
    var joined := Base(sb.id) + "/" + path;
    CleanIsIdempotent(joined);
    NormalNames(joined);
    BaseIsRooted(sb.id);
    InsideMeansPrefix(BaseNames(sb.id), Normal(joined));
  }

  predicate PlainId(id: string) { '/' !in id && IsName(id) }

  lemma SplitBase(id: string)
    requires PlainId(id)
    ensures BaseNames(id) == ["workspace", id]
    ensures Split(Base(id), '/') == ["", "workspace", id]
  {
    SplitOfFree(id, '/');
    BaseIsRooted(id);
    SplitJoin(["workspace", id], '/');
    var rest := Join(["workspace", id], '/');
    assert ("/" + rest)[1..] == rest;
  }

  /** For an id that is one proper name the target is found by walking from the workspace;
      leading slashes of the path mean nothing. */
  lemma WalkedFromWorkspace(id: string, path: string)
    requires PlainId(id)
    ensures BaseNames(id) == ["workspace", id]
    ensures Normal(Base(id) + "/" + path) == Walk(["workspace", id], Split(path, '/'))
  {
    SplitBase(id);
    SplitAfter(Base(id), path, '/');
    WalkConcat([], Split(Base(id), '/'), Split(path, '/'));
    WalkFromRoot("workspace", id);
  }

  lemma WalkFromRoot(a: string, b: string)
    requires IsName(a) && IsName(b)
    ensures Walk([], ["", a, b]) == [a, b]
  {
    assert ["", a, b][1..] == [a, b];
    assert Walk([], ["", a, b]) == Walk([], [a, b]);
    WalkThrough([], [a, b]);
    assert [] + [a, b] == [a, b];
  }

  lemma {:induction false} WalkWithoutParents(dir: seq<string>, parts: seq<string>)
    requires ".." !in parts
    ensures dir <= Walk(dir, parts)
    decreases |parts|
  {
    if parts != [] {
      assert parts[0] in parts;
      WalkWithoutParents(Enter(dir, parts[0]), parts[1..]);
    }
  }

  /** Only `..` can make a path escape. */
  lemma WithoutParentsAccepted(sb: Sandbox, path: string)
    requires sb.vmID != "" && !sb.remote && PlainId(sb.id)
    requires TrimSpace(path) != "" && ".." !in Split(path, '/')
    ensures ScopedPathForOperation(sb, path).Accepted?
  {
    AcceptedIffUnderWorkspace(sb, path);
    WalkedFromWorkspace(sb.id, path);
    WalkWithoutParents(["workspace", sb.id], Split(path, '/'));
  }

  /** Two sandboxes on one VM never reach the same file, nor a file below the other's. */
  lemma WorkspacesAreDisjoint(a: Sandbox, p: string, b: Sandbox, q: string)
    requires a.vmID != "" && !a.remote && b.vmID != "" && !b.remote
    requires '/' !in a.id && '/' !in b.id && a.id != b.id
    requires ScopedPathForOperation(a, p).Accepted? && ScopedPathForOperation(b, q).Accepted?
    ensures var x, y := ScopedPathForOperation(a, p).path, ScopedPathForOperation(b, q).path;
            !Inside(x, y) && !Inside(y, x)
  {
    AcceptedIffUnderWorkspace(a, p);
    AcceptedIffUnderWorkspace(b, q);
    SplitOfFree(a.id, '/');
    SplitOfFree(b.id, '/');
    var m, n := Normal(Base(a.id) + "/" + p), Normal(Base(b.id) + "/" + q);
    assert m[1] == BaseNames(a.id)[1] == a.id;
    assert n[1] == BaseNames(b.id)[1] == b.id;
    NormalNames(Base(a.id) + "/" + p);
    NormalNames(Base(b.id) + "/" + q);
    InsideMeansPrefix(m, n);
    InsideMeansPrefix(n, m);
  }

  /** The fallback variant is confined for every path, blank and escaping ones included. */
  lemma ScopedPathIsConfined(sb: Sandbox, path: string)
    requires sb.vmID != "" && !sb.remote && PlainId(sb.id)
    ensures ["workspace", sb.id] <= Normal(ScopedPath(sb, path))
    ensures Clean(ScopedPath(sb, path)) == ScopedPath(sb, path)
  {
    var base := Base(sb.id);
    var joined := if path == "" then base else base + "/" + path;
    BaseIsRooted(sb.id);
    WalkedFromWorkspace(sb.id, path);
    NormalOfRooted(BaseNames(sb.id));
    CleanIsIdempotent(joined);
    NormalNames(joined);
    NormalOfRooted(Normal(joined));
    InsideMeansPrefix(BaseNames(sb.id), Normal(joined));
  }

  // What single components do

  lemma NormalGrows(path: string, c: string)
    requires Free(c, '/')
    ensures Normal(path + "/" + c) == Enter(Normal(path), c)
  {
    SplitAfter(path, c, '/');
    SplitOfFree(c, '/');
    WalkConcat([], Split(path, '/'), [c]);
    assert [c][1..] == [];
  }

  /** A proper name is entered; `..` after it leads back; at the root it leads nowhere; blank
      components and `.` mean nothing. Every path is built from the empty one this way. */
  lemma NameEntersParentLeaves(path: string, c: string)
    requires '/' !in c && c != "" && c != "." && c != ".."
    ensures Normal(path + "/" + c) == Normal(path) + [c]
    ensures Normal(path + "/" + c + "/" + "..") == Normal(path)
    ensures Normal("") == [] && Normal("/" + "..") == []
    ensures Normal(path + "/" + ".") == Normal(path) && Normal(path + "/" + "") == Normal(path)
  {
    NormalGrows(path, c);
    NormalGrows(path + "/" + c, "..");
    NormalGrows("", "..");
    assert "" + "/" + ".." == "/" + "..";
    assert [""][1..] == [];
    NormalGrows(path, ".");
    NormalGrows(path, "");
    assert (Normal(path) + [c])[..|Normal(path)|] == Normal(path);
  }

  /** As many `..` as given. */
  function Ups(k: nat): seq<string> { if k == 0 then [] else [".."] + Ups(k - 1) }

  lemma {:induction false} WalkUp(dir: seq<string>, k: nat)
    ensures Walk(dir, Ups(k)) == if k <= |dir| then dir[..|dir| - k] else []
  {
    if k > 0 {
      var parent := Enter(dir, "..");
      assert Ups(k)[1..] == Ups(k - 1);
      WalkUp(parent, k - 1);
    }
  }

  lemma {:induction false} UpsFree(k: nat)
    ensures AllFree(Ups(k), '/')
  {
    if k > 0 {
      UpsFree(k - 1);
      forall i | 0 <= i < |Ups(k)| ensures Free(Ups(k)[i], '/') {
        assert i > 0 ==> Ups(k)[i] == Ups(k - 1)[i - 1];
      }
    }
  }

  lemma FreeConcat(x: seq<string>, y: seq<string>)
    requires AllFree(x, '/') && AllFree(y, '/')
    ensures AllFree(x + y, '/')
  {
    forall i | 0 <= i < |x + y| ensures Free((x + y)[i], '/') {
      assert i >= |x| ==> (x + y)[i] == y[i - |x|];
    }
  }

  lemma Shorten(base: seq<string>, names: seq<string>, k: nat)
    requires k <= |base| + |names|
    ensures (base + names)[..|base + names| - k]
         == if k <= |names| then base + names[..|names| - k] else base[..|base| + |names| - k]
  {
  }

  /** Where names and then k times `..` lead from a directory. */
  function Left(base: seq<string>, names: seq<string>, k: nat): seq<string> {
    if k <= |names| then base + names[..|names| - k]
    else if k <= |base| + |names| then base[..|base| + |names| - k]
    else []
  }

  lemma WalkNamesThenUps(base: seq<string>, names: seq<string>, k: nat)
    requires Names(names)
    ensures Walk(base, names + Ups(k)) == Left(base, names, k)
  {
    WalkConcat(base, names, Ups(k));
    WalkThrough(base, names);
    WalkUp(base + names, k);
    if k <= |base| + |names| {
      Shorten(base, names, k);
    }
  }

  lemma NamesThenUps(id: string, names: seq<string>, k: nat)
    requires PlainId(id) && Names(names) && names + Ups(k) != []
    ensures Normal(Base(id) + "/" + Join(names + Ups(k), '/')) == Left(["workspace", id], names, k)
  {
    var parts := names + Ups(k);
    UpsFree(k);
    FreeConcat(names, Ups(k));
    SplitJoin(parts, '/');
    WalkedFromWorkspace(id, Join(parts, '/'));
    WalkNamesThenUps(["workspace", id], names, k);
  }

  /** A path of names followed by `..` escapes exactly when there are more `..` than names;
      otherwise it stands for the names that are left, under the workspace. */
  lemma EscapesIffMoreUpsThanNames(sb: Sandbox, names: seq<string>, k: nat)
    requires sb.vmID != "" && !sb.remote && PlainId(sb.id) && Names(names)
    requires names + Ups(k) != [] && TrimSpace(Join(names + Ups(k), '/')) != ""
    ensures ScopedPathForOperation(sb, Join(names + Ups(k), '/'))
         == if k > |names| then Escapes
            else Accepted("/" + Join(["workspace", sb.id] + names[..|names| - k], '/'))
  {
    var path := Join(names + Ups(k), '/');
    AcceptedIffUnderWorkspace(sb, path);
    WalkedFromWorkspace(sb.id, path);
    NamesThenUps(sb.id, names, k);
  }

  /** A neighbour's workspace is out of reach, and so is the directory of all workspaces. */
  lemma NeighbourIsOutOfReach(sb: Sandbox, name: string)
    requires sb.vmID != "" && !sb.remote && PlainId(sb.id)
    requires '/' !in name && name != "" && name != "." && name != ".." && name != sb.id
    ensures ScopedPathForOperation(sb, ".." + "/" + name) == Escapes
    ensures ScopedPathForOperation(sb, "..") == Escapes
  {
    var path := ".." + "/" + name;
    assert path[0] == '.' && path != "" && !IsSpace('.');
    NotBlank(path);
    NotBlank("..");
    AcceptedIffUnderWorkspace(sb, path);
    AcceptedIffUnderWorkspace(sb, "..");
    WalkedFromWorkspace(sb.id, path);
    WalkedFromWorkspace(sb.id, "..");
    SplitAfter("..", name, '/');
    SplitOfFree("..", '/');
    SplitOfFree(name, '/');
    WalkConcat(["workspace", sb.id], [".."], [name]);
    assert [".."][1..] == [] && [name][1..] == [];
    assert ["workspace", sb.id][..1] == ["workspace"];
  }

  lemma NotBlank(s: string)
    requires s != "" && !IsSpace(s[0])
    ensures TrimSpace(s) != ""
  {
    TrimSpaceIsEmptyIff(s);
    assert s[0] in s;
  }

  /** Blank paths are refused; on a VM of its own or a remote worker any other path is passed
      on as it is. */
  lemma OnlyPooledPathsAreScoped(sb: Sandbox, path: string)
    ensures ScopedPathForOperation(sb, path) == PathRequired <==> forall c :: c in path ==> IsSpace(c)
    ensures (sb.vmID == "" || sb.remote) && (exists c :: c in path && !IsSpace(c)) ==>
              ScopedPathForOperation(sb, path) == Accepted(path)
    ensures sb.vmID == "" || sb.remote ==> ScopedPath(sb, path) == path
  {
    TrimSpaceIsEmptyIff(path);
  }

  /** The fallback variant yields what is accepted, and the workspace for what escapes. */
  lemma ScopedPathFallsBack(sb: Sandbox, path: string)
    requires sb.vmID != "" && !sb.remote && TrimSpace(path) != ""
    ensures match ScopedPathForOperation(sb, path)
            case Accepted(p) => ScopedPath(sb, path) == p
            case _ => ScopedPath(sb, path) == "/workspace/" + sb.id
  {
    assert path != "";
  }
}
