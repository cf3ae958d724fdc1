/** Containment by OS identity: the climb over the lexical ancestors of a path, against what
    the kernel's own path resolution reaches. */
module PathBoundary {
  import opened Basics

  // ---- The file system and the kernel's resolution of paths ----

  /** `(st_dev, st_ino)` */
  datatype Identity = Identity(dev: nat, ino: nat)

  type Name = string

  datatype Component = Up | Named(name: Name)

  type Path = seq<Component>

  /** A directory entry leads to the object visible there: under a mount point, the mounted one. */
  datatype Node =
    | Dir(entries: map<Name, Identity>, parent: Identity, searchable: bool)
    | Symlink(absolute: bool, target: Path)
    | File

  datatype Fs = Fs(node: Identity -> Node, root: Identity)

  /** The object found and the symlinks that may still be followed, or the errno of the failure. */
  datatype Lookup = Found(id: Identity, left: nat) | NoEntry | NotDirectory | TooManyLinks | Denied

  /** How many symlinks one resolution follows. */
  const MAX_LINKS: nat := 40

  /** path_resolution(7): resolve `todo` from the object `at`; the last symlink only if `follow`. */
  function Walk(fs: Fs, at: Identity, todo: Path, follow: bool, left: nat): Lookup
    decreases left, |todo|
  {
    if todo == [] then Found(at, left)
    else if !fs.node(at).Dir? then NotDirectory
    else if !fs.node(at).searchable then Denied
    else if todo[0].Up? then Walk(fs, fs.node(at).parent, todo[1..], follow, left)
    else if todo[0].name !in fs.node(at).entries then NoEntry
    else
      var next := fs.node(at).entries[todo[0].name];
      if !fs.node(next).Symlink? || (|todo| == 1 && !follow) then Walk(fs, next, todo[1..], follow, left)
      else if left == 0 then TooManyLinks
      else Walk(fs, if fs.node(next).absolute then fs.root else at, fs.node(next).target + todo[1..], follow, left - 1)
  }

  /** `os.stat` */
  function Stat(fs: Fs, path: Path): Lookup {
    Walk(fs, fs.root, path, true, MAX_LINKS)
  }

  /** `os.lstat` */
  function Lstat(fs: Fs, path: Path): Lookup {
    Walk(fs, fs.root, path, false, MAX_LINKS)
  }

  /** What `os.path.abspath` returns: an absolute path without "..". */
  predicate Normal(path: Path) {
    forall i :: 0 <= i < |path| ==> path[i].Named?
  }

  /** The path leads, through whatever symlinks, to a directory. */
  predicate ReachesDirectory(fs: Fs, path: Path) {
    Stat(fs, path).Found? && fs.node(Stat(fs, path).id).Dir?
  }

  // ---- The functions of the source ----

  function DirectoryIdentity(fs: Fs, path: Path): Option<Identity> {
    match Stat(fs, path)
    case Found(id, _) => if fs.node(id).Dir? then Some(id) else None
    case _ => None
  }

  /** The deepest prefix of the path that is a directory, itself included. */
  method DeepestExistingAncestor(fs: Fs, path: Path) returns (ancestor: Option<Path>)
    ensures ancestor.None? ==> forall k :: 0 <= k <= |path| ==> !ReachesDirectory(fs, path[..k])
    ensures ancestor.Some? ==> ancestor.value <= path && ReachesDirectory(fs, ancestor.value)
    ensures ancestor.Some? ==> forall j :: |ancestor.value| < j <= |path| ==> !ReachesDirectory(fs, path[..j])
    // only a directory is its own deepest ancestor; the documentation says so of every path that exists
    ensures ancestor == Some(path) <==> Stat(fs, path).Found? && fs.node(Stat(fs, path).id).Dir?
  {
    var current := path;
    while true
      invariant |current| <= |path| && current == path[..|current|]
      invariant forall j :: |current| < j <= |path| ==> !ReachesDirectory(fs, path[..j])
      decreases |current|
    {
      if DirectoryIdentity(fs, current).Some? {
        return Some(current);
      }
      if current == [] {
        return None;
      }
      current := current[..|current| - 1];
    }
  }

  /** An existing file that is not its own deepest ancestor: `/f` in a root directory that holds only it. */
  lemma {:induction false} FileIsNotItsOwnAncestor() returns (fs: Fs, path: Path)
    ensures Normal(path) && Stat(fs, path).Found? && !ReachesDirectory(fs, path)
    ensures path != [] && ReachesDirectory(fs, path[..|path| - 1])
  {
    var (root, file, name) := (Identity(0, 1), Identity(0, 2), "f");
    fs := Fs((id: Identity) => if id == root then Dir(map[name := file], root, true) else File, root);
    path := [Named(name)];
    assert path[1..] == [] && path[..0] == [];
    assert Walk(fs, file, [], true, MAX_LINKS) == Found(file, MAX_LINKS);
    assert Walk(fs, root, path, true, MAX_LINKS) == Walk(fs, file, path[1..], true, MAX_LINKS);
    assert Stat(fs, path[..0]) == Found(root, MAX_LINKS);
  }

  predicate BreaksRootIdentity(fs: Fs, node: Path, root: Identity) {
    match Lstat(fs, node)
    case NoEntry => false
    case Found(id, _) => fs.node(id).Symlink? || id.dev != root.dev
    case _ => true
  }

  datatype Answer = RootIdentityError | Contained(yes: bool)

  /** The names lead down from `at` through real directories on the device `dev`; from some point
      on the rest may not exist yet. */
  predicate Descends(fs: Fs, at: Identity, names: Path, dev: nat)
    requires Normal(names)
    decreases |names|
  {
    || names == []
    || (&& fs.node(at).Dir? && fs.node(at).searchable
        && var entries := fs.node(at).entries;
           || names[0].name !in entries
           || (&& !fs.node(entries[names[0].name]).Symlink? && entries[names[0].name].dev == dev
               && Descends(fs, entries[names[0].name], names[1..], dev)))
  }

  /** Some ancestor of `path` is the root directory, and the rest descends from it. */
  ghost predicate LiesBeneath(fs: Fs, root: Identity, path: Path)
    requires Normal(path)
  {
    exists k :: 0 <= k <= |path| && LeadsTo(fs, path[..k], root) && Descends(fs, root, path[k..], root.dev)
  }

  /** `os.stat` finds this object. */
  predicate LeadsTo(fs: Fs, path: Path, id: Identity) {
    match Stat(fs, path)
    case Found(found, _) => found == id
    case _ => false
  }

  /** A root that `os.stat` does not find as a directory has no identity. Of any other one a path is contained if and
      only if `os.stat` finds the very same object at some ancestor, through symlinks or not, and the rest descends from
      it. */
  method IsContainedByRootIdentity(fs: Fs, root: Path, path: Path) returns (answer: Answer)
    requires Normal(path)
    ensures answer.RootIdentityError? <==> !(Stat(fs, root).Found? && fs.node(Stat(fs, root).id).Dir?)
    ensures answer.Contained? ==> (answer.yes <==> LiesBeneath(fs, Stat(fs, root).id, path))
  {
    var rootIdentity := DirectoryIdentity(fs, root);
    if rootIdentity.None? {
      return RootIdentityError;
    }
    var id := rootIdentity.value;
    var current := path;
    var belowRoot: seq<Path> := [];
    while true
      invariant |current| <= |path| && current == path[..|current|]
      invariant |belowRoot| == |path| - |current|
      invariant forall i :: 0 <= i < |belowRoot| ==> belowRoot[i] == path[..|path| - i]
      invariant forall j :: |current| < j <= |path| ==> !LeadsTo(fs, path[..j], id)
      decreases |current|
    {
      if DirectoryIdentity(fs, current) == Some(id) {
        var broken := false;
        for i := 0 to |belowRoot|
          invariant broken <==> exists n :: 0 <= n < i && BreaksRootIdentity(fs, belowRoot[n], id)
        {
          broken := broken || BreaksRootIdentity(fs, belowRoot[i], id);
        }
        DeepestMatchDecides(fs, id, path, |current|);
        forall j | |current| < j <= |path| ensures path[..j] == belowRoot[|path| - j] {
        }
        return Contained(!broken);
      }
      belowRoot := belowRoot + [current];
      if current == [] {
        return Contained(false);
      }
      current := current[..|current| - 1];
    }
  }

  // ---- The climb against resolution ----

  /** A path that continues past a resolved prefix goes on from the object the prefix reaches. */
  lemma {:induction false} WalkOn(fs: Fs, at: Identity, front: Path, rest: Path, follow: bool, left: nat)
    requires rest != [] && Walk(fs, at, front, true, left).Found?
    ensures var reached := Walk(fs, at, front, true, left);
      Walk(fs, at, front + rest, follow, left) == Walk(fs, reached.id, rest, follow, reached.left)
    decreases left, |front|
  {
    if front == [] {
      assert front + rest == rest;
    } else {
      var all, node := front + rest, fs.node(at);
      assert all[0] == front[0] && all[1..] == front[1..] + rest;
      if front[0].Up? {
        WalkOn(fs, node.parent, front[1..], rest, follow, left);
      } else {
        var next := node.entries[front[0].name];
        if fs.node(next).Symlink? {
          var start := if fs.node(next).absolute then fs.root else at;
          assert fs.node(next).target + (front[1..] + rest) == (fs.node(next).target + front[1..]) + rest;
          WalkOn(fs, start, fs.node(next).target + front[1..], rest, follow, left - 1);
        } else {
          WalkOn(fs, next, front[1..], rest, follow, left);
        }
      }
    }
  }

  predicate Harmless(fs: Fs, found: Lookup, dev: nat) {
    found.NoEntry? || (found.Found? && !fs.node(found.id).Symlink? && found.id.dev == dev)
  }

  /** The lookups below a name that leads to something other than a symlink are lookups from there. */
  lemma {:induction false} WalkDown(fs: Fs, at: Identity, names: Path, n: nat, follow: bool, left: nat)
    requires Normal(names) && 1 <= n <= |names|
    requires fs.node(at).Dir? && fs.node(at).searchable && names[0].name in fs.node(at).entries
    requires !fs.node(fs.node(at).entries[names[0].name]).Symlink?
    ensures Walk(fs, at, names[..n], follow, left) ==
      Walk(fs, fs.node(at).entries[names[0].name], names[1..][..n - 1], follow, left)
  {
    assert names[..n][1..] == names[1..][..n - 1];
  }

  predicate AllHarmless(fs: Fs, at: Identity, names: Path, dev: nat, left: nat) {
    forall n :: 1 <= n <= |names| ==> Harmless(fs, Walk(fs, at, names[..n], false, left), dev)
  }

  /** Descending means: no lookup on the way meets a symlink, another device, or an unexplained error. */
  lemma {:induction false} DescentByLookups(fs: Fs, at: Identity, names: Path, dev: nat, left: nat)
    requires Normal(names)
    ensures Descends(fs, at, names, dev) <==> AllHarmless(fs, at, names, dev, left)
    decreases |names|
  {
    if names != [] {
      var node := fs.node(at);
      assert names[..1] == [names[0]] && names[..1][1..] == [];
      assert AllHarmless(fs, at, names, dev, left) ==> Harmless(fs, Walk(fs, at, names[..1], false, left), dev);
      if node.Dir? && node.searchable && names[0].name in node.entries {
        var next := node.entries[names[0].name];
        assert Walk(fs, at, names[..1], false, left) == Walk(fs, next, [], false, left) == Found(next, left);
        if !fs.node(next).Symlink? {
          DescentByLookups(fs, next, names[1..], dev, left);
          forall n | 1 <= n <= |names|
            ensures Walk(fs, at, names[..n], false, left) == Walk(fs, next, names[1..][..n - 1], false, left)
          {
            WalkDown(fs, at, names, n, false, left);
          }
          StepHarmless(fs, at, next, names, dev, left);
        }
      }
    }
  }

  lemma {:induction false} StepHarmless(fs: Fs, at: Identity, next: Identity, names: Path, dev: nat, left: nat)
    requires names != []
    requires forall n :: 1 <= n <= |names| ==>
      Walk(fs, at, names[..n], false, left) == Walk(fs, next, names[1..][..n - 1], false, left)
    ensures AllHarmless(fs, at, names, dev, left) <==>
      Harmless(fs, Walk(fs, at, names[..1], false, left), dev) && AllHarmless(fs, next, names[1..], dev, left)
  {
    if AllHarmless(fs, at, names, dev, left) {
      forall m | 1 <= m <= |names| - 1 ensures Harmless(fs, Walk(fs, next, names[1..][..m], false, left), dev) {
        assert Walk(fs, at, names[..m + 1], false, left) == Walk(fs, next, names[1..][..m + 1 - 1], false, left);
      }
    }
  }

  /** Below a prefix that reaches the root, descending means that no node breaks the identity. */
  lemma {:induction false} MatchDescends(fs: Fs, id: Identity, path: Path, k: nat)
    requires Normal(path) && k <= |path| && LeadsTo(fs, path[..k], id) && fs.node(id).Dir?
    ensures Descends(fs, id, path[k..], id.dev) <==>
      forall j :: k < j <= |path| ==> !BreaksRootIdentity(fs, path[..j], id)
  {
    var (left, rest) := (Stat(fs, path[..k]).left, path[k..]);
    DescentByLookups(fs, id, rest, id.dev, left);
    forall j | k < j <= |path|
      ensures BreaksRootIdentity(fs, path[..j], id) <==> !Harmless(fs, Walk(fs, id, rest[..j - k], false, left), id.dev)
    {
      assert path[..k] + rest[..j - k] == path[..j];
      WalkOn(fs, fs.root, path[..k], rest[..j - k], false, MAX_LINKS);
    }
    if forall j :: k < j <= |path| ==> !BreaksRootIdentity(fs, path[..j], id) {
      forall n | 1 <= n <= |rest| ensures Harmless(fs, Walk(fs, id, rest[..n], false, left), id.dev) {
        assert !BreaksRootIdentity(fs, path[..k + n], id);
      }
    }
  }

  /** Looking below the deepest match only is enough. */
  lemma {:induction false} DeepestMatchDecides(fs: Fs, id: Identity, path: Path, k: nat)
    requires Normal(path) && k <= |path| && LeadsTo(fs, path[..k], id) && fs.node(id).Dir?
    requires forall j :: k < j <= |path| ==> !LeadsTo(fs, path[..j], id)
    ensures LiesBeneath(fs, id, path) <==> forall j :: k < j <= |path| ==> !BreaksRootIdentity(fs, path[..j], id)
  {
    MatchDescends(fs, id, path, k);
    if LiesBeneath(fs, id, path) {
      var m :| 0 <= m <= |path| && LeadsTo(fs, path[..m], id) && Descends(fs, id, path[m..], id.dev);
      MatchDescends(fs, id, path, m);
    }
  }

  // ---- What a positive answer means ----

  /** `x` is reached from `at` by the names, through real directory entries of one device only. */
  predicate InSubtree(fs: Fs, at: Identity, names: Path, dev: nat, x: Identity)
    requires Normal(names)
    decreases |names|
  {
    if names == [] then x == at
    else
      && fs.node(at).Dir? && names[0].name in fs.node(at).entries
      && var next := fs.node(at).entries[names[0].name];
         !fs.node(next).Symlink? && next.dev == dev && InSubtree(fs, next, names[1..], dev, x)
  }

  lemma {:induction false} DescentStays(fs: Fs, at: Identity, names: Path, dev: nat, follow: bool, left: nat)
    requires Normal(names) && Descends(fs, at, names, dev)
    ensures var found := Walk(fs, at, names, follow, left);
      found.NoEntry? || (found.Found? && InSubtree(fs, at, names, dev, found.id))
    decreases |names|
  {
    if names != [] && names[0].name in fs.node(at).entries {
      DescentStays(fs, fs.node(at).entries[names[0].name], names[1..], dev, follow, left);
    }
  }

  /** A contained path either does not exist yet, or the kernel resolves it, with every symlink followed, to an
      object of the root's own subtree on the root's own device. */
  lemma {:induction false} ContainedResolvesInside(fs: Fs, id: Identity, path: Path)
    requires Normal(path) && LiesBeneath(fs, id, path)
    ensures var found := Stat(fs, path);
      || found.NoEntry?
      || (&& found.Found?
          && exists k :: 0 <= k <= |path| && LeadsTo(fs, path[..k], id) &&
               InSubtree(fs, id, path[k..], id.dev, found.id))
  {
    var k :| 0 <= k <= |path| && LeadsTo(fs, path[..k], id) && Descends(fs, id, path[k..], id.dev);
    if k < |path| {
      assert path[..k] + path[k..] == path;
      WalkOn(fs, fs.root, path[..k], path[k..], true, MAX_LINKS);
      DescentStays(fs, id, path[k..], id.dev, true, Stat(fs, path[..k]).left);
    } else {
      assert path[..k] == path;
    }
  }

  // ---- The documented spelling ----

  /** With `ws/up` a symlink to the parent of `ws`, the path `ws/up/ws/kept.txt` is contained in `ws`: the climb stops
      at `ws/up/ws`, which is `ws` again. */
  lemma {:induction false} UpAndBackIsContained() returns (fs: Fs, root: Path, path: Path)
    ensures root == [Named("ws")] && path == [Named("ws"), Named("up"), Named("ws"), Named("kept.txt")]
    ensures Lstat(fs, path[..2]).Found? && fs.node(Lstat(fs, path[..2]).id) == Symlink(false, [Up])
    ensures Stat(fs, root).Found? && fs.node(Stat(fs, root).id).Dir? && LiesBeneath(fs, Stat(fs, root).id, path)
  {
    var (top, ws, up, kept) := (Identity(0, 1), Identity(0, 2), Identity(0, 3), Identity(0, 4));
    var node := (id: Identity) =>
      if id == top then Dir(map["ws" := ws], top, true)
      else if id == ws then Dir(map["up" := up, "kept.txt" := kept], top, true)
      else if id == up then Symlink(false, [Up])
      else File;
    fs, root := Fs(node, top), [Named("ws")];
    path := [Named("ws"), Named("up"), Named("ws"), Named("kept.txt")];
    assert root[1..] == [] && Walk(fs, ws, [], true, MAX_LINKS) == Found(ws, MAX_LINKS);
    WalkThere(fs, top, ws, up);
    assert path[..2] == [Named("ws"), Named("up")] && path[..3] == [Named("ws"), Named("up"), Named("ws")];
    assert path[3..] == [Named("kept.txt")];
    assert path[3..][1..] == [] && Descends(fs, kept, [], 0) && Descends(fs, ws, path[3..], 0);
    assert LeadsTo(fs, path[..3], ws);
  }

  lemma {:induction false} WalkThere(fs: Fs, top: Identity, ws: Identity, up: Identity)
    requires fs.root == top && fs.node(top) == Dir(map["ws" := ws], top, true)
    requires fs.node(ws).Dir? && fs.node(ws).searchable && fs.node(ws).parent == top
    requires "up" in fs.node(ws).entries && fs.node(ws).entries["up"] == up && fs.node(up) == Symlink(false, [Up])
    ensures Lstat(fs, [Named("ws"), Named("up")]) == Found(up, MAX_LINKS)
    ensures Stat(fs, [Named("ws"), Named("up"), Named("ws")]) == Found(ws, MAX_LINKS - 1)
  {
    var (two, three) := ([Named("ws"), Named("up")], [Named("ws"), Named("up"), Named("ws")]);
    assert two[1..] == [Named("up")] && two[1..][1..] == [];
    assert three[1..] == [Named("up"), Named("ws")] && three[1..][1..] == [Named("ws")];
    var back := [Up] + three[1..][1..];
    assert back[1..] == [Named("ws")] && back[1..][1..] == [];
    var left := MAX_LINKS - 1;
    assert Walk(fs, ws, [], true, left) == Found(ws, left);
    assert Walk(fs, top, back[1..], true, left) == Walk(fs, ws, [], true, left);
    assert Walk(fs, ws, back, true, left) == Walk(fs, top, back[1..], true, left);
    assert Walk(fs, ws, three[1..], true, MAX_LINKS) == Walk(fs, ws, back, true, left);
    assert Walk(fs, up, [], false, MAX_LINKS) == Found(up, MAX_LINKS);
    assert Walk(fs, ws, two[1..], false, MAX_LINKS) == Walk(fs, up, [], false, MAX_LINKS);
  }
}
