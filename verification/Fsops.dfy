/** The chain's durability and no-overwrite primitives, on a disk that can lose power between
    any two system calls. */
module Fsops {
  import opened Basics
  import opened CrashDisk

  datatype Error = SyncError | PathError | IntegrityError | FileExists | OSError

  datatype Result = Done | Raised(error: Error)

  const ATOMIC_TEMP_PREFIX: Name := ".atomic-"
  const EVENT_TEMP_PREFIX: Name := ".event-"

  // ---- Histories ----

  /** The disk went from the end of one trace to the end of the other through states satisfying `p`. */
  ghost predicate Through(before: seq<State>, after: seq<State>, p: State -> bool) {
    before <= after && forall i :: |before| <= i < |after| ==> p(after[i])
  }

  lemma {:induction false} ThroughOne(before: seq<State>, s: State, p: State -> bool)
    requires p(s)
    ensures Through(before, before + [s], p)
  {
  }

  lemma {:induction false} ThroughBoth(a: seq<State>, b: seq<State>, c: seq<State>, p: State -> bool)
    requires Through(a, b, p) && Through(b, c, p)
    ensures Through(a, c, p)
  {
  }

  lemma {:induction false} ThroughWeaker(a: seq<State>, b: seq<State>, p: State -> bool, q: State -> bool)
    requires Through(a, b, p) && forall s :: p(s) ==> q(s)
    ensures Through(a, b, q)
  {
  }

  // ---- write_all and fsync_dir ----

  /** Nothing but the contents of the file `ino` may differ. */
  ghost predicate OnlyFile(s0: State, s: State, ino: nat) {
    && s.current == s0.current && s.possible == s0.possible && s.next == s0.next
    && (forall i: nat :: i != ino ==> s.file(i) == s0.file(i))
    && s.names == s0.names && s.together == s0.together
  }

  /** Nothing but the contents of the file may differ, and they are not synced if they do. */
  ghost predicate Filling(s0: State, s: State, ino: nat) {
    OnlyFile(s0, s, ino) && (s.file(ino).clean ==> s.file(ino) == s0.file(ino))
  }

  /** Writes every byte although `os.write` may take fewer than it is given; a failure leaves a beginning. */
  method WriteAll(disk: Disk, ino: nat, payload: seq<byte>) returns (e: Option<Errno>)
    requires Valid(disk.s)
    modifies disk
    ensures Valid(disk.s) && Filling(old(disk.s), disk.s, ino)
    ensures Through(old(disk.trace), disk.trace, s => Filling(old(disk.s), s, ino))
    ensures exists n :: 0 <= n <= |payload| && disk.s.file(ino).data == old(disk.s).file(ino).data + payload[..n]
    ensures e.None? ==> disk.s.file(ino).data == old(disk.s).file(ino).data + payload
    ensures disk.fine ==> old(disk.fine) && e.None?
  {
    var view := payload;
    ghost var done := 0;
    assert payload[..0] == [];
    while view != []
      invariant Valid(disk.s) && Filling(old(disk.s), disk.s, ino) && (disk.fine ==> old(disk.fine))
      invariant 0 <= done <= |payload| && view == payload[done..]
      invariant disk.s.file(ino).data == old(disk.s).file(ino).data + payload[..done]
      invariant Through(old(disk.trace), disk.trace, s => Filling(old(disk.s), s, ino))
      decreases |view|
    {
      var error, written := disk.Write(ino, view);
      if error.Some? {
        return error;
      }
      assert payload[..done] + view[..written] == payload[..done + written];
      view := view[written..];
      done := done + written;
    }
    assert payload[..done] == payload;
    return None;
  }

  method FsyncDir(disk: Disk, dir: Path) returns (r: Result)
    requires Valid(disk.s)
    modifies disk
    ensures Valid(disk.s) && disk.trace == old(disk.trace) + [disk.s]
    ensures r == Done || r == Raised(SyncError)
    ensures disk.s == if r == Done then Synced(old(disk.s), dir) else old(disk.s)
    ensures disk.fine ==> old(disk.fine) && r == Done
  {
    var e := disk.SyncEntries(dir);
    r := if e.Some? then Raised(SyncError) else Done;
  }

  // ---- mkdir_all_sync ----

  predicate SameEntry(s0: State, s: State, p: Path) {
    s.current(p) == s0.current(p) && s.possible(p) == s0.possible(p)
  }

  /** A directory came to be at `p`, durable or not yet. */
  predicate MadeDir(s0: State, s: State, p: Path) {
    && s0.current(p) == Absent && s.current(p) == DirEntry
    && (s.possible(p) == {DirEntry} || s.possible(p) == s0.possible(p) + {DirEntry})
  }

  /** On the way to `dir` only directories were made, below it and in the files nothing changed, and elsewhere entries
      at most became durable. */
  ghost predicate Grown(s0: State, s: State, dir: Path) {
    && s.file == s0.file && s.next == s0.next && Calm(s0, s, iset{})
    && (forall p :: !AtOrAbove(p, dir) ==> s.current(p) == s0.current(p))
    && (forall p :: Above(dir, p) ==> SameEntry(s0, s, p))
    && (forall p :: AtOrAbove(p, dir) ==> SameEntry(s0, s, p) || MadeDir(s0, s, p))
  }

  /** `dir` is a directory, and whichever of its ancestors did not exist before is durable. */
  ghost predicate DirReady(s0: State, s: State, dir: Path) {
    forall p :: AtOrAbove(p, dir) ==>
      && s.current(p) == DirEntry
      && (SameEntry(s0, s, p) || (s0.current(p) == Absent && s.possible(p) == {DirEntry}))
  }

  /** Nothing but directories is on the way. */
  ghost predicate Climbable(s: State, path: Path) {
    forall a :: AtOrAbove(a, path) ==> s.current(a) == DirEntry || s.current(a) == Absent
  }

  method MkdirAllSync(disk: Disk, path: Path) returns (r: Result)
    requires Valid(disk.s)
    modifies disk
    ensures Valid(disk.s) && Grown(old(disk.s), disk.s, path)
    ensures Through(old(disk.trace), disk.trace, s => Grown(old(disk.s), s, path))
    ensures r == Done ==> DirReady(old(disk.s), disk.s, path)
    ensures old(disk.s).current(path) == DirEntry ==> disk.s == old(disk.s)
    ensures disk.fine ==> old(disk.fine)
    ensures disk.fine && Climbable(old(disk.s), path) ==> r == Done
    decreases |path|
  {
    if path == [] {
      assert old(disk.s).current([]) in old(disk.s).possible([]);
      return Done;
    }
    ghost var s0, t0 := disk.s, disk.trace;
    var parent := Parent(path);
    r := MkdirAllSync(disk, parent);
    ghost var s1, t1 := disk.s, disk.trace;
    if s0.current(path) == DirEntry {
      DirsAbove(s0, path, parent);
    }
    forall s | Grown(s0, s, parent) ensures Grown(s0, s, path) {
      GrownDeeper(s0, s, path);
    }
    ThroughWeaker(t0, t1, s => Grown(s0, s, parent), s => Grown(s0, s, path));
    if r != Done {
      return;
    }
    var e := disk.Mkdir(path);
    ghost var s2, t2 := disk.s, disk.trace;
    if e.None? {
      GrownByMkdir(s0, s1, path);
    }
    ThroughOne(t1, s2, s => Grown(s0, s, path));
    ThroughBoth(t0, t1, t2, s => Grown(s0, s, path));
    if e == Some(EEXIST) {
      if !disk.s.current(path).DirEntry? {
        return Raised(PathError);
      }
      ReadyDeeper(s0, disk.s, path);
      return Done;
    }
    if e.Some? {
      return Raised(OSError);
    }
    r := FsyncDir(disk, parent);
    GrownBySync(s0, s1, path);
    ThroughOne(t2, disk.s, s => Grown(s0, s, path));
    ThroughBoth(t0, t2, disk.trace, s => Grown(s0, s, path));
  }

  lemma {:induction false} Prefixes(path: Path)
    requires path != []
    ensures Above(Parent(path), path)
    ensures forall p :: AtOrAbove(p, path) <==> p == path || AtOrAbove(p, Parent(path))
    ensures forall p :: AtOrAbove(p, Parent(path)) ==> !IsChild(p, Parent(path)) && p != path
    ensures forall p :: Above(path, p) ==> Above(Parent(path), p) && !IsChild(p, Parent(path)) && p != path
  {
  }

  lemma {:induction false} GrownDeeper(s0: State, s: State, path: Path)
    requires path != [] && Grown(s0, s, Parent(path))
    ensures Grown(s0, s, path) && SameEntry(s0, s, path)
  {
  }

  lemma {:induction false} ReadyDeeper(s0: State, s: State, path: Path)
    requires path != [] && DirReady(s0, s, Parent(path)) && s.current(path) == DirEntry
    requires SameEntry(s0, s, path) || (s0.current(path) == Absent && s.possible(path) == {DirEntry})
    ensures DirReady(s0, s, path)
  {
    Prefixes(path);
  }

  lemma {:induction false} GrownByMkdir(s0: State, s1: State, path: Path)
    requires Valid(s1) && path != [] && Grown(s0, s1, Parent(path)) && s1.current(path) == Absent
    ensures Grown(s0, WithEntry(s1, path, DirEntry), path)
  {
    Prefixes(path);
    GrownDeeper(s0, s1, path);
    var s2 := WithEntry(s1, path, DirEntry);
    MkdirCalm(s1, path);
    CalmBoth(s0, s1, s2, iset{});
    assert forall p :: AtOrAbove(p, Parent(path)) || Above(path, p) ==> SameEntry(s1, s2, p);
  }

  lemma {:induction false} GrownBySync(s0: State, s1: State, path: Path)
    requires Valid(s1) && path != [] && Grown(s0, s1, Parent(path)) && s1.current(path) == Absent
    requires Valid(WithEntry(s1, path, DirEntry))
    ensures Grown(s0, Synced(WithEntry(s1, path, DirEntry), Parent(path)), path)
    ensures DirReady(s0, s1, Parent(path)) ==> DirReady(s0, Synced(WithEntry(s1, path, DirEntry), Parent(path)), path)
  {
    Prefixes(path);
    GrownDeeper(s0, s1, path);
    var s2 := WithEntry(s1, path, DirEntry);
    var s3 := Synced(s2, Parent(path));
    MkdirCalm(s1, path);
    SyncedCalm(s2, Parent(path));
    CalmBoth(s0, s1, s2, iset{});
    CalmBoth(s0, s2, s3, iset{});
    assert forall p :: AtOrAbove(p, Parent(path)) || Above(path, p) ==> SameEntry(s1, s3, p);
    if DirReady(s0, s1, Parent(path)) {
      ReadyDeeper(s0, s3, path);
    }
  }

  // ---- write_atomic ----

  predicate Prefixed(prefix: Name, p: Path) {
    p != [] && prefix <= p[|p| - 1]
  }

  predicate TempName(p: Path) {
    Prefixed(".atomic-", p)
  }

  /** A temporary file could be created under the very name of the target. */
  predicate Collides(s0: State, target: Path) {
    TempName(target) && s0.current(target) == Absent
  }

  /** What is at `target` is what was there before, and so it is after a crash; or it is the whole payload, and after a
      crash what was there before or the whole payload. It gets no second name. */
  ghost predicate OldOrNew(s0: State, s: State, target: Path, payload: seq<byte>) {
    && (Alone(s0, target) ==> Alone(s, target))
    && (ShowsOld(s0, s, target) || ShowsNew(s0, s, target, payload))
  }

  ghost predicate ShowsOld(s0: State, s: State, target: Path) {
    Live(s, target) == Live(s0, target) && forall seen :: MaySee(s, target, seen) ==> MaySee(s0, target, seen)
  }

  ghost predicate ShowsNew(s0: State, s: State, target: Path, payload: seq<byte>) {
    && Live(s, target) == Some(payload)
    && forall seen :: MaySee(s, target, seen) ==> MaySee(s0, target, seen) || seen == Some(payload)
  }

  /** A crash cannot take the file at `target` away or change it. */
  ghost predicate CrashProof(s: State, target: Path, payload: seq<byte>) {
    forall seen :: MaySee(s, target, seen) ==> seen == Some(payload)
  }

  /** The directories that led to `target` before the call cannot be lost in a crash. */
  ghost predicate OldAncestorsDurable(s0: State, target: Path) {
    forall a :: Above(a, target) && s0.current(a) == DirEntry ==> s0.possible(a) == {DirEntry}
  }

  /** The target and the names that a temporary file beside it may have. */
  ghost function Scratch(target: Path): iset<Path> {
    iset p: Path | p == target || (TempName(p) && target != [] && Parent(p) == Parent(target))
  }

  /** The target itself is still untouched. */
  ghost predicate Before(s0: State, s: State, target: Path) {
    target != [] && SameEntry(s0, s, target) && Calm(s0, s, Scratch(target))
  }

  /** The target was switched over to the new, synced file. */
  ghost predicate After(s0: State, s: State, target: Path, payload: seq<byte>, ino: nat) {
    && target != [] && s0.next <= ino && s.file(ino).data == payload && s.file(ino).clean
    && s.current(target) == FileEntry(ino) && (forall p, q :: s.together(ino, p, q) ==> p == q)
    && (s.possible(target) == {FileEntry(ino)} || s.possible(target) == s0.possible(target) + {FileEntry(ino)})
    && Calm(s0, s, Scratch(target))
  }

  lemma {:induction false} BeforeIsOldOrNew(s0: State, s: State, target: Path, payload: seq<byte>)
    requires Valid(s0) && Before(s0, s, target)
    ensures OldOrNew(s0, s, target, payload)
  {
    assert s0.current(target) in s0.possible(target);
    forall seen | MaySee(s, target, seen) ensures MaySee(s0, target, seen) {
      SeenBefore(s0, s, target, seen);
    }
    if Alone(s0, target) {
      AloneKept(s0, s, target);
    }
  }

  lemma {:induction false} AfterIsOldOrNew(s0: State, s: State, target: Path, payload: seq<byte>, ino: nat)
    requires Valid(s0) && After(s0, s, target, payload, ino)
    ensures OldOrNew(s0, s, target, payload)
  {
    if Alone(s0, target) {
      AloneWithNew(s0, s, target, ino);
    }
    forall seen | MaySee(s, target, seen) && seen != Some(payload) ensures MaySee(s0, target, seen) {
      var t := s.(possible := (q: Path) => if q == target then s0.possible(q) else s.possible(q));
      forall a | a < target ensures Gentle(s0, t, a) && t.possible(a) == s.possible(a) {
        assert a !in Scratch(target) && Gentle(s0, s, a);
      }
      if seen.Some? {
        var i :| FileEntry(i) in s.possible(target) && (s.file(i).clean ==> seen.value == s.file(i).data);
        assert FileEntry(i) in t.possible(target);
      } else if e :| e in s.possible(target) && !e.FileEntry? {
        assert e in t.possible(target);
      }
      assert MaySee(t, target, seen);
      SeenBefore(s0, t, target, seen);
    }
  }

  /** After the last sync only a lost ancestor can lose the file. */
  lemma {:induction false} CrashProofWhen(s0: State, s: State, target: Path, payload: seq<byte>, ino: nat)
    requires Valid(s0) && target != [] && After(s0, s, target, payload, ino) && s.possible(target) == {FileEntry(ino)}
    requires forall a :: Above(a, target) ==>
      s.current(a) == DirEntry && (SameEntry(s0, s, a) || (s0.current(a) == Absent && s.possible(a) == {DirEntry}))
    ensures CrashProof(s, target, payload) <==> OldAncestorsDurable(s0, target)
  {
    if OldAncestorsDurable(s0, target) {
      forall seen | MaySee(s, target, seen) ensures seen == Some(payload) {
        assert forall a, e :: a < target && e in s.possible(a) ==> Above(a, target) && e == DirEntry;
      }
    }
    if CrashProof(s, target, payload) {
      forall a | Above(a, target) && s0.current(a) == DirEntry ensures s0.possible(a) == {DirEntry} {
        assert !MaySee(s, target, None);
        assert forall e :: e in s.possible(a) ==> e == DirEntry;
        assert s0.current(a) in s0.possible(a);
      }
    }
  }

  /** `tempfile.mkstemp`: a new empty file under a name of its own. */
  method Mkstemp(disk: Disk, dir: Path, prefix: Name) returns (e: Option<Errno>, ino: nat, tmp: Path)
    requires Valid(disk.s)
    modifies disk
    ensures Valid(disk.s) && disk.trace == old(disk.trace) + [disk.s]
    ensures Prefixed(prefix, tmp) && Parent(tmp) == dir
    ensures e.None? ==> old(disk.s).current(tmp) == Absent && ino == old(disk.s).next
    ensures disk.s == if e.Some? then old(disk.s) else Created(old(disk.s), tmp)
    ensures disk.fine ==> old(disk.fine)
    ensures disk.fine && old(disk.s).current(dir) == DirEntry ==> e.None?
  {
    var suffix: Name := *;
    tmp := dir + [prefix + suffix];
    e, ino := disk.Create(tmp);
    // other names are tried; to run out of them is a failure of its own
    disk.fine := disk.fine && e != Some(EEXIST);
  }

  /** Nothing but the new file may differ, and it is synced only as a whole. */
  ghost predicate SyncedWhole(s0: State, s: State, ino: nat, payload: seq<byte>) {
    OnlyFile(s0, s, ino) && (s.file(ino).clean ==> s.file(ino).data == payload)
  }

  /** Inside the inner `try`: mode, contents, sync. */
  method FillAndSync(disk: Disk, ino: nat, payload: seq<byte>) returns (r: Result)
    requires Valid(disk.s) && disk.s.file(ino).data == [] && !disk.s.file(ino).clean
    modifies disk
    ensures Valid(disk.s) && SyncedWhole(old(disk.s), disk.s, ino, payload)
    ensures Through(old(disk.trace), disk.trace, s => SyncedWhole(old(disk.s), s, ino, payload))
    ensures r == Done ==> disk.s.file(ino).data == payload && disk.s.file(ino).clean
    ensures r != Raised(FileExists)
    ensures disk.fine ==> old(disk.fine) && r == Done
  {
    var e := disk.Other();
    if e.Some? {
      return Raised(OSError);
    }
    ghost var s0, t0, t1 := old(disk.s), old(disk.trace), disk.trace;
    e := WriteAll(disk, ino, payload);
    ThroughWeaker(t1, disk.trace, s => Filling(s0, s, ino), s => SyncedWhole(s0, s, ino, payload));
    ThroughBoth(t0, t1, disk.trace, s => SyncedWhole(s0, s, ino, payload));
    if e.Some? {
      return Raised(OSError);
    }
    assert [] + payload == payload;
    ghost var t2 := disk.trace;
    e := disk.Fsync(ino);
    ThroughBoth(t0, t2, disk.trace, s => SyncedWhole(s0, s, ino, payload));
    r := if e.Some? then Raised(SyncError) else Done;
  }

  lemma {:induction false} GrownIsBefore(s0: State, s: State, target: Path)
    requires target != [] && Grown(s0, s, Parent(target))
    ensures Before(s0, s, target)
  {
  }

  lemma {:induction false} ReadyAbove(s0: State, s: State, target: Path)
    requires target != [] && DirReady(s0, s, Parent(target))
    ensures forall a :: Above(a, target) ==>
      s.current(a) == DirEntry && (SameEntry(s0, s, a) || (s0.current(a) == Absent && s.possible(a) == {DirEntry}))
  {
  }

  /** Work on a sibling of the target leaves the target as it was. */
  lemma {:induction false} SiblingWork(s0: State, s: State, t: State, target: Path, tmp: Path)
    requires Before(s0, s, target) && TempName(tmp) && tmp != target && Parent(tmp) == Parent(target)
    requires Calm(s, t, iset{tmp}) && SameEntry(s, t, target)
    ensures Before(s0, t, target)
  {
    CalmButBoth(s0, s, t, iset{tmp}, Scratch(target), iset{});
  }

  lemma {:induction false} FillingIsCalm(s: State, t: State, u: State, names: iset<Path>, ino: nat)
    requires Calm(s, t, names) && OnlyFile(t, u, ino) && s.next <= ino
    ensures Calm(s, u, names)
  {
    forall i: nat | i < s.next ensures LinksKept(s, u, i) {
      assert LinksKept(s, t, i);
    }
    forall p | p !in names ensures Gentle(s, u, p) {
      assert Gentle(s, t, p);
    }
  }

  /** `Before`, unless the temporary file may have the name of the target. */
  ghost predicate StillBefore(s0: State, s: State, target: Path) {
    Collides(s0, target) || Before(s0, s, target)
  }

  lemma {:induction false} StillBeforeFilling(s0: State, s1: State, s2: State, target: Path, tmp: Path, ino: nat,
      before: seq<State>, after: seq<State>)
    requires target != [] && TempName(tmp) && Parent(tmp) == Parent(target) && s0.next <= ino < s2.next
    requires Valid(s1) && StillBefore(s0, s1, target) && s2 == Created(s1, tmp) && ino == s1.next
    requires s1.current(tmp) == Absent && Through(before, after, s => OnlyFile(s2, s, ino))
    ensures StillBefore(s0, s2, target)
    ensures Through(before, after, s => StillBefore(s0, s, target))
    ensures forall s :: OnlyFile(s2, s, ino) ==> StillBefore(s0, s, target)
  {
    if !Collides(s0, target) {
      CreatedCalm(s1, tmp);
      SiblingWork(s0, s1, s2, target, tmp);
      forall s | OnlyFile(s2, s, ino) ensures Before(s0, s, target) {
        FillingIsCalm(s0, s2, s, Scratch(target), ino);
      }
    }
  }

  /** The file never had any other name. */
  ghost predicate OnlyNamed(s: State, ino: nat, p: Path) {
    forall a, b :: s.together(ino, a, b) ==> a == p && b == p
  }

  lemma {:induction false} CreatedIsOnlyNamed(s: State, p: Path)
    requires Valid(s)
    ensures OnlyNamed(Created(s, p), s.next, p)
  {
    assert forall q :: s.current(q) in s.possible(q);
  }

  /** The part of `write_atomic` before the rename: the target stays as it was. */
  method WriteTemp(disk: Disk, target: Path, payload: seq<byte>) returns (r: Result, created: bool, ino: nat, tmp: Path)
    requires Valid(disk.s) && target != []
    modifies disk
    ensures Valid(disk.s) && StillBefore(old(disk.s), disk.s, target)
    ensures Through(old(disk.trace), disk.trace, s => StillBefore(old(disk.s), s, target))
    ensures r == Done ==> created && disk.s.file(ino).data == payload && disk.s.file(ino).clean
    ensures created ==> TempName(tmp) && Parent(tmp) == Parent(target) && DirReady(old(disk.s), disk.s, Parent(target))
    ensures created ==> old(disk.s).next <= ino && disk.s.current(tmp) == FileEntry(ino)
    ensures created ==> OnlyNamed(disk.s, ino, tmp)
    ensures created && !Collides(old(disk.s), target) ==> tmp != target
    ensures created && old(disk.s).current(Parent(target)) == DirEntry ==>
      forall p :: p != tmp ==> SameEntry(old(disk.s), disk.s, p)
    ensures disk.fine ==> old(disk.fine)
    ensures disk.fine && Climbable(old(disk.s), Parent(target)) ==> r == Done
  {
    hide Valid;
    ghost var s0, t0 := disk.s, disk.trace;
    created, ino, tmp := false, 0, [];
    r := MkdirAllSync(disk, Parent(target));
    ghost var s1, t1 := disk.s, disk.trace;
    forall s | Grown(s0, s, Parent(target)) ensures StillBefore(s0, s, target) {
      GrownIsBefore(s0, s, target);
    }
    ThroughWeaker(t0, t1, s => Grown(s0, s, Parent(target)), s => StillBefore(s0, s, target));
    if r != Done {
      return;
    }
    var e;
    e, ino, tmp := Mkstemp(disk, Parent(target), ATOMIC_TEMP_PREFIX);
    ghost var s2, t2 := disk.s, disk.trace;
    if e.Some? {
      ThroughBoth(t0, t1, t2, s => StillBefore(s0, s, target));
      return Raised(OSError), false, ino, tmp;
    }
    created := true;
    CreatedIsOnlyNamed(s1, tmp);
    r := FillAndSync(disk, ino, payload);
    ghost var t3 := disk.trace;
    StillBeforeFilling(s0, s1, s2, target, tmp, ino, t2, t3);
    ThroughBoth(t0, t1, t2, s => StillBefore(s0, s, target));
    ThroughBoth(t0, t2, t3, s => StillBefore(s0, s, target));
    ReadyWithSibling(s0, s1, s2, Parent(target), tmp);
  }

  lemma {:induction false} ReadyWithSibling(s0: State, s1: State, s2: State, dir: Path, tmp: Path)
    requires DirReady(s0, s1, dir) && tmp != [] && Parent(tmp) == dir && s2 == Created(s1, tmp)
    ensures DirReady(s0, s2, dir)
  {
  }

  lemma {:induction false} ReplacedIsAfter(s0: State, s: State, target: Path, tmp: Path, payload: seq<byte>, ino: nat)
    requires Valid(s0) && Before(s0, s, target) && target != [] && TempName(tmp) && tmp != target
    requires Parent(tmp) == Parent(target) && s.current(tmp) == FileEntry(ino) && s0.next <= ino
    requires s.file(ino).data == payload && s.file(ino).clean && Valid(s) && OnlyNamed(s, ino, tmp)
    ensures After(s0, Replaced(s, tmp, target), target, payload, ino)
    ensures forall a :: Above(a, target) ==> SameEntry(s, Replaced(s, tmp, target), a)
  {
    ReplacedCalm(s, tmp, target);
    CalmButBoth(s0, s, Replaced(s, tmp, target), iset{tmp, target}, Scratch(target), FileAt(s, tmp));
    forall p | p != tmp ensures s.current(p) != FileEntry(ino) {
      var both := s.together(ino, tmp, p);
    }
  }

  lemma {:induction false} SyncedIsAfter(s0: State, s: State, target: Path, payload: seq<byte>, ino: nat)
    requires Valid(s) && target != [] && After(s0, s, target, payload, ino)
    ensures After(s0, Synced(s, Parent(target)), target, payload, ino)
    ensures Synced(s, Parent(target)).possible(target) == {FileEntry(ino)}
    ensures forall a :: Above(a, target) ==> SameEntry(s, Synced(s, Parent(target)), a)
  {
    SyncedCalm(s, Parent(target));
    CalmWider(s, Synced(s, Parent(target)), iset{}, Scratch(target));
    CalmBoth(s0, s, Synced(s, Parent(target)), Scratch(target));
  }

  /** The new file is at the target, and no sync has changed anything else yet. */
  ghost predicate Switched(s0: State, s: State, target: Path, payload: seq<byte>) {
    MayHold(s, target, payload) && Valid(s) && forall p :: p !in Scratch(target) ==> SameEntry(s0, s, p)
  }

  ghost predicate SwitchedWithin(s0: State, before: seq<State>, after: seq<State>, target: Path, payload: seq<byte>) {
    exists i :: |before| <= i < |after| && Switched(s0, after[i], target, payload)
  }

  lemma {:induction false} SwitchedNow(s0: State, before: seq<State>, now: seq<State>, s: State, target: Path,
      payload: seq<byte>)
    requires before <= now && Switched(s0, s, target, payload)
    ensures SwitchedWithin(s0, before, now + [s], target, payload)
    ensures forall t :: SwitchedWithin(s0, before, now + [s] + [t], target, payload)
  {
    assert (now + [s])[|now|] == s;
    assert forall t :: (now + [s] + [t])[|now|] == s;
  }

  lemma {:induction false} SwitchedByReplace(s0: State, s: State, target: Path, payload: seq<byte>, tmp: Path, ino: nat)
    requires Valid(s) && target != [] && TempName(tmp) && Parent(tmp) == Parent(target) && tmp != target
    requires s0.current(Parent(target)) == DirEntry && forall p :: p != tmp ==> SameEntry(s0, s, p)
    requires s.current(tmp) == FileEntry(ino) && s.file(ino).data == payload && s.file(ino).clean
    requires s.current(target) != FileEntry(ino) && Valid(Replaced(s, tmp, target))
    ensures Switched(s0, Replaced(s, tmp, target), target, payload)
  {
    var t := Replaced(s, tmp, target);
    assert FileEntry(ino) in t.possible(target) && t.file(ino).clean;
    forall a | a < target ensures DirEntry in t.possible(a) {
      assert s.current(tmp) in s.possible(tmp) && a < tmp && a != tmp && a != target;
      assert s.current(a) == DirEntry && s.current(a) in s.possible(a);
    }
    forall p | p !in Scratch(target) ensures SameEntry(s0, t, p) {
      assert p != tmp && p != target && SameEntry(s0, s, p);
    }
  }

  /** `OldOrNew`, unless the temporary file may have the name of the target. */
  ghost predicate StillOldOrNew(s0: State, s: State, target: Path, payload: seq<byte>) {
    Collides(s0, target) || (OldOrNew(s0, s, target, payload) && Calm(s0, s, Scratch(target)))
  }

  lemma {:induction false} BeforeReplace(s0: State, s: State, target: Path, payload: seq<byte>)
    requires Valid(s0) && StillBefore(s0, s, target)
    ensures StillOldOrNew(s0, s, target, payload)
  {
    if !Collides(s0, target) {
      BeforeIsOldOrNew(s0, s, target, payload);
    }
  }

  lemma {:induction false} AfterUnlink(s0: State, s: State, target: Path, payload: seq<byte>, tmp: Path, ino: nat)
    requires Valid(s0) && Valid(s) && StillBefore(s0, s, target) && TempName(tmp) && Parent(tmp) == Parent(target)
    requires target != [] && s.current(tmp) == FileEntry(ino) && (!Collides(s0, target) ==> tmp != target)
    ensures StillOldOrNew(s0, Unlinked(s, tmp), target, payload)
  {
    if !Collides(s0, target) {
      UnlinkedCalm(s, tmp);
      SiblingWork(s0, s, Unlinked(s, tmp), target, tmp);
      BeforeIsOldOrNew(s0, Unlinked(s, tmp), target, payload);
    }
  }

  lemma {:induction false} AfterReplace(s0: State, s: State, target: Path, payload: seq<byte>, tmp: Path, ino: nat)
    requires Valid(s0) && target != [] && StillBefore(s0, s, target) && TempName(tmp) && Parent(tmp) == Parent(target)
    requires s.current(tmp) == FileEntry(ino) && s0.next <= ino && s.file(ino).data == payload && s.file(ino).clean
    requires DirReady(s0, s, Parent(target)) && (!Collides(s0, target) ==> tmp != target)
    requires Valid(s) && OnlyNamed(s, ino, tmp) && Valid(Replaced(s, tmp, target))
    ensures var t := Replaced(s, tmp, target);
      && StillOldOrNew(s0, t, target, payload) && StillOldOrNew(s0, Synced(t, Parent(target)), target, payload)
      && (Collides(s0, target) || Live(t, target) == Some(payload))
      && (Collides(s0, target) ||
        (CrashProof(Synced(t, Parent(target)), target, payload) <==> OldAncestorsDurable(s0, target)))
  {
    if !Collides(s0, target) {
      var t := Replaced(s, tmp, target);
      ReplacedIsAfter(s0, s, target, tmp, payload, ino);
      AfterIsOldOrNew(s0, t, target, payload, ino);
      SyncedIsAfter(s0, t, target, payload, ino);
      AfterIsOldOrNew(s0, Synced(t, Parent(target)), target, payload, ino);
      ReadyAbove(s0, s, target);
      CrashProofWhen(s0, Synced(t, Parent(target)), target, payload, ino);
    }
  }

  /** `os.replace`: what `AfterReplace` says of the new state, and that nothing is synced yet. */
  method SwitchOver(disk: Disk, target: Path, tmp: Path, ghost s0: State, ghost payload: seq<byte>, ghost ino: nat)
    returns (e: Option<Errno>)
    requires Valid(disk.s) && Valid(s0) && target != [] && StillBefore(s0, disk.s, target)
    requires TempName(tmp) && Parent(tmp) == Parent(target) && (!Collides(s0, target) ==> tmp != target)
    requires disk.s.current(tmp) == FileEntry(ino) && s0.next <= ino && OnlyNamed(disk.s, ino, tmp)
    requires disk.s.file(ino).data == payload && disk.s.file(ino).clean && DirReady(s0, disk.s, Parent(target))
    requires s0.current(Parent(target)) == DirEntry ==> forall p :: p != tmp ==> SameEntry(s0, disk.s, p)
    modifies disk
    ensures Valid(disk.s) && disk.trace == old(disk.trace) + [disk.s]
    ensures e.Some? ==> disk.s == old(disk.s)
    ensures StillOldOrNew(s0, disk.s, target, payload)
    ensures e.None? ==> StillOldOrNew(s0, Synced(disk.s, Parent(target)), target, payload)
    ensures e.None? && !Collides(s0, target) ==> Live(disk.s, target) == Some(payload)
    ensures e.None? && !Collides(s0, target) ==>
      (CrashProof(Synced(disk.s, Parent(target)), target, payload) <==> OldAncestorsDurable(s0, target))
    ensures e.None? && !Collides(s0, target) && s0.current(Parent(target)) == DirEntry ==>
      Switched(s0, disk.s, target, payload)
    ensures disk.fine ==> old(disk.fine)
    ensures disk.fine && old(disk.s).current(target) != DirEntry ==> e.None?
  {
    ghost var s1 := disk.s;
    e := disk.Replace(tmp, target);
    if e.Some? {
      BeforeReplace(s0, s1, target, payload);
    } else {
      AfterReplace(s0, s1, target, payload, tmp, ino);
      if !Collides(s0, target) && s0.current(Parent(target)) == DirEntry {
        SwitchedByReplace(s0, s1, target, payload, tmp, ino);
      }
    }
  }

  /** The rename and the sync of the directory; a failure takes the temporary file away. */
  method ReplaceAndSync(disk: Disk, target: Path, tmp: Path, written: Result, ghost s0: State, ghost payload: seq<byte>,
      ghost ino: nat)
    returns (r: Result)
    requires Valid(disk.s) && Valid(s0) && target != [] && StillBefore(s0, disk.s, target)
    requires TempName(tmp) && Parent(tmp) == Parent(target) && (!Collides(s0, target) ==> tmp != target)
    requires disk.s.current(tmp) == FileEntry(ino) && s0.next <= ino && DirReady(s0, disk.s, Parent(target))
    requires OnlyNamed(disk.s, ino, tmp)
    requires written == Done ==> disk.s.file(ino).data == payload && disk.s.file(ino).clean
    requires s0.current(Parent(target)) == DirEntry ==> forall p :: p != tmp ==> SameEntry(s0, disk.s, p)
    modifies disk
    ensures Valid(disk.s) && Through(old(disk.trace), disk.trace, s => StillOldOrNew(s0, s, target, payload))
    ensures StillOldOrNew(s0, disk.s, target, payload)
    ensures r == Done && !Collides(s0, target) ==> Live(disk.s, target) == Some(payload)
    ensures r == Done && !Collides(s0, target) ==>
      (CrashProof(disk.s, target, payload) <==> OldAncestorsDurable(s0, target))
    ensures r == Done ==> forall p :: IsChild(p, Parent(target)) ==> disk.s.possible(p) == {disk.s.current(p)}
    ensures r == Done && !Collides(s0, target) && s0.current(Parent(target)) == DirEntry ==>
      SwitchedWithin(s0, old(disk.trace), disk.trace, target, payload)
    ensures disk.fine ==> old(disk.fine)
    ensures disk.fine && written == Done && old(disk.s).current(target) != DirEntry ==> r == Done
  {
    hide StillBefore, StillOldOrNew, CrashProof, DirReady, Switched, Valid, OnlyNamed;
    ghost var t0 := disk.trace;
    r := written;
    if r == Done {
      var e := SwitchOver(disk, target, tmp, s0, payload, ino);
      if e.None? {
        if Switched(s0, disk.s, target, payload) {
          SwitchedNow(s0, t0, t0, disk.s, target, payload);
        }
        r := FsyncDir(disk, Parent(target));
        return;
      }
      r := Raised(OSError);
    }
    AfterUnlink(s0, disk.s, target, payload, tmp, ino);
    BeforeReplace(s0, disk.s, target, payload);
    var ignored := disk.Unlink(tmp);
  }

  /** Crash-atomic replacement. At every instant the target is old or new and complete, now and after a crash;
      on return no crash can undo it exactly when the directories that existed before were durable. */
  method WriteAtomic(disk: Disk, target: Path, payload: seq<byte>) returns (r: Result)
    requires Valid(disk.s) && target != []
    modifies disk
    ensures Valid(disk.s)
    ensures !Collides(old(disk.s), target) ==>
      Through(old(disk.trace), disk.trace,
        s => OldOrNew(old(disk.s), s, target, payload) && Calm(old(disk.s), s, Scratch(target)))
    ensures !Collides(old(disk.s), target) ==>
      OldOrNew(old(disk.s), disk.s, target, payload) && Calm(old(disk.s), disk.s, Scratch(target))
    ensures !Collides(old(disk.s), target) && r == Done ==> Live(disk.s, target) == Some(payload)
    ensures !Collides(old(disk.s), target) && r == Done ==>
      (CrashProof(disk.s, target, payload) <==> OldAncestorsDurable(old(disk.s), target))
    // the sync at the end fixes the whole directory, but only after the switch
    ensures r == Done ==> forall p :: IsChild(p, Parent(target)) ==> disk.s.possible(p) == {disk.s.current(p)}
    ensures r == Done && !Collides(old(disk.s), target) && old(disk.s).current(Parent(target)) == DirEntry ==>
      SwitchedWithin(old(disk.s), old(disk.trace), disk.trace, target, payload)
    // with directories on the way only a failing call makes it fail
    ensures disk.fine ==> old(disk.fine)
    ensures disk.fine && !Collides(old(disk.s), target) && Climbable(old(disk.s), Parent(target)) ==>
      r == Done || old(disk.s).current(target) == DirEntry
  {
    ghost var s0, t0 := disk.s, disk.trace;
    var created, ino, tmp;
    r, created, ino, tmp := WriteTemp(disk, target, payload);
    ghost var s1, t1 := disk.s, disk.trace;
    ghost var fine := s => StillOldOrNew(s0, s, target, payload);
    forall s | StillBefore(s0, s, target) ensures StillOldOrNew(s0, s, target, payload) {
      BeforeReplace(s0, s, target, payload);
    }
    ThroughWeaker(t0, t1, s => StillBefore(s0, s, target), fine);
    if !created {
      return;
    }
    r := ReplaceAndSync(disk, target, tmp, r, s0, payload, ino);
    ThroughBoth(t0, t1, disk.trace, fine);
  }

  /** Nothing but a directory whose own entry was never synced. */
  function BareDirectory(dir: Name): State {
    State((p: Path) => if p == [] || p == [dir] then DirEntry else Absent,
      (p: Path) => if p == [] then {DirEntry} else if p == [dir] then {Absent, DirEntry} else {Absent},
      _ => File([], true), 0, _ => {}, (_, _, _) => false)
  }

  lemma {:induction false} BareDirectoryIsValid(dir: Name)
    ensures Valid(BareDirectory(dir))
  {
    var s := BareDirectory(dir);
    forall p, q | p < q && s.current(p) != DirEntry ensures s.possible(q) == {Absent} {
      assert q != [] && q != [dir] by {
        assert p == q[..|p|];
      }
    }
  }

  /** An old directory whose own entry was never synced, and the states of a successful call below it: the success
      can be lost in a crash. */
  lemma {:induction false} OldDirectoryLosesTarget(dir: Name, name: Name, payload: seq<byte>)
    returns (s0: State, s: State)
    requires !(ATOMIC_TEMP_PREFIX <= name)
    ensures Valid(s0) && s0.current([dir]) == DirEntry && s0.possible([dir]) == {Absent, DirEntry}
    ensures var tmp := [dir, ATOMIC_TEMP_PREFIX];
      var filled := FileSynced(Appended(Created(s0, tmp), s0.next, payload), s0.next);
      filled.current(tmp).FileEntry? && s == Synced(Replaced(filled, tmp, [dir, name]), [dir])
    ensures Live(s, [dir, name]) == Some(payload) && !CrashProof(s, [dir, name], payload)
  {
    var (target, tmp) := ([dir, name], [dir, ATOMIC_TEMP_PREFIX]);
    s0 := BareDirectory(dir);
    BareDirectoryIsValid(dir);
    var filled := FileSynced(Appended(Created(s0, tmp), s0.next, payload), s0.next);
    s := Synced(Replaced(filled, tmp, target), [dir]);
    assert name != ATOMIC_TEMP_PREFIX && tmp[1] != target[1];
    assert [] + payload == payload;
    assert [dir][..0] == [] && !IsChild([dir], [dir]);
    assert s.possible([dir]) == s0.possible([dir]);
    assert [dir] < target && Absent in s.possible([dir]);
    assert MaySee(s, target, None);
  }

  /** Exactly when such a collision may happen: the file of that name shows the empty beginning of the payload. */
  lemma {:induction false} TempNameCollides(s: State, target: Path, payload: seq<byte>)
    requires Valid(s) && target != [] && Collides(s, target) && payload != []
    ensures TempName(target) && !OldOrNew(s, Created(s, target), target, payload)
  {
    assert Live(Created(s, target), target) == Some([]);
  }

  // ---- open_no_follow ----

  /** The first component of `path` from `k` on that is no directory, or else the last one. */
  function Stop(s: State, path: Path, k: nat): (n: nat)
    requires 1 <= k <= |path|
    ensures k <= n <= |path|
    ensures forall j :: k <= j < n ==> s.current(path[..j]) == DirEntry
    ensures n < |path| ==> s.current(path[..n]) != DirEntry
    decreases |path| - k
  {
    if k == |path| || s.current(path[..k]) != DirEntry then k else Stop(s, path, k + 1)
  }

  /** Nothing but a failing call can refuse this path. */
  predicate Readable(s: State, path: Path) {
    Openable(s, path) || (path != [] && s.current(path[..Stop(s, path, 1)]) == Absent)
  }

  lemma {:induction false} AbsentFrom(s: State, path: Path, a: Path)
    requires Valid(s) && a < path && s.current(a) == Absent
    ensures s.current(path) == Absent
  {
    assert s.current(path) in s.possible(path);
  }

  lemma {:induction false} OpenableWay(s: State, path: Path, k: nat)
    requires Valid(s) && Openable(s, path) && k < |path|
    ensures s.current(path[..k]) == DirEntry
  {
    assert s.current(path) in s.possible(path) && path[..k] < path;
  }

  /** Opens component by component, never through a symlink; None with Done is an absent file. */
  method ReadFileNoFollow(disk: Disk, path: Path) returns (r: Result, data: Option<seq<byte>>)
    requires Valid(disk.s)
    modifies disk
    ensures disk.s == old(disk.s) && Through(old(disk.trace), disk.trace, s => s == old(disk.s))
    ensures r == Done || r == Raised(PathError)
    // bytes come from a regular file with one link that is reached through directories only
    ensures r == Done && data.Some? ==> Openable(disk.s, path) && data == Live(disk.s, path)
    ensures r == Done && data.Some? ==> forall a :: a < path ==> disk.s.current(a) == DirEntry
    // absent is a file only if the first component that cannot be entered does not exist
    ensures r == Done && data.None? ==> path != [] && disk.s.current(path[..Stop(disk.s, path, 1)]) == Absent
    ensures r == Done && data.None? ==> disk.s.current(path) == Absent
    ensures path != [] && disk.s.current(path[..Stop(disk.s, path, 1)]).SymlinkEntry? ==> r == Raised(PathError)
    ensures disk.fine ==> old(disk.fine)
    ensures disk.fine && Readable(disk.s, path) ==> r == Done
  {
    data := None;
    assert disk.s.current([]) in disk.s.possible([]);
    if path == [] {
      return Raised(PathError), None;
    }
    var k: nat := 1;
    while k < |path|
      invariant 1 <= k <= |path|
      invariant disk.s == old(disk.s) && Through(old(disk.trace), disk.trace, s => s == old(disk.s))
      invariant disk.fine ==> old(disk.fine)
      invariant forall j :: 0 <= j < k ==> disk.s.current(path[..j]) == DirEntry
      invariant Stop(disk.s, path, 1) == Stop(disk.s, path, k)
    {
      var e := disk.Other();
      if Openable(disk.s, path) {
        OpenableWay(disk.s, path, k);
      }
      if disk.s.current(path[..k]) == Absent {
        AbsentFrom(disk.s, path, path[..k]);
        return Done, None;
      }
      if e.Some? || disk.s.current(path[..k]) != DirEntry {
        return Raised(PathError), None;
      }
      k := k + 1;
    }
    assert path[..|path|] == path;
    var e := disk.Other();
    if disk.s.current(path) == Absent {
      return Done, None;
    }
    if e.Some? || !Openable(disk.s, path) {
      return Raised(PathError), None;
    }
    forall a | a < path ensures disk.s.current(a) == DirEntry {
      assert a == path[..|a|];
    }
    return Done, Some(disk.s.file(disk.s.current(path).ino).data);
  }

  // ---- write_immutable_no_replace ----

  /** The destination shows what it showed before or the whole source. */
  ghost predicate OldOrSource(s0: State, s: State, source: Path, destination: Path) {
    Live(s, destination) == Live(s0, destination) ||
      (Live(s0, source).Some? && Live(s, destination) == Live(s0, source))
  }

  /** The published file: the source's bytes under as many names as the source had. */
  predicate Published(s0: State, s: State, source: Path, destination: Path) {
    && s0.current(source).FileEntry? && s.current(destination).FileEntry?
    && Live(s, destination) == Live(s0, source)
    && |s.names(s.current(destination).ino)| == |s0.names(s0.current(source).ino)|
    && s.current(source) == Absent
    && (s.current(destination) == s0.current(source) || s.current(destination).ino >= s0.next)
  }

  /** A crash shows what it could show before the call, or the whole data. */
  ghost predicate CrashShowsWhole(s0: State, s: State, destination: Path, data: seq<byte>) {
    forall seen :: MaySee(s, destination, seen) ==> MaySee(s0, destination, seen) || seen == Some(data)
  }

  /** On the way to publication: the name has at most become possible for the file `ino`, which is synced only as a
      whole, and everything else that decides what a crash shows there is as before. */
  ghost predicate Publishing(s0: State, s: State, destination: Path, ino: nat, data: seq<byte>) {
    && (forall a :: a < destination ==> s.possible(a) == s0.possible(a))
    && s0.possible(destination) <= s.possible(destination) <= s0.possible(destination) + {FileEntry(ino), Absent}
    && (forall i: nat :: i != ino ==> s.file(i).data == s0.file(i).data && s.file(i).clean == s0.file(i).clean)
    && (s.file(ino).clean ==> s.file(ino).data == data)
    && (FileEntry(ino) in s0.possible(destination) ==>
         s.file(ino).data == s0.file(ino).data && s.file(ino).clean == s0.file(ino).clean)
  }

  /** Some text longer than the contents of any of these files. */
  lemma {:induction false} LongerThanAll(s: State, entries: set<Entry>, data: seq<byte>) returns (long: seq<byte>)
    ensures |long| > |data|
    ensures forall i: nat :: FileEntry(i) in entries ==> |long| > |s.file(i).data|
    decreases entries
  {
    if e :| e in entries {
      var rest := LongerThanAll(s, entries - {e}, data);
      long := if e.FileEntry? then rest + s.file(e.ino).data else rest;
    } else {
      long := data + [0];
    }
  }

  /** At any such instant a crash shows only the old entry or the whole data if and only if the name is possible for
      an unsynced file no more than it was before. */
  lemma {:induction false} TearsExactly(s0: State, s: State, destination: Path, ino: nat, data: seq<byte>)
    requires Publishing(s0, s, destination, ino, data) && Absent in s0.possible(destination)
    ensures CrashShowsWhole(s0, s, destination, data) <==> (MayTear(s, destination) ==> MayTear(s0, destination))
  {
    if CrashShowsWhole(s0, s, destination, data) && MayTear(s, destination) {
      var long := LongerThanAll(s0, s0.possible(destination), data);
      assert MaySee(s, destination, Some(long));
      assert MayHold(s0, destination, long);
    }
    if MayTear(s, destination) ==> MayTear(s0, destination) {
      forall seen | MaySee(s, destination, seen) && seen != Some(data) ensures MaySee(s0, destination, seen) {
        if seen.Some? {
          var i :| FileEntry(i) in s.possible(destination) && (s.file(i).clean ==> seen.value == s.file(i).data);
          assert s.file(i).clean && i != ino ==> FileEntry(i) in s0.possible(destination);
        } else {
          assert Absent in s0.possible(destination) && !Absent.FileEntry?;
        }
      }
    }
  }

  /** What a crash may tear during a publication, at every instant: nothing exactly as long as no unsynced file became
      possible under the destination's name. */
  ghost predicate TearsOnlyUnsynced(s0: State, s: State, destination: Path, data: seq<byte>) {
    CrashShowsWhole(s0, s, destination, data) <==> (MayTear(s, destination) ==> MayTear(s0, destination))
  }

  /** A second name for the file at `p` is the one it has now, or could be lost with. */
  ghost predicate AloneOrDoubled(s0: State, s: State, p: Path) {
    Alone(s0, p) ==> Alone(s, p) || Doubled(s, p)
  }

  /** A copy in progress; it touches the destination only. */
  ghost predicate Copying(s0: State, s: State, destination: Path, data: seq<byte>) {
    && TearsOnlyUnsynced(s0, s, destination, data) && Calm(s0, s, iset{destination})
    && (Alone(s0, destination) ==> Alone(s, destination))
  }

  lemma {:induction false} Untouched(s0: State, destination: Path, data: seq<byte>)
    ensures Copying(s0, s0, destination, data)
  {
  }

  /** A crash cannot lose the directories on the way. */
  ghost predicate AncestorsDurable(s: State, p: Path) {
    forall a :: a < p ==> s.possible(a) == {DirEntry}
  }

  /** After a sync of its directory a published file is safe exactly if the way to it and its contents are. */
  lemma {:induction false} DurableAfterSync(s: State, destination: Path, ino: nat, data: seq<byte>)
    requires Valid(s) && destination != [] && s.current(destination) == FileEntry(ino) && s.file(ino).data == data
    ensures CrashProof(Synced(s, Parent(destination)), destination, data) <==>
      AncestorsDurable(s, destination) && s.file(ino).clean
  {
    var t := Synced(s, Parent(destination));
    assert t.possible(destination) == {FileEntry(ino)};
    forall a | a < destination ensures t.possible(a) == s.possible(a) && DirEntry in s.possible(a) {
      assert !IsChild(a, Parent(destination)) && s.current(a) in s.possible(a);
      assert s.current(a) == DirEntry by {
        assert s.current(destination) in s.possible(destination);
      }
    }
    if CrashProof(t, destination, data) {
      if !s.file(ino).clean {
        assert FileEntry(ino) in t.possible(destination);
        assert MaySee(t, destination, Some(data + [0]));
      }
      forall a | a < destination ensures s.possible(a) == {DirEntry} {
        assert !MaySee(t, destination, None);
      }
    }
  }

  /** How publication ends unless a call fails. */
  function FreeOrExists(s: State, destination: Path): Result {
    if s.current(destination) == Absent then Done else Raised(FileExists)
  }

  /** `O_EXCL` creation of the destination with these contents; a failure takes it away again. */
  method CopyInto(disk: Disk, destination: Path, data: seq<byte>) returns (r: Result, leftover: bool)
    requires Valid(disk.s) && destination != []
    modifies disk
    ensures Valid(disk.s)
    ensures old(disk.s).current(destination) != Absent ==>
      r != Done && disk.s == old(disk.s) && disk.trace == old(disk.trace) + [disk.s]
    ensures Through(old(disk.trace), disk.trace, s => Copying(old(disk.s), s, destination, data))
    ensures r == Raised(FileExists) ==> old(disk.s).current(destination) != Absent
    ensures Copying(old(disk.s), disk.s, destination, data)
    ensures r == Done ==> Copied(old(disk.s), disk.s, destination, data)
    ensures forall p :: p != destination ==> SameEntry(old(disk.s), disk.s, p)
    ensures r != Done && old(disk.s).current(destination) == Absent ==>
      disk.s.current(destination) == Absent || leftover
    ensures leftover ==> r != Done && !disk.fine
    ensures disk.fine ==> old(disk.fine)
    ensures disk.fine && old(disk.s).current(Parent(destination)) == DirEntry ==>
      r == FreeOrExists(old(disk.s), destination)
  {
    hide Copying, Publishing, Calm, Valid;
    leftover := false;
    ghost var s0, t0 := disk.s, disk.trace;
    ghost var copying := s => Copying(s0, s, destination, data);
    Untouched(s0, destination, data);
    var e, ino := disk.Create(destination);
    ghost var s1, t1 := disk.s, disk.trace;
    if e.Some? {
      return Raised(if e == Some(EEXIST) then FileExists else OSError), false;
    }
    r := FillAndSync(disk, ino, data);
    ghost var s2, t2 := disk.s, disk.trace;
    forall s | SyncedWhole(s1, s, ino, data) ensures Copying(s0, s, destination, data) {
      FilledIsPublishing(s0, s1, s, destination, ino, data);
    }
    SyncedFromStart(s1, ino, data);
    ThroughOne(t0, s1, copying);
    ThroughWeaker(t1, t2, s => SyncedWhole(s1, s, ino, data), copying);
    ThroughBoth(t0, t1, t2, copying);
    FilledIsPublishing(s0, s1, s2, destination, ino, data);
    if r == Done {
      CopyIsThere(s0, s1, s2, destination, data);
    } else {
      var cleanup := disk.Unlink(destination);
      leftover := cleanup.Some?;
      RemovedIsPublishing(s0, s2, disk.s, destination, ino, data);
      ThroughBoth(t0, t2, disk.trace, copying);
    }
  }

  lemma {:induction false} SyncedFromStart(s: State, ino: nat, data: seq<byte>)
    requires !s.file(ino).clean
    ensures SyncedWhole(s, s, ino, data)
  {
  }

  lemma {:induction false} CopyIsThere(s0: State, s1: State, s: State, destination: Path, data: seq<byte>)
    requires Valid(s0) && s0.current(destination) == Absent && s1 == Created(s0, destination)
    requires SyncedWhole(s1, s, s0.next, data) && s.file(s0.next).data == data && s.file(s0.next).clean
    ensures Copied(s0, s, destination, data)
  {
    forall p ensures p !in s0.names(s0.next) {
      assert s0.current(p) in s0.possible(p);
    }
    assert s.names(s0.next) == {destination};
  }

  /** The whole copy, synced, under a name whose entry is not. */
  ghost predicate Copied(s0: State, s: State, destination: Path, data: seq<byte>) {
    && s0.current(destination) == Absent
    && s.current(destination) == FileEntry(s0.next) && s.file(s0.next) == File(data, true)
    && s.names(s0.next) == {destination}
    && s.possible(destination) == s0.possible(destination) + {FileEntry(s0.next)}
    && (forall p :: p != destination ==> SameEntry(s0, s, p))
    && (forall i: nat :: i != s0.next ==> s.file(i) == s0.file(i))
  }

  /** The copy leaves the source alone. */
  lemma {:induction false} CopiedSource(s0: State, s: State, source: Path, destination: Path, data: seq<byte>)
    requires Valid(s0) && Copied(s0, s, destination, data) && Live(s0, source).Some?
    ensures source != destination && s.current(source) == s0.current(source)
    ensures Live(s, destination) == Some(data)
  {
    assert SameEntry(s0, s, source);
  }

  lemma {:induction false} FilledIsPublishing(s0: State, s1: State, s: State, destination: Path, ino: nat,
      data: seq<byte>)
    requires Valid(s0) && destination != [] && s0.current(destination) == Absent && ino == s0.next
    requires s1 == Created(s0, destination) && SyncedWhole(s1, s, ino, data)
    ensures Publishing(s0, s, destination, ino, data) && Copying(s0, s, destination, data)
  {
    assert s0.current(destination) in s0.possible(destination);
    TearsExactly(s0, s, destination, ino, data);
    CreatedCalm(s0, destination);
    FillingIsCalm(s0, s1, s, iset{destination}, ino);
    CreatedIsOnlyNamed(s0, destination);
    if Alone(s0, destination) {
      AloneWithNew(s0, s, destination, ino);
    }
  }

  lemma {:induction false} CreatedIsPublishing(s0: State, destination: Path, data: seq<byte>)
    requires Valid(s0) && destination != [] && s0.current(destination) == Absent
    ensures Copying(s0, Created(s0, destination), destination, data)
  {
    FilledIsPublishing(s0, Created(s0, destination), Created(s0, destination), destination, s0.next, data);
  }

  /** Taking the copy away again, or trying to. */
  lemma {:induction false} RemovedIsPublishing(s0: State, s: State, t: State, destination: Path, ino: nat,
      data: seq<byte>)
    requires Publishing(s0, s, destination, ino, data) && s0.current(destination) == Absent
    requires s.current(destination).FileEntry? && (t == s || t == Unlinked(s, destination))
    requires Valid(s0) && Valid(s) && Copying(s0, s, destination, data)
    ensures Copying(s0, t, destination, data)
  {
    assert s0.current(destination) in s0.possible(destination);
    TearsExactly(s0, t, destination, ino, data);
    UnlinkedCalm(s, destination);
    CalmBoth(s0, s, Unlinked(s, destination), iset{destination});
    if Alone(s, destination) {
      AloneKept(s, Unlinked(s, destination), destination);
    }
  }

  /** A publication in progress: it touches these names only, and it may give the source's file the other name. */
  ghost predicate Between(s0: State, s: State, source: Path, destination: Path) {
    CalmBut(s0, s, iset{source, destination}, FileAt(s0, source)) && AloneOrDoubled(s0, s, destination)
  }

  ghost predicate InProgress(s0: State, s: State, source: Path, destination: Path, data: seq<byte>) {
    TearsOnlyUnsynced(s0, s, destination, data) && Between(s0, s, source, destination)
  }

  lemma {:induction false} InProgressOfSource(s0: State, s: State, source: Path, destination: Path)
    requires Live(s0, source).Some? && InProgress(s0, s, source, destination, Live(s0, source).value)
    ensures SourceOrOld(s0, s, source, destination)
  {
  }

  lemma {:induction false} StillBetween(s0: State, source: Path, destination: Path)
    ensures Between(s0, s0, source, destination) && SourceOrOld(s0, s0, source, destination)
    ensures OldOrSource(s0, s0, source, destination)
  {
  }

  lemma {:induction false} CopyingIsBetween(s0: State, s: State, source: Path, destination: Path, data: seq<byte>)
    requires Copying(s0, s, destination, data)
    ensures InProgress(s0, s, source, destination, data)
  {
  }

  lemma {:induction false} BetweenAfterUnlink(s0: State, s: State, source: Path, destination: Path)
    requires Valid(s) && Between(s0, s, source, destination) && s.current(source).FileEntry? && source != destination
    ensures Between(s0, Unlinked(s, source), source, destination)
  {
    var t := Unlinked(s, source);
    UnlinkedCalm(s, source);
    CalmWider(s, t, iset{source}, iset{source, destination});
    CalmButThen(s0, s, t, iset{source, destination}, FileAt(s0, source));
    if Alone(s, destination) {
      AloneKept(s, t, destination);
    } else if q :| TwoNames(s, destination, q) {
      assert TwoNames(t, destination, q);
    }
  }

  /** Taking the source away, or trying to. */
  lemma {:induction false} SourceRemoved(s0: State, s: State, t: State, source: Path, destination: Path, ino: nat,
      data: seq<byte>)
    requires Publishing(s0, s, destination, ino, data) && Absent in s0.possible(destination)
    requires Valid(s) && s.current(source).FileEntry? && s.current(destination).FileEntry? && source != destination
    requires Between(s0, s, source, destination) && (t == s || t == Unlinked(s, source))
    ensures InProgress(s0, t, source, destination, data)
    ensures forall a :: a < destination ==> t.possible(a) == s.possible(a)
    ensures t.possible(destination) == s.possible(destination)
  {
    assert s.current(destination) in s.possible(destination);
    assert !(source < destination);
    TearsExactly(s0, t, destination, ino, data);
    BetweenAfterUnlink(s0, s, source, destination);
  }

  /** `TearsOnlyUnsynced`, of the source's contents. */
  ghost predicate SourceOrOld(s0: State, s: State, source: Path, destination: Path) {
    && Between(s0, s, source, destination)
    && (Live(s0, source).Some? ==> TearsOnlyUnsynced(s0, s, destination, Live(s0, source).value))
  }

  /** Copy first, and only then take the source away. */
  method CopyAndUnlink(disk: Disk, source: Path, destination: Path, data: seq<byte>) returns (r: Result, leftover: bool)
    requires Valid(disk.s) && destination != [] && Openable(disk.s, source) && Live(disk.s, source) == Some(data)
    modifies disk
    ensures Valid(disk.s)
    ensures old(disk.s).current(destination) != Absent ==>
      r != Done && disk.s == old(disk.s) && Through(old(disk.trace), disk.trace, s => s == old(disk.s))
    ensures r == Raised(FileExists) ==> old(disk.s).current(destination) != Absent
    ensures r == Done ==> Published(old(disk.s), disk.s, source, destination) && Openable(disk.s, destination)
    ensures r != Done && old(disk.s).current(destination) == Absent ==>
      disk.s.current(destination) == Absent || leftover || Live(disk.s, destination) == Some(data)
    ensures leftover ==> r != Done && !disk.fine
    ensures Through(old(disk.trace), disk.trace,
      s => InProgress(old(disk.s), s, source, destination, data))
    ensures Between(old(disk.s), disk.s, source, destination)
    ensures forall p :: p != source && p != destination ==> SameEntry(old(disk.s), disk.s, p)
    ensures r == Done ==> Unsynced(old(disk.s), disk.s, source, destination)
    ensures r == Done ==> SyncDecides(old(disk.s), disk.s, source, destination, true) && SyncedFile(disk.s, destination)
    ensures disk.fine ==> old(disk.fine)
    ensures disk.fine && old(disk.s).current(Parent(destination)) == DirEntry ==>
      r == FreeOrExists(old(disk.s), destination)
  {
    hide InProgress, Copying, Between, Unsynced, SyncDecides, Valid, Calm, Published, Copied;
    ghost var s0, t0 := disk.s, disk.trace;
    r, leftover := CopyInto(disk, destination, data);
    ghost var s1, t1 := disk.s, disk.trace;
    forall s | Copying(s0, s, destination, data)
      ensures InProgress(s0, s, source, destination, data) && Between(s0, s, source, destination)
    {
      CopyingIsBetween(s0, s, source, destination, data);
    }
    ThroughWeaker(t0, t1, s => Copying(s0, s, destination, data), s => InProgress(s0, s, source, destination, data));
    if r != Done {
      return;
    }
    CopiedSource(s0, s1, source, destination, data);
    var e := disk.Unlink(source);
    CopyPublished(s0, s1, disk.s, source, destination, data);
    ThroughBoth(t0, t1, disk.trace, s => InProgress(s0, s, source, destination, data));
    r := if e.Some? then Raised(OSError) else Done;
  }

  method PublishByCopy(disk: Disk, source: Path, destination: Path) returns (r: Result, leftover: bool)
    requires Valid(disk.s) && destination != []
    modifies disk
    ensures Valid(disk.s)
    ensures old(disk.s).current(destination) != Absent ==>
      r != Done && disk.s == old(disk.s) && Through(old(disk.trace), disk.trace, s => s == old(disk.s))
    ensures r == Raised(FileExists) ==> old(disk.s).current(destination) != Absent
    ensures r == Done ==> Published(old(disk.s), disk.s, source, destination) && Openable(disk.s, destination)
    ensures r != Done && old(disk.s).current(destination) == Absent ==>
      || disk.s.current(destination) == Absent || leftover
      || (Live(old(disk.s), source).Some? && Live(disk.s, destination) == Live(old(disk.s), source))
    ensures leftover ==> r != Done && !disk.fine
    // at every instant a crash may tear the destination exactly as long as the copy is not synced
    ensures Through(old(disk.trace), disk.trace, s => SourceOrOld(old(disk.s), s, source, destination))
    ensures Between(old(disk.s), disk.s, source, destination)
    ensures forall p :: p != source && p != destination ==> SameEntry(old(disk.s), disk.s, p)
    ensures r == Done ==> Unsynced(old(disk.s), disk.s, source, destination)
    ensures r == Done ==> SyncDecides(old(disk.s), disk.s, source, destination, true) && SyncedFile(disk.s, destination)
    ensures disk.fine ==> old(disk.fine)
    ensures disk.fine && old(disk.s).current(Parent(destination)) == DirEntry && Openable(old(disk.s), source) ==>
      r == FreeOrExists(old(disk.s), destination)
  {
    hide InProgress, Between, SourceOrOld, TearsOnlyUnsynced, Unsynced, SyncDecides, Valid, Published;
    ghost var s0, t0 := disk.s, disk.trace;
    ghost var whole := s => SourceOrOld(s0, s, source, destination);
    StillBetween(s0, source, destination);
    leftover := false;
    var data;
    r, data := ReadFileNoFollow(disk, source);
    ghost var t1 := disk.trace;
    ThroughWeaker(t0, t1, s => s == s0, whole);
    if r != Done {
      return;
    }
    if data.None? {
      return Raised(IntegrityError), false;
    }
    var e := disk.Other();
    ghost var t2 := disk.trace;
    ThroughOne(t1, s0, whole);
    ThroughBoth(t0, t1, t2, whole);
    if e.Some? {
      return Raised(OSError), false;
    }
    r, leftover := CopyAndUnlink(disk, source, destination, data.value);
    forall s | InProgress(s0, s, source, destination, data.value) ensures SourceOrOld(s0, s, source, destination) {
      InProgressOfSource(s0, s, source, destination);
    }
    ThroughWeaker(t2, disk.trace, s => InProgress(s0, s, source, destination, data.value), whole);
    ThroughBoth(t0, t2, disk.trace, whole);
  }

  /** Nothing was synced: after success a crash may show neither the destination nor the source. */
  ghost predicate Unsynced(s0: State, s: State, source: Path, destination: Path) {
    MayMiss(s, destination) && MayMiss(s, source)
  }

  predicate SyncedFile(s: State, p: Path) {
    s.current(p).FileEntry? && s.file(s.current(p).ino).clean
  }

  /** Once the directory of the destination is synced, too, the publication is safe exactly if the way there was durable
      and the published file is synced: a copy always, a link only if the source was. */
  ghost predicate SyncDecides(s0: State, s: State, source: Path, destination: Path, copied: bool) {
    destination != [] && Live(s0, source).Some? &&
    (CrashProof(Synced(s, Parent(destination)), destination, Live(s0, source).value) <==>
      AncestorsDurable(s0, destination) && (copied || SyncedFile(s0, source)))
  }

  lemma {:induction false} CopyPublished(s0: State, s: State, t: State, source: Path, destination: Path,
      data: seq<byte>)
    requires Valid(s0) && Valid(s) && destination != [] && Copied(s0, s, destination, data) && Valid(t)
    requires Live(s0, source) == Some(data) && source != destination && s.current(source) == s0.current(source)
    requires Copying(s0, s, destination, data) && (t == s || t == Unlinked(s, source))
    ensures InProgress(s0, t, source, destination, data)
    ensures forall p :: p != source && p != destination ==> SameEntry(s0, t, p)
    ensures Live(t, destination) == Some(data)
    ensures t == Unlinked(s, source) ==>
      Unsynced(s0, t, source, destination) && SyncDecides(s0, t, source, destination, true)
    ensures t == Unlinked(s, source) && Openable(s0, source) ==>
      Published(s0, t, source, destination) && Openable(t, destination) && SyncedFile(t, destination)
  {
    assert SameEntry(s0, s, source);
    forall p | p != source && p != destination ensures SameEntry(s0, t, p) {
      assert SameEntry(s0, s, p);
    }
    forall a | a < destination ensures s.possible(a) == s0.possible(a) {
      assert SameEntry(s0, s, a);
    }
    assert s0.current(destination) in s0.possible(destination);
    assert Publishing(s0, s, destination, s0.next, data);
    CopyingIsBetween(s0, s, source, destination, data);
    SourceRemoved(s0, s, t, source, destination, s0.next, data);
    if t == Unlinked(s, source) {
      assert s0.current(source) in s0.possible(source);
      DurableAfterSync(t, destination, s0.next, data);
    }
  }

  lemma {:induction false} LinkPublished(s0: State, t: State, source: Path, destination: Path)
    requires Valid(s0) && destination != [] && s0.current(destination) == Absent && s0.current(source).FileEntry?
    requires Valid(LinkedAt(s0, source, destination)) && Valid(t)
    requires var s := LinkedAt(s0, source, destination); t == s || t == Unlinked(s, source)
    ensures SourceOrOld(s0, t, source, destination) && Between(s0, t, source, destination)
    ensures OldOrSource(s0, t, source, destination)
    ensures Live(t, destination) == Live(s0, source)
    ensures forall p :: p != source && p != destination ==> SameEntry(s0, t, p)
    ensures t == Unlinked(LinkedAt(s0, source, destination), source) ==>
      Unsynced(s0, t, source, destination) && SyncDecides(s0, t, source, destination, false)
  {
    var (s, ino, data) := (LinkedAt(s0, source, destination), s0.current(source).ino, Live(s0, source).value);
    assert s0.current(destination) in s0.possible(destination);
    assert Publishing(s0, s, destination, ino, data);
    LinkedCalm(s0, source, destination);
    assert s0.current(source) in s0.possible(source) && TwoNames(s, destination, source);
    SourceRemoved(s0, s, t, source, destination, ino, data);
    if t == Unlinked(s, source) {
      DurableAfterSync(t, destination, ino, data);
    }
  }

  /** The file has as many names as before. */
  lemma {:induction false} LinkMoves(s0: State, source: Path, destination: Path)
    requires Valid(s0) && s0.current(destination) == Absent && s0.current(source).FileEntry?
    ensures var t := Unlinked(LinkedAt(s0, source, destination), source);
      && Published(s0, t, source, destination) && (Openable(t, destination) <==> Openable(s0, source))
      && (SyncedFile(t, destination) <==> SyncedFile(s0, source))
  {
    var names := s0.names(s0.current(source).ino);
    assert source in names && destination !in names;
    assert |names + {destination} - {source}| == |names|;
  }

  /** `os.link` and `os.unlink`; `e` is the error of the first, which leaves everything as it was. */
  method PublishByLink(disk: Disk, source: Path, destination: Path) returns (e: Option<Errno>, r: Result)
    requires Valid(disk.s) && destination != []
    modifies disk
    ensures Valid(disk.s)
    ensures e.Some? ==> disk.s == old(disk.s) && disk.trace == old(disk.trace) + [disk.s]
    ensures e == Some(EEXIST) ==> old(disk.s).current(destination) != Absent
    ensures e.None? ==> old(disk.s).current(destination) == Absent && (r == Done || r == Raised(OSError))
    ensures e.None? ==> Live(old(disk.s), source).Some? && Live(disk.s, destination) == Live(old(disk.s), source)
    ensures r == Done && e.None? ==> disk.s == Unlinked(LinkedAt(old(disk.s), source, destination), source)
    ensures r == Done && e.None? ==> Unsynced(old(disk.s), disk.s, source, destination)
    ensures r == Done && e.None? ==> SyncDecides(old(disk.s), disk.s, source, destination, false)
    ensures Through(old(disk.trace), disk.trace, s => OldOrSource(old(disk.s), s, source, destination))
    ensures Through(old(disk.trace), disk.trace, s => SourceOrOld(old(disk.s), s, source, destination))
    ensures Between(old(disk.s), disk.s, source, destination)
    ensures forall p :: p != source && p != destination ==> SameEntry(old(disk.s), disk.s, p)
    ensures disk.fine ==> old(disk.fine)
    ensures disk.fine && old(disk.s).current(source).FileEntry? ==>
      || old(disk.s).current(Parent(destination)) != DirEntry || e == Some(LinkUnsupported)
      || (e == Some(EEXIST) && old(disk.s).current(destination) != Absent)
      || (e.None? && r == Done)
  {
    ghost var s0, t0 := disk.s, disk.trace;
    hide Between, SourceOrOld, OldOrSource, Unsynced, SyncDecides, Valid, LinkedAt, Live;
    ghost var whole := s => SourceOrOld(s0, s, source, destination) && OldOrSource(s0, s, source, destination);
    StillBetween(s0, source, destination);
    r := Done;
    e := disk.Link(source, destination);
    ghost var s1, t1 := disk.s, disk.trace;
    if e.Some? {
      ThroughOne(t0, s1, whole);
      return;
    }
    LinkPublished(s0, s1, source, destination);
    var error := disk.Unlink(source);
    LinkPublished(s0, disk.s, source, destination);
    ThroughOne(t0, s1, whole);
    ThroughOne(t1, disk.s, whole);
    ThroughBoth(t0, t1, disk.trace, whole);
    r := if error.Some? then Raised(OSError) else Done;
  }

  /** `leftover` tells that removing a failed copy failed too. */
  method WriteImmutableNoReplace(disk: Disk, source: Path, destination: Path)
    returns (r: Result, copied: bool, leftover: bool)
    requires Valid(disk.s) && destination != []
    modifies disk
    ensures Valid(disk.s)
    // an existing destination is never touched, not even for an instant
    ensures old(disk.s).current(destination) != Absent ==>
      r != Done && disk.s == old(disk.s) && Through(old(disk.trace), disk.trace, s => s == old(disk.s))
    ensures r == Raised(FileExists) ==> old(disk.s).current(destination) != Absent
    // success moves the source there, acceptable to `open_no_follow` exactly when the source was
    ensures r == Done ==> Published(old(disk.s), disk.s, source, destination)
    ensures r == Done ==> (Openable(disk.s, destination) <==> Openable(old(disk.s), source))
    ensures r == Done && copied ==> Openable(disk.s, destination)
    // failure leaves nothing partial, unless removing the failed copy failed
    ensures r != Done && old(disk.s).current(destination) == Absent ==>
      || disk.s.current(destination) == Absent || (copied && leftover)
      || (Live(old(disk.s), source).Some? && Live(disk.s, destination) == Live(old(disk.s), source))
    ensures leftover ==> copied && r != Done && !disk.fine
    // and through a hard link nobody ever sees a part
    ensures !copied ==> Through(old(disk.trace), disk.trace, s => OldOrSource(old(disk.s), s, source, destination))
    // at every instant a crash may tear the destination exactly if an unsynced file became possible there, and the file
    // there may come up under a second name only if it has been linked
    ensures Through(old(disk.trace), disk.trace, s => SourceOrOld(old(disk.s), s, source, destination))
    // no directory is synced, so that a crash may undo the success; what a sync of the directory makes of it
    ensures Between(old(disk.s), disk.s, source, destination)
    ensures forall p :: p != source && p != destination ==> SameEntry(old(disk.s), disk.s, p)
    ensures r == Done ==> Unsynced(old(disk.s), disk.s, source, destination)
    ensures r == Done ==> SyncDecides(old(disk.s), disk.s, source, destination, copied)
    ensures r == Done ==> (SyncedFile(disk.s, destination) <==> copied || SyncedFile(old(disk.s), source))
    // with the directory there, only a failing call or an existing destination makes it fail
    ensures disk.fine ==> old(disk.fine)
    ensures disk.fine && old(disk.s).current(Parent(destination)) == DirEntry && Openable(old(disk.s), source) ==>
      r == FreeOrExists(old(disk.s), destination)
  {
    ghost var s0, t0 := disk.s, disk.trace;
    copied, leftover := false, false;
    var e;
    e, r := PublishByLink(disk, source, destination);
    ghost var t1 := disk.trace;
    if e == Some(LinkUnsupported) {
      copied := true;
      r, leftover := PublishByCopy(disk, source, destination);
      ThroughBoth(t0, t1, disk.trace, s => SourceOrOld(s0, s, source, destination));
      return;
    }
    if e.Some? {
      return Raised(if e == Some(EEXIST) then FileExists else OSError), false, false;
    }
    LinkMoves(s0, source, destination);
  }

  /** A hard link to a synced file is crash-atomic: a crash shows the old destination or the whole source. */
  lemma {:induction false} LinkNeverTears(s: State, source: Path, destination: Path, data: seq<byte>)
    requires s.current(source).FileEntry? && s.file(s.current(source).ino).clean && source != destination
    requires MayHold(LinkedAt(s, source, destination), destination, data)
    ensures MayHold(s, destination, data) || Live(s, source) == Some(data)
  {
    var t := LinkedAt(s, source, destination);
    var i :| FileEntry(i) in t.possible(destination) && (t.file(i).clean ==> data == t.file(i).data);
    forall a | a < destination ensures DirEntry in s.possible(a) {
      assert DirEntry in t.possible(a) && a != destination;
    }
    if i != s.current(source).ino {
      assert FileEntry(i) in s.possible(destination);
    }
  }

  /** The copy is not: from the moment its name exists until it is synced, a crash may leave any bytes at all. */
  lemma {:induction false} CopyMayTear(s: State, destination: Path, ino: nat, junk: seq<byte>)
    requires Valid(s) && destination != [] && s.current(destination) == FileEntry(ino) && !s.file(ino).clean
    ensures MayTear(s, destination) && MayHold(s, destination, junk)
  {
    assert FileEntry(ino) in s.possible(destination);
    forall a | a < destination ensures DirEntry in s.possible(a) {
      assert s.current(a) in s.possible(a);
    }
  }
}
