/** A disk that can lose power: what each system call changes now, and what a crash may leave. */
module CrashDisk {
  import opened Basics

  type Name = string
  type Path = seq<Name>

  datatype Entry = Absent | DirEntry | FileEntry(ino: nat) | SymlinkEntry(text: string)

  /** `clean`: all of `data` has been synced since it was last written. */
  datatype File = File(data: seq<byte>, clean: bool)

  /** `possible(p)` holds every entry a crash may leave at `p`: the last synced one and all later ones. `names(i)` are
      the names of file `i`, its link count being their number, and `together` tells which names it had at once. */
  datatype State = State(
    current: Path -> Entry,
    possible: Path -> set<Entry>,
    file: nat -> File,
    next: nat,
    names: nat -> set<Path>,
    together: (nat, Path, Path) -> bool)

  predicate IsChild(p: Path, dir: Path) {
    p != [] && p[..|p| - 1] == dir
  }

  /** `a` is `p` or one of its ancestors. */
  predicate AtOrAbove(a: Path, p: Path) {
    a <= p
  }

  predicate Above(a: Path, p: Path) {
    a < p
  }

  function Parent(p: Path): Path
    requires p != []
  {
    p[..|p| - 1]
  }

  /** Directories are never removed or replaced, so nothing is below what was never a directory. */
  ghost predicate Consistent(s: State) {
    && s.possible([]) == {DirEntry}
    && (forall p :: s.current(p) in s.possible(p))
    && (forall p :: DirEntry in s.possible(p) ==> s.current(p) == DirEntry)
    && (forall p, q :: p < q && s.current(p) != DirEntry ==> s.possible(q) == {Absent})
    && (forall p, i: nat :: FileEntry(i) in s.possible(p) ==> i < s.next)
    && (forall i: nat, p {:trigger p in s.names(i)} :: p in s.names(i) <==> s.current(p) == FileEntry(i))
  }

  ghost predicate Valid(s: State) {
    && Consistent(s)
    && forall i: nat, p, q {:trigger s.together(i, p, q)} ::
         && (s.current(p) == FileEntry(i) && s.current(q) == FileEntry(i) ==> s.together(i, p, q))
         && (s.together(i, p, q) ==> i < s.next && s.together(i, q, p) && !(p < q))
  }

  // ---- Effects ----

  function Entered(s: State, p: Path, e: Entry): State {
    s.(current := (q: Path) => if q == p then e else s.current(q),
       possible := (q: Path) => if q == p then s.possible(q) + {e} else s.possible(q),
       names := (i: nat) => if e == FileEntry(i) then s.names(i) + {p} else s.names(i) - {p})
  }

  /** Names that a file has now it has had at once. */
  function Noted(s: State): State {
    s.(together := (i: nat, p: Path, q: Path) =>
         s.together(i, p, q) || (s.current(p) == FileEntry(i) && s.current(q) == FileEntry(i)))
  }

  function WithEntry(s: State, p: Path, e: Entry): State {
    Noted(Entered(s, p, e))
  }

  function WithFile(s: State, i: nat, f: File): State {
    s.(file := (j: nat) => if j == i then f else s.file(j))
  }

  /** The entries of `dir` are synced. */
  function Synced(s: State, dir: Path): State {
    s.(possible := (q: Path) => if IsChild(q, dir) then {s.current(q)} else s.possible(q))
  }

  function Created(s: State, p: Path): State {
    WithEntry(WithFile(s.(next := s.next + 1), s.next, File([], false)), p, FileEntry(s.next))
  }

  function Appended(s: State, i: nat, data: seq<byte>): State {
    WithFile(s, i, s.file(i).(data := s.file(i).data + data, clean := false))
  }

  function FileSynced(s: State, i: nat): State {
    WithFile(s, i, s.file(i).(clean := true))
  }

  function Unlinked(s: State, p: Path): State
    requires s.current(p).FileEntry?
  {
    WithEntry(s, p, Absent)
  }

  function LinkedAt(s: State, from: Path, to: Path): State
    requires s.current(from).FileEntry?
  {
    WithEntry(s, to, s.current(from))
  }

  /** `rename`: one name gives way to the other at once, so that the file never has both. */
  function Replaced(s: State, from: Path, to: Path): State
    requires s.current(from).FileEntry?
  {
    if s.current(to) == s.current(from) then s
    else Noted(Entered(Entered(s, to, s.current(from)), from, Absent))
  }

  lemma {:induction false} DirsAbove(s: State, p: Path, a: Path)
    requires Consistent(s) && s.current(p) == DirEntry && a <= p
    ensures s.current(a) == DirEntry
  {
    assert s.current(p) in s.possible(p);
    assert a == p || a < p;
  }

  lemma {:induction false} EnteredConsistent(s: State, p: Path, e: Entry)
    requires Consistent(s) && p != [] && s.current(Parent(p)) == DirEntry && s.current(p) != DirEntry
    requires e.FileEntry? ==> e.ino < s.next
    ensures Consistent(Entered(s, p, e))
  {
    var t := Entered(s, p, e);
    forall a, q | a < q && t.current(a) != DirEntry ensures t.possible(q) == {Absent} {
      if q == p {
        DirsAbove(s, Parent(p), a);
      }
    }
  }

  lemma {:induction false} NotedValid(s: State)
    requires Consistent(s)
    requires forall i: nat, p, q {:trigger s.together(i, p, q)} ::
      s.together(i, p, q) ==> i < s.next && s.together(i, q, p) && !(p < q)
    ensures Valid(Noted(s))
  {
  }

  lemma {:induction false} WithEntryValid(s: State, p: Path, e: Entry)
    requires Valid(s) && p != [] && s.current(Parent(p)) == DirEntry && s.current(p) != DirEntry
    requires e.FileEntry? ==> e.ino < s.next
    ensures Valid(WithEntry(s, p, e))
  {
    EnteredConsistent(s, p, e);
    NotedValid(Entered(s, p, e));
  }

  lemma {:induction false} SyncedValid(s: State, dir: Path)
    requires Valid(s)
    ensures Valid(Synced(s, dir))
  {
  }

  // ---- What is seen, now and after a crash ----

  function Live(s: State, p: Path): Option<seq<byte>> {
    match s.current(p)
    case FileEntry(i) => Some(s.file(i).data)
    case _ => None
  }

  /** After a crash `p` may hold these bytes; a file that was not synced may hold any. */
  ghost predicate MayHold(s: State, p: Path, data: seq<byte>) {
    && (forall a :: a < p ==> DirEntry in s.possible(a))
    && exists i :: FileEntry(i) in s.possible(p) && (s.file(i).clean ==> data == s.file(i).data)
  }

  /** After a crash there may be no file at `p`. */
  ghost predicate MayMiss(s: State, p: Path) {
    || (exists a, e :: a < p && e in s.possible(a) && e != DirEntry)
    || (exists e :: e in s.possible(p) && !e.FileEntry?)
  }

  /** After a crash `p` may hold any bytes at all: one of its possible files was not synced. */
  ghost predicate MayTear(s: State, p: Path) {
    && (forall a :: a < p ==> DirEntry in s.possible(a))
    && exists i :: FileEntry(i) in s.possible(p) && !s.file(i).clean
  }

  ghost predicate MaySee(s: State, p: Path, seen: Option<seq<byte>>) {
    match seen
    case Some(data) => MayHold(s, p, data)
    case None => MayMiss(s, p)
  }

  // ---- What is left alone ----

  /** The entry at `p` is the one it was, or a directory was made there; a sync may have made it durable. */
  predicate Gentle(s0: State, s: State, p: Path) {
    || (s.current(p) == s0.current(p) && s.possible(p) <= s0.possible(p))
    || (s0.current(p) == Absent && s.current(p) == DirEntry && s.possible(p) <= s0.possible(p) + {DirEntry})
  }

  ghost predicate OldFilesKept(s0: State, s: State) {
    && s0.next <= s.next
    && forall i: nat :: i < s0.next ==> s.file(i).data == s0.file(i).data && s.file(i).clean == s0.file(i).clean
  }

  /** File `i` may come up under no name that it could not come up under before, nor under two that it could not. */
  ghost predicate LinksKept(s0: State, s: State, i: nat) {
    && (forall p :: FileEntry(i) in s.possible(p) ==> FileEntry(i) in s0.possible(p))
    && (forall p, q :: s.together(i, p, q) <==> s0.together(i, p, q))
  }

  /** No old file but those of `linked` got another name. */
  ghost predicate OldLinksKept(s0: State, s: State, linked: iset<nat>) {
    forall i: nat :: i < s0.next && i !in linked ==> LinksKept(s0, s, i)
  }

  /** Except for the entries at `names` nothing happened but syncs, the making of directories and work on new files;
      the files of `linked` may have got other names. */
  ghost predicate CalmBut(s0: State, s: State, names: iset<Path>, linked: iset<nat>) {
    OldFilesKept(s0, s) && OldLinksKept(s0, s, linked) && forall p :: p !in names ==> Gentle(s0, s, p)
  }

  ghost predicate Calm(s0: State, s: State, names: iset<Path>) {
    CalmBut(s0, s, names, iset{})
  }

  lemma {:induction false} CalmButBoth(s0: State, s1: State, s2: State, some: iset<Path>, names: iset<Path>,
      linked: iset<nat>)
    requires Calm(s0, s1, names) && CalmBut(s1, s2, some, linked)
    requires some <= names && forall i :: i in linked ==> i >= s0.next
    ensures Calm(s0, s2, names)
  {
    forall p | p !in names ensures Gentle(s0, s2, p) {
      assert Gentle(s0, s1, p) && Gentle(s1, s2, p);
    }
    forall i: nat | i < s0.next ensures LinksKept(s0, s2, i) {
      assert LinksKept(s0, s1, i) && LinksKept(s1, s2, i);
    }
  }

  lemma {:induction false} CalmBoth(s0: State, s1: State, s2: State, names: iset<Path>)
    requires Calm(s0, s1, names) && Calm(s1, s2, names)
    ensures Calm(s0, s2, names)
  {
    CalmButBoth(s0, s1, s2, names, names, iset{});
  }

  lemma {:induction false} CalmButThen(s0: State, s1: State, s2: State, names: iset<Path>, linked: iset<nat>)
    requires CalmBut(s0, s1, names, linked) && Calm(s1, s2, names)
    ensures CalmBut(s0, s2, names, linked)
  {
    forall p | p !in names ensures Gentle(s0, s2, p) {
      assert Gentle(s0, s1, p) && Gentle(s1, s2, p);
    }
    forall i: nat | i < s0.next && i !in linked ensures LinksKept(s0, s2, i) {
      assert LinksKept(s0, s1, i) && LinksKept(s1, s2, i);
    }
  }

  lemma {:induction false} CalmSelf(s: State, names: iset<Path>)
    ensures Calm(s, s, names)
  {
  }

  lemma {:induction false} CalmWider(s0: State, s: State, some: iset<Path>, names: iset<Path>)
    requires Calm(s0, s, some) && some <= names
    ensures Calm(s0, s, names)
  {
  }

  ghost function FileAt(s: State, p: Path): iset<nat> {
    iset i: nat | s.current(p) == FileEntry(i)
  }

  lemma {:induction false} MkdirCalm(s: State, p: Path)
    requires Valid(s) && s.current(p) == Absent
    ensures Calm(s, WithEntry(s, p, DirEntry), iset{})
  {
    forall i: nat | i < s.next ensures LinksKept(s, WithEntry(s, p, DirEntry), i) {
    }
  }

  lemma {:induction false} CreatedCalm(s: State, p: Path)
    requires Valid(s)
    ensures Calm(s, Created(s, p), iset{p})
  {
    forall i: nat | i < s.next ensures LinksKept(s, Created(s, p), i) {
    }
  }

  lemma {:induction false} UnlinkedCalm(s: State, p: Path)
    requires Valid(s) && s.current(p).FileEntry?
    ensures Calm(s, Unlinked(s, p), iset{p})
  {
    forall i: nat | i < s.next ensures LinksKept(s, Unlinked(s, p), i) {
    }
  }

  lemma {:induction false} LinkedCalm(s: State, from: Path, to: Path)
    requires Valid(s) && s.current(from).FileEntry?
    ensures CalmBut(s, LinkedAt(s, from, to), iset{to}, FileAt(s, from))
  {
    forall i: nat | i < s.next && i !in FileAt(s, from) ensures LinksKept(s, LinkedAt(s, from, to), i) {
    }
  }

  lemma {:induction false} ReplacedCalm(s: State, from: Path, to: Path)
    requires Valid(s) && s.current(from).FileEntry?
    ensures CalmBut(s, Replaced(s, from, to), iset{from, to}, FileAt(s, from))
  {
    forall i: nat | i < s.next && i !in FileAt(s, from) ensures LinksKept(s, Replaced(s, from, to), i) {
    }
  }

  lemma {:induction false} SyncedCalm(s: State, dir: Path)
    requires Valid(s)
    ensures Calm(s, Synced(s, dir), iset{})
  {
  }

  /** A path that no entry was added to shows after a crash at most what it could show before. */
  lemma {:induction false} SeenBefore(s0: State, s: State, p: Path, seen: Option<seq<byte>>)
    requires Valid(s0) && OldFilesKept(s0, s) && MaySee(s, p, seen)
    requires (forall a :: a < p ==> Gentle(s0, s, a)) && s.possible(p) <= s0.possible(p) + {DirEntry}
    requires DirEntry in s.possible(p) ==> DirEntry in s0.possible(p) || Absent in s0.possible(p)
    ensures MaySee(s0, p, seen)
  {
    match seen {
      case None =>
        if a, e :| a < p && e in s.possible(a) && e != DirEntry {
          assert Gentle(s0, s, a);
        }
      case Some(data) =>
        var i :| FileEntry(i) in s.possible(p) && (s.file(i).clean ==> data == s.file(i).data);
        assert FileEntry(i) in s0.possible(p);
        forall a | a < p ensures DirEntry in s0.possible(a) {
          DirectoryBelow(s0, a, p, FileEntry(i));
        }
    }
  }

  lemma {:induction false} CalmSeen(s0: State, s: State, names: iset<Path>, p: Path, seen: Option<seq<byte>>)
    requires Valid(s0) && Calm(s0, s, names) && (forall a :: a <= p ==> a !in names) && MaySee(s, p, seen)
    ensures MaySee(s0, p, seen)
  {
    forall a | a <= p ensures Gentle(s0, s, a) && s0.current(a) in s0.possible(a) {
      assert a !in names;
    }
    SeenBefore(s0, s, p, seen);
  }

  lemma {:induction false} DirectoryBelow(s: State, a: Path, p: Path, e: Entry)
    requires Valid(s) && a < p && e in s.possible(p) && e != Absent
    ensures s.current(a) == DirEntry && DirEntry in s.possible(a)
  {
  }

  /** What the machine may come up with after a crash: one possible entry each, nothing below what is no directory,
      every synced file whole, and a file under two names only if it had both at once. The link counts are those of
      the names that came up. */
  ghost predicate Reboot(s: State, t: State) {
    && Valid(t) && t.next == s.next
    && (forall p :: t.possible(p) == {t.current(p)})
    && (forall p :: t.current(p) in s.possible(p) || Buried(t, p))
    && (forall i: nat :: t.file(i).clean && (s.file(i).clean ==> t.file(i).data == s.file(i).data))
    && (forall i: nat, p, q {:trigger s.together(i, p, q)} ::
         p != q && t.current(p) == FileEntry(i) && t.current(q) == FileEntry(i) ==> s.together(i, p, q))
  }

  ghost predicate Buried(t: State, p: Path) {
    t.current(p) == Absent && exists a :: a < p && t.current(a) != DirEntry
  }

  /** Nothing comes up that a crash may not show. */
  lemma {:induction false} RebootShows(s: State, t: State, p: Path)
    requires Reboot(s, t)
    ensures MaySee(s, p, Live(t, p))
  {
    if t.current(p).FileEntry? {
      var i := t.current(p).ino;
      assert FileEntry(i) in s.possible(p) && (s.file(i).clean ==> t.file(i).data == s.file(i).data);
      forall a | a < p ensures DirEntry in s.possible(a) {
        DirectoryBelow(t, a, p, FileEntry(i));
        assert t.current(a) in s.possible(a) || Buried(t, a);
      }
    } else if Buried(t, p) {
      var a := DeadEnd(s, t, p);
    }
  }

  /** The way to a buried entry ends at an entry that a crash may leave and that is no directory. */
  lemma {:induction false} DeadEnd(s: State, t: State, p: Path) returns (a: Path)
    requires Reboot(s, t) && Buried(t, p)
    ensures a < p && t.current(a) != DirEntry && t.current(a) in s.possible(a)
    decreases |p|
  {
    a :| a < p && t.current(a) != DirEntry;
    if t.current(a) !in s.possible(a) {
      var q := a;
      a := DeadEnd(s, t, q);
      assert a <= q <= p;
    }
  }

  // ---- Link counts ----

  /** What `open_no_follow` lets through: a regular file with one link. */
  predicate Openable(s: State, p: Path) {
    s.current(p).FileEntry? && |s.names(s.current(p).ino)| == 1
  }

  /** A link count of one means that this is the file's only name. */
  lemma {:induction false} OpenableMeans(s: State, p: Path)
    requires Valid(s) && s.current(p).FileEntry?
    ensures Openable(s, p) <==> forall q :: q != p ==> s.current(q) != s.current(p)
  {
    var names := s.names(s.current(p).ino);
    assert p in names && |names - {p}| == |names| - 1;
    if forall q :: q != p ==> s.current(q) != s.current(p) {
      assert names == {p};
    }
    if |names| == 1 {
      forall q | q != p ensures s.current(q) != s.current(p) {
        assert q in names ==> q in names - {p};
      }
    }
  }

  /** No crash can leave a file under this name and another one. */
  ghost predicate Alone(s: State, p: Path) {
    forall i: nat, q :: q != p && FileEntry(i) in s.possible(p) && FileEntry(i) in s.possible(q) ==>
      !s.together(i, p, q)
  }

  lemma {:induction false} AloneIsOpenable(s: State, p: Path)
    requires Valid(s) && Alone(s, p) && s.current(p).FileEntry?
    ensures Openable(s, p)
  {
    var i := s.current(p).ino;
    forall q | q != p ensures s.current(q) != FileEntry(i) {
      var both := s.together(i, p, q);
    }
    OpenableMeans(s, p);
  }

  /** Two names may come up for the file that is here. */
  predicate TwoNames(s: State, p: Path, q: Path) {
    s.current(p).FileEntry? && q != p && s.current(p) in s.possible(q) && s.together(s.current(p).ino, p, q)
  }

  ghost predicate Doubled(s: State, p: Path) {
    exists q :: TwoNames(s, p, q)
  }

  /** A name that no old file came to is as much alone as it was. */
  lemma {:induction false} AloneKept(s0: State, s: State, p: Path)
    requires Valid(s0) && OldLinksKept(s0, s, iset{}) && Alone(s0, p)
    requires forall i: nat :: FileEntry(i) in s.possible(p) ==> FileEntry(i) in s0.possible(p)
    ensures Alone(s, p)
  {
    forall i: nat, q | q != p && FileEntry(i) in s.possible(p) && FileEntry(i) in s.possible(q)
      ensures !s.together(i, p, q)
    {
      assert FileEntry(i) in s0.possible(p);
      assert LinksKept(s0, s, i);
    }
  }

  /** So is one that came to hold a file which has no other name. */
  lemma {:induction false} AloneWithNew(s0: State, s: State, p: Path, ino: nat)
    requires Valid(s0) && OldLinksKept(s0, s, iset{}) && Alone(s0, p)
    requires forall i: nat :: i != ino && FileEntry(i) in s.possible(p) ==> FileEntry(i) in s0.possible(p)
    requires forall q :: q != p && FileEntry(ino) in s.possible(q) ==> !s.together(ino, p, q)
    ensures Alone(s, p)
  {
    forall i: nat, q | q != p && FileEntry(i) in s.possible(p) && FileEntry(i) in s.possible(q)
      ensures !s.together(i, p, q)
    {
      if i != ino {
        assert FileEntry(i) in s0.possible(p);
        assert LinksKept(s0, s, i);
      }
    }
  }

  /** And none has. */
  lemma {:induction false} UpIsAlone(s: State, t: State, p: Path)
    requires Reboot(s, t) && Alone(s, p)
    ensures Alone(t, p) && (t.current(p).FileEntry? ==> Openable(t, p))
  {
    forall i: nat, q | q != p && t.current(p) == FileEntry(i) ensures t.current(q) != FileEntry(i) {
      var both := s.together(i, p, q);
    }
    if t.current(p).FileEntry? {
      AloneIsOpenable(t, p);
    }
  }

  // ---- System calls ----

  datatype Errno = EEXIST | ENOENT | LinkUnsupported | OtherErrno

  /** One machine. `trace` records the state after every system call; each may fail for reasons of its own. */
  class Disk {
    var s: State
    ghost var trace: seq<State>
    /** No call has failed yet for a reason of its own. */
    ghost var fine: bool

    method Mkdir(p: Path) returns (e: Option<Errno>)
      requires Valid(s) && p != []
      modifies this
      ensures trace == old(trace) + [s] && Valid(s) && (fine ==> old(fine))
      ensures e == Some(EEXIST) ==> old(s).current(p) != Absent
      ensures e.None? ==> old(s).current(p) == Absent
      ensures s == if e.Some? then old(s) else WithEntry(old(s), p, DirEntry)
      ensures fine && old(s).current(p) != Absent ==> e == Some(EEXIST)
      ensures fine && old(s).current(Parent(p)) == DirEntry && old(s).current(p) == Absent ==> e.None?
    {
      var fails := *;
      if fails {
        e := Some(OtherErrno);
      } else if s.current(p) != Absent {
        e := Some(EEXIST);
      } else if s.current(Parent(p)) != DirEntry {
        e := Some(ENOENT);
      } else {
        WithEntryValid(s, p, DirEntry);
        s := WithEntry(s, p, DirEntry);
        e := None;
      }
      fine := fine && e != Some(OtherErrno);
      trace := trace + [s];
    }

    /** `open(O_CREAT | O_EXCL)` */
    method Create(p: Path) returns (e: Option<Errno>, ino: nat)
      requires Valid(s) && p != []
      modifies this
      ensures trace == old(trace) + [s] && Valid(s) && (fine ==> old(fine))
      ensures e == Some(EEXIST) ==> old(s).current(p) != Absent
      ensures e.None? ==> old(s).current(p) == Absent && ino == old(s).next
      ensures s == if e.Some? then old(s) else Created(old(s), p)
      ensures fine && old(s).current(p) != Absent ==> e == Some(EEXIST)
      ensures fine && old(s).current(Parent(p)) == DirEntry && old(s).current(p) == Absent ==> e.None?
    {
      var fails := *;
      ino := s.next;
      if fails {
        e := Some(OtherErrno);
      } else if s.current(p) != Absent {
        e := Some(EEXIST);
      } else if s.current(Parent(p)) != DirEntry {
        e := Some(ENOENT);
      } else {
        WithEntryValid(WithFile(s.(next := ino + 1), ino, File([], false)), p, FileEntry(ino));
        s := Created(s, p);
        e := None;
      }
      fine := fine && e != Some(OtherErrno);
      trace := trace + [s];
    }

    /** `os.write` at the end of the file: at least one byte, but perhaps not all of them. */
    method Write(ino: nat, data: seq<byte>) returns (e: Option<Errno>, written: nat)
      requires Valid(s) && data != []
      modifies this
      ensures trace == old(trace) + [s] && Valid(s) && (fine ==> old(fine))
      ensures e.None? ==> 1 <= written <= |data|
      ensures s == if e.Some? then old(s) else Appended(old(s), ino, data[..written])
      ensures fine ==> e.None?
    {
      var fails := *;
      written := *;
      if fails || !(1 <= written <= |data|) {
        e := Some(OtherErrno);
      } else {
        s := Appended(s, ino, data[..written]);
        e := None;
      }
      fine := fine && e != Some(OtherErrno);
      trace := trace + [s];
    }

    /** A call whose success changes nothing modelled here, such as `fchmod` or `stat`. */
    method Other() returns (e: Option<Errno>)
      modifies this
      ensures trace == old(trace) + [s] && s == old(s)
      ensures fine ==> old(fine) && e.None?
    {
      var fails := *;
      e := if fails then Some(OtherErrno) else None;
      fine := fine && e != Some(OtherErrno);
      trace := trace + [s];
    }

    /** `os.fsync` of a file */
    method Fsync(ino: nat) returns (e: Option<Errno>)
      requires Valid(s)
      modifies this
      ensures trace == old(trace) + [s] && Valid(s) && (fine ==> old(fine))
      ensures s == if e.Some? then old(s) else FileSynced(old(s), ino)
      ensures fine ==> e.None?
    {
      var fails := *;
      if fails {
        e := Some(OtherErrno);
      } else {
        s := FileSynced(s, ino);
        e := None;
      }
      fine := fine && e != Some(OtherErrno);
      trace := trace + [s];
    }

    /** `os.open` and `os.fsync` of a directory */
    method SyncEntries(dir: Path) returns (e: Option<Errno>)
      requires Valid(s)
      modifies this
      ensures trace == old(trace) + [s] && Valid(s) && (fine ==> old(fine))
      ensures s == if e.Some? then old(s) else Synced(old(s), dir)
      ensures fine ==> e.None?
    {
      var fails := *;
      if fails {
        e := Some(OtherErrno);
      } else {
        SyncedValid(s, dir);
        s := Synced(s, dir);
        e := None;
      }
      fine := fine && e != Some(OtherErrno);
      trace := trace + [s];
    }

    method Unlink(p: Path) returns (e: Option<Errno>)
      requires Valid(s)
      modifies this
      ensures trace == old(trace) + [s] && Valid(s) && (fine ==> old(fine))
      ensures e.None? ==> old(s).current(p).FileEntry?
      ensures s == if e.Some? then old(s) else Unlinked(old(s), p)
      ensures fine && old(s).current(p).FileEntry? ==> e.None?
    {
      var fails := *;
      if fails {
        e := Some(OtherErrno);
      } else if !s.current(p).FileEntry? {
        e := Some(ENOENT);
      } else {
        FileHasParent(s, p);
        WithEntryValid(s, p, Absent);
        s := Unlinked(s, p);
        e := None;
      }
      fine := fine && e != Some(OtherErrno);
      trace := trace + [s];
    }

    /** `os.replace` of one file by another */
    method Replace(from: Path, to: Path) returns (e: Option<Errno>)
      requires Valid(s) && to != []
      modifies this
      ensures trace == old(trace) + [s] && Valid(s) && (fine ==> old(fine))
      ensures e.None? ==> old(s).current(from).FileEntry?
      ensures s == if e.Some? then old(s) else Replaced(old(s), from, to)
      ensures fine && old(s).current(from).FileEntry? ==>
        e.None? || old(s).current(to) == DirEntry || old(s).current(Parent(to)) != DirEntry
    {
      var fails := *;
      if fails || !s.current(from).FileEntry? || s.current(to).DirEntry? || !s.current(Parent(to)).DirEntry? {
        e := Some(OtherErrno);
      } else {
        ReplacedValid(s, from, to);
        s := Replaced(s, from, to);
        e := None;
      }
      fine := fine && !fails;
      trace := trace + [s];
    }

    /** `os.link`, which never replaces an existing name */
    method Link(from: Path, to: Path) returns (e: Option<Errno>)
      requires Valid(s) && to != []
      modifies this
      ensures trace == old(trace) + [s] && Valid(s) && (fine ==> old(fine))
      ensures e == Some(EEXIST) ==> old(s).current(to) != Absent
      ensures e.None? ==> old(s).current(to) == Absent && old(s).current(from).FileEntry?
      ensures s == if e.Some? then old(s) else LinkedAt(old(s), from, to)
      ensures fine && e == Some(ENOENT) ==> !old(s).current(from).FileEntry? || old(s).current(Parent(to)) != DirEntry
      ensures fine && e.Some? ==> e == Some(EEXIST) || e == Some(LinkUnsupported) || e == Some(ENOENT)
    {
      var fails, unsupported := *, *;
      if unsupported {
        e := Some(LinkUnsupported);
      } else if fails {
        e := Some(OtherErrno);
      } else if !s.current(from).FileEntry? || !s.current(Parent(to)).DirEntry? {
        e := Some(ENOENT);
      } else if s.current(to) != Absent {
        e := Some(EEXIST);
      } else {
        assert s.current(from) in s.possible(from);
        WithEntryValid(s, to, s.current(from));
        s := LinkedAt(s, from, to);
        e := None;
      }
      fine := fine && e != Some(OtherErrno);
      trace := trace + [s];
    }
  }

  lemma {:induction false} FileHasParent(s: State, p: Path)
    requires Valid(s) && s.current(p) != Absent && s.current(p) != DirEntry
    ensures p != [] && s.current(Parent(p)) == DirEntry
  {
  }

  lemma {:induction false} ReplacedValid(s: State, from: Path, to: Path)
    requires Valid(s) && s.current(from).FileEntry? && to != [] && s.current(to) != DirEntry &&
      s.current(Parent(to)) == DirEntry
    ensures Valid(Replaced(s, from, to))
  {
    if s.current(to) != s.current(from) {
      assert s.current(from) in s.possible(from);
      FileHasParent(s, from);
      var t := Entered(s, to, s.current(from));
      EnteredConsistent(s, to, s.current(from));
      EnteredConsistent(t, from, Absent);
      NotedValid(Entered(t, from, Absent));
    }
  }
}
