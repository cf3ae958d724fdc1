/** Publishing an event, syncing its directory and switching HEAD over to it: what a crash at any instant leaves, how
    many names the event may come up under, and when nothing but a failing call can stop it. */
module ChainCommit {
  import opened Basics
  import opened Unicode
  import opened CrashDisk
  import opened Fsops
  import opened ChainWalk

  // ---- What a crash cannot take ----

  /** A crash leaves the file there, with these bytes and under no second name, so that the reader accepts it. */
  ghost predicate Held(s: State, p: Path, data: seq<byte>) {
    CrashProof(s, p, data) && Alone(s, p)
  }

  /** The file at `p`, if there is one, was synced. */
  predicate Settled(s: State, p: Path) {
    s.current(p).FileEntry? ==> s.file(s.current(p).ino).clean
  }

  /** The way to `p` is durable, and the file there, if there is one, was synced. */
  ghost predicate Ready(s: State, p: Path) {
    AncestorsDurable(s, p) && Settled(s, p)
  }

  lemma {:induction false} AncestorsAreDirectories(s: State, p: Path, a: Path)
    requires Valid(s) && a < p && s.current(p) != Absent
    ensures s.current(a) == DirEntry && DirEntry in s.possible(a)
  {
    assert s.current(p) in s.possible(p) && s.current(a) in s.possible(a);
  }

  /** A crash-proof file is there now, the way to it is durable and its bytes are synced. */
  lemma {:induction false} CrashProofMeans(s: State, p: Path, data: seq<byte>)
    requires Valid(s) && CrashProof(s, p, data)
    ensures s.current(p).FileEntry? && Ready(s, p) && Live(s, p) == Some(data) && s.possible(p) != {}
  {
    var e := s.current(p);
    assert e in s.possible(p) && !MaySee(s, p, None);
    assert e.FileEntry?;
    forall a | a < p ensures s.possible(a) == {DirEntry} {
      AncestorsAreDirectories(s, p, a);
    }
    assert MaySee(s, p, Some(s.file(e.ino).data));
    if !s.file(e.ino).clean {
      assert MaySee(s, p, Some(data + [0]));
    }
  }

  lemma {:induction false} HeldMeans(s: State, p: Path, data: seq<byte>)
    requires Valid(s) && Held(s, p, data)
    ensures s.current(p).FileEntry? && Ready(s, p) && Live(s, p) == Some(data) && Openable(s, p)
    ensures forall a :: a < p ==> s.current(a) == DirEntry
  {
    CrashProofMeans(s, p, data);
    AloneIsOpenable(s, p);
    forall a | a < p ensures s.current(a) == DirEntry {
      AncestorsAreDirectories(s, p, a);
    }
  }

  /** A file that is ready is crash-proof when its entry is the only possible one. */
  lemma {:induction false} ReadyIsProof(s: State, p: Path, data: seq<byte>)
    requires s.current(p).FileEntry? && Ready(s, p) && Live(s, p) == Some(data) && s.possible(p) == {s.current(p)}
    ensures CrashProof(s, p, data)
  {
    forall seen | MaySee(s, p, seen) ensures seen == Some(data) {
      assert forall a, e :: a < p && e in s.possible(a) ==> e == DirEntry;
    }
  }

  /** What was not touched stays held. */
  lemma {:induction false} HeldKept(s0: State, s: State, names: iset<Path>, p: Path, data: seq<byte>)
    requires Valid(s0) && Calm(s0, s, names) && (forall a :: a <= p ==> a !in names) && Held(s0, p, data)
    ensures Held(s, p, data)
  {
    forall seen | MaySee(s, p, seen) ensures seen == Some(data) {
      CalmSeen(s0, s, names, p, seen);
    }
    assert Gentle(s0, s, p);
    AloneKept(s0, s, p);
  }

  /** The files of a directory may come up under other names in it only. */
  ghost predicate Tidy(s: State, dir: Path) {
    forall i: nat, p, q ::
      IsChild(p, dir) && !IsChild(q, dir) && FileEntry(i) in s.possible(p) && FileEntry(i) in s.possible(q) ==>
        !s.together(i, p, q)
  }

  /** Work inside a directory, or outside, leaves it tidy. */
  lemma {:induction false} TidyKept(s0: State, s: State, names: iset<Path>, dir: Path)
    requires Valid(s0) && Calm(s0, s, names) && Tidy(s0, dir)
    requires (forall p :: p in names ==> IsChild(p, dir)) || (forall p :: p in names ==> !IsChild(p, dir))
    ensures Tidy(s, dir)
  {
    forall i: nat, p, q | IsChild(p, dir) && !IsChild(q, dir) && FileEntry(i) in s.possible(p) &&
      FileEntry(i) in s.possible(q)
      ensures !s.together(i, p, q)
    {
      assert p !in names || q !in names;
      assert (p !in names ==> Gentle(s0, s, p)) && (q !in names ==> Gentle(s0, s, q));
      assert i < s0.next;
      assert LinksKept(s0, s, i);
    }
  }

  // ---- Names ----

  /** An entry that `_publish` may add: the event, unless it is there, and temporary files beside it. */
  ghost function PublishNames(store: Store, revision: PyStr, s: State): iset<Path>
    requires IsRevision(revision)
  {
    iset p: Path |
      || (p == EventPath(store, revision) && s.current(p) == Absent)
      || (Prefixed(".event-", p) && Parent(p) == EventsPath(store))
  }

  ghost function CommitNames(store: Store, revision: PyStr, s: State): iset<Path>
    requires IsRevision(revision)
  {
    PublishNames(store, revision, s) + Scratch(HeadPath(store))
  }

  /** Neither HEAD nor an event nor a directory on the way to them has a temporary name. */
  lemma {:induction false} HeadUntouched(store: Store, revision: PyStr, s: State)
    requires IsRevision(revision)
    ensures forall a :: a <= HeadPath(store) ==> a !in PublishNames(store, revision, s)
    ensures forall a :: a < HeadPath(store) ==> a !in CommitNames(store, revision, s)
    ensures !TempName(HeadPath(store))
    ensures forall p :: p in PublishNames(store, revision, s) ==> IsChild(p, EventsPath(store))
    ensures forall p :: p in Scratch(HeadPath(store)) ==> !IsChild(p, EventsPath(store))
  {
    assert |EventPath(store, revision)| == |store.directory| + 2 && |EventsPath(store)| == |store.directory| + 1;
    assert HeadPath(store)[|store.directory|] == HEAD_FILENAME && HEAD_FILENAME[0] != ATOMIC_TEMP_PREFIX[0];
    assert EventPath(store, revision)[..|store.directory| + 1] == EventsPath(store);
    forall p | p in Scratch(HeadPath(store)) ensures !IsChild(p, EventsPath(store)) {
      assert |p| == |store.directory| + 1;
    }
  }

  lemma {:induction false} EventUntouched(store: Store, revision: PyStr, other: PyStr, s: State)
    requires IsRevision(revision) && IsRevision(other)
    ensures forall a :: a < EventPath(store, other) ==> a !in CommitNames(store, revision, s)
    ensures EventPath(store, other) in CommitNames(store, revision, s) ==>
      other == revision && s.current(EventPath(store, other)) == Absent
    ensures forall a :: a <= EventPath(store, other) ==> a !in Scratch(HeadPath(store))
    ensures !Prefixed(EVENT_TEMP_PREFIX, EventPath(store, other))
  {
    var (p, d) := (EventPath(store, other), store.directory);
    assert p[|d| + 1] == EventName(other) && EventName(other)[0] == other[|Framing.REVISION_PREFIX|] as char;
    assert IsHexDigit(other[|Framing.REVISION_PREFIX|]);
    assert EventName(other)[0] != '.' && EVENT_TEMP_PREFIX[0] == '.';
    assert EVENTS_DIRNAME[0] != ATOMIC_TEMP_PREFIX[0] && p[|d|] == EVENTS_DIRNAME && Parent(HeadPath(store)) == d;
    forall a | a <= p ensures a !in Scratch(HeadPath(store)) {
      if |a| == |d| + 1 {
        assert a == EventsPath(store) && a[|d|] == EVENTS_DIRNAME && HeadPath(store)[|d|] == HEAD_FILENAME;
      } else if |a| <= |d| {
        assert a != [] ==> |Parent(a)| < |d|;
      } else {
        assert |Parent(a)| == |d| + 1;
      }
    }
    forall a | a < p ensures a !in PublishNames(store, revision, s) {
      assert a != [] ==> |Parent(a)| < |d| + 1;
    }
    if p == EventPath(store, revision) {
      EventNamesDiffer(store, other, revision);
    }
  }

  // ---- _publish ----

  /** The event's name is free, or the event is there under this name alone and holds these bytes. */
  predicate Publishable(s: State, event: Path, payload: seq<byte>) {
    s.current(event) == Absent || (Openable(s, event) && Live(s, event) == Some(payload))
  }

  /** What a successful publication means: the event is there and readable, synced exactly if it is new or was synced,
      and nothing on the way to it has been synced. */
  ghost predicate PublishedEvent(s0: State, s: State, event: Path, payload: seq<byte>) {
    && Openable(s, event) && Live(s, event) == Some(payload) && (Settled(s, event) <==> Settled(s0, event))
    && Publishable(s0, event, payload)
    && (forall a :: a < event ==> s.possible(a) == s0.possible(a))
  }

  /** An instant of a publication that began in `s0`. */
  ghost predicate PublishInstant(store: Store, revision: PyStr, s0: State, s: State)
    requires IsRevision(revision)
  {
    Calm(s0, s, PublishNames(store, revision, s0)) && AloneOrDoubled(s0, s, EventPath(store, revision))
  }

  /** Requires the stored bytes to be these. */
  method ReadBytesVerified(disk: Disk, path: Path, expected: seq<byte>) returns (r: Result)
    requires Valid(disk.s)
    modifies disk
    ensures disk.s == old(disk.s) && Through(old(disk.trace), disk.trace, s => s == old(disk.s))
    ensures r == Done ==> Live(disk.s, path) == Some(expected) && Openable(disk.s, path)
    ensures r != Done ==> r == Raised(PathError) || r == Raised(IntegrityError)
    ensures r == Raised(IntegrityError) ==> Live(disk.s, path) != Some(expected)
    ensures disk.fine ==> old(disk.fine)
    ensures disk.fine && Openable(disk.s, path) && Live(disk.s, path) == Some(expected) ==> r == Done
  {
    var data;
    r, data := ReadFileNoFollow(disk, path);
    if r != Done {
      return;
    }
    r := if data == Some(expected) then Done else Raised(IntegrityError);
  }

  lemma {:induction false} TempIsInstant(store: Store, revision: PyStr, s0: State, s: State, tmp: Path,
      payload: seq<byte>)
    requires IsRevision(revision) && Valid(s0) && s0.current(tmp) == Absent
    requires Prefixed(EVENT_TEMP_PREFIX, tmp) && Parent(tmp) == EventsPath(store)
    requires SyncedWhole(Created(s0, tmp), s, s0.next, payload)
    ensures PublishInstant(store, revision, s0, s)
    ensures forall p :: p != tmp ==> SameEntry(s0, s, p)
    ensures Alone(s0, EventPath(store, revision)) ==> Alone(s, EventPath(store, revision))
  {
    var (names, event) := (PublishNames(store, revision, s0), EventPath(store, revision));
    EventUntouched(store, revision, revision, s0);
    CreatedCalm(s0, tmp);
    CalmWider(s0, Created(s0, tmp), iset{tmp}, names);
    FillingIsCalm(s0, Created(s0, tmp), s, names, s0.next);
    if Alone(s0, event) {
      assert tmp != event;
      AloneKept(s0, s, event);
    }
  }

  /** The temporary file: filled, synced, never known under another name. */
  ghost predicate FreshTemp(s: State, tmp: Path, payload: seq<byte>) {
    && SyncedFile(s, tmp) && Live(s, tmp) == Some(payload) && Openable(s, tmp)
    && forall q :: s.current(tmp) in s.possible(q) ==> q == tmp
  }

  lemma {:induction false} FilledIsFresh(s0: State, s: State, tmp: Path, payload: seq<byte>)
    requires Valid(s0) && Valid(s) && s0.current(tmp) == Absent && SyncedWhole(Created(s0, tmp), s, s0.next, payload)
    requires s.file(s0.next).data == payload && s.file(s0.next).clean
    ensures FreshTemp(s, tmp, payload)
  {
    forall q | q != tmp ensures s.current(q) != s.current(tmp) {
      assert s0.current(q) in s0.possible(q);
    }
    OpenableMeans(s, tmp);
  }

  /** `mkstemp` and the inner `try`: a filled and synced temporary file. */
  method MakeEventTemp(store: Store, disk: Disk, revision: PyStr, payload: seq<byte>)
    returns (r: Result, created: bool, tmp: Path)
    requires Valid(disk.s) && IsRevision(revision)
    modifies disk
    ensures Valid(disk.s) && PublishInstant(store, revision, old(disk.s), disk.s)
    ensures Through(old(disk.trace), disk.trace, s => PublishInstant(store, revision, old(disk.s), s))
    ensures Prefixed(".event-", tmp) && Parent(tmp) == EventsPath(store)
    ensures r == Done ==> created && FreshTemp(disk.s, tmp, payload)
    ensures !created ==> disk.s == old(disk.s)
    ensures created ==> old(disk.s).current(tmp) == Absent && disk.s.current(tmp) == FileEntry(old(disk.s).next)
    ensures created ==> forall p :: p != tmp ==> SameEntry(old(disk.s), disk.s, p)
    ensures created ==> (Alone(old(disk.s), EventPath(store, revision)) ==> Alone(disk.s, EventPath(store, revision)))
    ensures disk.fine ==> old(disk.fine)
    ensures disk.fine && old(disk.s).current(EventsPath(store)) == DirEntry ==> r == Done
  {
    hide Valid, PublishInstant, Alone, FreshTemp;
    ghost var s0, t0 := disk.s, disk.trace;
    ghost var instant := s => PublishInstant(store, revision, s0, s);
    NothingIsInstant(store, revision, s0);
    var e, ino;
    e, ino, tmp := Mkstemp(disk, EventsPath(store), EVENT_TEMP_PREFIX);
    ghost var s1, t1 := disk.s, disk.trace;
    if e.Some? {
      ThroughOne(t0, s1, instant);
      return Raised(OSError), false, tmp;
    }
    created := true;
    SyncedFromStart(s1, ino, payload);
    r := FillAndSync(disk, ino, payload);
    forall s | SyncedWhole(s1, s, ino, payload) ensures PublishInstant(store, revision, s0, s) {
      TempIsInstant(store, revision, s0, s, tmp, payload);
    }
    ThroughOne(t0, s1, instant);
    ThroughWeaker(t1, disk.trace, s => SyncedWhole(s1, s, ino, payload), instant);
    ThroughBoth(t0, t1, disk.trace, instant);
    TempIsInstant(store, revision, s0, disk.s, tmp, payload);
    if r == Done {
      FilledIsFresh(s0, disk.s, tmp, payload);
    }
  }

  lemma {:induction false} NothingIsInstant(store: Store, revision: PyStr, s: State)
    requires IsRevision(revision)
    ensures PublishInstant(store, revision, s, s)
  {
    CalmSelf(s, PublishNames(store, revision, s));
  }

  /** An instant after the temporary file was made, which may get the event's name. */
  ghost predicate Linking(store: Store, revision: PyStr, s: State, t: State, tmp: Path)
    requires IsRevision(revision)
  {
    && CalmBut(s, t, PublishNames(store, revision, s), FileAt(s, tmp))
    && AloneOrDoubled(s, t, EventPath(store, revision))
  }

  lemma {:induction false} SourceIsLinking(store: Store, revision: PyStr, s: State, t: State, tmp: Path)
    requires IsRevision(revision) && s.current(EventPath(store, revision)) == Absent
    requires Prefixed(EVENT_TEMP_PREFIX, tmp) && Parent(tmp) == EventsPath(store)
    requires Between(s, t, tmp, EventPath(store, revision))
    ensures Linking(store, revision, s, t, tmp)
  {
    var names := PublishNames(store, revision, s);
    forall p | p !in names ensures Gentle(s, t, p) {
      assert p !in iset{tmp, EventPath(store, revision)};
    }
  }

  lemma {:induction false} NothingIsLinking(store: Store, revision: PyStr, s: State, tmp: Path)
    requires IsRevision(revision)
    ensures Linking(store, revision, s, s, tmp)
  {
  }

  /** The filled temporary file becomes the event, or the event is there and has the same bytes. */
  method PublishFilled(store: Store, disk: Disk, revision: PyStr, payload: seq<byte>, tmp: Path) returns (r: Result)
    requires Valid(disk.s) && IsRevision(revision)
    requires Prefixed(EVENT_TEMP_PREFIX, tmp) && Parent(tmp) == EventsPath(store) && FreshTemp(disk.s, tmp, payload)
    modifies disk
    ensures Valid(disk.s) && Linking(store, revision, old(disk.s), disk.s, tmp)
    ensures Through(old(disk.trace), disk.trace, s => Linking(store, revision, old(disk.s), s, tmp))
    ensures r == Done ==> PublishedEvent(old(disk.s), disk.s, EventPath(store, revision), payload)
    ensures r == Done && old(disk.s).current(EventPath(store, revision)) != Absent ==> disk.s == old(disk.s)
    ensures r == Done && old(disk.s).current(EventPath(store, revision)) == Absent ==> disk.s.current(tmp) == Absent
    ensures forall p :: p != tmp && p != EventPath(store, revision) ==> SameEntry(old(disk.s), disk.s, p)
    ensures disk.fine ==> old(disk.fine)
    ensures disk.fine && Publishable(old(disk.s), EventPath(store, revision), payload) ==>
      r == Done || old(disk.s).current(EventsPath(store)) != DirEntry
  {
    hide Valid, Linking, SourceOrOld, Between, SyncDecides, Unsynced;
    var event := EventPath(store, revision);
    ghost var s0, t0 := disk.s, disk.trace;
    ghost var linking := s => Linking(store, revision, s0, s, tmp);
    NothingIsLinking(store, revision, s0, tmp);
    assert Parent(event) == EventsPath(store);
    var copied, leftover;
    r, copied, leftover := WriteImmutableNoReplace(disk, tmp, event);
    ghost var s1, t1 := disk.s, disk.trace;
    if s0.current(event) == Absent {
      forall s | SourceOrOld(s0, s, tmp, event) || Between(s0, s, tmp, event)
        ensures Linking(store, revision, s0, s, tmp) {
        SourceIsBetween(s0, s, tmp, event);
        SourceIsLinking(store, revision, s0, s, tmp);
      }
      ThroughWeaker(t0, t1, s => SourceOrOld(s0, s, tmp, event), linking);
      if r == Done {
        LinkedOrCopied(store, revision, s0, s1, tmp, payload);
      }
    } else {
      ThroughWeaker(t0, t1, s => s == s0, linking);
    }
    if r == Raised(FileExists) {
      r := ReadBytesVerified(disk, event, payload);
      ThroughWeaker(t1, disk.trace, s => s == s0, linking);
      ThroughBoth(t0, t1, disk.trace, linking);
    }
  }

  lemma {:induction false} SourceIsBetween(s0: State, s: State, source: Path, destination: Path)
    requires SourceOrOld(s0, s, source, destination) || Between(s0, s, source, destination)
    ensures Between(s0, s, source, destination)
  {
  }

  lemma {:induction false} LinkedOrCopied(store: Store, revision: PyStr, s0: State, s: State, tmp: Path,
      payload: seq<byte>)
    requires IsRevision(revision) && Valid(s0) && Valid(s) && tmp != [] && Parent(tmp) == EventsPath(store)
    requires FreshTemp(s0, tmp, payload)
    requires var event := EventPath(store, revision);
      && s0.current(event) == Absent && Published(s0, s, tmp, event) && SyncedFile(s, event) && Openable(s, event)
      && forall p :: p != tmp && p != event ==> SameEntry(s0, s, p)
    ensures PublishedEvent(s0, s, EventPath(store, revision), payload)
  {
    var event := EventPath(store, revision);
    forall a | a < event ensures s.possible(a) == s0.possible(a) {
      assert |a| < |tmp|;
      assert SameEntry(s0, s, a);
    }
  }

  /** The temporary file was made in between. */
  ghost predicate TempMade(store: Store, revision: PyStr, s0: State, s1: State, tmp: Path)
    requires IsRevision(revision)
  {
    && PublishInstant(store, revision, s0, s1) && s0.current(tmp) == Absent && s1.current(tmp) == FileEntry(s0.next)
    && Prefixed(EVENT_TEMP_PREFIX, tmp) && Parent(tmp) == EventsPath(store)
    && (forall p :: p != tmp ==> SameEntry(s0, s1, p))
    && (Alone(s0, EventPath(store, revision)) ==> Alone(s1, EventPath(store, revision)))
  }

  lemma {:induction false} LinkingOnwards(store: Store, revision: PyStr, s0: State, s1: State, t: State, tmp: Path)
    requires IsRevision(revision) && TempMade(store, revision, s0, s1, tmp) && Linking(store, revision, s1, t, tmp)
    ensures PublishInstant(store, revision, s0, t)
  {
    var (names, event) := (PublishNames(store, revision, s0), EventPath(store, revision));
    EventUntouched(store, revision, revision, s0);
    assert SameEntry(s0, s1, event);
    assert PublishNames(store, revision, s1) == names;
    CalmButBoth(s0, s1, t, names, names, FileAt(s1, tmp));
  }

  lemma {:induction false} InstantAfterUnlink(store: Store, revision: PyStr, s0: State, s: State, tmp: Path)
    requires IsRevision(revision) && Valid(s) && PublishInstant(store, revision, s0, s) && s.current(tmp).FileEntry?
    requires Prefixed(EVENT_TEMP_PREFIX, tmp) && Parent(tmp) == EventsPath(store)
    ensures PublishInstant(store, revision, s0, Unlinked(s, tmp))
  {
    var (t, event, names) := (Unlinked(s, tmp), EventPath(store, revision), PublishNames(store, revision, s0));
    EventUntouched(store, revision, revision, s0);
    UnlinkedCalm(s, tmp);
    CalmWider(s, t, iset{tmp}, names);
    CalmBoth(s0, s, t, names);
    if Alone(s, event) {
      AloneKept(s, t, event);
    } else if q :| TwoNames(s, event, q) {
      assert TwoNames(t, event, q);
    }
  }

  /** Between the making of the temporary file and its removal. */
  lemma {:induction false} PublishedAround(store: Store, revision: PyStr, s0: State, s1: State, s2: State, s3: State,
      tmp: Path, payload: seq<byte>)
    requires IsRevision(revision) && Valid(s0) && Valid(s1) && Valid(s2) && TempMade(store, revision, s0, s1, tmp)
    requires PublishedEvent(s1, s2, EventPath(store, revision), payload)
    requires if s1.current(EventPath(store, revision)) == Absent then s2.current(tmp) == Absent else s2 == s1
    requires s3 == s2 || (s2.current(tmp).FileEntry? && s3 == Unlinked(s2, tmp))
    ensures PublishedEvent(s0, s3, EventPath(store, revision), payload)
  {
    var event := EventPath(store, revision);
    EventUntouched(store, revision, revision, s0);
    assert SameEntry(s0, s1, event) && s0.current(event) in s0.possible(event);
    forall a | a < event ensures s3.possible(a) == s0.possible(a) {
      assert |a| < |tmp|;
      assert SameEntry(s0, s1, a) && s2.possible(a) == s1.possible(a);
    }
    if s0.current(event) != Absent {
      forall q | q != event ensures s0.current(q) != s0.current(event) {
        OpenableMeans(s1, event);
        assert q != tmp ==> SameEntry(s0, s1, q);
      }
      OpenableMeans(s0, event);
    }
    OpenableAfterUnlink(s2, event, tmp);
  }

  lemma {:induction false} OpenableAfterUnlink(s: State, p: Path, tmp: Path)
    requires Valid(s) && Openable(s, p) && p != tmp
    ensures s.current(tmp).FileEntry? ==> Openable(Unlinked(s, tmp), p)
  {
    OpenableMeans(s, p);
    assert tmp !in s.names(s.current(p).ino);
    assert s.names(s.current(p).ino) - {tmp} == s.names(s.current(p).ino);
  }

  /** The outer `try`: the temporary file is published, if it could be filled, and its name goes in any case. */
  method PublishAndClear(store: Store, disk: Disk, revision: PyStr, payload: seq<byte>, tmp: Path, filled: Result,
      ghost s0: State)
    returns (r: Result)
    requires Valid(disk.s) && Valid(s0) && IsRevision(revision) && TempMade(store, revision, s0, disk.s, tmp)
    requires filled == Done ==> FreshTemp(disk.s, tmp, payload)
    modifies disk
    ensures Valid(disk.s) && PublishInstant(store, revision, s0, disk.s)
    ensures Through(old(disk.trace), disk.trace, s => PublishInstant(store, revision, s0, s))
    ensures r == Done ==> PublishedEvent(s0, disk.s, EventPath(store, revision), payload)
    ensures disk.s.current(HeadPath(store)) == s0.current(HeadPath(store))
    ensures disk.fine ==> old(disk.fine)
    ensures disk.fine && filled == Done && Publishable(old(disk.s), EventPath(store, revision), payload) ==>
      r == Done || s0.current(EventsPath(store)) != DirEntry
  {
    hide Valid, PublishInstant, Linking, PublishedEvent, FreshTemp, Alone, Publishable;
    ghost var instant := s => PublishInstant(store, revision, s0, s);
    ghost var s1, t1 := disk.s, disk.trace;
    r := filled;
    SameEvent(store, revision, s0, s1, tmp, payload);
    if r == Done {
      r := PublishFilled(store, disk, revision, payload, tmp);
      forall s | Linking(store, revision, s1, s, tmp) ensures PublishInstant(store, revision, s0, s) {
        LinkingOnwards(store, revision, s0, s1, s, tmp);
      }
      ThroughWeaker(t1, disk.trace, s => Linking(store, revision, s1, s, tmp), instant);
    }
    ghost var s2, t2 := disk.s, disk.trace;
    HeadAside(store, revision, tmp);
    assert SameEntry(s1, s2, HeadPath(store)) && SameEntry(s0, s1, HeadPath(store));
    var ignored := disk.Unlink(tmp);
    if s2.current(tmp).FileEntry? {
      InstantAfterUnlink(store, revision, s0, s2, tmp);
    }
    ThroughOne(t2, disk.s, instant);
    ThroughBoth(t1, t2, disk.trace, instant);
    if r == Done {
      PublishedAround(store, revision, s0, s1, s2, disk.s, tmp, payload);
    }
  }

  lemma {:induction false} HeadAside(store: Store, revision: PyStr, tmp: Path)
    requires IsRevision(revision) && Prefixed(EVENT_TEMP_PREFIX, tmp) && Parent(tmp) == EventsPath(store)
    ensures HeadPath(store) != tmp && HeadPath(store) != EventPath(store, revision)
  {
    assert |HeadPath(store)| == |store.directory| + 1 && |tmp| == |store.directory| + 2;
    assert |EventPath(store, revision)| == |store.directory| + 2;
  }

  method Publish(store: Store, disk: Disk, revision: PyStr, payload: seq<byte>) returns (r: Result)
    requires Valid(disk.s) && IsRevision(revision)
    modifies disk
    ensures Valid(disk.s) && PublishInstant(store, revision, old(disk.s), disk.s)
    ensures Through(old(disk.trace), disk.trace, s => PublishInstant(store, revision, old(disk.s), s))
    ensures r == Done ==> PublishedEvent(old(disk.s), disk.s, EventPath(store, revision), payload)
    ensures disk.s.current(HeadPath(store)) == old(disk.s).current(HeadPath(store))
    ensures disk.fine ==> old(disk.fine)
    ensures disk.fine && old(disk.s).current(EventsPath(store)) == DirEntry ==>
      (r == Done <==> Publishable(old(disk.s), EventPath(store, revision), payload))
  {
    hide Valid, PublishInstant, Linking, PublishedEvent, FreshTemp, Alone, Publishable, IsRevision;
    var event := EventPath(store, revision);
    ghost var s0, t0 := disk.s, disk.trace;
    ghost var instant := s => PublishInstant(store, revision, s0, s);
    var created, tmp;
    r, created, tmp := MakeEventTemp(store, disk, revision, payload);
    ghost var s1, t1 := disk.s, disk.trace;
    if !created {
      return;
    }
    assert TempMade(store, revision, s0, s1, tmp);
    SameEvent(store, revision, s0, s1, tmp, payload);
    r := PublishAndClear(store, disk, revision, payload, tmp, r, s0);
    ThroughBoth(t0, t1, disk.trace, instant);
    if r == Done {
      PublishedWasPublishable(s0, disk.s, event, payload);
    }
  }

  lemma {:induction false} PublishedWasPublishable(s0: State, s: State, event: Path, payload: seq<byte>)
    requires PublishedEvent(s0, s, event, payload)
    ensures Publishable(s0, event, payload)
  {
  }

  /** Making the temporary file leaves the event as it is. */
  lemma {:induction false} SameEvent(store: Store, revision: PyStr, s0: State, s1: State, tmp: Path, payload: seq<byte>)
    requires IsRevision(revision) && Valid(s0) && Valid(s1) && TempMade(store, revision, s0, s1, tmp)
    ensures var event := EventPath(store, revision);
      Publishable(s0, event, payload) <==> Publishable(s1, event, payload)
    ensures s0.current(EventPath(store, revision)) == s1.current(EventPath(store, revision))
    ensures s0.current(EventsPath(store)) == s1.current(EventsPath(store))
  {
    var event := EventPath(store, revision);
    EventUntouched(store, revision, revision, s0);
    assert |EventsPath(store)| < |tmp| && SameEntry(s0, s1, EventsPath(store));
    assert SameEntry(s0, s1, event) && s0.current(event) in s0.possible(event);
    if s0.current(event).FileEntry? {
      OpenableMeans(s0, event);
      OpenableMeans(s1, event);
      forall q | q != event ensures s0.current(q) != s0.current(event) <==> s1.current(q) != s1.current(event) {
        assert q != tmp ==> SameEntry(s0, s1, q);
      }
    }
  }

  // ---- The commit: publish, sync the directory, switch HEAD ----

  /** The new event will not be lost, nor refused. */
  ghost predicate NewIsWhole(store: Store, b: State, s: State, revision: PyStr, payload: seq<byte>)
    requires IsRevision(revision)
  {
    var event := EventPath(store, revision);
    (Ready(b, event) && Tidy(b, EventsPath(store)) ==> Held(s, event, payload)) && Publishable(b, event, payload)
  }

  /** An instant of a commit that began in `b`: HEAD is as it was, or it was switched to the new event, which is
      whole. */
  ghost predicate Committing(store: Store, b: State, s: State, revision: PyStr, payload: seq<byte>)
    requires IsRevision(revision)
  {
    && Calm(b, s, CommitNames(store, revision, b))
    && (Tidy(b, EventsPath(store)) ==> Tidy(s, EventsPath(store)))
    && (Alone(b, HeadPath(store)) ==> Alone(s, HeadPath(store)))
    && AloneOrDoubled(b, s, EventPath(store, revision))
    && (ShowsOld(b, s, HeadPath(store)) ||
        (ShowsNew(b, s, HeadPath(store), HeadText(revision)) && NewIsWhole(store, b, s, revision, payload)))
  }

  /** Before the switch HEAD is as it was. */
  lemma {:induction false} QuietIsCommitting(store: Store, b: State, s: State, revision: PyStr, payload: seq<byte>)
    requires IsRevision(revision) && Valid(b) && PublishInstant(store, revision, b, s)
    ensures Committing(store, b, s, revision, payload) && ShowsOld(b, s, HeadPath(store))
  {
    var (head, names) := (HeadPath(store), PublishNames(store, revision, b));
    HeadUntouched(store, revision, b);
    CalmWider(b, s, names, CommitNames(store, revision, b));
    assert Gentle(b, s, head) && b.current(head) in b.possible(head);
    forall seen | MaySee(s, head, seen) ensures MaySee(b, head, seen) {
      CalmSeen(b, s, names, head, seen);
    }
    if Alone(b, head) {
      AloneKept(b, s, head);
    }
    if Tidy(b, EventsPath(store)) {
      TidyKept(b, s, names, EventsPath(store));
    }
  }

  /** The event is there and its directory synced. */
  ghost predicate Prepared(store: Store, b: State, s: State, revision: PyStr, payload: seq<byte>)
    requires IsRevision(revision)
  {
    var event := EventPath(store, revision);
    && Valid(s) && PublishInstant(store, revision, b, s) && PublishedEvent(b, s, event, payload)
    && s.possible(event) == {s.current(event)} && (Tidy(b, EventsPath(store)) ==> Alone(s, event))
  }

  /** Where one entry only is possible, a second name is a second name of the file there. */
  lemma {:induction false} OneEntryDecides(s: State, p: Path)
    requires s.possible(p) <= {s.current(p)}
    ensures Alone(s, p) || Doubled(s, p)
  {
    if !Alone(s, p) {
      var i: nat, q :|
        q != p && FileEntry(i) in s.possible(p) && FileEntry(i) in s.possible(q) && s.together(i, p, q);
      assert TwoNames(s, p, q);
    }
  }

  /** After the sync the other names in the directory are gone. */
  lemma {:induction false} SyncedIsAlone(s: State, p: Path)
    requires Valid(s) && p != [] && Openable(s, p) && Tidy(s, Parent(p))
    ensures Alone(Synced(s, Parent(p)), p)
  {
    var t := Synced(s, Parent(p));
    OpenableMeans(s, p);
    assert s.current(p) in s.possible(p) && IsChild(p, Parent(p));
  }

  lemma {:induction false} SyncPrepares(store: Store, b: State, s: State, revision: PyStr, payload: seq<byte>)
    requires IsRevision(revision) && Valid(b) && Valid(s) && PublishInstant(store, revision, b, s)
    requires PublishedEvent(b, s, EventPath(store, revision), payload)
    ensures Prepared(store, b, Synced(s, EventsPath(store)), revision, payload)
  {
    var (t, event, names) := (Synced(s, EventsPath(store)), EventPath(store, revision),
      PublishNames(store, revision, b));
    SyncedValid(s, EventsPath(store));
    SyncedCalm(s, EventsPath(store));
    CalmWider(s, t, iset{}, names);
    CalmBoth(b, s, t, names);
    assert IsChild(event, EventsPath(store)) && Parent(event) == EventsPath(store);
    OneEntryDecides(t, event);
    HeadUntouched(store, revision, b);
    if Tidy(b, EventsPath(store)) {
      TidyKept(b, s, names, EventsPath(store));
      SyncedIsAlone(s, event);
    }
  }

  lemma {:induction false} PreparedIsHeld(store: Store, b: State, s: State, revision: PyStr, payload: seq<byte>)
    requires IsRevision(revision) && Prepared(store, b, s, revision, payload)
    ensures Ready(b, EventPath(store, revision)) && Tidy(b, EventsPath(store)) ==>
      Held(s, EventPath(store, revision), payload)
  {
    if Ready(b, EventPath(store, revision)) {
      ReadyIsProof(s, EventPath(store, revision), payload);
    }
  }

  /** While HEAD is replaced the event stays as safe as it is. */
  lemma {:induction false} SwitchingIsCommitting(store: Store, b: State, s: State, t: State, revision: PyStr,
      payload: seq<byte>)
    requires IsRevision(revision) && Valid(b) && Prepared(store, b, s, revision, payload)
    requires OldOrNew(s, t, HeadPath(store), HeadText(revision)) && Calm(s, t, Scratch(HeadPath(store)))
    ensures Committing(store, b, t, revision, payload)
  {
    hide Alone, Doubled, Tidy, Held, Ready, OldFilesKept, OldLinksKept;
    var (head, event, names) := (HeadPath(store), EventPath(store, revision), CommitNames(store, revision, b));
    QuietIsCommitting(store, b, s, revision, payload);
    HeadUntouched(store, revision, b);
    CalmWider(s, t, Scratch(head), names);
    CalmBoth(b, s, t, names);
    PreparedIsHeld(store, b, s, revision, payload);
    EventUntouched(store, revision, revision, b);
    if Tidy(s, EventsPath(store)) {
      TidyKept(s, t, Scratch(head), EventsPath(store));
    }
    assert Gentle(s, t, event);
    OneEntryDecides(t, event);
    if Ready(b, event) && Tidy(b, EventsPath(store)) {
      HeldKept(s, t, Scratch(head), event, payload);
    }
  }

  /** The way to HEAD is the way to the events' directory. */
  lemma {:induction false} HeadWay(store: Store, b: State, s: State, revision: PyStr, payload: seq<byte>)
    requires IsRevision(revision) && Valid(b) && Prepared(store, b, s, revision, payload)
    requires b.current(EventsPath(store)) == DirEntry
    ensures forall a :: a <= EventsPath(store) ==> s.current(a) == DirEntry && s.possible(a) == b.possible(a)
    ensures OldAncestorsDurable(s, HeadPath(store)) <==> AncestorsDurable(b, HeadPath(store))
  {
    var event := EventPath(store, revision);
    forall a | a <= EventsPath(store) ensures s.current(a) == DirEntry && s.possible(a) == b.possible(a) {
      assert a < event;
      AncestorsAreDirectories(s, event, a);
    }
    forall a | a < HeadPath(store) ensures a <= EventsPath(store) && Above(a, HeadPath(store)) {
      assert a <= store.directory;
    }
  }

  /** No crash can take HEAD from the new event, nor the event, nor make either unreadable. */
  ghost predicate BothHeld(store: Store, s: State, revision: PyStr, payload: seq<byte>)
    requires IsRevision(revision)
  {
    && Held(s, HeadPath(store), HeadText(revision))
    && Held(s, EventPath(store, revision), payload)
  }

  /** Both are held in the end exactly if the way to HEAD was durable and an event that was there had been synced. */
  lemma {:induction false} CommittedSafe(store: Store, b: State, s: State, t: State, revision: PyStr,
      payload: seq<byte>)
    requires IsRevision(revision) && Valid(b) && Prepared(store, b, s, revision, payload) && Valid(t)
    requires Tidy(b, EventsPath(store)) && Alone(t, HeadPath(store))
    requires b.current(EventsPath(store)) == DirEntry && Calm(s, t, Scratch(HeadPath(store)))
    requires CrashProof(t, HeadPath(store), HeadText(revision)) <==> OldAncestorsDurable(s, HeadPath(store))
    requires forall p :: IsChild(p, store.directory) ==> t.possible(p) == {t.current(p)}
    ensures BothHeld(store, t, revision, payload) <==>
      AncestorsDurable(b, HeadPath(store)) && Settled(b, EventPath(store, revision))
  {
    var event := EventPath(store, revision);
    HeadWay(store, b, s, revision, payload);
    EventUntouched(store, revision, revision, b);
    assert Gentle(s, t, event) && s.current(event) in s.possible(event);
    AloneKept(s, t, event);
    if CrashProof(t, event, payload) {
      CrashProofMeans(t, event, payload);
    }
    if AncestorsDurable(b, HeadPath(store)) && Settled(b, event) {
      forall a | a < event ensures t.possible(a) == {DirEntry} {
        assert Gentle(s, t, a) && t.current(a) in t.possible(a);
        if |a| <= |store.directory| {
          assert a <= store.directory < HeadPath(store);
        } else {
          assert a == EventsPath(store) && IsChild(a, store.directory);
        }
      }
      assert t.current(event) in t.possible(event);
      ReadyIsProof(t, event, payload);
    }
  }

  /** The event stays readable under its name. */
  lemma {:induction false} EventStays(store: Store, b: State, s: State, t: State, revision: PyStr, payload: seq<byte>)
    requires IsRevision(revision) && Prepared(store, b, s, revision, payload) && Calm(s, t, Scratch(HeadPath(store)))
    ensures Live(t, EventPath(store, revision)) == Some(payload)
  {
    var event := EventPath(store, revision);
    EventUntouched(store, revision, revision, b);
    assert Gentle(s, t, event) && s.current(event) in s.possible(event);
  }

  /** At this instant a crash shows the new HEAD and may lose the event. */
  ghost predicate Torn(store: Store, s: State, revision: PyStr, payload: seq<byte>)
    requires IsRevision(revision)
  {
    MaySee(s, HeadPath(store), Some(HeadText(revision))) && !CrashProof(s, EventPath(store, revision), payload)
  }

  ghost predicate TornWithin(store: Store, before: seq<State>, after: seq<State>, revision: PyStr, payload: seq<byte>)
    requires IsRevision(revision)
  {
    exists i :: |before| <= i < |after| && Torn(store, after[i], revision, payload)
  }

  /** If the event was not ready, there is such an instant. */
  lemma {:induction false} SwitchTears(store: Store, b: State, s: State, t: State, revision: PyStr, payload: seq<byte>)
    requires IsRevision(revision) && Valid(b) && Prepared(store, b, s, revision, payload)
    requires Switched(s, t, HeadPath(store), HeadText(revision)) && Calm(s, t, Scratch(HeadPath(store)))
    requires !Ready(b, EventPath(store, revision))
    ensures Torn(store, t, revision, payload)
  {
    var event := EventPath(store, revision);
    EventUntouched(store, revision, revision, b);
    if CrashProof(t, event, payload) {
      CrashProofMeans(t, event, payload);
      assert SameEntry(s, t, event) && s.current(event) in s.possible(event);
      forall a | a < event ensures b.possible(a) == {DirEntry} {
        assert SameEntry(s, t, a);
      }
      assert false;
    }
  }

  lemma {:induction false} TearsWithin(store: Store, b: State, s: State, before: seq<State>, after: seq<State>,
      revision: PyStr, payload: seq<byte>)
    requires IsRevision(revision) && Valid(b) && Prepared(store, b, s, revision, payload)
    requires SwitchedWithin(s, before, after, HeadPath(store), HeadText(revision))
    requires Through(before, after,
      t => OldOrNew(s, t, HeadPath(store), HeadText(revision)) && Calm(s, t, Scratch(HeadPath(store))))
    requires !Ready(b, EventPath(store, revision))
    ensures TornWithin(store, before, after, revision, payload)
  {
    var i :| |before| <= i < |after| && Switched(s, after[i], HeadPath(store), HeadText(revision));
    SwitchTears(store, b, s, after[i], revision, payload);
  }

  /** What a successful commit is worth. */
  ghost predicate Committed(store: Store, b: State, s: State, before: seq<State>, after: seq<State>, revision: PyStr,
      payload: seq<byte>)
    requires IsRevision(revision)
  {
    var (head, event) := (HeadPath(store), EventPath(store, revision));
    && Live(s, head) == Some(HeadText(revision)) && Live(s, event) == Some(payload) && Publishable(b, event, payload)
    && (Tidy(b, EventsPath(store)) && Alone(b, head) ==>
         (BothHeld(store, s, revision, payload) <==> AncestorsDurable(b, head) && Settled(b, event)))
    && (!Ready(b, event) ==> TornWithin(store, before, after, revision, payload))
  }

  method SwitchHead(store: Store, disk: Disk, ghost b: State, revision: PyStr, ghost payload: seq<byte>)
    returns (r: Result)
    requires IsRevision(revision) && Valid(b) && Prepared(store, b, disk.s, revision, payload)
    requires b.current(EventsPath(store)) == DirEntry
    modifies disk
    ensures Valid(disk.s) && Committing(store, b, disk.s, revision, payload)
    ensures Through(old(disk.trace), disk.trace, s => Committing(store, b, s, revision, payload))
    ensures r == Done ==> Committed(store, b, disk.s, old(disk.trace), disk.trace, revision, payload)
    ensures disk.fine ==> old(disk.fine)
    ensures disk.fine && old(disk.s).current(HeadPath(store)) != DirEntry ==> r == Done
  {
    hide Committing, OldOrNew, Calm, Valid, CrashProof, Tidy, Alone, Ready, TornWithin, SwitchedWithin;
    var head := HeadPath(store);
    ghost var s, t0, text := disk.s, disk.trace, HeadText(revision);
    HeadUntouched(store, revision, s);
    HeadWay(store, b, s, revision, payload);
    assert Parent(head) == store.directory && store.directory <= EventsPath(store);
    WayIsClimbable(store, s);
    r := WriteAtomic(disk, head, HeadText(revision));
    forall t | OldOrNew(s, t, head, text) && Calm(s, t, Scratch(head))
      ensures Committing(store, b, t, revision, payload) {
      SwitchingIsCommitting(store, b, s, t, revision, payload);
    }
    ThroughWeaker(t0, disk.trace, t => OldOrNew(s, t, head, text) && Calm(s, t, Scratch(head)),
      t => Committing(store, b, t, revision, payload));
    if r == Done {
      EventStays(store, b, s, disk.s, revision, payload);
      CommittingKeeps(store, b, disk.s, revision, payload);
      PreparedWasPublishable(store, b, s, revision, payload);
      if Tidy(b, EventsPath(store)) && Alone(b, head) {
        CommittedSafe(store, b, s, disk.s, revision, payload);
      }
      if !Ready(b, EventPath(store, revision)) {
        TearsWithin(store, b, s, t0, disk.trace, revision, payload);
      }
    }
  }

  lemma {:induction false} WayIsClimbable(store: Store, s: State)
    requires forall a :: a <= EventsPath(store) ==> s.current(a) == DirEntry
    ensures Climbable(s, store.directory) && s.current(store.directory) == DirEntry
  {
  }

  lemma {:induction false} CommittingKeeps(store: Store, b: State, s: State, revision: PyStr, payload: seq<byte>)
    requires IsRevision(revision) && Committing(store, b, s, revision, payload)
    ensures Alone(b, HeadPath(store)) ==> Alone(s, HeadPath(store))
  {
  }

  lemma {:induction false} PreparedWasPublishable(store: Store, b: State, s: State, revision: PyStr, payload: seq<byte>)
    requires IsRevision(revision) && Prepared(store, b, s, revision, payload)
    ensures Publishable(b, EventPath(store, revision), payload)
  {
  }

  /** With the events' directory there and HEAD no directory, it succeeds unless the event is there unreadable or with
      other bytes, or a call fails. */
  method Commit(store: Store, disk: Disk, revision: PyStr, payload: seq<byte>) returns (r: Result)
    requires Valid(disk.s) && IsRevision(revision) && disk.s.current(EventsPath(store)) == DirEntry
    modifies disk
    ensures Valid(disk.s) && Committing(store, old(disk.s), disk.s, revision, payload)
    ensures Through(old(disk.trace), disk.trace, s => Committing(store, old(disk.s), s, revision, payload))
    ensures r == Done ==> Committed(store, old(disk.s), disk.s, old(disk.trace), disk.trace, revision, payload)
    ensures disk.fine ==> old(disk.fine)
    ensures disk.fine && old(disk.s).current(HeadPath(store)) != DirEntry ==>
      (r == Done <==> Publishable(old(disk.s), EventPath(store, revision), payload))
  {
    hide PublishInstant, Committing, Valid, Committed, Prepared, PublishedEvent;
    ghost var b, t0 := disk.s, disk.trace;
    ghost var committing := s => Committing(store, b, s, revision, payload);
    r := Publish(store, disk, revision, payload);
    ghost var s1, t1 := disk.s, disk.trace;
    forall s | PublishInstant(store, revision, b, s) ensures Committing(store, b, s, revision, payload) {
      QuietIsCommitting(store, b, s, revision, payload);
    }
    ThroughWeaker(t0, t1, s => PublishInstant(store, revision, b, s), committing);
    if r != Done {
      return;
    }
    SyncPrepares(store, b, s1, revision, payload);
    PreparedIsInstant(store, b, Synced(s1, EventsPath(store)), revision, payload);
    PublishedWasPublishable(b, s1, EventPath(store, revision), payload);
    r := FsyncDir(disk, EventsPath(store));
    ghost var s2, t2 := disk.s, disk.trace;
    ThroughOne(t1, s2, committing);
    ThroughBoth(t0, t1, t2, committing);
    if r != Done {
      return;
    }
    r := SwitchHead(store, disk, b, revision, payload);
    LaterTears(store, b, disk.s, t0, t2, disk.trace, revision, payload);
    ThroughBoth(t0, t2, disk.trace, committing);
  }

  lemma {:induction false} PreparedIsInstant(store: Store, b: State, s: State, revision: PyStr, payload: seq<byte>)
    requires IsRevision(revision) && Prepared(store, b, s, revision, payload)
    ensures Valid(s) && PublishInstant(store, revision, b, s)
  {
  }

  lemma {:induction false} LaterTears(store: Store, b: State, s: State, t0: seq<State>, t1: seq<State>, t2: seq<State>,
      revision: PyStr, payload: seq<byte>)
    requires IsRevision(revision) && t0 <= t1
    ensures Committed(store, b, s, t1, t2, revision, payload) ==> Committed(store, b, s, t0, t2, revision, payload)
  {
  }
}
