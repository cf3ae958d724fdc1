/** What the machine comes up with after a crash, and the failures that only a crash shows. */
module ChainCrash {
  import opened Basics
  import opened Unicode
  import opened CrashDisk
  import opened Fsops
  import opened ChainWalk
  import opened ChainCommit
  import opened ChainStore

  // ---- Recovery ----

  /** In a machine that has come up, what is seen is durable. */
  lemma {:induction false} UpIsHeld(s: State, t: State, p: Path, data: seq<byte>)
    requires Reboot(s, t) && Held(s, p, data)
    ensures Held(t, p, data)
  {
    RebootShows(s, t, p);
    assert t.current(p).FileEntry? && t.possible(p) == {t.current(p)};
    forall a | a < p ensures t.possible(a) == {DirEntry} {
      AncestorsAreDirectories(t, p, a);
    }
    ReadyIsProof(t, p, data);
    UpIsAlone(s, t, p);
  }

  lemma {:induction false} UpShowsOne(s: State, t: State, p: Path, seen: Option<seq<byte>>)
    requires Reboot(s, t) && MaySee(t, p, seen)
    ensures seen == Live(t, p) && MaySee(s, p, seen)
  {
    RebootShows(s, t, p);
    match seen {
      case Some(data) => assert FileEntry(t.current(p).ino) in t.possible(p);
      case None =>
        if a, e :| a < p && e in t.possible(a) && e != DirEntry {
          assert t.current(p) in t.possible(p) && t.current(a) != DirEntry;
        }
    }
  }

  lemma {:induction false} UpIsTidy(s: State, t: State, dir: Path)
    requires Reboot(s, t) && Tidy(s, dir)
    ensures Tidy(t, dir)
  {
    forall i: nat, p, q | IsChild(p, dir) && !IsChild(q, dir) && t.current(p) == FileEntry(i)
      ensures t.current(q) != FileEntry(i)
    {
      var both := s.together(i, p, q);
    }
  }

  /** The machine comes up with one of the chains that the store held, and with nothing else: HEAD names it, HEAD and
      every event are there, whole, readable and durable, and the next append is safe. */
  lemma {:induction false} CrashRecovers(store: Store, s: State, t: State, chains: iset<Chain>) returns (files: Chain)
    requires ValidStore(store) && Sound(store, s, chains) && Reboot(s, t)
    ensures files in chains && Holds(store, t, iset{files}, files)
    ensures files != [] ==> Openable(t, HeadPath(store)) && Walkable(store, t, files, HeadRevision(store, files))
    ensures forall p :: OldAncestorsDurable(t, p) && Settled(t, p)
  {
    var head := HeadPath(store);
    RebootShows(s, t, head);
    files :| files in chains && HeadBytes(store, files) == Live(t, head);
    var only: iset<Chain> := iset{files};
    forall i | 0 <= i < |files| ensures Held(t, EventPath(store, Rev(store, files[i])), files[i]) {
      UpIsHeld(s, t, EventPath(store, Rev(store, files[i])), files[i]);
    }
    forall seen | MaySee(t, head, seen) ensures Named(store, only, seen) {
      UpShowsOne(s, t, head, seen);
      assert files in only;
    }
    UpIsAlone(s, t, head);
    UpIsTidy(s, t, EventsPath(store));
    HeldIsWalkable(store, t, only, files);
  }

  // ---- Which states may come up ----

  /** Everything as it is. */
  function AsItIs(s: State): State {
    s.(possible := (p: Path) => {s.current(p)}, file := (i: nat) => File(s.file(i).data, true))
  }

  lemma {:induction false} MayComeUpAsItIs(s: State)
    requires Valid(s)
    ensures Reboot(s, AsItIs(s)) && forall p :: Live(AsItIs(s), p) == Live(s, p)
  {
  }

  /** Everything as it is, but another possible entry at `q`, and nothing below it. */
  function With(s: State, q: Path, e: Entry): State {
    Noted(State(
      (p: Path) => if p == q then e else if q < p then Absent else s.current(p),
      (p: Path) => {if p == q then e else if q < p then Absent else s.current(p)},
      (i: nat) => File(s.file(i).data, true),
      s.next,
      (i: nat) => (set p | p in s.names(i) && !(q <= p)) + if e == FileEntry(i) then {q} else {},
      s.together))
  }

  lemma {:induction false} MayComeUpWith(s: State, q: Path, e: Entry)
    requires Valid(s) && q != [] && e in s.possible(q) && e != DirEntry
    requires e.FileEntry? ==> forall p :: p != q && s.current(p) == e ==> s.together(e.ino, p, q)
    ensures Reboot(s, With(s, q, e)) && With(s, q, e).current(q) == e
    ensures forall p :: !(q <= p) ==> With(s, q, e).current(p) == s.current(p) && Live(With(s, q, e), p) == Live(s, p)
  {
    var t := With(s, q, e);
    if e != Absent {
      forall a | a < q ensures s.current(a) == DirEntry {
        DirectoryBelow(s, a, q, e);
      }
    }
    forall p, r | p < r && t.current(p) != DirEntry ensures t.current(r) == Absent {
      assert s.current(r) in s.possible(r);
      if r == q {
        assert e in s.possible(q);
      }
    }
    forall p | q < p ensures Buried(t, p) {
      assert t.current(q) != DirEntry;
    }
  }

  // ---- A second name refuses the record ----

  /** The event is there, but not under this name alone: every append of its record is refused. */
  predicate Blocked(s: State, event: Path) {
    s.current(event).FileEntry? && !Openable(s, event)
  }

  /** After a crash at this instant an append of the record may be refused for a second name if and only if the event's
      file may come up under one: a name that it had together with this one and that no sync has taken away. */
  lemma {:induction false} BlocksExactly(s: State, event: Path)
    requires Valid(s) && (Alone(s, event) || Doubled(s, event))
    ensures (exists t :: Reboot(s, t) && Blocked(t, event)) <==> Doubled(s, event)
  {
    if t :| Reboot(s, t) && Blocked(t, event) {
      if Alone(s, event) {
        UpIsAlone(s, t, event);
        assert false;
      }
    }
    if q :| TwoNames(s, event, q) {
      var t := ComesUpDoubled(s, event, q);
      assert Reboot(s, t) && Blocked(t, event);
    }
  }

  lemma {:induction false} ComesUpDoubled(s: State, event: Path, q: Path) returns (t: State)
    requires Valid(s) && TwoNames(s, event, q)
    ensures Reboot(s, t) && Blocked(t, event)
  {
    var e := s.current(event);
    if p :| p != event && s.current(p) == e {
      t := AsItIs(s);
      MayComeUpAsItIs(s);
    } else {
      t := With(s, q, e);
      assert e in s.possible(q);
      BelowNoFile(s, event, q);
      MayComeUpWith(s, q, e);
    }
    OpenableMeans(t, event);
  }

  lemma {:induction false} BelowNoFile(s: State, event: Path, q: Path)
    requires Valid(s) && TwoNames(s, event, q)
    ensures q != [] && !(q <= event)
  {
    assert s.together(s.current(event).ino, event, q) && s.current(event) in s.possible(event);
  }

  /** Before HEAD is switched a store holds what it held. */
  lemma {:induction false} QuietHolds(store: Store, b: State, s: State, chains: iset<Chain>, files: Chain,
      revision: PyStr)
    requires ValidStore(store) && Valid(b) && Holds(store, b, chains, files) && IsRevision(revision)
    requires PublishInstant(store, revision, b, s)
    ensures Holds(store, s, chains, files)
  {
    QuietIsCommitting(store, b, s, revision, []);
    forall earlier | earlier in chains ensures Secure(store, s, earlier) {
      OldSecure(store, b, s, earlier, revision);
    }
  }

  /** The instant after `os.link` of a publication: the store holds what it held, and yet the machine may come up with
      the record refused for ever, although the store is sound and the event has the right bytes. */
  lemma {:induction false} LinkDoubles(store: Store, s0: State, s: State, tmp: Path, payload: seq<byte>,
      chains: iset<Chain>, files: Chain)
    returns (t: State)
    requires ValidStore(store) && Valid(s0) && Holds(store, s0, chains, files) && Valid(s)
    requires TempMade(store, Rev(store, payload), s0, s, tmp) && FreshTemp(s, tmp, payload)
    requires s0.current(EventPath(store, Rev(store, payload))) == Absent && s0.current(EventsPath(store)) == DirEntry
    ensures var event := EventPath(store, Rev(store, payload));
      && Holds(store, LinkedAt(s, tmp, event), chains, files) && Doubled(LinkedAt(s, tmp, event), event)
      && Reboot(LinkedAt(s, tmp, event), t) && Holds(store, t, iset{files}, files)
      && Live(t, event) == Some(payload) && Blocked(t, event) && !Publishable(t, event, payload)
  {
    var (revision, event) := (Rev(store, payload), EventPath(store, Rev(store, payload)));
    var linked := LinkedAt(s, tmp, event);
    LinkIsInstant(store, revision, s0, s, tmp, payload);
    QuietHolds(store, s0, linked, chains, files, revision);
    t := AsItIs(linked);
    MayComeUpAsItIs(linked);
    var same := CrashRecovers(store, linked, t, chains);
    OneChainNamed(store, linked, files, same);
    OpenableMeans(t, event);
  }

  lemma {:induction false} LinkIsInstant(store: Store, revision: PyStr, s0: State, s: State, tmp: Path,
      payload: seq<byte>)
    requires IsRevision(revision) && Valid(s0) && Valid(s) && TempMade(store, revision, s0, s, tmp)
    requires FreshTemp(s, tmp, payload) && s0.current(EventPath(store, revision)) == Absent
    requires s0.current(EventsPath(store)) == DirEntry
    ensures var linked := LinkedAt(s, tmp, EventPath(store, revision));
      && Valid(linked) && PublishInstant(store, revision, s0, linked) && Doubled(linked, EventPath(store, revision))
      && tmp != EventPath(store, revision) && linked.current(tmp) == linked.current(EventPath(store, revision))
      && Live(linked, EventPath(store, revision)) == Some(payload)
  {
    var event := EventPath(store, revision);
    var linked := LinkedAt(s, tmp, event);
    EventUntouched(store, revision, revision, s0);
    assert |EventsPath(store)| < |tmp| && SameEntry(s0, s, EventsPath(store)) && SameEntry(s0, s, event);
    assert Parent(event) == EventsPath(store) && s.current(tmp) in s.possible(tmp);
    WithEntryValid(s, event, s.current(tmp));
    LinkedCalm(s, tmp, event);
    assert TwoNames(linked, event, tmp);
    forall p | p !in PublishNames(store, revision, s) ensures Gentle(s, linked, p) {
      assert p != event;
    }
    LinkingOnwards(store, revision, s0, s, linked, tmp);
  }

  // ---- How a store comes not to be ready ----

  /** A copy was written, but neither its sync nor its removal worked: the store holds what it held, and an append of
      that record meets an event that is not settled. */
  lemma {:induction false} LeftoverUnsettles(store: Store, s: State, payload: seq<byte>, chains: iset<Chain>,
      files: Chain)
    requires ValidStore(store) && Valid(s) && Holds(store, s, chains, files)
    requires s.current(EventPath(store, Rev(store, payload))) == Absent && s.current(EventsPath(store)) == DirEntry
    ensures var event := EventPath(store, Rev(store, payload));
      var t := Appended(Created(s, event), s.next, payload);
      && Valid(t) && Holds(store, t, chains, files) && Publishable(t, event, payload) && !Settled(t, event)
  {
    var (event, revision) := (EventPath(store, Rev(store, payload)), Rev(store, payload));
    var made := Created(s, event);
    var t := Appended(made, s.next, payload);
    assert Parent(event) == EventsPath(store) && [] + payload == payload;
    WithEntryValid(WithFile(s.(next := s.next + 1), s.next, File([], false)), event, FileEntry(s.next));
    CreatedCalm(s, event);
    CalmWider(s, made, iset{event}, PublishNames(store, revision, s));
    FillingIsCalm(s, made, t, PublishNames(store, revision, s), s.next);
    CreatedIsOnlyNamed(s, event);
    if Alone(s, event) {
      AloneWithNew(s, t, event, s.next);
    }
    QuietHolds(store, s, t, chains, files, revision);
    forall q | q != event ensures t.current(q) != FileEntry(s.next) {
      assert s.current(q) in s.possible(q);
    }
    OpenableMeans(t, event);
  }

  /** The events' directory was made, but the sync of its entry failed: the store holds what it held, and the way to
      every event can be lost. */
  lemma {:induction false} MkdirUnsettles(store: Store, s: State, revision: PyStr, chains: iset<Chain>, files: Chain)
    requires ValidStore(store) && Valid(s) && Holds(store, s, chains, files) && IsRevision(revision)
    requires s.current(EventsPath(store)) == Absent && s.current(store.directory) == DirEntry
    ensures var t := WithEntry(s, EventsPath(store), DirEntry);
      && Valid(t) && Holds(store, t, chains, files) && !OldAncestorsDurable(t, EventPath(store, revision))
  {
    var (events, t) := (EventsPath(store), WithEntry(s, EventsPath(store), DirEntry));
    assert Parent(events) == store.directory;
    WithEntryValid(s, events, DirEntry);
    MkdirCalm(s, events);
    SoundKept(store, s, t, chains);
    assert Above(events, EventPath(store, revision)) && s.current(events) in s.possible(events);
  }

  /** Concretely: nothing but the root and an events' directory whose entry was never synced. */
  lemma {:induction false} UnsyncedEventsDirectory(store: Store, revision: PyStr)
    requires ValidStore(store) && store.directory == [] && IsRevision(revision)
    ensures var s := BareDirectory(EVENTS_DIRNAME);
      && Valid(s) && Holds(store, s, iset{[]}, []) && !OldAncestorsDurable(s, EventPath(store, revision))
      && Settled(s, EventPath(store, revision))
  {
    var s := BareDirectory(EVENTS_DIRNAME);
    BareDirectoryIsValid(EVENTS_DIRNAME);
    assert EventsPath(store) == [EVENTS_DIRNAME] && HeadPath(store) == [HEAD_FILENAME];
    assert HEAD_FILENAME[0] != EVENTS_DIRNAME[0];
    assert forall p, i: nat :: FileEntry(i) !in s.possible(p);
    assert forall data :: !MayHold(s, HeadPath(store), data);
    FreshStore(store, s);
    var only: iset<Chain> := iset{[]};
    assert [] in only;
    assert Above(EventsPath(store), EventPath(store, revision)) && s.current(EventsPath(store)) == DirEntry;
  }
}
