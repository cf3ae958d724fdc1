/** The life of a store: any number of appends with any outcome, failures, and crashes at any instant. */
module ChainLife {
  import opened Basics
  import opened Unicode
  import opened CrashDisk
  import opened Fsops
  import opened ChainWalk
  import opened ChainCommit
  import opened ChainStore
  import opened ChainCrash

  // ---- What may happen ----

  /** A call of `append`: what it was asked, the disk's trace before and after it, and its reply. */
  datatype Call = Call(
    expected: PyStr,
    record: Records.ChainRecord,
    payload: seq<byte>,
    before: seq<State>,
    after: seq<State>,
    r: Reply)

  /** A call that returns, a call cut off by a crash at one of its instants, or a crash between calls. */
  datatype Event = Asked(c: Call) | CutOff(c: Call, at: nat) | PowerLoss

  /** What `Append` promises of a call that begins in a state that is ready for its event. */
  ghost predicate Served(store: Store, s0: State, s: State, c: Call)
    requires ValidStore(store)
  {
    && Valid(s0) && Valid(s) && Kept(store, s0, s, c.before, c.after, c.expected, c.record, c.payload, c.r)
    && OldAncestorsDurable(s0, EventPath(store, Rev(store, c.payload)))
    && Settled(s0, EventPath(store, Rev(store, c.payload)))
  }

  ghost predicate Next(store: Store, s0: State, e: Event, s: State)
    requires ValidStore(store)
  {
    match e
    case Asked(c) => Served(store, s0, s, c)
    case CutOff(c, i) =>
      |c.before| <= i < |c.after| && Reboot(c.after[i], s) && exists end :: Served(store, s0, end, c)
    case PowerLoss => Reboot(s0, s)
  }

  // ---- What every step keeps ----

  /** All chains that HEAD may name after a crash extend `base`, and the one that it names now extends them. */
  ghost predicate Around(store: Store, s: State, base: Chain, chains: iset<Chain>, files: Chain)
    requires ValidStore(store)
  {
    Holds(store, s, chains, files) && forall other :: other in chains ==> base <= other <= files
  }

  ghost predicate Bounded(store: Store, s: State, base: Chain)
    requires ValidStore(store)
  {
    exists chains, files :: Around(store, s, base, chains, files)
  }

  ghost predicate Builds(store: Store, s: State, base: Chain)
    requires ValidStore(store)
  {
    Valid(s) && Bounded(store, s, base)
  }

  lemma {:induction false} WayToHead(store: Store, s: State, revision: PyStr)
    requires IsRevision(revision) && OldAncestorsDurable(s, EventPath(store, revision))
    ensures OldAncestorsDurable(s, HeadPath(store))
  {
    forall a | Above(a, HeadPath(store)) ensures Above(a, EventPath(store, revision)) {
      assert a <= store.directory;
    }
  }

  /** At every instant of a call, and at its end. */
  lemma {:induction false} InstantBuilds(store: Store, s: State, base: Chain, chains: iset<Chain>, files: Chain,
      payload: seq<byte>)
    requires ValidStore(store) && Recoverable(store, s, chains, files, payload)
    requires forall other :: other in chains ==> base <= other <= files
    requires files in chains
    ensures Bounded(store, s, base)
  {
    hide Sound, Alone, Tidy, Secure, ValidStore;
    var all := files + [payload];
    if Holds(store, s, chains, files) {
      assert Around(store, s, base, chains, files);
    } else {
      assert Around(store, s, base, chains + iset{all}, all);
    }
  }

  lemma {:induction false} RestartBuilds(store: Store, s: State, t: State, base: Chain, chains: iset<Chain>,
      files: Chain)
    requires ValidStore(store) && Around(store, s, base, chains, files) && Reboot(s, t)
    ensures Builds(store, t, base)
  {
    var found := CrashRecovers(store, s, t, chains);
    var only: iset<Chain> := iset{found};
    assert Around(store, t, base, only, found);
  }

  /** A successful append of a new link fixes the longer chain. */
  lemma {:induction false} AddedIsFixed(store: Store, s0: State, s: State, c: Call, chains: iset<Chain>, files: Chain)
    requires ValidStore(store) && Served(store, s0, s, c) && Holds(store, s0, chains, files) && IsNew(c.r)
    ensures Holds(store, s, iset{files + [c.payload]}, files + [c.payload])
  {
    hide Sound, AtWorst;
    assert Promised(store, s0, s, c.before, c.after, c.expected, c.record, c.payload, chains, files, c.r);
    WayToHead(store, s0, Rev(store, c.payload));
    var only: iset<Chain> := iset{files + [c.payload]};
    assert files + [c.payload] in only;
  }

  /** At every instant of the call, and at its end, HEAD names the old chain or the longer one. */
  lemma {:induction false} ServedIsRecoverable(store: Store, s0: State, s: State, c: Call, chains: iset<Chain>,
      files: Chain)
    requires ValidStore(store) && Served(store, s0, s, c) && Holds(store, s0, chains, files)
    ensures Recoverable(store, s, chains, files, c.payload)
    ensures forall i :: |c.before| <= i < |c.after| ==> Recoverable(store, c.after[i], chains, files, c.payload)
  {
    hide Recoverable, Holds, SomewhereLost, RuleHolds;
    assert Promised(store, s0, s, c.before, c.after, c.expected, c.record, c.payload, chains, files, c.r);
    forall i | |c.before| <= i < |c.after| ensures Recoverable(store, c.after[i], chains, files, c.payload) {
      assert AtWorst(store, s0, c.after[i], chains, files, c.payload, true);
    }
  }

  lemma {:induction false} ServedBuilds(store: Store, s0: State, s: State, c: Call, base: Chain)
    requires ValidStore(store) && Served(store, s0, s, c) && Builds(store, s0, base)
    ensures Builds(store, s, base)
    ensures forall i :: |c.before| <= i < |c.after| ==> Bounded(store, c.after[i], base)
  {
    hide Recoverable, Kept, Holds;
    var chains, files :| Around(store, s0, base, chains, files);
    HeldInFamily(store, s0, chains, files);
    ServedIsRecoverable(store, s0, s, c, chains, files);
    InstantBuilds(store, s, base, chains, files, c.payload);
    forall i | |c.before| <= i < |c.after| ensures Bounded(store, c.after[i], base) {
      InstantBuilds(store, c.after[i], base, chains, files, c.payload);
    }
  }

  lemma {:induction false} HeldInFamily(store: Store, s: State, chains: iset<Chain>, files: Chain)
    requires ValidStore(store) && Holds(store, s, chains, files)
    ensures files in chains
  {
  }

  lemma {:induction false} NextBuilds(store: Store, s0: State, e: Event, s: State, base: Chain)
    requires ValidStore(store) && Next(store, s0, e, s) && Builds(store, s0, base)
    ensures Builds(store, s, base)
  {
    hide Served, Holds;
    match e {
      case Asked(c) => ServedBuilds(store, s0, s, c, base);
      case CutOff(c, i) =>
        var end :| Served(store, s0, end, c);
        ServedBuilds(store, s0, end, c, base);
        var chains, files :| Around(store, c.after[i], base, chains, files);
        RestartBuilds(store, c.after[i], s, base, chains, files);
      case PowerLoss =>
        var chains, files :| Around(store, s0, base, chains, files);
        RestartBuilds(store, s0, s, base, chains, files);
    }
  }

  // ---- Whole lives ----

  ghost predicate Life(store: Store, states: seq<State>, events: seq<Event>)
    requires ValidStore(store)
  {
    && |states| == |events| + 1 && Builds(store, states[0], [])
    && forall k :: 0 <= k < |events| ==> Next(store, states[k], events[k], states[k + 1])
  }

  lemma {:induction false} LifeBuilds(store: Store, states: seq<State>, events: seq<Event>, k: nat, j: nat, base: Chain)
    requires ValidStore(store) && Life(store, states, events) && k <= j < |states| && Builds(store, states[k], base)
    ensures Builds(store, states[j], base)
  {
    hide Next, Builds;
    if k < j {
      LifeBuilds(store, states, events, k, j - 1, base);
      NextBuilds(store, states[j - 1], events[j - 1], states[j], base);
    }
  }

  /** No crash from here on can lose `files`: whatever HEAD may name extends them. */
  ghost predicate Keeps(store: Store, s: State, files: Chain)
    requires ValidStore(store)
  {
    exists chains :: Sound(store, s, chains) && forall other :: other in chains ==> files <= other
  }

  ghost predicate Names(store: Store, s: State, files: Chain)
    requires ValidStore(store)
  {
    exists chains :: Holds(store, s, chains, files)
  }

  lemma {:induction false} NamesOne(store: Store, s: State, a: Chain, b: Chain)
    requires ValidStore(store) && Valid(s) && Names(store, s, a) && Names(store, s, b)
    ensures a == b
  {
    OneChainNamed(store, s, a, b);
  }

  lemma {:induction false} BuildsKeeps(store: Store, s: State, files: Chain)
    requires ValidStore(store) && Builds(store, s, files)
    ensures Keeps(store, s, files)
  {
  }

  /** If HEAD names `files` now, shorter chains at most after a crash, and nothing can be lost, then no crash changes
      what HEAD names. */
  lemma {:induction false} KeptIsFirm(store: Store, s: State, chains: iset<Chain>, files: Chain)
    requires ValidStore(store) && Valid(s) && Around(store, s, [], chains, files)
    ensures Keeps(store, s, files) <==> Sound(store, s, iset{files})
  {
    hide Secure, Tidy, Alone, MaySee;
    var only: iset<Chain> := iset{files};
    assert files in only;
    if longer :| Sound(store, s, longer) && forall other :: other in longer ==> files <= other {
      forall seen | MaySee(s, HeadPath(store), seen) ensures Named(store, only, seen) {
        var a :| a in chains && HeadBytes(store, a) == seen;
        var b :| b in longer && HeadBytes(store, b) == seen;
        OneChainNamed(store, s, a, b);
        assert a == files;
      }
    }
  }

  ghost predicate Acknowledged(e: Event) {
    e.Asked? && e.c.r.Added?
  }

  /** In every life of the store, however appends fail and the machine crashes: an acknowledged link is never lost, now
      or later, if and only if it was not acknowledged as a retry while a crash could still undo the switch of HEAD. */
  lemma {:induction false} AcknowledgedIsKept(store: Store, states: seq<State>, events: seq<Event>, k: nat,
      files: Chain)
    requires ValidStore(store) && Life(store, states, events) && k < |events| && Acknowledged(events[k])
    requires Names(store, states[k + 1], files)
    ensures files != [] && files[|files| - 1] == events[k].c.payload
    ensures (forall j :: k < j < |states| ==> Keeps(store, states[j], files)) <==>
      (events[k].c.r.retried ==> Sound(store, states[k], iset{files}))
  {
    hide Builds, Served, Keeps, Sound, Names;
    var (s0, s, c) := (states[k], states[k + 1], events[k].c);
    assert Next(store, s0, events[k], s);
    LifeBuilds(store, states, events, 0, k, []);
    AcknowledgedFacts(store, s0, s, c, files);
    if c.r.retried ==> Sound(store, s0, iset{files}) {
      forall j | k < j < |states| ensures Keeps(store, states[j], files) {
        LifeBuilds(store, states, events, k + 1, j, files);
        BuildsKeeps(store, states[j], files);
      }
    }
  }

  /** The state right after the acknowledgement decides. */
  lemma {:induction false} AcknowledgedFacts(store: Store, s0: State, s: State, c: Call, files: Chain)
    requires ValidStore(store) && Served(store, s0, s, c) && Builds(store, s0, []) && c.r.Added?
    requires Names(store, s, files)
    ensures files != [] && files[|files| - 1] == c.payload
    ensures (c.r.retried ==> Sound(store, s0, iset{files})) ==> Builds(store, s, files)
    ensures Keeps(store, s, files) ==> (c.r.retried ==> Sound(store, s0, iset{files}))
  {
    hide Sound, Kept, Keeps, Holds;
    var chains, before :| Around(store, s0, [], chains, before);
    if IsNew(c.r) {
      AcknowledgedNew(store, s0, s, c, chains, before, files);
    } else {
      AcknowledgedAgain(store, s0, s, c, chains, before, files);
      KeptIsFirm(store, s, chains, files);
    }
  }

  lemma {:induction false} AcknowledgedNew(store: Store, s0: State, s: State, c: Call, chains: iset<Chain>,
      before: Chain, files: Chain)
    requires ValidStore(store) && Served(store, s0, s, c) && Around(store, s0, [], chains, before) && IsNew(c.r)
    requires Names(store, s, files)
    ensures files == before + [c.payload] && Builds(store, s, files)
  {
    AddedIsFixed(store, s0, s, c, chains, before);
    var only: iset<Chain> := iset{before + [c.payload]};
    NamesOne(store, s, files, before + [c.payload]);
    assert Around(store, s, files, only, files);
  }

  lemma {:induction false} AcknowledgedAgain(store: Store, s0: State, s: State, c: Call, chains: iset<Chain>,
      before: Chain, files: Chain)
    requires ValidStore(store) && Served(store, s0, s, c) && Around(store, s0, [], chains, before)
    requires c.r.Added? && c.r.retried && Names(store, s, files)
    ensures s == s0 && files == before && files != [] && files[|files| - 1] == c.payload
    ensures Sound(store, s0, iset{files}) ==> Builds(store, s, files)
  {
    assert Promised(store, s0, s, c.before, c.after, c.expected, c.record, c.payload, chains, before, c.r);
    NamesOne(store, s, files, before);
    var only: iset<Chain> := iset{files};
    assert files in only;
    if Sound(store, s0, only) {
      assert Around(store, s, files, only, files);
    }
  }

  // ---- How a link is acknowledged too early ----

  /** The temporary file of HEAD, filled and synced, in a store that held `files` before it was made. */
  ghost predicate HeadTemp(store: Store, s0: State, s: State, tmp: Path, ino: nat, revision: PyStr)
    requires IsRevision(revision)
  {
    var head := HeadPath(store);
    && TempName(tmp) && Parent(tmp) == store.directory && tmp != head && s.current(tmp) == FileEntry(ino)
    && Valid(s) && Valid(Replaced(s, tmp, head)) && Before(s0, s, head) && DirReady(s0, s, store.directory)
    && s0.next <= ino && OnlyNamed(s, ino, tmp) && s.file(ino).data == HeadText(revision) && s.file(ino).clean
    && s.current(head) != DirEntry
  }

  /** An append has published its event and switched HEAD, but the sync of the directory fails, and so does the append.
      HEAD names the longer chain now, so that a retry of the record is acknowledged; and a crash after that may bring
      up the store without the link. */
  lemma {:induction false} AcknowledgedTooEarly(store: Store, s0: State, s: State, tmp: Path, ino: nat,
      payload: seq<byte>, chains: iset<Chain>, files: Chain)
    returns (u: State)
    requires ValidStore(store) && Valid(s0) && Holds(store, s0, chains, files)
    requires Secure(store, s0, files + [payload]) && HeadTemp(store, s0, s, tmp, ino, Rev(store, payload))
    ensures var (t, all) := (Replaced(s, tmp, HeadPath(store)), files + [payload]);
      // HEAD names the longer chain, and the retry of the record is acknowledged, unless a rule refuses the chain
      && Holds(store, t, chains + iset{all}, all) && (Repeated(store, all, payload) <==> !RulesRefuse(store, all))
      // which a crash may take back
      && !Sound(store, t, iset{all}) && Reboot(t, u) && Holds(store, u, iset{files}, files)
  {
    hide Valid, Replaced, Alone, Tidy, Reboot, Calm, OldOrNew, Lineage, EventsHeld, Walkable, Openable;
    var (head, all, text) := (HeadPath(store), files + [payload], HeadText(Rev(store, payload)));
    var t := Replaced(s, tmp, head);
    assert all[|all| - 1] == payload && Parent(head) == store.directory;
    HeadUntouched(store, Rev(store, payload), s0);
    AfterReplace(s0, s, head, text, tmp, ino);
    SwitchedHolds(store, s0, t, payload, chains, files);
    u := OldHeadComesUp(store, s0, s, tmp, ino, Rev(store, payload), chains, files);
    var found := CrashRecovers(store, t, u, chains + iset{all});
    OneChainNamed(store, t, files, found);
    if Sound(store, t, iset{all}) {
      RebootShows(t, u, head);
      var named :| named in iset{all} && HeadBytes(store, named) == Live(u, head);
      OneChainNamed(store, t, files, all);
      assert false;
    }
  }

  lemma {:induction false} SwitchedHolds(store: Store, s0: State, t: State, payload: seq<byte>, chains: iset<Chain>,
      files: Chain)
    requires ValidStore(store) && Valid(s0) && Holds(store, s0, chains, files) && Secure(store, s0, files + [payload])
    requires OldOrNew(s0, t, HeadPath(store), HeadText(Rev(store, payload)))
    requires Calm(s0, t, Scratch(HeadPath(store))) && Live(t, HeadPath(store)) == Some(HeadText(Rev(store, payload)))
    ensures Holds(store, t, chains + iset{files + [payload]}, files + [payload])
    ensures Secure(store, t, files)
  {
    var (head, all) := (HeadPath(store), files + [payload]);
    var more := chains + iset{all};
    assert all[|all| - 1] == payload && all in more;
    HeadUntouched(store, Rev(store, payload), s0);
    TidyKept(s0, t, Scratch(head), EventsPath(store));
    forall chain | chain in more ensures Secure(store, t, chain) {
      HeadLeavesEvents(store, s0, t, chain);
    }
    forall seen | MaySee(t, head, seen) ensures Named(store, more, seen) {
      if MaySee(s0, head, seen) {
        var chain :| chain in chains && HeadBytes(store, chain) == seen;
        assert chain in more;
      } else {
        assert HeadBytes(store, all) == seen;
      }
    }
  }

  lemma {:induction false} HeadLeavesEvents(store: Store, s0: State, t: State, chain: Chain)
    requires ValidStore(store) && Valid(s0) && Secure(store, s0, chain) && Calm(s0, t, Scratch(HeadPath(store)))
    ensures Secure(store, t, chain)
  {
    forall i | 0 <= i < |chain| ensures Held(t, EventPath(store, Rev(store, chain[i])), chain[i]) {
      EventUntouched(store, Rev(store, chain[i]), Rev(store, chain[i]), s0);
      HeldKept(s0, t, Scratch(HeadPath(store)), EventPath(store, Rev(store, chain[i])), chain[i]);
    }
  }

  /** The old HEAD has no other name. */
  lemma {:induction false} OldHeadIsAlone(s0: State, s: State, head: Path, names: iset<Path>)
    requires Valid(s0) && Valid(s) && Alone(s0, head) && Calm(s0, s, names) && SameEntry(s0, s, head)
    ensures s0.current(head).FileEntry? ==> forall p :: p != head ==> s.current(p) != s0.current(head)
  {
    var e := s0.current(head);
    assert e in s0.possible(head);
    if e.FileEntry? {
      AloneKept(s0, s, head);
      AloneIsOpenable(s, head);
      OpenableMeans(s, head);
    }
  }

  lemma {:induction false} ReplacedLeaves(s: State, tmp: Path, head: Path)
    requires s.current(tmp).FileEntry? && s.current(head) != s.current(tmp) && tmp != head
    ensures var t := Replaced(s, tmp, head);
      && s.possible(head) <= t.possible(head) && t.file == s.file
      && forall p :: p != head ==> t.current(p) == s.current(p) || t.current(p) == Absent
  {
  }

  /** The old HEAD may come up. */
  lemma {:induction false} OldHeadComesUp(store: Store, s0: State, s: State, tmp: Path, ino: nat, revision: PyStr,
      chains: iset<Chain>, files: Chain)
    returns (u: State)
    requires ValidStore(store) && Valid(s0) && Holds(store, s0, chains, files) && IsRevision(revision)
    requires HeadTemp(store, s0, s, tmp, ino, revision)
    ensures Reboot(Replaced(s, tmp, HeadPath(store)), u) && Live(u, HeadPath(store)) == HeadBytes(store, files)
  {
    hide Secure, Named, Replaced, Valid, Alone, Reboot;
    var head := HeadPath(store);
    var t := Replaced(s, tmp, head);
    var e := s0.current(head);
    HeadEntryIsOld(s0, head, ino);
    OldHeadIsAlone(s0, s, head, Scratch(head));
    ReplacedLeaves(s, tmp, head);
    u := With(t, head, e);
    MayComeUpWith(t, head, e);
  }

  lemma {:induction false} HeadEntryIsOld(s0: State, head: Path, ino: nat)
    requires Valid(s0) && s0.next <= ino
    ensures s0.current(head) in s0.possible(head) && s0.current(head) != FileEntry(ino)
    ensures s0.current(head).FileEntry? ==> s0.current(head).ino < s0.next
  {
    assert s0.current(head) in s0.possible(head);
  }
}
