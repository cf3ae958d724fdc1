/** Appending to the chain: a compare-and-swap on HEAD, and what a crash at any instant of it leaves behind. One
    append at a time; that the store lock sees to this is the subject of `StoreLock`. */
module ChainStore {
  import opened Basics
  import opened Unicode
  import opened CrashDisk
  import opened Fsops
  import opened ChainWalk
  import opened ChainCommit
  import Json

  // ---- The chains that the store may hold ----

  /** The contents of HEAD; there is no HEAD for the empty chain. */
  ghost function HeadBytes(store: Store, files: Chain): Option<seq<byte>>
    requires ValidStore(store)
  {
    if files == [] then None else Some(HeadText(HeadRevision(store, files)))
  }

  ghost predicate EventsHeld(store: Store, s: State, files: Chain)
    requires ValidStore(store)
  {
    forall i :: 0 <= i < |files| ==> Held(s, EventPath(store, Rev(store, files[i])), files[i])
  }

  /** A chain none of whose events a crash can take or make unreadable. */
  ghost predicate Secure(store: Store, s: State, files: Chain)
    requires ValidStore(store)
  {
    Lineage(store, files) && EventsHeld(store, s, files)
  }

  ghost predicate Named(store: Store, chains: iset<Chain>, seen: Option<seq<byte>>)
    requires ValidStore(store)
  {
    exists files :: files in chains && HeadBytes(store, files) == seen
  }

  /** After a crash HEAD names one of these chains; all of them are secure, and HEAD has one name only. */
  ghost predicate Sound(store: Store, s: State, chains: iset<Chain>)
    requires ValidStore(store)
  {
    && Tidy(s, EventsPath(store)) && Alone(s, HeadPath(store))
    && (forall files :: files in chains ==> Secure(store, s, files))
    && (forall seen :: MaySee(s, HeadPath(store), seen) ==> Named(store, chains, seen))
  }

  /** And now it names `files`. */
  ghost predicate Holds(store: Store, s: State, chains: iset<Chain>, files: Chain)
    requires ValidStore(store)
  {
    Sound(store, s, chains) && files in chains && Live(s, HeadPath(store)) == HeadBytes(store, files)
  }

  lemma {:induction false} SecureIsStored(store: Store, s: State, files: Chain)
    requires ValidStore(store) && Valid(s) && Secure(store, s, files)
    ensures Stored(store, s, files)
  {
    forall i | 0 <= i < |files|
      ensures IsRevision(Rev(store, files[i])) && StoredAs(store, s, Rev(store, files[i]), files[i])
    {
      HeldMeans(s, EventPath(store, Rev(store, files[i])), files[i]);
    }
  }

  lemma {:induction false} HeadBytesDiffer(store: Store, a: Chain, b: Chain)
    requires ValidStore(store) && HeadBytes(store, a) == HeadBytes(store, b)
    ensures HeadRevision(store, a) == HeadRevision(store, b)
  {
    if a != [] && b != [] {
      HeadOfText(HeadRevision(store, a));
      HeadOfText(HeadRevision(store, b));
    }
  }

  /** HEAD cannot mean two chains. */
  lemma {:induction false} OneChainNamed(store: Store, s: State, a: Chain, b: Chain)
    requires ValidStore(store) && Valid(s) && Secure(store, s, a) && Secure(store, s, b)
    requires HeadBytes(store, a) == HeadBytes(store, b)
    ensures a == b
  {
    HeadBytesDiffer(store, a, b);
    SecureIsStored(store, s, a);
    SecureIsStored(store, s, b);
    OneChainEach(store, s, a, b);
  }

  lemma {:induction false} LiveMayBeSeen(s: State, p: Path)
    requires Valid(s)
    ensures MaySee(s, p, Live(s, p))
  {
    assert s.current(p) in s.possible(p);
    if s.current(p).FileEntry? {
      forall a | a < p ensures DirEntry in s.possible(a) {
        AncestorsAreDirectories(s, p, a);
      }
    }
  }

  /** A sound store always holds one of its chains. */
  lemma {:induction false} SoundHolds(store: Store, s: State, chains: iset<Chain>) returns (files: Chain)
    requires ValidStore(store) && Valid(s) && Sound(store, s, chains)
    ensures Holds(store, s, chains, files)
  {
    LiveMayBeSeen(s, HeadPath(store));
    files :| files in chains && HeadBytes(store, files) == Live(s, HeadPath(store));
  }

  /** The walk finds the chain that HEAD names: HEAD is readable and names its last revision, and every file is there,
      readable, under the name of its revision. */
  lemma {:induction false} HeldIsWalkable(store: Store, s: State, chains: iset<Chain>, files: Chain)
    requires ValidStore(store) && Valid(s) && Holds(store, s, chains, files)
    ensures HeadOf(Live(s, HeadPath(store))) == Some(HeadRevision(store, files))
    ensures files != [] ==> Openable(s, HeadPath(store)) && Walkable(store, s, files, HeadRevision(store, files))
    ensures files != [] ==> forall a :: a <= EventsPath(store) ==> s.current(a) == DirEntry
  {
    SecureIsStored(store, s, files);
    if files != [] {
      HeadOfText(HeadRevision(store, files));
      AloneIsOpenable(s, HeadPath(store));
      var last := EventPath(store, HeadRevision(store, files));
      HeldMeans(s, last, files[|files| - 1]);
      forall a | a <= EventsPath(store) ensures s.current(a) == DirEntry {
        assert a < last;
      }
    }
  }

  /** Where no crash can show a HEAD, the store soundly holds the empty chain. */
  lemma {:induction false} FreshStore(store: Store, s: State)
    requires ValidStore(store) && Tidy(s, EventsPath(store)) && Alone(s, HeadPath(store))
    ensures Sound(store, s, iset{[]}) <==> forall data :: !MayHold(s, HeadPath(store), data)
  {
    var chains: iset<Chain> := iset{[]};
    forall data | MayHold(s, HeadPath(store), data) ensures MaySee(s, HeadPath(store), Some(data)) {
    }
    assert HeadBytes(store, []) == None;
    if Sound(store, s, chains) {
      forall data ensures !MayHold(s, HeadPath(store), data) {
        assert MaySee(s, HeadPath(store), Some(data)) ==> Named(store, chains, Some(data));
      }
    } else {
      assert forall seen :: MaySee(s, HeadPath(store), seen) && seen == None ==> Named(store, chains, seen);
    }
  }

  // ---- Reading ----

  /** The identity of a chain with these revisions. */
  ghost predicate IdentityOf(store: Store, revisions: seq<PyStr>, identity: PyStr) {
    match Framing.ChainIdentityPreimage(revisions)
    case None => false
    case Some(bytes) => identity == Framing.REVISION_PREFIX + store.hexdigest(bytes)
  }

  lemma {:induction false} RevisionsEncode(store: Store, files: Chain, revisions: seq<PyStr>)
    requires ValidStore(store) && RevisionsOf(store, files, revisions)
    ensures Framing.EncodeAll(revisions).Some?
  {
    if revisions != [] {
      assert revisions[0] == Rev(store, files[0]);
      RevisionEncodes(revisions[0]);
      RevisionsEncode(store, files[1..], revisions[1..]);
    }
  }

  /** `chain_identity`: HEAD, the walk, and the digest over the revisions. */
  method StoredIdentity(store: Store, disk: Disk)
    returns (failed: Option<Reason>, identity: PyStr, ghost files: Chain, ghost revisions: seq<PyStr>)
    requires Valid(disk.s) && ValidStore(store)
    modifies disk
    ensures disk.s == old(disk.s) && (disk.fine ==> old(disk.fine))
    ensures failed.None? ==>
      && HeadOf(Live(disk.s, HeadPath(store))) == Some(HeadRevision(store, files))
      && Walkable(store, disk.s, files, HeadRevision(store, files)) && RevisionsOf(store, files, revisions)
      && IdentityOf(store, revisions, identity)
    ensures failed == Some(NoChain) ==> HeadOf(Live(disk.s, HeadPath(store))) == Some([])
    ensures disk.fine && Readable(disk.s, HeadPath(store)) && HeadOf(Live(disk.s, HeadPath(store))) == Some([]) ==>
      failed == Some(NoChain)
    // of a sound store: unless a call fails, exactly if there is a chain and the rules accept it
    ensures forall chains, held :: Holds(store, disk.s, chains, held) ==>
      && (failed.None? ==> files == held)
      && (disk.fine ==> (failed.None? <==> held != [] && !RulesRefuse(store, held)))
  {
    identity, files, revisions := [], [], [];
    var head;
    failed, head := ReadHead(store, disk);
    forall chains, held | Holds(store, disk.s, chains, held)
      ensures HeadOf(Live(disk.s, HeadPath(store))) == Some(HeadRevision(store, held))
      ensures held != [] ==> Readable(disk.s, HeadPath(store))
      ensures held != [] ==> Walkable(store, disk.s, held, HeadRevision(store, held))
    {
      HeldIsWalkable(store, disk.s, chains, held);
    }
    if failed.Some? {
      return;
    }
    if head == [] {
      return Some(NoChain), [], [], [];
    }
    var walk;
    walk, files := LoadChain(store, disk, head);
    if walk.Broken? {
      return Some(walk.reason), [], files, [];
    }
    AcceptedIsNotRefused(store, files, walk.records);
    forall chain | Walkable(store, disk.s, chain, head) ensures chain == files {
      OneChainEach(store, disk.s, chain, files);
    }
    revisions := walk.revisions;
    RevisionsEncode(store, files, revisions);
    var digest := Framing.ChainIdentity(store.hexdigest, walk.revisions);
    return None, digest.value, files, revisions;
  }

  // ---- What keeps a store sound ----

  lemma {:induction false} SecureKept(store: Store, s0: State, s: State, files: Chain)
    requires ValidStore(store) && Valid(s0) && Secure(store, s0, files) && Calm(s0, s, iset{})
    ensures Secure(store, s, files)
  {
    forall i | 0 <= i < |files| ensures Held(s, EventPath(store, Rev(store, files[i])), files[i]) {
      HeldKept(s0, s, iset{}, EventPath(store, Rev(store, files[i])), files[i]);
    }
  }

  lemma {:induction false} SoundKept(store: Store, s0: State, s: State, chains: iset<Chain>)
    requires ValidStore(store) && Valid(s0) && Sound(store, s0, chains) && Calm(s0, s, iset{})
    ensures Sound(store, s, chains) && Live(s, HeadPath(store)) == Live(s0, HeadPath(store))
  {
    var head := HeadPath(store);
    forall files | files in chains ensures Secure(store, s, files) {
      SecureKept(store, s0, s, files);
    }
    forall seen | MaySee(s, head, seen) ensures Named(store, chains, seen) {
      CalmSeen(s0, s, iset{}, head, seen);
    }
    assert Gentle(s0, s, head) && s0.current(head) in s0.possible(head);
    AloneKept(s0, s, head);
    TidyKept(s0, s, iset{}, EventsPath(store));
  }

  /** During a commit the old chains stay secure. */
  lemma {:induction false} OldSecure(store: Store, b: State, s: State, files: Chain, revision: PyStr)
    requires ValidStore(store) && Valid(b) && Secure(store, b, files) && IsRevision(revision)
    requires Calm(b, s, CommitNames(store, revision, b))
    ensures Secure(store, s, files)
  {
    forall i | 0 <= i < |files| ensures Held(s, EventPath(store, Rev(store, files[i])), files[i]) {
      HeldMeans(b, EventPath(store, Rev(store, files[i])), files[i]);
      EventUntouched(store, revision, Rev(store, files[i]), b);
      HeldKept(b, s, CommitNames(store, revision, b), EventPath(store, Rev(store, files[i])), files[i]);
    }
  }

  /** A new link with a revision of its own. Its revision cannot be an old one: the file of that name would have to
      hold the same record, which names another predecessor. */
  lemma {:induction false} LineageGrows(store: Store, s: State, files: Chain, payload: seq<byte>)
    requires ValidStore(store) && Valid(s) && Secure(store, s, files) && Extends(store, files, payload)
    requires Publishable(s, EventPath(store, Rev(store, payload)), payload)
    ensures Lineage(store, files + [payload])
    ensures forall i :: 0 <= i < |files| ==> Rev(store, files[i]) != Rev(store, payload)
  {
    hide Extends;
    var all := files + [payload];
    forall i | 0 <= i < |files| ensures Rev(store, files[i]) != Rev(store, payload) {
      if Rev(store, files[i]) == Rev(store, payload) {
        HeldMeans(s, EventPath(store, Rev(store, files[i])), files[i]);
        SamePredecessor(store, files, i, payload);
      }
    }
    forall i | 0 <= i < |all| ensures Extends(store, all[..i], all[i]) {
      assert all[..i] == files[..i];
      assert files[..|files|] == files;
    }
  }

  lemma {:induction false} SamePredecessor(store: Store, files: Chain, i: nat, payload: seq<byte>)
    requires ValidStore(store) && Lineage(store, files) && i < |files| && Extends(store, files, payload)
    ensures files[i] != payload
  {
    assert Extends(store, files[..i], files[i]);
    if i > 0 {
      var k := i - 1;
      assert files[..i][k] == files[k];
    }
    assert IsRevision(HeadRevision(store, files));
  }

  /** Where the new event is held, so is the longer chain. */
  lemma {:induction false} LongerIsSecure(store: Store, b: State, s: State, files: Chain, payload: seq<byte>)
    requires ValidStore(store) && Valid(b) && Secure(store, b, files) && Extends(store, files, payload)
    requires Publishable(b, EventPath(store, Rev(store, payload)), payload)
    requires Calm(b, s, CommitNames(store, Rev(store, payload), b))
    ensures Secure(store, s, files + [payload]) <==> Held(s, EventPath(store, Rev(store, payload)), payload)
  {
    var all := files + [payload];
    LineageGrows(store, b, files, payload);
    OldSecure(store, b, s, files, Rev(store, payload));
    assert all[|files|] == payload && forall i :: 0 <= i < |files| ==> all[i] == files[i];
  }

  // ---- What a crash may leave at an instant of an append ----

  /** HEAD still names `files`, as it may after a crash; or it was switched to the longer chain. */
  ghost predicate Recoverable(store: Store, s: State, chains: iset<Chain>, files: Chain, payload: seq<byte>)
    requires ValidStore(store)
  {
    || Holds(store, s, chains, files)
    || Holds(store, s, chains + iset{files + [payload]}, files + [payload])
  }

  /** What a crash at this instant may leave: the old chains secure and HEAD old or new; and if everything was `ready`,
      HEAD never names an event that could be lost. The event comes up under two names only if it has been linked. */
  ghost predicate AtWorst(store: Store, b: State, s: State, chains: iset<Chain>, files: Chain, payload: seq<byte>,
      ready: bool)
    requires ValidStore(store)
  {
    && Tidy(s, EventsPath(store)) && Alone(s, HeadPath(store))
    && (forall earlier :: earlier in chains ==> Secure(store, s, earlier))
    && (forall seen :: MaySee(s, HeadPath(store), seen) ==>
         Named(store, chains, seen) || seen == HeadBytes(store, files + [payload]))
    && AloneOrDoubled(b, s, EventPath(store, Rev(store, payload)))
    && (ready ==> Recoverable(store, s, chains, files, payload))
  }

  lemma {:induction false} HeldAtWorst(store: Store, b: State, s: State, chains: iset<Chain>, files: Chain,
      payload: seq<byte>, ready: bool)
    requires ValidStore(store) && Holds(store, s, chains, files)
    requires AloneOrDoubled(b, s, EventPath(store, Rev(store, payload)))
    ensures AtWorst(store, b, s, chains, files, payload, ready)
  {
  }

  lemma {:induction false} CommittingAtWorst(store: Store, b: State, s: State, chains: iset<Chain>, files: Chain,
      payload: seq<byte>)
    requires ValidStore(store) && Valid(b) && Holds(store, b, chains, files) && Extends(store, files, payload)
    requires Committing(store, b, s, Rev(store, payload), payload)
    ensures AtWorst(store, b, s, chains, files, payload, Ready(b, EventPath(store, Rev(store, payload))))
  {
    hide Extends, Held, Alone, Tidy, Lineage, Calm;
    var (all, head) := (files + [payload], HeadPath(store));
    assert all[|all| - 1] == payload;
    forall earlier | earlier in chains ensures Secure(store, s, earlier) {
      OldSecure(store, b, s, earlier, Rev(store, payload));
    }
    if ShowsOld(b, s, head) {
      assert Holds(store, s, chains, files);
    } else {
      LongerIsSecure(store, b, s, files, payload);
      var more := chains + iset{all};
      forall seen | MaySee(s, head, seen) ensures Named(store, more, seen) {
        if seen != HeadBytes(store, all) {
          var earlier :| earlier in chains && HeadBytes(store, earlier) == seen;
          assert earlier in more;
        } else {
          assert all in more;
        }
      }
    }
  }

  /** The chain has grown for good exactly if HEAD and the new event are held. */
  lemma {:induction false} GrownIsSound(store: Store, b: State, s: State, chains: iset<Chain>, files: Chain,
      payload: seq<byte>)
    requires ValidStore(store) && Valid(b) && Holds(store, b, chains, files) && Extends(store, files, payload)
    requires Committing(store, b, s, Rev(store, payload), payload)
    requires Publishable(b, EventPath(store, Rev(store, payload)), payload)
    ensures Sound(store, s, iset{files + [payload]}) <==> BothHeld(store, s, Rev(store, payload), payload)
  {
    hide Extends, Lineage, Calm;
    var (all, head) := (files + [payload], HeadPath(store));
    var chains': iset<Chain> := iset{all};
    assert all[|all| - 1] == payload && HeadBytes(store, all) == Some(HeadText(Rev(store, payload)));
    LongerIsSecure(store, b, s, files, payload);
    if BothHeld(store, s, Rev(store, payload), payload) {
      forall seen | MaySee(s, head, seen) ensures Named(store, chains', seen) {
        assert all in chains' && HeadBytes(store, all) == seen;
      }
    }
    if Sound(store, s, chains') {
      assert all in chains';
      forall seen | MaySee(s, head, seen) ensures seen == Some(HeadText(Rev(store, payload))) {
        var named :| named in chains' && HeadBytes(store, named) == seen;
      }
    }
  }

  ghost predicate SomewhereLost(store: Store, before: seq<State>, after: seq<State>, chains: iset<Chain>, files: Chain,
      payload: seq<byte>)
    requires ValidStore(store)
  {
    exists i :: |before| <= i < |after| && !Recoverable(store, after[i], chains, files, payload)
  }

  /** No chain that the store holds ends with an event that is not ready. */
  lemma {:induction false} NotReadyIsNew(store: Store, b: State, chains: iset<Chain>, files: Chain, payload: seq<byte>)
    requires ValidStore(store) && Valid(b) && files in chains &&
      (forall earlier :: earlier in chains ==> Secure(store, b, earlier))
    requires var event := EventPath(store, Rev(store, payload)); Publishable(b, event, payload) && !Ready(b, event)
    ensures files == [] || HeadRevision(store, files) != Rev(store, payload)
  {
    if files != [] && HeadRevision(store, files) == Rev(store, payload) {
      HeldMeans(b, EventPath(store, Rev(store, payload)), files[|files| - 1]);
      assert false;
    }
  }

  lemma {:induction false} SecureEnds(store: Store, s: State, files: Chain, payload: seq<byte>)
    requires ValidStore(store) && Secure(store, s, files + [payload])
    ensures Held(s, EventPath(store, Rev(store, payload)), payload)
  {
    var all := files + [payload];
    assert all[|files|] == payload;
  }

  lemma {:induction false} TornIsLost(store: Store, b: State, before: seq<State>, after: seq<State>,
      chains: iset<Chain>, files: Chain, payload: seq<byte>)
    requires ValidStore(store) && Valid(b) && Sound(store, b, chains)
    requires TornWithin(store, before, after, Rev(store, payload), payload)
    requires var event := EventPath(store, Rev(store, payload)); Publishable(b, event, payload) && !Ready(b, event)
    ensures SomewhereLost(store, before, after, chains, files, payload)
  {
    var i :| |before| <= i < |after| && Torn(store, after[i], Rev(store, payload), payload);
    var (s, all, new') := (after[i], files + [payload], Some(HeadText(Rev(store, payload))));
    assert all[|all| - 1] == payload;
    if Holds(store, s, chains, files) {
      assert Named(store, chains, new');
      var earlier :| earlier in chains && HeadBytes(store, earlier) == new';
      NotReadyIsNew(store, b, chains, earlier, payload);
      HeadOfText(HeadRevision(store, earlier));
      HeadOfText(Rev(store, payload));
      assert false;
    }
    if Holds(store, s, chains + iset{all}, all) {
      SecureEnds(store, s, files, payload);
      assert false;
    }
  }

  // ---- append ----

  /** `retried`: the record was the head already. */
  datatype Reply = Added(revision: PyStr, retried: bool) | Refused(reason: Reason)

  /** Not one of the refusals that come before the disk is touched. */
  predicate FromStore(reason: Reason) {
    !reason.LegacyReadOnly? && !reason.BadRecord? && !reason.LockRefused?
  }

  predicate IsNew(r: Reply) {
    r.Added? && !r.retried
  }

  /** The injected rule lets the record come after `files`. */
  ghost predicate RuleHolds(store: Store, files: Chain, record: Records.ChainRecord) {
    if files == [] then store.genesisOk(record)
    else match Records.RecordFromBytes(files[|files| - 1])
      case Success(last) => store.successorOk(last, record)
      case Failure(_) => false
  }

  /** What `append` seals and what it stores. */
  predicate SealedAs(record: Records.ChainRecord, expected: PyStr, payload: seq<byte>) {
    && record.schema == Records.RECORD_SCHEMA && record.previousRevision == expected
    && Records.IsRecord(record) && Records.CanonicalRecordBytes(record) == Records.Success(payload)
  }

  lemma {:induction false} SealedExtends(store: Store, files: Chain, record: Records.ChainRecord, payload: seq<byte>)
    requires SealedAs(record, HeadRevision(store, files), payload)
    ensures Extends(store, files, payload)
  {
    Records.RecordRoundTrip(record);
  }

  /** The chain on the disk that ends at `head`, accepted by the rules. */
  ghost predicate Current(store: Store, s: State, files: Chain, head: PyStr) {
    if head == [] then files == []
    else Walkable(store, s, files, head) && !RulesRefuse(store, files)
  }

  /** The exact retry: the whole chain is validated and the bytes are compared. */
  method Retry(store: Store, disk: Disk, revision: PyStr, payload: seq<byte>) returns (r: Reply)
    requires Valid(disk.s) && ValidStore(store) && IsRevision(revision)
    modifies disk
    ensures disk.s == old(disk.s) && Through(old(disk.trace), disk.trace, s => s == old(disk.s))
    ensures r.Added? ==> r == Added(revision, true) && StoredAs(store, disk.s, revision, payload)
    ensures r.Added? ==> exists files :: Current(store, disk.s, files, revision)
    ensures r.Refused? ==> !r.reason.StaleHead? && FromStore(r.reason)
    ensures disk.fine ==> old(disk.fine)
    ensures disk.fine && StoredAs(store, disk.s, revision, payload) ==>
      forall files :: Current(store, disk.s, files, revision) ==> r.Added?
    ensures forall files :: disk.fine && Walkable(store, disk.s, files, revision) && RulesRefuse(store, files) ==>
      r == Refused(RuleRefused)
  {
    hide RulesRefuse;
    var walk;
    ghost var loaded;
    walk, loaded := LoadChain(store, disk, revision);
    if walk.Broken? {
      return Refused(walk.reason);
    }
    AcceptedIsNotRefused(store, loaded, walk.records);
    forall chain | Walkable(store, disk.s, chain, revision) ensures chain == loaded {
      OneChainEach(store, disk.s, chain, loaded);
    }
    assert Current(store, disk.s, loaded, revision);
    var same := ReadBytesVerified(disk, EventPath(store, revision), payload);
    r := if same == Done then Added(revision, true) else Refused(DiskFailed(same.error));
  }

  lemma {:induction false} AcceptedIsNotRefused(store: Store, files: Chain, records: seq<Records.ChainRecord>)
    requires RecordsOf(files, records) && Accepted(store, records)
    ensures !RulesRefuse(store, files)
  {
    forall others | RecordsOf(files, others) ensures Accepted(store, others) {
      assert others == records by {
        forall i | 0 <= i < |files| ensures others[i] == records[i] {
        }
      }
    }
  }

  /** Genesis or successor rule; the predecessor is the last record of the validated chain. */
  method CheckRule(store: Store, disk: Disk, current: PyStr, record: Records.ChainRecord)
    returns (failed: Option<Reason>, ghost files: Chain)
    requires Valid(disk.s) && ValidStore(store)
    modifies disk
    ensures disk.s == old(disk.s) && Through(old(disk.trace), disk.trace, s => s == old(disk.s))
    ensures failed.Some? ==> !failed.value.StaleHead? && FromStore(failed.value)
    ensures failed.None? ==> Current(store, disk.s, files, current) && RuleHolds(store, files, record)
    ensures disk.fine ==> old(disk.fine)
    ensures forall chain :: disk.fine && Current(store, disk.s, chain, current) && RuleHolds(store, chain, record) ==>
      failed.None?
    ensures current == [] && !RuleHolds(store, [], record) ==> failed == Some(RuleRefused)
    ensures disk.fine ==> forall chain :: Walkable(store, disk.s, chain, current) ==>
      RulesRefuse(store, chain) || !RuleHolds(store, chain, record) ==> failed == Some(RuleRefused)
  {
    files := [];
    if current == [] {
      return if store.genesisOk(record) then None else Some(RuleRefused), files;
    }
    var walk;
    walk, files := LoadChain(store, disk, current);
    if walk.Broken? {
      return Some(walk.reason), files;
    }
    AcceptedIsNotRefused(store, files, walk.records);
    forall chain | Walkable(store, disk.s, chain, current) ensures chain == files {
      OneChainEach(store, disk.s, chain, files);
    }
    var n := |walk.records| - 1;
    return if store.successorOk(walk.records[n], record) then None else Some(RuleRefused), files;
  }

  /** What a store that holds `files` has against the record: its own rules, or another head than the expected one. */
  ghost predicate Objection(store: Store, files: Chain, expected: PyStr, record: Records.ChainRecord,
      payload: seq<byte>, reason: Reason)
    requires ValidStore(store)
  {
    var (head, revision) := (HeadRevision(store, files), Rev(store, payload));
    if head == revision then RulesRefuse(store, files) && reason == RuleRefused
    else if head != expected then reason == StaleHead(expected, head, revision)
    else (RulesRefuse(store, files) || !RuleHolds(store, files, record)) && reason == RuleRefused
  }

  /** The chain can be read from HEAD to its first event. */
  ghost predicate InSight(store: Store, b: State, files: Chain)
    requires ValidStore(store)
  {
    && HeadOf(Live(b, HeadPath(store))) == Some(HeadRevision(store, files)) && Readable(b, HeadPath(store))
    && (files != [] ==> Walkable(store, b, files, HeadRevision(store, files)))
  }

  /** Replies that leave the disk alone. */
  ghost predicate QuietReply(store: Store, b: State, expected: PyStr, payload: seq<byte>, r: Reply)
    requires ValidStore(store)
  {
    var (head, revision) := (HeadOf(Live(b, HeadPath(store))), Rev(store, payload));
    match r
    case Added(_, _) =>
      && r == Added(revision, true) && head == Some(revision) && StoredAs(store, b, revision, payload)
      && exists files :: Current(store, b, files, revision)
    case Refused(reason) =>
      && FromStore(reason)
      && (reason.StaleHead? ==>
           reason == StaleHead(expected, reason.current, revision) && head == Some(reason.current) &&
           reason.current != expected)
  }

  /** Leave to commit. */
  ghost predicate GoAhead(store: Store, b: State, expected: PyStr, record: Records.ChainRecord, payload: seq<byte>,
      files: Chain)
  {
    && HeadOf(Live(b, HeadPath(store))) == Some(expected) && Readable(b, HeadPath(store))
    && expected != Rev(store, payload) && Current(store, b, files, expected) && RuleHolds(store, files, record)
  }

  /** The part under the lock that only reads; None is leave to commit. */
  method Decide(store: Store, disk: Disk, expected: PyStr, record: Records.ChainRecord, payload: seq<byte>)
    returns (r: Option<Reply>, ghost loaded: Chain)
    requires Valid(disk.s) && ValidStore(store)
    modifies disk
    ensures disk.s == old(disk.s) && Through(old(disk.trace), disk.trace, s => s == old(disk.s))
    ensures r.Some? ==> QuietReply(store, disk.s, expected, payload, r.value)
    ensures r.None? ==> GoAhead(store, disk.s, expected, record, payload, loaded)
    ensures disk.fine ==> old(disk.fine)
    ensures forall files :: disk.fine && GoAhead(store, disk.s, expected, record, payload, files) ==> r.None?
    ensures forall files :: disk.fine && SameAgain(store, disk.s, payload, files) ==> r.Some? && r.value.Added?
    ensures disk.fine ==> forall files, reason :: InSight(store, disk.s, files) ==>
      Objection(store, files, expected, record, payload, reason) ==> r == Some(Refused(reason))
  {
    hide Current, Readable, RuleHolds, RulesRefuse, StoredAs, Valid, Walkable;
    EmptyIsNotRefused(store);
    loaded := [];
    var failed, current := ReadHead(store, disk);
    if failed.Some? {
      return Some(Refused(failed.value)), loaded;
    }
    if current == Rev(store, payload) {
      var reply := Retry(store, disk, current, payload);
      return Some(reply), loaded;
    }
    if current != expected {
      return Some(Refused(StaleHead(expected, current, Rev(store, payload)))), loaded;
    }
    failed, loaded := CheckRule(store, disk, current, record);
    r := if failed.Some? then Some(Refused(failed.value)) else None;
  }

  /** The record is the head already. */
  ghost predicate SameAgain(store: Store, b: State, payload: seq<byte>, files: Chain)
    requires ValidStore(store)
  {
    var revision := Rev(store, payload);
    && HeadOf(Live(b, HeadPath(store))) == Some(revision) && Readable(b, HeadPath(store))
    && StoredAs(store, b, revision, payload) && Current(store, b, files, revision)
  }

  /** All that happened under the lock. */
  ghost predicate Happened(store: Store, b: State, s: State, before: seq<State>, after: seq<State>, expected: PyStr,
      record: Records.ChainRecord, payload: seq<byte>, loaded: Chain, r: Reply)
    requires ValidStore(store)
  {
    || (s == b && Through(before, after, t => t == b) && QuietReply(store, b, expected, payload, r))
    || (&& GoAhead(store, b, expected, record, payload, loaded)
        && Committing(store, b, s, Rev(store, payload), payload)
        && Through(before, after, t => Committing(store, b, t, Rev(store, payload), payload))
        && if r.Added? then
             r == Added(Rev(store, payload), false) &&
               Committed(store, b, s, before, after, Rev(store, payload), payload)
           else r.reason.DiskFailed?)
  }

  /** Under the lock. */
  method AppendLocked(store: Store, disk: Disk, expected: PyStr, record: Records.ChainRecord, payload: seq<byte>)
    returns (r: Reply, ghost loaded: Chain)
    requires Valid(disk.s) && ValidStore(store) && disk.s.current(EventsPath(store)) == DirEntry
    modifies disk
    ensures Valid(disk.s)
    ensures Happened(store, old(disk.s), disk.s, old(disk.trace), disk.trace, expected, record, payload, loaded, r)
    ensures disk.fine ==> old(disk.fine)
    // without a failing call: exactly then
    ensures forall files :: disk.fine && GoAhead(store, old(disk.s), expected, record, payload, files) ==>
      (IsNew(r) <==> Publishable(old(disk.s), EventPath(store, Rev(store, payload)), payload))
    ensures forall files :: disk.fine && SameAgain(store, old(disk.s), payload, files) ==> r.Added? && r.retried
    ensures disk.fine ==> forall files, reason :: InSight(store, old(disk.s), files) ==>
      Objection(store, files, expected, record, payload, reason) ==> r == Refused(reason)
  {
    hide Valid, GoAhead, SameAgain, QuietReply, Committing, Committed, Publishable;
    ghost var b, t0 := disk.s, disk.trace;
    var decided;
    decided, loaded := Decide(store, disk, expected, record, payload);
    ghost var t1 := disk.trace;
    QuietOrNot(store, b, expected, record, payload);
    if decided.Some? {
      return decided.value, loaded;
    }
    var revision := Rev(store, payload);
    var done := Commit(store, disk, revision, payload);
    r := if done == Done then Added(revision, false) else Refused(DiskFailed(done.error));
    ghost var committing := t => Committing(store, b, t, revision, payload);
    NothingIsInstant(store, revision, b);
    QuietIsCommitting(store, b, b, revision, payload);
    ThroughWeaker(t0, t1, t => t == b, committing);
    ThroughBoth(t0, t1, disk.trace, committing);
    LaterTears(store, b, disk.s, t0, t1, disk.trace, revision, payload);
    HeadIsNoDirectory(store, b, expected, record, payload, loaded);
  }

  lemma {:induction false} HeadIsNoDirectory(store: Store, b: State, expected: PyStr, record: Records.ChainRecord,
      payload: seq<byte>, files: Chain)
    requires Valid(b) && GoAhead(store, b, expected, record, payload, files)
    ensures b.current(HeadPath(store)) != DirEntry
  {
    var path := HeadPath(store);
    var stop := path[..Stop(b, path, 1)];
    if |stop| == |path| {
      assert stop == path;
    } else if !Openable(b, path) {
      AbsentFrom(b, path, stop);
    }
  }

  lemma {:induction false} QuietOrNot(store: Store, b: State, expected: PyStr, record: Records.ChainRecord,
      payload: seq<byte>)
    requires ValidStore(store)
    ensures forall r :: QuietReply(store, b, expected, payload, r) ==> !IsNew(r)
    ensures forall files, again ::
      GoAhead(store, b, expected, record, payload, files) ==> !SameAgain(store, b, payload, again)
  {
  }

  /** What the reply means for a store that holds `files`, in terms of the state in which the lock was taken. */
  ghost predicate Outcome(store: Store, b: State, s: State, before: seq<State>, after: seq<State>, expected: PyStr,
      record: Records.ChainRecord, payload: seq<byte>, chains: iset<Chain>, files: Chain, r: Reply)
    requires ValidStore(store)
  {
    var (head, event) := (HeadPath(store), EventPath(store, Rev(store, payload)));
    var ready := Ready(b, event);
    && AtWorst(store, b, s, chains, files, payload, ready)
    && Through(before, after, t => AtWorst(store, b, t, chains, files, payload, ready))
    && (IsNew(r) ==>
         && HeadRevision(store, files) == expected && RuleHolds(store, files, record)
         && Live(s, head) == HeadBytes(store, files + [payload])
         && (Sound(store, s, iset{files + [payload]}) <==> AncestorsDurable(b, head) && Settled(b, event))
         && (!ready ==> SomewhereLost(store, before, after, chains, files, payload)))
    && (r.Added? && r.retried ==> files != [] && files[|files| - 1] == payload && s == b)
    && (r.Refused? && !r.reason.DiskFailed? ==> s == b)
    && (r.Refused? && r.reason.StaleHead? ==>
         && r.reason == StaleHead(expected, HeadRevision(store, files), Rev(store, payload))
         && HeadRevision(store, files) != expected)
  }

  lemma {:induction false} QuietOutcome(store: Store, b: State, before: seq<State>, after: seq<State>, expected: PyStr,
      record: Records.ChainRecord, payload: seq<byte>, chains: iset<Chain>, files: Chain, r: Reply)
    requires ValidStore(store) && Valid(b) && Holds(store, b, chains, files) && Through(before, after, s => s == b)
    requires QuietReply(store, b, expected, payload, r)
    ensures Outcome(store, b, b, before, after, expected, record, payload, chains, files, r)
  {
    hide AtWorst, Holds, Sound, Secure;
    var ready := Ready(b, EventPath(store, Rev(store, payload)));
    HeldAtWorst(store, b, b, chains, files, payload, ready);
    HeldIsWalkable(store, b, chains, files);
    ThroughWeaker(before, after, s => s == b, s => AtWorst(store, b, s, chains, files, payload, ready));
    if r.Added? {
      SameFile(store, b, chains, files, payload);
    }
  }

  /** The file under the last revision is the last file. */
  lemma {:induction false} SameFile(store: Store, b: State, chains: iset<Chain>, files: Chain, payload: seq<byte>)
    requires ValidStore(store) && Valid(b) && Holds(store, b, chains, files)
    requires HeadRevision(store, files) == Rev(store, payload) && StoredAs(store, b, Rev(store, payload), payload)
    ensures files != [] && files[|files| - 1] == payload
  {
    SecureIsStored(store, b, files);
    var n := |files| - 1;
    assert files != [] ==> StoredAs(store, b, Rev(store, files[n]), files[n]);
  }

  /** In a sound store the chain that was loaded is the one it holds. */
  lemma {:induction false} LoadedIsHeld(store: Store, b: State, chains: iset<Chain>, files: Chain, expected: PyStr,
      record: Records.ChainRecord, payload: seq<byte>, loaded: Chain)
    requires ValidStore(store) && Valid(b) && Holds(store, b, chains, files)
    requires GoAhead(store, b, expected, record, payload, loaded)
    ensures HeadRevision(store, files) == expected && loaded == files && RuleHolds(store, files, record)
  {
    HeldIsWalkable(store, b, chains, files);
    if files != [] {
      OneChainEach(store, b, files, loaded);
    }
  }

  lemma {:induction false} CommitOutcome(store: Store, b: State, s: State, before: seq<State>, after: seq<State>,
      expected: PyStr, record: Records.ChainRecord, payload: seq<byte>, chains: iset<Chain>, files: Chain, r: Reply)
    requires ValidStore(store) && Valid(b) && Holds(store, b, chains, files) && SealedAs(record, expected, payload)
    requires HeadRevision(store, files) == expected && RuleHolds(store, files, record)
    requires Committing(store, b, s, Rev(store, payload), payload)
    requires Through(before, after, t => Committing(store, b, t, Rev(store, payload), payload))
    requires if r.Added? then IsNew(r) && Committed(store, b, s, before, after, Rev(store, payload), payload)
             else r.reason.DiskFailed?
    ensures Outcome(store, b, s, before, after, expected, record, payload, chains, files, r)
  {
    hide AtWorst, Committing, SealedAs, SomewhereLost, TornWithin, Secure, Ready;
    var (revision, event) := (Rev(store, payload), EventPath(store, Rev(store, payload)));
    var ready := Ready(b, event);
    SealedExtends(store, files, record, payload);
    forall t | Committing(store, b, t, revision, payload) ensures AtWorst(store, b, t, chains, files, payload, ready) {
      CommittingAtWorst(store, b, t, chains, files, payload);
    }
    ThroughWeaker(before, after, t => Committing(store, b, t, revision, payload),
      t => AtWorst(store, b, t, chains, files, payload, ready));
    if r.Added? {
      var all := files + [payload];
      assert all[|all| - 1] == payload;
      GrownIsSound(store, b, s, chains, files, payload);
      if !ready {
        TornIsLost(store, b, before, after, chains, files, payload);
      }
    }
  }

  lemma {:induction false} WhatHappened(store: Store, b: State, s: State, before: seq<State>, after: seq<State>,
      expected: PyStr, record: Records.ChainRecord, payload: seq<byte>, loaded: Chain, chains: iset<Chain>,
      files: Chain, r: Reply)
    requires ValidStore(store) && Valid(b) && Holds(store, b, chains, files) && SealedAs(record, expected, payload)
    requires Happened(store, b, s, before, after, expected, record, payload, loaded, r)
    ensures Outcome(store, b, s, before, after, expected, record, payload, chains, files, r)
  {
    hide Outcome, Holds, SealedAs, QuietReply, GoAhead, Committing, Committed;
    if GoAhead(store, b, expected, record, payload, loaded) {
      LoadedIsHeld(store, b, chains, files, expected, record, payload, loaded);
    }
    if s == b && Through(before, after, t => t == b) && QuietReply(store, b, expected, payload, r) {
      QuietOutcome(store, b, before, after, expected, record, payload, chains, files, r);
    } else {
      CommitOutcome(store, b, s, before, after, expected, record, payload, chains, files, r);
    }
  }

  // ---- From the state in which the call began ----

  /** `Outcome`, in terms of the state in which the call began. */
  ghost predicate Promised(store: Store, s0: State, s: State, before: seq<State>, after: seq<State>, expected: PyStr,
      record: Records.ChainRecord, payload: seq<byte>, chains: iset<Chain>, files: Chain, r: Reply)
    requires ValidStore(store)
  {
    var (head, event) := (HeadPath(store), EventPath(store, Rev(store, payload)));
    var ready := OldAncestorsDurable(s0, event) && Settled(s0, event);
    // at every instant, and after a crash at it
    && AtWorst(store, s0, s, chains, files, payload, ready)
    && Through(before, after, t => AtWorst(store, s0, t, chains, files, payload, ready))
    // a new link: HEAD named the expected revision, the rule holds, and the chain has grown for good exactly if the
    // directories that were there on the way to HEAD were durable, and a file that was there as the event was synced;
    // if not all was ready, a crash at some instant could have shown HEAD without its event
    && (IsNew(r) ==>
         && HeadRevision(store, files) == expected && RuleHolds(store, files, record)
         && Live(s, head) == HeadBytes(store, files + [payload])
         && (Sound(store, s, iset{files + [payload]}) <==> OldAncestorsDurable(s0, head) && Settled(s0, event))
         && (!ready ==> SomewhereLost(store, before, after, chains, files, payload)))
    && (r.Added? && r.retried ==> files != [] && files[|files| - 1] == payload && s == s0)
    && (r.Refused? && !r.reason.DiskFailed? ==> Holds(store, s, chains, files))
    && (r.Refused? && r.reason.StaleHead? ==>
         && r.reason == StaleHead(expected, HeadRevision(store, files), Rev(store, payload))
         && HeadRevision(store, files) != expected)
  }

  /** Making the events' directory leaves the condition as it was: what is made is made durable. */
  lemma {:induction false} MadeReady(store: Store, s0: State, b: State, revision: PyStr)
    requires IsRevision(revision) && Valid(s0) && Valid(b) && Grown(s0, b, EventsPath(store))
    requires DirReady(s0, b, EventsPath(store))
    ensures Ready(b, EventPath(store, revision)) <==>
      OldAncestorsDurable(s0, EventPath(store, revision)) && Settled(s0, EventPath(store, revision))
    ensures Settled(b, EventPath(store, revision)) <==> Settled(s0, EventPath(store, revision))
    ensures AncestorsDurable(b, HeadPath(store)) <==> OldAncestorsDurable(s0, HeadPath(store))
  {
    var (event, head) := (EventPath(store, revision), HeadPath(store));
    assert Above(EventsPath(store), event) && SameEntry(s0, b, event);
    forall a | a < event ensures AtOrAbove(a, EventsPath(store)) && Above(a, event) {
    }
    forall a | a < head ensures AtOrAbove(a, EventsPath(store)) && Above(a, head) {
      assert a <= store.directory;
    }
    forall a | AtOrAbove(a, EventsPath(store)) ensures s0.current(a) in s0.possible(a) {
    }
  }

  /** While directories are made, a store holds what it held. */
  lemma {:induction false} MadeKeeps(store: Store, s0: State, t: State, chains: iset<Chain>, files: Chain,
      payload: seq<byte>, ready: bool)
    requires ValidStore(store) && Valid(s0) && Holds(store, s0, chains, files) && Grown(s0, t, EventsPath(store))
    ensures Holds(store, t, chains, files) && AtWorst(store, s0, t, chains, files, payload, ready)
    ensures Alone(s0, EventPath(store, Rev(store, payload))) ==> Alone(t, EventPath(store, Rev(store, payload)))
  {
    var event := EventPath(store, Rev(store, payload));
    SoundKept(store, s0, t, chains);
    assert Above(EventsPath(store), event) && SameEntry(s0, t, event);
    if Alone(s0, event) {
      AloneKept(s0, t, event);
    }
    HeldAtWorst(store, s0, t, chains, files, payload, ready);
  }

  lemma {:induction false} MadeThrough(store: Store, s0: State, before: seq<State>, after: seq<State>,
      chains: iset<Chain>, files: Chain, payload: seq<byte>, ready: bool)
    requires ValidStore(store) && Valid(s0) && Holds(store, s0, chains, files)
    requires Through(before, after, t => Grown(s0, t, EventsPath(store)))
    ensures Through(before, after, t => AtWorst(store, s0, t, chains, files, payload, ready))
  {
    hide AtWorst, Holds, Grown;
    forall t | Grown(s0, t, EventsPath(store)) ensures AtWorst(store, s0, t, chains, files, payload, ready) {
      MadeKeeps(store, s0, t, chains, files, payload, ready);
    }
    ThroughWeaker(before, after, t => Grown(s0, t, EventsPath(store)),
      t => AtWorst(store, s0, t, chains, files, payload, ready));
  }

  lemma {:induction false} AtWorstSince(store: Store, s0: State, b: State, s: State, chains: iset<Chain>, files: Chain,
      payload: seq<byte>, ready: bool)
    requires ValidStore(store) && AtWorst(store, b, s, chains, files, payload, ready)
    requires Alone(s0, EventPath(store, Rev(store, payload))) ==> Alone(b, EventPath(store, Rev(store, payload)))
    ensures AtWorst(store, s0, s, chains, files, payload, ready)
  {
  }

  /** The call up to the lock. */
  ghost predicate Made(store: Store, s0: State, b: State, before: seq<State>, after: seq<State>) {
    && Valid(s0) && Valid(b) && Grown(s0, b, EventsPath(store)) && DirReady(s0, b, EventsPath(store))
    && Through(before, after, t => Grown(s0, t, EventsPath(store)))
    && (s0.current(EventsPath(store)) == DirEntry ==> b == s0)
  }

  lemma {:induction false} PromiseKept(store: Store, s0: State, b: State, s: State, t0: seq<State>, t1: seq<State>,
      t2: seq<State>, expected: PyStr, record: Records.ChainRecord, payload: seq<byte>, loaded: Chain,
      chains: iset<Chain>, files: Chain, r: Reply)
    requires ValidStore(store) && Made(store, s0, b, t0, t1) && Holds(store, s0, chains, files)
    requires SealedAs(record, expected, payload)
    requires Happened(store, b, s, t1, t2, expected, record, payload, loaded, r)
    ensures Promised(store, s0, s, t0, t2, expected, record, payload, chains, files, r)
  {
    hide AtWorst, Happened, Holds, SealedAs, Ready, Grown, DirReady, Sound, SomewhereLost, OldAncestorsDurable,
      AncestorsDurable, Settled, Valid, RuleHolds;
    var ready := Ready(b, EventPath(store, Rev(store, payload)));
    MadeReady(store, s0, b, Rev(store, payload));
    MadeKeeps(store, s0, b, chains, files, payload, ready);
    WhatHappened(store, b, s, t1, t2, expected, record, payload, loaded, chains, files, r);
    MadeThrough(store, s0, t0, t1, chains, files, payload, ready);
    forall t | AtWorst(store, b, t, chains, files, payload, ready)
      ensures AtWorst(store, s0, t, chains, files, payload, ready)
    {
      AtWorstSince(store, s0, b, t, chains, files, payload, ready);
    }
    ThroughWeaker(t1, t2, t => AtWorst(store, b, t, chains, files, payload, ready),
      t => AtWorst(store, s0, t, chains, files, payload, ready));
    ThroughBoth(t0, t1, t2, t => AtWorst(store, s0, t, chains, files, payload, ready));
    SomewhereLater(store, t0, t1, t2, chains, files, payload);
    WayThere(store, s0, chains, files);
  }

  lemma {:induction false} SomewhereLater(store: Store, t0: seq<State>, t1: seq<State>, t2: seq<State>,
      chains: iset<Chain>, files: Chain, payload: seq<byte>)
    requires ValidStore(store) && t0 <= t1
    ensures SomewhereLost(store, t1, t2, chains, files, payload) ==>
      SomewhereLost(store, t0, t2, chains, files, payload)
  {
  }

  lemma {:induction false} WayThere(store: Store, s: State, chains: iset<Chain>, files: Chain)
    requires ValidStore(store) && Valid(s) && Holds(store, s, chains, files)
    ensures files != [] ==> s.current(EventsPath(store)) == DirEntry
  {
    HeldIsWalkable(store, s, chains, files);
  }

  /** A refusal before the lock is held. */
  lemma {:induction false} PromisedNothing(store: Store, s0: State, s: State, before: seq<State>, after: seq<State>,
      expected: PyStr, record: Records.ChainRecord, payload: seq<byte>, chains: iset<Chain>, files: Chain,
      reason: Reason)
    requires ValidStore(store) && Valid(s0) && Holds(store, s0, chains, files) && !reason.StaleHead?
    requires Through(before, after, t => Grown(s0, t, EventsPath(store))) && Grown(s0, s, EventsPath(store))
    ensures Promised(store, s0, s, before, after, expected, record, payload, chains, files, Refused(reason))
  {
    hide AtWorst, Holds, Grown, Settled, OldAncestorsDurable;
    var event := EventPath(store, Rev(store, payload));
    var ready := OldAncestorsDurable(s0, event) && Settled(s0, event);
    MadeKeeps(store, s0, s, chains, files, payload, ready);
    MadeThrough(store, s0, before, after, chains, files, payload, ready);
  }

  // ---- When nothing but a failing call can refuse a record ----

  /** The record fits: the predecessor is the last revision, the rules accept it and the chain before it, the event's
      name is free or holds the same bytes under this name alone, and nothing but directories is in the way. */
  ghost predicate Admissible(store: Store, s: State, files: Chain, expected: PyStr, record: Records.ChainRecord,
      payload: seq<byte>)
    requires ValidStore(store)
  {
    && HeadRevision(store, files) == expected && expected != Rev(store, payload)
    && !RulesRefuse(store, files) && RuleHolds(store, files, record)
    && Publishable(s, EventPath(store, Rev(store, payload)), payload)
    && Climbable(s, EventsPath(store)) && (files == [] ==> s.current(HeadPath(store)) == Absent)
  }

  lemma {:induction false} StopAtEnd(s: State, path: Path, k: nat)
    requires 1 <= k <= |path| && forall a :: Above(a, path) ==> s.current(a) == DirEntry
    ensures path[..Stop(s, path, k)] == path
    decreases |path| - k
  {
    if k < |path| {
      assert Above(path[..k], path);
      StopAtEnd(s, path, k + 1);
    }
  }

  /** HEAD can be read when the directories are there. */
  lemma {:induction false} HeadReadable(store: Store, b: State, chains: iset<Chain>, files: Chain)
    requires ValidStore(store) && Valid(b) && Holds(store, b, chains, files)
    requires forall a :: AtOrAbove(a, EventsPath(store)) ==> b.current(a) == DirEntry
    ensures Readable(b, HeadPath(store)) <==> files != [] || b.current(HeadPath(store)) == Absent
  {
    var head := HeadPath(store);
    HeldIsWalkable(store, b, chains, files);
    forall a | Above(a, head) ensures b.current(a) == DirEntry {
      assert a <= store.directory && AtOrAbove(a, EventsPath(store));
    }
    StopAtEnd(b, head, 1);
  }

  /** Making directories changes nothing about files. */
  lemma {:induction false} SameFiles(s0: State, b: State, p: Path, payload: seq<byte>)
    requires Valid(s0) && Valid(b) && Calm(s0, b, iset{}) && b.current(p) == s0.current(p)
    ensures Publishable(s0, p, payload) <==> Publishable(b, p, payload)
  {
    forall q ensures s0.current(q).FileEntry? || b.current(q).FileEntry? ==> s0.current(q) == b.current(q) {
      assert Gentle(s0, b, q);
    }
    assert s0.current(p) in s0.possible(p);
    if s0.current(p).FileEntry? {
      OpenableMeans(s0, p);
      OpenableMeans(b, p);
    }
  }

  lemma {:induction false} EmptyIsNotRefused(store: Store)
    ensures !RulesRefuse(store, [])
  {
  }

  /** What fits at the start fits under the lock, and conversely. */
  lemma {:induction false} FitsUnderLock(store: Store, s0: State, b: State, t0: seq<State>, t1: seq<State>,
      expected: PyStr, record: Records.ChainRecord, payload: seq<byte>, chains: iset<Chain>, files: Chain)
    requires ValidStore(store) && Made(store, s0, b, t0, t1) && Holds(store, s0, chains, files)
    ensures Admissible(store, s0, files, expected, record, payload) ==>
      GoAhead(store, b, expected, record, payload, files)
    ensures Publishable(s0, EventPath(store, Rev(store, payload)), payload) <==>
      Publishable(b, EventPath(store, Rev(store, payload)), payload)
    ensures Publishable(b, EventPath(store, Rev(store, payload)), payload) ==>
      forall loaded :: GoAhead(store, b, expected, record, payload, loaded) ==>
        Admissible(store, s0, files, expected, record, payload)
  {
    hide RuleHolds, RulesRefuse, Walkable, AtWorst, Publishable, Readable, Sound, Stored;
    var (event, head) := (EventPath(store, Rev(store, payload)), HeadPath(store));
    MadeKeeps(store, s0, b, chains, files, payload, false);
    HeldIsWalkable(store, b, chains, files);
    HeadReadable(store, b, chains, files);
    assert Above(EventsPath(store), event) && SameEntry(s0, b, event);
    SameFiles(s0, b, event, payload);
    EmptyIsNotRefused(store);
    assert head[|store.directory|] == HEAD_FILENAME && EventsPath(store)[|store.directory|] == EVENTS_DIRNAME;
    assert HEAD_FILENAME[0] != EVENTS_DIRNAME[0];
    assert !AtOrAbove(head, EventsPath(store)) && b.current(head) == s0.current(head);
    forall loaded | GoAhead(store, b, expected, record, payload, loaded) ensures loaded == files {
      LoadedIsHeld(store, b, chains, files, expected, record, payload, loaded);
    }
  }

  /** The record is the head already, and the rules accept the chain. */
  ghost predicate Repeated(store: Store, files: Chain, payload: seq<byte>) {
    files != [] && files[|files| - 1] == payload && !RulesRefuse(store, files)
  }

  lemma {:induction false} RepeatedUnderLock(store: Store, s0: State, b: State, t0: seq<State>, t1: seq<State>,
      payload: seq<byte>, chains: iset<Chain>, files: Chain)
    requires ValidStore(store) && Made(store, s0, b, t0, t1) && Holds(store, s0, chains, files)
    requires Repeated(store, files, payload)
    ensures SameAgain(store, b, payload, files)
  {
    hide RulesRefuse, AtWorst;
    MadeKeeps(store, s0, b, chains, files, payload, false);
    HeldIsWalkable(store, b, chains, files);
    var n := |files| - 1;
    assert StoredAs(store, b, Rev(store, files[n]), files[n]);
  }

  /** Whether the attempts at the two locks succeed. */
  datatype Locks = Locks(maintenance: bool, store: bool)

  predicate Granted(store: Store, locks: Locks) {
    locks.store && (store.maintenanceLock ==> locks.maintenance)
  }

  /** The maintenance lock, if the store has one, and then the store lock. */
  method TakeLocks(store: Store, locks: Locks) returns (granted: bool)
    ensures granted <==> Granted(store, locks)
  {
    if store.maintenanceLock {
      if !locks.maintenance {
        return false;
      }
    }
    granted := locks.store;
  }

  /** For every chain that the store may hold when the call begins. */
  ghost predicate Kept(store: Store, s0: State, s: State, before: seq<State>, after: seq<State>, expected: PyStr,
      record: Records.ChainRecord, payload: seq<byte>, r: Reply)
    requires ValidStore(store)
  {
    forall chains, files :: Holds(store, s0, chains, files) ==>
      Promised(store, s0, s, before, after, expected, record, payload, chains, files, r)
  }

  /** An acknowledged record lies on a chain that can be walked back to its first event and that the rules accept,
      whatever else the store may hold. */
  ghost predicate Ruled(store: Store, s: State, expected: PyStr, record: Records.ChainRecord, payload: seq<byte>,
      r: Reply)
    requires ValidStore(store)
  {
    r.Added? ==> exists files ::
      && Current(store, s, files, if r.retried then Rev(store, payload) else expected)
      && (!r.retried ==> RuleHolds(store, files, record))
  }

  lemma {:induction false} RuledSince(store: Store, s0: State, b: State, t0: seq<State>, t1: seq<State>,
      expected: PyStr, record: Records.ChainRecord, payload: seq<byte>, r: Reply)
    requires ValidStore(store) && Made(store, s0, b, t0, t1) && Ruled(store, b, expected, record, payload, r)
    ensures Ruled(store, s0, expected, record, payload, r)
  {
    if r.Added? {
      var head := if r.retried then Rev(store, payload) else expected;
      var files :| Current(store, b, files, head) && (!r.retried ==> RuleHolds(store, files, record));
      assert Current(store, b, files, head);
      assert head != [] ==> Walkable(store, b, files, head);
      hide RulesRefuse, RuleHolds, Lineage;
      if head != [] {
        forall i | 0 <= i < |files|
          ensures IsRevision(Rev(store, files[i])) && StoredAs(store, s0, Rev(store, files[i]), files[i])
        {
          var event := EventPath(store, Rev(store, files[i]));
          assert Above(EventsPath(store), event) && SameEntry(s0, b, event);
          assert StoredAs(store, b, Rev(store, files[i]), files[i]);
          SameFiles(s0, b, event, files[i]);
        }
      }
      RuledBy(store, s0, expected, record, payload, r, files);
    }
  }

  lemma {:induction false} RuledBy(store: Store, s: State, expected: PyStr, record: Records.ChainRecord,
      payload: seq<byte>, r: Reply, files: Chain)
    requires ValidStore(store) && r.Added?
    requires Current(store, s, files, if r.retried then Rev(store, payload) else expected)
    requires IsNew(r) ==> RuleHolds(store, files, record)
    ensures Ruled(store, s, expected, record, payload, r)
  {
  }

  /** What stands on the disk when the call begins is in sight under the lock. */
  lemma {:induction false} InSightUnderLock(store: Store, s0: State, b: State, t0: seq<State>, t1: seq<State>,
      chains: iset<Chain>, files: Chain)
    requires ValidStore(store) && Made(store, s0, b, t0, t1) && Holds(store, s0, chains, files)
    requires files != [] || s0.current(HeadPath(store)) == Absent
    ensures InSight(store, b, files)
  {
    hide Walkable, AtWorst, Sound, Stored;
    var head := HeadPath(store);
    MadeKeeps(store, s0, b, chains, files, [], false);
    HeldIsWalkable(store, b, chains, files);
    HeadReadable(store, b, chains, files);
    assert head[|store.directory|] == HEAD_FILENAME && EventsPath(store)[|store.directory|] == EVENTS_DIRNAME;
    assert HEAD_FILENAME[0] != EVENTS_DIRNAME[0];
    assert !AtOrAbove(head, EventsPath(store)) && b.current(head) == s0.current(head);
  }

  /** Unless a call fails or a lock is refused, a record is added exactly if it fits, and what the store has against it
      is the reply. */
  ghost predicate AddedExactly(store: Store, s0: State, expected: PyStr, record: Records.ChainRecord,
      payload: seq<byte>, r: Reply)
    requires ValidStore(store)
  {
    forall chains, files :: Holds(store, s0, chains, files) ==>
      && (IsNew(r) <==> Admissible(store, s0, files, expected, record, payload))
      && (Repeated(store, files, payload) ==> r.Added? && r.retried)
      && (files != [] || (Climbable(s0, EventsPath(store)) && s0.current(HeadPath(store)) == Absent) ==>
            forall reason :: Objection(store, files, expected, record, payload, reason) ==> r == Refused(reason))
  }

  method AppendSealed(store: Store, disk: Disk, locks: Locks, expected: PyStr, record: Records.ChainRecord,
      payload: seq<byte>)
    returns (r: Reply)
    requires Valid(disk.s) && ValidStore(store) && SealedAs(record, expected, payload)
    modifies disk
    ensures Valid(disk.s) && (disk.fine ==> old(disk.fine))
    ensures r.Refused? ==> FromStore(r.reason) || r.reason.LockRefused?
    ensures (r == Refused(LockRefused) ==> !Granted(store, locks)) && (!Granted(store, locks) ==> r.Refused?)
    ensures Swapped(store, old(disk.s), disk.s, expected, payload, r)
    ensures Ruled(store, old(disk.s), expected, record, payload, r)
    ensures Kept(store, old(disk.s), disk.s, old(disk.trace), disk.trace, expected, record, payload, r)
    ensures disk.fine && Granted(store, locks) ==>
      AddedExactly(store, old(disk.s), expected, record, payload, r)
  {
    hide Valid, Holds, SealedAs, Promised, Happened, Admissible, GoAhead, SameAgain, Publishable, Objection, InSight;
    ghost var s0, t0 := disk.s, disk.trace;
    var made := MkdirAllSync(disk, EventsPath(store));
    ghost var b, t1 := disk.s, disk.trace;
    var granted := TakeLocks(store, locks);
    if made != Done || !granted {
      var reason := if made != Done then DiskFailed(made.error) else LockRefused;
      r := Refused(reason);
      forall chains, files | Holds(store, s0, chains, files)
        ensures Promised(store, s0, b, t0, t1, expected, record, payload, chains, files, r)
        ensures disk.fine && made != Done ==>
          && !Repeated(store, files, payload) && !Admissible(store, s0, files, expected, record, payload)
          && files == [] && !Climbable(s0, EventsPath(store))
      {
        PromisedNothing(store, s0, b, t0, t1, expected, record, payload, chains, files, reason);
        NotMade(store, s0, expected, record, payload, chains, files);
      }
      return;
    }
    assert AtOrAbove(EventsPath(store), EventsPath(store));
    assert Made(store, s0, b, t0, t1);
    ghost var loaded;
    r, loaded := AppendLocked(store, disk, expected, record, payload);
    HappenedReply(store, b, disk.s, t1, disk.trace, expected, record, payload, loaded, r);
    SwappedSince(store, s0, b, disk.s, t0, t1, expected, payload, r);
    RuledSince(store, s0, b, t0, t1, expected, record, payload, r);
    forall chains, files | Holds(store, s0, chains, files)
      ensures Promised(store, s0, disk.s, t0, disk.trace, expected, record, payload, chains, files, r)
      ensures disk.fine ==>
        && (IsNew(r) <==> Admissible(store, s0, files, expected, record, payload))
        && (Repeated(store, files, payload) ==> r.Added? && r.retried)
        && (files != [] || s0.current(HeadPath(store)) == Absent ==>
              forall reason :: Objection(store, files, expected, record, payload, reason) ==> r == Refused(reason))
    {
      PromiseKept(store, s0, b, disk.s, t0, t1, disk.trace, expected, record, payload, loaded, chains, files, r);
      FitsUnderLock(store, s0, b, t0, t1, expected, record, payload, chains, files);
      FitsMeans(store, s0, files, expected, record, payload);
      if Repeated(store, files, payload) {
        RepeatedUnderLock(store, s0, b, t0, t1, payload, chains, files);
      }
      if files != [] || s0.current(HeadPath(store)) == Absent {
        InSightUnderLock(store, s0, b, t0, t1, chains, files);
      }
    }
  }

  lemma {:induction false} FitsMeans(store: Store, s: State, files: Chain, expected: PyStr, record: Records.ChainRecord,
      payload: seq<byte>)
    requires ValidStore(store)
    ensures Admissible(store, s, files, expected, record, payload) ==>
      Publishable(s, EventPath(store, Rev(store, payload)), payload)
  {
  }

  /** When the directories could not be made although no call failed, something else is in the way. */
  lemma {:induction false} NotMade(store: Store, s0: State, expected: PyStr, record: Records.ChainRecord,
      payload: seq<byte>, chains: iset<Chain>, files: Chain)
    requires ValidStore(store) && Valid(s0) && Holds(store, s0, chains, files)
    ensures !Climbable(s0, EventsPath(store)) ==>
      files == [] && !Admissible(store, s0, files, expected, record, payload)
  {
    HeldIsWalkable(store, s0, chains, files);
  }

  lemma {:induction false} HappenedReply(store: Store, b: State, s: State, before: seq<State>, after: seq<State>,
      expected: PyStr, record: Records.ChainRecord, payload: seq<byte>, loaded: Chain, r: Reply)
    requires ValidStore(store) && Happened(store, b, s, before, after, expected, record, payload, loaded, r)
    ensures r.Added? ==> r.revision == Rev(store, payload)
    ensures r.Refused? ==> FromStore(r.reason)
    ensures IsNew(r) ==> GoAhead(store, b, expected, record, payload, loaded)
    ensures IsNew(r) ==> Publishable(b, EventPath(store, Rev(store, payload)), payload)
    ensures Swapped(store, b, s, expected, payload, r) && Ruled(store, b, expected, record, payload, r)
  {
    if IsNew(r) {
      RuledBy(store, b, expected, record, payload, r, loaded);
    }
    if s == b && r.Added? && r.retried && QuietReply(store, b, expected, payload, r) {
      var files :| Current(store, b, files, Rev(store, payload));
      RuledBy(store, b, expected, record, payload, r, files);
      assert StoredAs(store, b, Rev(store, payload), payload);
    }
  }

  /** The compare-and-swap, whatever the store holds. A record is acknowledged only if its event's name was free or held
      the same bytes, readable under this name alone. */
  ghost predicate Swapped(store: Store, s0: State, s: State, expected: PyStr, payload: seq<byte>, r: Reply)
    requires ValidStore(store)
  {
    var (head, revision, event) := (HeadPath(store), Rev(store, payload), EventPath(store, Rev(store, payload)));
    && (r.Added? ==>
         && r.revision == revision && Publishable(s0, event, payload) && Live(s, event) == Some(payload)
         && HeadOf(Live(s0, head)) == Some(if r.retried then revision else expected))
    && (IsNew(r) ==> Live(s, head) == Some(HeadText(revision)))
  }

  /** Making directories leaves HEAD and the event as they are. */
  lemma {:induction false} SwappedSince(store: Store, s0: State, b: State, s: State, t0: seq<State>, t1: seq<State>,
      expected: PyStr, payload: seq<byte>, r: Reply)
    requires ValidStore(store) && Made(store, s0, b, t0, t1) && Swapped(store, b, s, expected, payload, r)
    ensures Swapped(store, s0, s, expected, payload, r)
  {
    hide Publishable, HeadOf;
    var (event, head) := (EventPath(store, Rev(store, payload)), HeadPath(store));
    assert Above(EventsPath(store), event) && SameEntry(s0, b, event);
    SameFiles(s0, b, event, payload);
    assert Gentle(s0, b, head) && s0.current(head) in s0.possible(head);
  }

  /** These bytes are a stored record with this operation and this payload on top of `previous`. */
  ghost predicate ReadsAs(data: seq<byte>, operation: PyStr, payload: seq<Json.Member>, previous: PyStr) {
    match Records.RecordFromBytes(data)
    case Failure(_) => false
    case Success(read) =>
      && read.operation == operation && Json.DenoteMembers(read.payload) == Json.DenoteMembers(payload)
      && read.previousRevision == previous && read.schema == Of("antigona.review-record/v1")
  }

  /** The event that the reply names is live and reads as the caller's record, on top of `expected`. */
  ghost predicate StoredForCaller(store: Store, s: State, expected: PyStr, record: Records.ChainRecord, revision: PyStr)
  {
    && IsRevision(revision)
    && match Live(s, EventPath(store, revision))
       case None => false
       case Some(data) => ReadsAs(data, record.operation, record.payload, expected)
  }

  lemma {:induction false} SealedReadsAs(record: Records.ChainRecord, expected: PyStr, sealed: Records.ChainRecord,
      payload: seq<byte>)
    requires sealed == Records.ChainRecord(record.operation, expected, record.payload, Records.RECORD_SCHEMA)
    requires Records.IsRecord(sealed) && Records.CanonicalRecordBytes(sealed) == Records.Success(payload)
    ensures ReadsAs(payload, record.operation, record.payload, expected)
  {
    Records.RecordRoundTrip(sealed);
  }

  /** Appends the caller's operation and payload on top of `expected`. Whatever the reply, if it names a revision, the
      event of that name reads back as the caller's record. For every chain that the store soundly holds when the call
      begins, `Promised` tells what the reply means and what a crash at any instant may leave, and `AddedExactly` when
      nothing but a failing call or a lock can refuse the record. */
  method Append(store: Store, disk: Disk, locks: Locks, expected: PyStr, record: Records.ChainRecord)
    returns (r: Reply)
    requires Valid(disk.s) && ValidStore(store) && Records.IsRecord(record)
    modifies disk
    ensures Valid(disk.s) && (disk.fine ==> old(disk.fine))
    // a new link as well as a retry
    ensures r.Added? ==> StoredForCaller(store, disk.s, expected, record, r.revision)
    ensures r == Refused(LegacyReadOnly) <==> store.readOnly
    ensures (r == Refused(LockRefused) ==> !Granted(store, locks)) && (!Granted(store, locks) ==> r.Refused?)
    ensures r.Refused? && (r.reason.LegacyReadOnly? || r.reason.BadRecord?) ==> disk.s == old(disk.s)
    ensures var form := Records.ChainRecord(record.operation, expected, record.payload, Records.RECORD_SCHEMA);
      var bytes := Records.CanonicalRecordBytes(form);
      && (r.Refused? && r.reason.BadRecord? <==> !store.readOnly && (store.blankDirectory || bytes.Failure?))
      && (bytes.Success? ==>
           && Swapped(store, old(disk.s), disk.s, expected, bytes.value, r)
           && Ruled(store, old(disk.s), expected, form, bytes.value, r)
           && Kept(store, old(disk.s), disk.s, old(disk.trace), disk.trace, expected, form, bytes.value, r)
           && (disk.fine && Granted(store, locks) && !store.readOnly && !store.blankDirectory ==>
                AddedExactly(store, old(disk.s), expected, form, bytes.value, r)))
  {
    hide Valid, Holds, Promised, Admissible, AddedExactly, StoredForCaller, Ruled, Swapped, Kept;
    ghost var s0, t0 := disk.s, disk.trace;
    var sealed := record.(schema := Records.RECORD_SCHEMA, previousRevision := expected);
    var bytes := Records.CanonicalRecordBytes(sealed);
    if store.readOnly || store.blankDirectory {
      var reason := if store.readOnly then LegacyReadOnly else BadRecord(Records.ChainRecordError);
      r := Refused(reason);
      if bytes.Success? {
        RefusedAtOnce(store, s0, t0, expected, sealed, bytes.value, reason);
      }
      return;
    }
    match bytes {
      case Failure(error) => return Refused(BadRecord(error));
      case Success(payload) =>
        r := AppendSealed(store, disk, locks, expected, sealed, payload);
        if r.Added? {
          AddedIsStored(store, s0, disk.s, expected, record, sealed, payload, r);
        }
    }
  }

  lemma {:induction false} AddedIsStored(store: Store, s0: State, s: State, expected: PyStr,
      record: Records.ChainRecord, sealed: Records.ChainRecord, payload: seq<byte>, r: Reply)
    requires ValidStore(store) && r.Added? && Swapped(store, s0, s, expected, payload, r)
    requires sealed == Records.ChainRecord(record.operation, expected, record.payload, Records.RECORD_SCHEMA)
    requires Records.IsRecord(sealed) && Records.CanonicalRecordBytes(sealed) == Records.Success(payload)
    ensures StoredForCaller(store, s, expected, record, r.revision)
  {
    SealedReadsAs(record, expected, sealed, payload);
  }

  lemma {:induction false} RefusedAtOnce(store: Store, s: State, trace: seq<State>, expected: PyStr,
      record: Records.ChainRecord, payload: seq<byte>, reason: Reason)
    requires ValidStore(store) && Valid(s) && !reason.StaleHead?
    ensures Swapped(store, s, s, expected, payload, Refused(reason))
    ensures Ruled(store, s, expected, record, payload, Refused(reason))
    ensures Kept(store, s, s, trace, trace, expected, record, payload, Refused(reason))
  {
    hide Valid, Holds, Promised;
    forall chains, files | Holds(store, s, chains, files)
      ensures Promised(store, s, s, trace, trace, expected, record, payload, chains, files, Refused(reason))
    {
      NothingGrown(s, EventsPath(store));
      PromisedNothing(store, s, s, trace, trace, expected, record, payload, chains, files, reason);
    }
  }

  lemma {:induction false} NothingGrown(s: State, dir: Path)
    ensures Grown(s, s, dir)
  {
    CalmSelf(s, iset{});
  }
}
