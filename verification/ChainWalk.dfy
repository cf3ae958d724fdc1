/** The chain store on disk: where HEAD and the events are, and the walk from HEAD to the genesis record that
    validates every link. */
module ChainWalk {
  import opened Basics
  import opened Unicode
  import opened CrashDisk
  import opened Fsops
  import Framing
  import Records
  import Utf8

  const HEAD_FILENAME: Name := "HEAD"
  const EVENTS_DIRNAME: Name := "events"
  const EVENT_SUFFIX: Name := ".json"
  const DIGEST_LEN: nat := 64

  /** A store; the injected rules are functions that tell whether the validator returns. */
  datatype Store = Store(
    directory: Path,
    blankDirectory: bool,
    readOnly: bool,
    maintenanceLock: bool,
    hexdigest: seq<byte> -> PyStr,
    genesisOk: Records.ChainRecord -> bool,
    successorOk: (Records.ChainRecord, Records.ChainRecord) -> bool)

  datatype Reason =
    | LegacyReadOnly
    | BadRecord(cause: Records.Error)
    | LockRefused
    | StaleHead(expected: PyStr, current: PyStr, candidate: PyStr)
    | Corrupt
    | RuleRefused
    | NoChain
    | DiskFailed(error: Error)

  // ---- Revisions and names ----

  predicate IsHexDigit(c: CodePoint) {
    48 <= c <= 57 || 97 <= c <= 102
  }

  predicate IsRevision(revision: PyStr) {
    && Framing.REVISION_PREFIX <= revision && |revision| == |Framing.REVISION_PREFIX| + DIGEST_LEN
    && forall i :: |Framing.REVISION_PREFIX| <= i < |revision| ==> IsHexDigit(revision[i])
  }

  function Rev(store: Store, data: seq<byte>): PyStr {
    Records.Revision(store.hexdigest, data)
  }

  /** The digest of the store is one. */
  ghost predicate ValidStore(store: Store) {
    forall data :: IsRevision(Rev(store, data))
  }

  function EventName(revision: PyStr): Name
    requires IsRevision(revision)
  {
    seq(DIGEST_LEN, i requires 0 <= i < DIGEST_LEN => revision[|Framing.REVISION_PREFIX| + i] as char) + EVENT_SUFFIX
  }

  function EventsPath(store: Store): Path {
    store.directory + [EVENTS_DIRNAME]
  }

  function EventPath(store: Store, revision: PyStr): Path
    requires IsRevision(revision)
  {
    EventsPath(store) + [EventName(revision)]
  }

  function HeadPath(store: Store): Path {
    store.directory + [HEAD_FILENAME]
  }

  /** The file name of an event gives its revision away. */
  lemma {:induction false} EventNamesDiffer(store: Store, a: PyStr, b: PyStr)
    requires IsRevision(a) && IsRevision(b) && EventPath(store, a) == EventPath(store, b)
    ensures a == b
  {
    var n := |Framing.REVISION_PREFIX|;
    assert EventName(a) == EventPath(store, a)[|store.directory| + 1];
    assert EventName(b) == EventPath(store, b)[|store.directory| + 1];
    forall i | n <= i < |a| ensures a[i] == b[i] {
      assert EventName(a)[i - n] == a[i] as char && EventName(b)[i - n] == b[i] as char;
    }
    assert a[..n] == b[..n] && a == a[..n] + a[n..] && b == b[..n] + b[n..];
  }

  // ---- HEAD ----

  function LeftStripped(s: PyStr): (r: PyStr)
    ensures |r| <= |s|
  {
    if s != [] && IsSpace(s[0]) then LeftStripped(s[1..]) else s
  }

  function RightStripped(s: PyStr): (r: PyStr)
    ensures |r| <= |s|
  {
    if s != [] && IsSpace(s[|s| - 1]) then RightStripped(s[..|s| - 1]) else s
  }

  /** `text.strip()` */
  function Stripped(s: PyStr): PyStr {
    RightStripped(LeftStripped(s))
  }

  lemma {:induction false} StrippedLine(revision: PyStr)
    requires IsRevision(revision)
    ensures Stripped(revision + [10]) == revision
  {
    var line := revision + [10];
    assert line[0] == Framing.REVISION_PREFIX[0] == 's' as int && !IsSpace(line[0]);
    assert line[..|line| - 1] == revision && IsHexDigit(revision[|revision| - 1]);
    assert RightStripped(line) == RightStripped(revision) == revision;
  }

  /** The bytes of a HEAD that names this revision. */
  function HeadText(revision: PyStr): (text: seq<byte>)
    requires IsRevision(revision)
    ensures Utf8.Decode(text) == Some(revision + [10])
  {
    RevisionEncodes(revision);
    Utf8.DecodeOfEncode(revision + [10]);
    Utf8.Encode(revision + [10]).value
  }

  lemma {:induction false} RevisionEncodes(revision: PyStr)
    requires IsRevision(revision)
    ensures Utf8.Encode(revision + [10]).Some? && Utf8.Encode(revision).Some?
  {
    var line := revision + [10];
    var n := |Framing.REVISION_PREFIX|;
    forall i | 0 <= i < |line| ensures !IsSurrogate(line[i]) {
      if i < n {
        assert line[i] == Framing.REVISION_PREFIX[i] == "sha256:"[i] as int;
      } else if i < |revision| {
        assert IsHexDigit(revision[i]);
      }
    }
    Utf8.EncodeFailsExactlyOnSurrogates(line);
    assert forall c :: c in revision ==> c in line;
    Utf8.EncodeFailsExactlyOnSurrogates(revision);
  }

  /** What `read_head` makes of the file; None is ChainIntegrityError. Only an absent file is an empty chain. */
  function HeadOf(data: Option<seq<byte>>): Option<PyStr> {
    match data
    case None => Some([])
    case Some(bytes) =>
      match Utf8.Decode(bytes)
      case None => None
      case Some(text) => if IsRevision(Stripped(text)) then Some(Stripped(text)) else None
  }

  lemma {:induction false} HeadOfText(revision: PyStr)
    requires IsRevision(revision)
    ensures HeadOf(Some(HeadText(revision))) == Some(revision)
  {
    StrippedLine(revision);
  }

  /** "sha256:" and 64 digits in lower case. */
  lemma {:induction false} RevisionsExactly(revision: PyStr)
    ensures IsRevision(revision) <==>
      && |revision| == 71 && revision[..7] == Of("sha256:")
      && forall i :: 7 <= i < 71 ==> 48 <= revision[i] <= 57 || 97 <= revision[i] <= 102
  {
    assert |Framing.REVISION_PREFIX| == 7;
    if |revision| >= 7 {
      assert revision[..7] == Of("sha256:") <==> Framing.REVISION_PREFIX <= revision;
    }
  }

  /** Where HEAD and the event of a revision lie. */
  lemma {:induction false} NamesExactly(store: Store, revision: PyStr, digits: string)
    requires IsRevision(revision) && |digits| == 64 && Of(digits) == revision[7..]
    ensures HeadPath(store) == store.directory + ["HEAD"]
    ensures EventPath(store, revision) == store.directory + ["events", digits + ".json"]
  {
    var name := EventName(revision);
    forall i | 0 <= i < 64 ensures name[..64][i] == digits[i] {
      assert digits[i] as int == Of(digits)[i] == revision[7..][i] == revision[7 + i];
    }
    assert name[..64] == digits && name[64..] == ".json" && name == name[..64] + name[64..];
  }

  lemma {:induction false} StripParts(s: PyStr) returns (a: PyStr, b: PyStr)
    ensures s == a + Stripped(s) + b && IsBlank(a) && IsBlank(b)
  {
    var left := LeftStripped(s);
    a := LeftParts(s);
    b := RightParts(left);
    assert a + (Stripped(s) + b) == a + Stripped(s) + b;
  }

  lemma {:induction false} LeftParts(s: PyStr) returns (a: PyStr)
    ensures s == a + LeftStripped(s) && IsBlank(a)
  {
    if s != [] && IsSpace(s[0]) {
      a := LeftParts(s[1..]);
      a := [s[0]] + a;
    } else {
      a := [];
    }
  }

  lemma {:induction false} RightParts(s: PyStr) returns (b: PyStr)
    ensures s == RightStripped(s) + b && IsBlank(b)
  {
    if s != [] && IsSpace(s[|s| - 1]) {
      b := RightParts(s[..|s| - 1]);
      b := b + [s[|s| - 1]];
    } else {
      b := [];
    }
  }

  lemma {:induction false} StripLeft(a: PyStr, t: PyStr)
    requires IsBlank(a) && t != [] && !IsSpace(t[0])
    ensures LeftStripped(a + t) == t
  {
    if a == [] {
      assert a + t == t;
    } else {
      assert a[0] in a && (a + t)[1..] == a[1..] + t;
      StripLeft(a[1..], t);
    }
  }

  lemma {:induction false} StripRight(t: PyStr, b: PyStr)
    requires IsBlank(b) && t != [] && !IsSpace(t[|t| - 1])
    ensures RightStripped(t + b) == t
  {
    if b == [] {
      assert t + b == t;
    } else {
      var n := |b| - 1;
      assert b[n] in b && (t + b)[..|t| + n] == t + b[..n];
      StripRight(t, b[..n]);
    }
  }

  /** A HEAD file names a revision exactly if its text is that revision between white space. */
  lemma {:induction false} HeadExactly(data: seq<byte>, revision: PyStr)
    ensures HeadOf(Some(data)) == Some(revision) <==>
      IsRevision(revision) && exists a, b :: IsBlank(a) && IsBlank(b) && Utf8.Decode(data) == Some(a + revision + b)
  {
    var text := Utf8.Decode(data);
    if HeadOf(Some(data)) == Some(revision) {
      var a, b := StripParts(text.value);
    }
    if IsRevision(revision) {
      assert revision[0] == Framing.REVISION_PREFIX[0] == 's' as int && IsHexDigit(revision[|revision| - 1]);
      forall a, b | IsBlank(a) && IsBlank(b) && text == Some(a + revision + b)
        ensures HeadOf(Some(data)) == Some(revision)
      {
        assert a + revision + b == a + (revision + b);
        StripLeft(a, revision + b);
        StripRight(revision, b);
      }
    }
  }

  method ReadHead(store: Store, disk: Disk) returns (failed: Option<Reason>, revision: PyStr)
    requires Valid(disk.s)
    modifies disk
    ensures disk.s == old(disk.s) && Through(old(disk.trace), disk.trace, s => s == old(disk.s))
    ensures failed.None? ==>
      HeadOf(Live(disk.s, HeadPath(store))) == Some(revision) && Readable(disk.s, HeadPath(store))
    ensures failed.Some? ==> failed.value.Corrupt? || failed == Some(DiskFailed(PathError))
    ensures failed == Some(Corrupt) ==> HeadOf(Live(disk.s, HeadPath(store))).None?
    ensures disk.fine ==> old(disk.fine)
    ensures disk.fine && Readable(disk.s, HeadPath(store)) ==> failed.None? || failed == Some(Corrupt)
  {
    var path := HeadPath(store);
    var r, data := ReadFileNoFollow(disk, path);
    if r != Done {
      return Some(DiskFailed(PathError)), [];
    }
    match HeadOf(data) {
      case None => return Some(Corrupt), [];
      case Some(head) => return None, head;
    }
  }

  // ---- The chain ----

  /** The contents of the event files, genesis first. */
  type Chain = seq<seq<byte>>

  /** The revision of the last file; none for the empty chain. */
  function HeadRevision(store: Store, files: Chain): PyStr {
    if files == [] then [] else Rev(store, files[|files| - 1])
  }

  /** The file's record extends the chain `files`. */
  predicate Extends(store: Store, files: Chain, data: seq<byte>) {
    match Records.RecordFromBytes(data)
    case Success(record) => record.previousRevision == HeadRevision(store, files)
    case Failure(_) => false
  }

  /** Genesis first, every file extends the ones before it, and no revision occurs twice. */
  predicate Lineage(store: Store, files: Chain) {
    && (forall i {:trigger files[..i]} :: 0 <= i < |files| ==> Extends(store, files[..i], files[i]))
    && (forall i, j :: 0 <= i < j < |files| ==> Rev(store, files[i]) != Rev(store, files[j]))
  }

  /** The chain is on the disk, each file under the name of its revision. */
  predicate Stored(store: Store, s: State, files: Chain) {
    forall i :: 0 <= i < |files| ==>
      IsRevision(Rev(store, files[i])) && StoredAs(store, s, Rev(store, files[i]), files[i])
  }

  predicate StoredAs(store: Store, s: State, revision: PyStr, data: seq<byte>)
    requires IsRevision(revision)
  {
    Openable(s, EventPath(store, revision)) && Live(s, EventPath(store, revision)) == Some(data)
  }

  predicate Walkable(store: Store, s: State, files: Chain, head: PyStr) {
    files != [] && Lineage(store, files) && Stored(store, s, files) && HeadRevision(store, files) == head
  }

  predicate RecordsOf(files: Chain, records: seq<Records.ChainRecord>) {
    |records| == |files| && forall i {:trigger records[i]} :: 0 <= i < |files| ==>
      Records.RecordFromBytes(files[i]) == Records.Success(records[i])
  }

  /** Each record names what comes before it in `names`. */
  ghost predicate Links(records: seq<Records.ChainRecord>, names: seq<PyStr>)
    requires |names| == |records|
  {
    forall i, j :: 0 <= i < j < |records| && j == i + 1 ==> records[j].previousRevision == names[i]
  }

  /** The injected rules accept the chain. */
  ghost predicate Accepted(store: Store, records: seq<Records.ChainRecord>) {
    && (records != [] ==> store.genesisOk(records[0]))
    && (forall i, j :: 0 <= i < j < |records| && j == i + 1 ==> store.successorOk(records[i], records[j]))
  }

  datatype Walk = Loaded(records: seq<Records.ChainRecord>, revisions: seq<PyStr>) | Broken(reason: Reason)

  /** `_load_revision` */
  method LoadRevision(store: Store, disk: Disk, revision: PyStr)
    returns (failed: Option<Reason>, data: seq<byte>, record: Records.ChainRecord)
    requires Valid(disk.s) && IsRevision(revision)
    modifies disk
    ensures disk.s == old(disk.s) && Through(old(disk.trace), disk.trace, s => s == old(disk.s))
    ensures failed.None? ==>
      StoredAs(store, disk.s, revision, data) && Records.RecordFromBytes(data) == Records.Success(record)
    ensures failed.Some? ==> failed == Some(Corrupt) || failed == Some(DiskFailed(PathError))
    ensures disk.fine ==> old(disk.fine)
    ensures disk.fine && Openable(disk.s, EventPath(store, revision)) ==> failed.None? || failed == Some(Corrupt)
    ensures forall file :: failed == Some(Corrupt) && StoredAs(store, disk.s, revision, file) ==>
      Records.RecordFromBytes(file).Failure?
  {
    var path := EventPath(store, revision);
    var r, read := ReadFileNoFollow(disk, path);
    data, record := [], Records.ChainRecord([], [], [], []);
    if r != Done {
      return Some(DiskFailed(PathError)), data, record;
    }
    if read.None? {
      return Some(Corrupt), data, record;
    }
    data := read.value;
    match Records.RecordFromBytes(data) {
      case Failure(_) => return Some(Corrupt), data, record;
      case Success(value) => return None, data, value;
    }
  }

  /** The last `n` files of the chain and the revision that the walk goes on with. */
  predicate WalkedTo(store: Store, chain: Chain, files: Chain, revision: PyStr) {
    && |files| <= |chain| && files == chain[|chain| - |files|..]
    && revision == HeadRevision(store, chain[..|chain| - |files|])
  }

  lemma {:induction false} FileBefore(chain: Chain, files: Chain)
    requires |files| < |chain| && files == chain[|chain| - |files|..]
    ensures var n := |chain| - |files| - 1;
      && [chain[n]] + files == chain[n..] && chain[..n + 1] != [] && chain[..n + 1][n] == chain[n]
      && forall j :: 0 <= j < |files| ==> files[j] == chain[n + 1 + j]
  {
  }

  /** One more file: if the chain is on the disk, this is the one before. */
  lemma {:induction false} WalkedOn(store: Store, s: State, chain: Chain, files: Chain, revision: PyStr, head: PyStr)
    requires Walkable(store, s, chain, head) && WalkedTo(store, chain, files, revision) && revision != []
    ensures |files| < |chain|
    ensures var data := chain[|chain| - |files| - 1];
      && revision == Rev(store, data) && IsRevision(revision) && StoredAs(store, s, revision, data)
      && Extends(store, chain[..|chain| - |files| - 1], data)
    ensures forall j :: 0 <= j < |files| ==> Rev(store, files[j]) != revision
  {
    if |files| == |chain| {
      assert false;
    }
    FileBefore(chain, files);
  }

  lemma {:induction false} WalkedStep(store: Store, chain: Chain, files: Chain, n: nat, previous: PyStr)
    requires n + 1 + |files| == |chain| && files == chain[n + 1..] && previous == HeadRevision(store, chain[..n])
    ensures WalkedTo(store, chain, [chain[n]] + files, previous)
  {
    var more := [chain[n]] + files;
    assert more == chain[n..];
    assert |chain| - |more| == n;
  }

  lemma {:induction false} ExtendsPrevious(store: Store, files: Chain, data: seq<byte>, record: Records.ChainRecord)
    requires Extends(store, files, data) && Records.RecordFromBytes(data) == Records.Success(record)
    ensures record.previousRevision == HeadRevision(store, files)
  {
  }

  /** The files read so far, oldest first, each under the name asked for. */
  predicate ReadAs(store: Store, s: State, asked: seq<PyStr>, files: Chain) {
    |asked| == |files| && forall i :: 0 <= i < |files| ==>
      IsRevision(asked[i]) && StoredAs(store, s, asked[i], files[i])
  }

  predicate RevisionsOf(store: Store, files: Chain, revisions: seq<PyStr>) {
    |revisions| == |files| && forall i :: 0 <= i < |files| ==> revisions[i] == Rev(store, files[i])
  }

  /** Each name is the predecessor of the next record; the walk goes on with `revision`. */
  ghost predicate Followed(head: PyStr, asked: seq<PyStr>, records: seq<Records.ChainRecord>, revision: PyStr) {
    && |asked| == |records|
    && (forall i, j :: 0 <= i < j < |asked| ==> asked[i] != asked[j])
    && Links(records, asked)
    && (if records == [] then revision == head
        else asked[|asked| - 1] == head && revision == records[0].previousRevision)
  }

  ghost predicate Walked(store: Store, s: State, head: PyStr, asked: seq<PyStr>, files: Chain,
      records: seq<Records.ChainRecord>, revisions: seq<PyStr>, revision: PyStr)
  {
    && ReadAs(store, s, asked, files) && RecordsOf(files, records) && RevisionsOf(store, files, revisions)
    && Followed(head, asked, records, revision)
  }

  lemma {:induction false} FollowedMore(head: PyStr, asked: seq<PyStr>, records: seq<Records.ChainRecord>,
      revision: PyStr, record: Records.ChainRecord)
    requires Followed(head, asked, records, revision) && revision !in asked
    ensures Followed(head, [revision] + asked, [record] + records, record.previousRevision)
  {
    var (names, all) := ([revision] + asked, [record] + records);
    forall i, j | 0 <= i < j < |all| && j == i + 1 ensures all[j].previousRevision == names[i] {
      assert i > 0 ==> records[j - 1].previousRevision == asked[i - 1];
    }
  }

  lemma {:induction false} ReadMore(store: Store, s: State, asked: seq<PyStr>, files: Chain, revision: PyStr,
      data: seq<byte>)
    requires ReadAs(store, s, asked, files) && IsRevision(revision) && StoredAs(store, s, revision, data)
    ensures ReadAs(store, s, [revision] + asked, [data] + files)
  {
  }

  lemma {:induction false} RecordsMore(files: Chain, records: seq<Records.ChainRecord>, data: seq<byte>,
      record: Records.ChainRecord)
    requires RecordsOf(files, records) && Records.RecordFromBytes(data) == Records.Success(record)
    ensures RecordsOf([data] + files, [record] + records)
  {
  }

  lemma {:induction false} WalkedMore(store: Store, s: State, head: PyStr, asked: seq<PyStr>, files: Chain,
      records: seq<Records.ChainRecord>, revisions: seq<PyStr>, revision: PyStr, data: seq<byte>,
      record: Records.ChainRecord)
    requires Walked(store, s, head, asked, files, records, revisions, revision) && revision !in asked
    requires IsRevision(revision) && StoredAs(store, s, revision, data)
    requires Records.RecordFromBytes(data) == Records.Success(record)
    ensures Walked(store, s, head, [revision] + asked, [data] + files, [record] + records,
      [Rev(store, data)] + revisions,
      record.previousRevision)
  {
    FollowedMore(head, asked, records, revision, record);
    ReadMore(store, s, asked, files, revision, data);
    RecordsMore(files, records, data, record);
    assert RevisionsOf(store, [data] + files, [Rev(store, data)] + revisions);
  }

  /** Where every link agrees with the revisions, every name was the revision of its file. */
  lemma {:induction false} NamesAreRevisions(head: PyStr, asked: seq<PyStr>, records: seq<Records.ChainRecord>,
      revisions: seq<PyStr>, revision: PyStr)
    requires Followed(head, asked, records, revision) && |revisions| == |asked| > 0
    requires head == revisions[|revisions| - 1] && Links(records, revisions)
    ensures asked == revisions
  {
    forall i | 0 <= i < |asked| ensures asked[i] == revisions[i] {
      if i < |asked| - 1 {
        var j := i + 1;
        assert records[j].previousRevision == asked[i] && records[j].previousRevision == revisions[i];
      }
    }
  }

  lemma {:induction false} HeadBefore(store: Store, files: Chain, revisions: seq<PyStr>, i: nat)
    requires RevisionsOf(store, files, revisions) && i < |files|
    ensures HeadRevision(store, files[..i]) == if i == 0 then [] else revisions[i - 1]
  {
    if i > 0 {
      var j := i - 1;
      assert files[..i][j] == files[j] && revisions[j] == Rev(store, files[j]);
    }
  }

  /** At the end of the walk: if every name is the revision of its file, the files are a chain. */
  lemma {:induction false} WalkedIsLineage(store: Store, s: State, head: PyStr, asked: seq<PyStr>, files: Chain,
      records: seq<Records.ChainRecord>, revisions: seq<PyStr>)
    requires Walked(store, s, head, asked, files, records, revisions, []) && files != []
    requires head == revisions[|files| - 1] && Links(records, revisions)
    ensures Walkable(store, s, files, head)
  {
    NamesAreRevisions(head, asked, records, revisions, []);
    forall i | 0 <= i < |files| ensures Extends(store, files[..i], files[i]) {
      HeadBefore(store, files, revisions, i);
      assert i > 0 ==> var j := i - 1; records[i].previousRevision == revisions[j];
      assert Records.RecordFromBytes(files[i]) == Records.Success(records[i]);
    }
  }

  /** A chain on the disk is what the walk reads. */
  lemma {:induction false} WalkedAll(store: Store, s: State, chain: Chain, files: Chain, head: PyStr)
    requires ValidStore(store) && Walkable(store, s, chain, head) && WalkedTo(store, chain, files, [])
    ensures files == chain
  {
    if |files| < |chain| {
      FileBefore(chain, files);
      assert false;
    }
  }

  lemma {:induction false} LinkedRevisions(store: Store, chain: Chain, records: seq<Records.ChainRecord>,
      revisions: seq<PyStr>)
    requires Lineage(store, chain) && RecordsOf(chain, records) && RevisionsOf(store, chain, revisions)
    ensures Links(records, revisions)
  {
    forall i, j | 0 <= i < j < |records| && j == i + 1 ensures records[j].previousRevision == revisions[i] {
      assert Extends(store, chain[..j], chain[j]) && chain[..j][i] == chain[i];
    }
  }

  /** The walk's checks once it has reached the genesis record. */
  method CheckChain(store: Store, head: PyStr, records: seq<Records.ChainRecord>, revisions: seq<PyStr>)
    returns (failed: Option<Reason>)
    requires |records| == |revisions| > 0
    ensures failed.None? <==>
      && head == revisions[|revisions| - 1] && Accepted(store, records)
      && Links(records, revisions)
    ensures failed.Some? ==> failed == Some(Corrupt) || (failed == Some(RuleRefused) && !Accepted(store, records))
    ensures failed == Some(Corrupt) ==> head != revisions[|revisions| - 1] || !Links(records, revisions)
  {
    if head != revisions[|revisions| - 1] {
      return Some(Corrupt);
    }
    if !store.genesisOk(records[0]) {
      return Some(RuleRefused);
    }
    for i := 1 to |records|
      invariant Links(records[..i], revisions[..i]) && Accepted(store, records[..i])
    {
      if records[i].previousRevision != revisions[i - 1] {
        return Some(Corrupt);
      }
      if !store.successorOk(records[i - 1], records[i]) {
        return Some(RuleRefused);
      }
    }
    assert records[..|records|] == records && revisions[..|records|] == revisions;
    return None;
  }

  /** The files that were not read yet are among `left`. */
  ghost predicate Unvisited(store: Store, s: State, visited: set<PyStr>, left: set<Path>) {
    forall q :: IsRevision(q) && q !in visited && s.current(EventPath(store, q)).FileEntry? ==>
      EventPath(store, q) in left
  }

  lemma {:induction false} Visit(store: Store, s: State, visited: set<PyStr>, left: set<Path>, revision: PyStr)
    requires IsRevision(revision) && revision !in visited && Unvisited(store, s, visited, left)
    requires s.current(EventPath(store, revision)).FileEntry?
    ensures var rest := left - {EventPath(store, revision)};
      |rest| < |left| && Unvisited(store, s, visited + {revision}, rest)
  {
    var rest := left - {EventPath(store, revision)};
    assert EventPath(store, revision) in left;
    forall q | IsRevision(q) && q !in visited + {revision} && s.current(EventPath(store, q)).FileEntry?
      ensures EventPath(store, q) in rest
    {
      if EventPath(store, q) == EventPath(store, revision) {
        EventNamesDiffer(store, q, revision);
      }
    }
  }

  /** Where the walk stands; `chain` is any chain that may be on the disk. */
  datatype Walker = Walker(
    asked: seq<PyStr>, files: Chain, records: seq<Records.ChainRecord>, revisions: seq<PyStr>, revision: PyStr,
    visited: set<PyStr>, left: set<Path>)

  ghost predicate Walking(store: Store, s: State, head: PyStr, chain: Chain, w: Walker) {
    && Walked(store, s, head, w.asked, w.files, w.records, w.revisions, w.revision)
    && (forall q :: q in w.visited <==> q in w.asked) && Unvisited(store, s, w.visited, w.left)
    && (Walkable(store, s, chain, head) ==> WalkedTo(store, chain, w.files, w.revision))
  }

  lemma {:induction false} WalkingFrom(store: Store, s: State, head: PyStr, chain: Chain, names: set<Path>)
    requires forall p :: s.current(p).FileEntry? ==> p in names
    ensures Walking(store, s, head, chain, Walker([], [], [], [], head, {}, names))
  {
    assert chain[..|chain|] == chain && chain[|chain|..] == [];
  }

  function Onwards(store: Store, w: Walker, data: seq<byte>, record: Records.ChainRecord): Walker
    requires IsRevision(w.revision)
  {
    Walker([w.revision] + w.asked, [data] + w.files, [record] + w.records, [Rev(store, data)] + w.revisions,
      record.previousRevision, w.visited + {w.revision}, w.left - {EventPath(store, w.revision)})
  }

  lemma {:induction false} WalkingOn(store: Store, s: State, head: PyStr, chain: Chain, w: Walker, data: seq<byte>,
      record: Records.ChainRecord)
    requires Walking(store, s, head, chain, w) && w.revision !in w.visited
    requires IsRevision(w.revision) && StoredAs(store, s, w.revision, data)
    requires Records.RecordFromBytes(data) == Records.Success(record)
    ensures Walking(store, s, head, chain, Onwards(store, w, data, record))
    ensures |Onwards(store, w, data, record).left| < |w.left|
  {
    WalkedMore(store, s, head, w.asked, w.files, w.records, w.revisions, w.revision, data, record);
    Visit(store, s, w.visited, w.left, w.revision);
    if Walkable(store, s, chain, head) {
      WalkedOn(store, s, chain, w.files, w.revision, head);
      ExtendsPrevious(store, chain[..|chain| - |w.files| - 1], data, record);
      WalkedStep(store, chain, w.files, |chain| - |w.files| - 1, record.previousRevision);
    }
  }

  /** Where there is a chain on the disk, the walk meets its next file, and no file twice. */
  lemma {:induction false} NeverStuck(store: Store, s: State, head: PyStr, chain: Chain, w: Walker)
    requires Walking(store, s, head, chain, w) && w.revision != []
    ensures Walkable(store, s, chain, head) ==> IsRevision(w.revision) && w.revision !in w.visited
    ensures Walkable(store, s, chain, head) ==>
      exists data :: StoredAs(store, s, w.revision, data) && Records.RecordFromBytes(data).Success?
  {
    if Walkable(store, s, chain, head) {
      WalkedOn(store, s, chain, w.files, w.revision, head);
    }
  }

  /** The walk reads one more file. */
  method WalkOnce(store: Store, disk: Disk, ghost head: PyStr, ghost chain: Chain, ghost w: Walker, visited: set<PyStr>,
      revision: PyStr)
    returns (failed: Option<Reason>, data: seq<byte>, record: Records.ChainRecord)
    requires Valid(disk.s) && Walking(store, disk.s, head, chain, w) && IsRevision(revision)
    requires w.revision == revision && w.visited == visited
    modifies disk
    ensures disk.s == old(disk.s) && Through(old(disk.trace), disk.trace, s => s == old(disk.s))
    ensures failed.None? ==> Walking(store, disk.s, head, chain, Onwards(store, w, data, record))
    ensures failed.None? ==> |Onwards(store, w, data, record).left| < |w.left|
    ensures failed.Some? && Walkable(store, disk.s, chain, head) ==> failed == Some(DiskFailed(PathError)) && !disk.fine
    ensures disk.fine ==> old(disk.fine)
    ensures failed.Some? ==> failed == Some(Corrupt) || failed == Some(DiskFailed(PathError))
  {
    NeverStuck(store, disk.s, head, chain, w);
    if revision in visited {
      return Some(Corrupt), [], Records.ChainRecord([], [], [], []);
    }
    failed, data, record := LoadRevision(store, disk, revision);
    if failed.None? {
      WalkingOn(store, disk.s, head, chain, w, data, record);
    }
  }

  /** The loop of `load_chain`. */
  method WalkBack(store: Store, disk: Disk, head: PyStr, ghost chain: Chain, ghost names: set<Path>)
    returns (failed: Option<Reason>, records: seq<Records.ChainRecord>, revisions: seq<PyStr>, ghost w: Walker)
    requires Valid(disk.s) && ValidStore(store) && IsRevision(head)
    requires forall p :: disk.s.current(p).FileEntry? ==> p in names
    modifies disk
    ensures disk.s == old(disk.s) && Through(old(disk.trace), disk.trace, s => s == old(disk.s))
    ensures failed.None? ==> Walking(store, disk.s, head, chain, w) && w.revision == [] && w.files != []
    ensures failed.None? ==> w.records == records && w.revisions == revisions
    ensures failed.Some? && Walkable(store, disk.s, chain, head) ==> failed == Some(DiskFailed(PathError)) && !disk.fine
    ensures disk.fine ==> old(disk.fine)
    ensures failed.Some? ==> failed == Some(Corrupt) || failed == Some(DiskFailed(PathError))
  {
    var visited: set<PyStr> := {};
    var revision := head;
    records, revisions, failed := [], [], None;
    w := Walker([], [], [], [], head, {}, names);
    WalkingFrom(store, disk.s, head, chain, names);
    while revision != []
      invariant disk.s == old(disk.s) && Through(old(disk.trace), disk.trace, s => s == old(disk.s))
      invariant Walking(store, disk.s, head, chain, w) && (revision == [] ==> w.files != []) && failed.None?
      invariant disk.fine ==> old(disk.fine)
      invariant w.records == records && w.revisions == revisions && w.revision == revision && w.visited == visited
      invariant revision == [] || IsRevision(revision)
      decreases |w.left|
    {
      var data, record;
      failed, data, record := WalkOnce(store, disk, head, chain, w, visited, revision);
      if failed.Some? {
        return;
      }
      visited := visited + {revision};
      w := Onwards(store, w, data, record);
      records, revisions := [record] + records, [Rev(store, data)] + revisions;
      revision := record.previousRevision;
      if revision != [] && !IsRevision(revision) {
        NeverStuck(store, disk.s, head, chain, w);
        return Some(Corrupt), records, revisions, w;
      }
    }
  }

  /** A chain on the disk passes the last checks. */
  lemma {:induction false} WholeChain(store: Store, head: PyStr, chain: Chain, records: seq<Records.ChainRecord>,
      revisions: seq<PyStr>)
    requires chain != [] && Lineage(store, chain) && HeadRevision(store, chain) == head
    requires RecordsOf(chain, records) && RevisionsOf(store, chain, revisions)
    ensures head == revisions[|revisions| - 1]
    ensures Links(records, revisions)
  {
    LinkedRevisions(store, chain, records, revisions);
  }

  /** The injected rules refuse the chain. */
  ghost predicate RulesRefuse(store: Store, files: Chain) {
    exists records :: RecordsOf(files, records) && !Accepted(store, records)
  }

  /** The last checks pass exactly on a chain. */
  lemma {:induction false} Verdict(store: Store, s: State, head: PyStr, chain: Chain, w: Walker)
    requires ValidStore(store) && Walking(store, s, head, chain, w) && w.revision == [] && w.files != []
    ensures RecordsOf(w.files, w.records) && RevisionsOf(store, w.files, w.revisions)
    ensures head == w.revisions[|w.revisions| - 1] && Links(w.records, w.revisions) ==>
      Walkable(store, s, w.files, head)
    ensures Walkable(store, s, chain, head) ==>
      w.files == chain && head == w.revisions[|w.revisions| - 1] && Links(w.records, w.revisions)
  {
    if head == w.revisions[|w.revisions| - 1] && Links(w.records, w.revisions) {
      WalkedIsLineage(store, s, head, w.asked, w.files, w.records, w.revisions);
    }
    if Walkable(store, s, chain, head) {
      WalkedAll(store, s, chain, w.files, head);
      WholeChain(store, head, chain, w.records, w.revisions);
    }
  }

  /** Two chains on one disk with the same head are one: the file of a revision names the revision before it. */
  lemma {:induction false} OneChainEach(store: Store, s: State, a: Chain, b: Chain)
    requires ValidStore(store) && Lineage(store, a) && Lineage(store, b) && Stored(store, s, a) && Stored(store, s, b)
    requires HeadRevision(store, a) == HeadRevision(store, b)
    ensures a == b
  {
    hide Extends;
    if a != [] && b != [] {
      var (m, n) := (|a| - 1, |b| - 1);
      assert StoredAs(store, s, Rev(store, a[m]), a[m]) && StoredAs(store, s, Rev(store, b[n]), b[n]);
      FrontIsChain(store, s, a);
      FrontIsChain(store, s, b);
      SameBefore(store, a[..m], b[..n], a[m]);
      OneChainEach(store, s, a[..m], b[..n]);
      assert a == a[..m] + [a[m]] && b == b[..n] + [b[n]];
    }
  }

  lemma {:induction false} SameBefore(store: Store, a: Chain, b: Chain, data: seq<byte>)
    requires Extends(store, a, data) && Extends(store, b, data)
    ensures HeadRevision(store, a) == HeadRevision(store, b)
  {
  }

  lemma {:induction false} FrontIsChain(store: Store, s: State, files: Chain)
    requires Lineage(store, files) && Stored(store, s, files) && files != []
    ensures var n := |files| - 1;
      Extends(store, files[..n], files[n]) && Lineage(store, files[..n]) && Stored(store, s, files[..n])
  {
    hide Extends;
    var n := |files| - 1;
    forall i | 0 <= i < n ensures Extends(store, files[..n][..i], files[..n][i]) {
      assert files[..n][..i] == files[..i];
    }
  }

  lemma {:induction false} ChainTo(store: Store, s: State, head: PyStr) returns (chain: Chain)
    requires ValidStore(store)
    ensures forall c :: Walkable(store, s, c, head) ==> c == chain
  {
    chain := [];
    if c :| Walkable(store, s, c, head) {
      chain := c;
      forall other | Walkable(store, s, other, head) ensures other == chain {
        OneChainEach(store, s, other, chain);
      }
    }
  }

  lemma {:induction false} NoChainTo(store: Store, s: State, head: PyStr)
    requires ValidStore(store) && !IsRevision(head)
    ensures forall c :: !Walkable(store, s, c, head)
  {
  }

  /** The names of the files, of which there are finitely many. */
  lemma {:induction false} NamesUpTo(s: State, n: nat) returns (names: set<Path>)
    requires Valid(s)
    ensures forall p :: s.current(p).FileEntry? && s.current(p).ino < n ==> p in names
  {
    names := {};
    if n > 0 {
      var fewer := NamesUpTo(s, n - 1);
      names := fewer + s.names(n - 1);
      forall p | s.current(p).FileEntry? && s.current(p).ino < n ensures p in names {
        assert p in s.names(s.current(p).ino);
      }
    }
  }

  lemma {:induction false} AllNames(s: State) returns (names: set<Path>)
    requires Valid(s)
    ensures forall p :: s.current(p).FileEntry? ==> p in names
  {
    names := NamesUpTo(s, s.next);
    forall p | s.current(p).FileEntry? ensures p in names {
      assert s.current(p) in s.possible(p);
    }
  }

  /** What is loaded is a chain on the disk that ends at `head` and that the rules accept; and whenever there is one,
      it is loaded, unless a call fails. */
  method LoadChain(store: Store, disk: Disk, head: PyStr) returns (r: Walk, ghost files: Chain)
    requires Valid(disk.s) && ValidStore(store)
    modifies disk
    ensures disk.s == old(disk.s) && Through(old(disk.trace), disk.trace, s => s == old(disk.s))
    ensures r.Loaded? ==>
      Walkable(store, disk.s, files, head) && RecordsOf(files, r.records) && Accepted(store, r.records)
    ensures r.Loaded? ==> RevisionsOf(store, files, r.revisions)
    ensures r.Broken? ==> forall chain :: Walkable(store, disk.s, chain, head) ==>
      (r.reason == DiskFailed(PathError) && !disk.fine) || (r.reason == RuleRefused && RulesRefuse(store, chain))
    ensures r.Broken? ==> r.reason == Corrupt || r.reason == RuleRefused || r.reason == DiskFailed(PathError)
    ensures disk.fine ==> old(disk.fine)
  {
    hide Walkable;
    files := [];
    if !IsRevision(head) {
      NoChainTo(store, disk.s, head);
      return Broken(Corrupt), files;
    }
    ghost var names := AllNames(disk.s);
    ghost var chain := ChainTo(store, disk.s, head);
    var failed, records, revisions;
    ghost var w;
    failed, records, revisions, w := WalkBack(store, disk, head, chain, names);
    if failed.Some? {
      return Broken(failed.value), files;
    }
    files := w.files;
    failed := CheckChain(store, head, records, revisions);
    Verdict(store, disk.s, head, chain, w);
    r := if failed.Some? then Broken(failed.value) else Loaded(records, revisions);
  }
}
