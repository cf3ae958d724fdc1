# Antigona: verified model

Antigona is a durable runner of tasks with a content-addressed store of records beside it. This
project models its four cores in Dafny 4.11 and proves what they are there for. `dafny verify
dfyconfig.toml` verifies everything.

| files | what they model |
|---|---|
| `Unicode`, `Decimal`, `JsonGrammar`, `Json`, `JsonRoundTrip`, `JsonEncoding`, `JsonLaws`, `JsonPretty`, `Records` | Python text and strict UTF-8, `json.loads` and the sorted, indented `json.dumps`, both pinned character by character, the chain record and its canonical bytes |
| `Framing` | domain-separated, length-prefixed hashing with a decoder for the byte stream |
| `Basics` | what several modules share |
| `Durability`, `Fsops` | a disk that can lose power between any two system calls, what it comes up with, and the publication primitives on it |
| `ChainWalk`, `ChainCommit`, `ChainStore` | the walk from HEAD to the genesis record; publishing an event and switching HEAD; the append and what a crash at any instant of it leaves |
| `ChainCrash`, `ChainLife` | what the machine comes up with, and any sequence of appends, failures and crashes |
| `StoreLock` | the advisory store lock, system call by system call, for any number of callers |
| `PathBoundary` | kernel path resolution with symlinks and devices, and the identity climb |
| `BraceScanner`, `DraftCleaner` | the two scanners over text |
| `TaskStore`, `TaskJournal`, `TaskRace`, `TaskGate`, `TaskApprovals`, `TaskRecovery`, `TaskRepository` | the rows of one task, every caller's transaction on them, and what all interleavings keep |
| `Lease`, `SubtaskTree` | the writer lease, and the tree of subtasks |
| `Worker`, `Orchestrator` | the resumable worker with its durable operations, crash points and retries |
| `OperationRace`, `LeaseRace` | any number of workers on the same operation rows, one commit or tool call at a time, and what the lease gives them |

How the models are built:

* **Interleavings.** `TaskStore.Apply` is one committed change decided on a snapshot `seen`. In a
  run (`TaskStore.History`) the snapshot of an action may be *any* earlier committed state, so
  every caller may be arbitrarily stale and callers interleave freely. The theorems of
  `TaskJournal` hold for all runs. Those of `TaskGate` and `TaskRecovery` add only the program
  order of the callers (`TaskGate.Disciplined`), and `Worker.Session.Do`, through which
  `Orchestrator` makes its journalled changes, has that discipline as its precondition.
  `TaskRepository` runs the same transactions imperatively, row by row, and proves them equal.
* **Crashes.** On the disk a state keeps, for each name, every directory entry a crash may leave,
  for each file whether it was synced, and which names it had at once; `trace` records the state
  after every system call, and `CrashDisk.Reboot` tells which states the machine may come up in:
  link counts are those of the names that come up, and a rename never leaves both names. A worker's
  session may die before or right after any commit.
* **Failures.** Every system call, tool and lock attempt may fail for reasons of its own. `fine`
  says that no system call has, so that contracts can say when nothing else makes a call fail.
* **Parameters.** The hash, the compiler, the line patterns, the confirmation policy, the clock,
  and the outcome of every tool and of every external call are parameters or arbitrary choices.
  What the outcome of an operation depends on is a parameter, so that its contract can say exactly
  when it succeeds: the answers of the tools (`Worker.ToolWorld`), what one run meets
  (`Orchestrator.Visit`), whether the calls of a lock attempt succeed, whether the locks of an
  append are granted. `Worker.Died` tells whether the process has died in a commit meanwhile.
* **Reference definitions.** Where one definition serves both a scanner and its specification, or
  both a printer and its reader, a law in literal code points stands beside it (`JsonLaws`,
  `JsonPretty`, `ChainWalk.HeadExactly`, `DraftCleaner.LinesEndAtFeeds`).

## Model

| member | source | states |
|---|---|---|
| Utf8.EncodeFailsExactlyOnSurrogates | src/antigona/chain/records.py:89 | Encoding fails exactly on text that holds a surrogate. |
| Utf8.DecodeInvertsEncode | src/antigona/chain/records.py:107-110 | Bytes decode to a text if and only if the text encodes to those bytes. |
| JsonGrammar.ValueSound | src/antigona/chain/records.py:111-114 | Whatever the parser accepts is the text of the tree it returns, followed by the rest it returns. |
| JsonGrammar.ValueComplete | src/antigona/chain/records.py:111-114 | The text of every grammatical value parses to its own tree whatever follows it, unless it is a number that what follows would extend. |
| JsonLaws.WhiteSpaceAnywhere | src/antigona/chain/records.py:111-114 | A tree is grammatical if and only if it is without any white space and between its tokens stand only the code points 32, 9, 10 and 13. |
| JsonLaws.TokensExactly | src/antigona/chain/records.py:111-114 | Exactly which words, numbers and strings are tokens, in literal code points. |
| JsonRoundTrip.LoadsOfDumps | src/antigona/chain/records.py:85-89 | Loading a dump gives an equal value back, with white space behind it too; covers escapes, surrogate pairs, indentation and key sorting. |
| JsonRoundTrip.DumpsIsCanonical | src/antigona/chain/records.py:74-75 | Two values print the same text if and only if they are equal, so insertion order of keys never shows. |
| JsonPretty.DumpsIsPretty | src/antigona/chain/records.py:85-89 | What is printed of any value is a text given by a separate definition: keys in order, each member and item on a line of its own, two spaces for each level, `: ` and `,` between them, escapes written out; and nothing if it holds NaN or an infinity. |
| JsonPretty.ArrangedIsEqual | src/antigona/chain/records.py:74-75 | Bringing the keys in order gives an equal value, and the keys of every dict then ascend. |
| Unicode.LessMeans | src/antigona/chain/records.py:74-75 | The order of keys is code-point order: behind the longest common beginning the lesser one ends or has the lesser code point. |
| JsonEncoding.DumpsEncodable | src/antigona/chain/records.py:85-89 | The printed text is encodable exactly when no string and no key holds a surrogate. |
| Records.RecordRoundTrip | src/antigona/chain/records.py:101-140 | Reading the canonical bytes of a record gives an equal record; bytes written under another schema are refused. |
| Records.EqualDocumentsSameRecord | src/antigona/chain/records.py:115-140 | Whether a document is a record, and which, depends only on the document as a value. |
| Records.BytesAreCanonical | src/antigona/chain/records.py:71-89 | Two records have the same bytes if and only if they are equal, predecessor link included. |
| Records.CanonicalText | src/antigona/chain/records.py:71-89 | The canonical bytes of every record, character by character: the four fields in key order, the payload with its keys in order two spaces further in, and one line feed at the end. |
| Records.CanonicalBytesOutcome | src/antigona/chain/records.py:79-89 | Exactly NaN and the infinities are refused with the declared error; exactly surrogates escape as the codec's error; everything else is encoded. |
| Records.SurrogateEscapes | src/antigona/chain/records.py:79-89 | A record whose operation is a surrogate: the error that escapes is the codec's, not the declared one. |
| Records.RevisionBindsRecord | src/antigona/chain/hashing.py:102-109 | Two records share a revision if and only if they are equal or their own canonical bytes are different and have the same digest. |
| Records.HeadPinsLineage | src/antigona/chain/records.py:48-60 | Two linked chains with the same head revision are the same chain, link by link, if and only if no two of their own records, equally far from the heads, are different and collide. |
| Framing.WriteLengthPrefixed | src/antigona/chain/hashing.py:66-75 | The writer is fed the decimal length, NUL, the value and NUL, and nothing else. |
| Framing.DomainDigest | src/antigona/chain/hashing.py:78-88 | `sha256:` and the digest over the tag, NUL and all frames in order. |
| Framing.ChainIdentity | src/antigona/chain/hashing.py:91-99 | `sha256:` and the digest over the tag `antigona.review-chain/v1`, NUL and the frames of the revisions, encoded one by one in their order; a surrogate in one of them is the codec's error, and nothing else is. |
| Framing.StreamIsUniquelyDecodable | src/antigona/chain/hashing.py:66-88 | A byte stream is the encoder's output for a tag and a field list if and only if the decoder returns exactly them. |
| Framing.DomainsSeparate | src/antigona/chain/hashing.py:45-53 | Streams are equal if and only if tag and fields are. |
| Framing.NulInDomainCollides | src/antigona/chain/hashing.py:50-53 | A tag that holds a NUL can collide, so the restriction is needed. |
| Framing.ChainIdentityBindsLineage | src/antigona/chain/hashing.py:91-99 | Preimages are equal exactly for equal ordered revision lists; identities are equal exactly for equal lists or if the digests of these two preimages are the same. |
| Fsops.WriteAll | src/antigona/chain/fsops.py:82-87 | Every byte is written although each call may take fewer; a failure leaves a beginning; nothing but the one file changes at any instant. |
| Fsops.FsyncDir | src/antigona/chain/fsops.py:90-111 | Success makes the current entries of the directory the only possible ones; failure is the typed sync error and changes nothing. |
| Fsops.MkdirAllSync | src/antigona/chain/fsops.py:114-134 | At every instant only missing ancestors turned into directories; on success each one made is durable. |
| Fsops.WriteAtomic | src/antigona/chain/fsops.py:241-266 | At every instant the target shows what it showed before, and so it does after a crash; or it shows the whole payload, and after a crash that or what it showed before. It gets no second name, and only the target, temporary names beside it and missing directories on the way are touched. On return no crash can undo it exactly when the directories that existed before were durable; the switch itself comes before any sync of the directory. With nothing but directories on the way only a failing call makes it fail. |
| Fsops.TempNameCollides | src/antigona/chain/fsops.py:249-251 | The one excluded case is needed: an absent target with the temporary prefix can be the temporary file itself and then shows an empty beginning. |
| Fsops.OldDirectoryLosesTarget | src/antigona/chain/fsops.py:127-134 | A directory that was there but never synced: the successful call ends in a state in which a crash loses the file. |
| Fsops.CrashProofWhen | src/antigona/chain/fsops.py:244-266 | After the last sync the file can be lost exactly through an ancestor that existed before and was not durable. |
| Fsops.ReadFileNoFollow | src/antigona/chain/fsops.py:137-222 | Bytes are returned only from a regular file with one link, reached through directories alone; a symlink anywhere on the way is refused; a file is absent only if the first component that cannot be entered does not exist; such a file and such an absence are refused only by a failing call. |
| Fsops.PublishByCopy | src/antigona/chain/fsops.py:290-314 | Success leaves the source's bytes under the final name with one link and the source gone; an existing destination is untouched at every instant; a failed copy is gone unless its removal failed. At every instant a crash shows the old entry or the whole source if and only if no unsynced file became possible there. After success a crash may show neither name. |
| Fsops.WriteImmutableNoReplace | src/antigona/chain/fsops.py:269-287 | The same for both ways of publishing; the result passes the no-follow open exactly when the source did; through a hard link nobody ever sees a part; at no instant may the destination come up under a second name unless its file has been linked. No directory is synced: after success a crash may show neither name, and once the destination's directory is synced the file is crash-proof if and only if the way to it was durable and it was copied or the source was synced. With the directory there, only a failing call or an existing destination makes it fail. |
| Fsops.TearsExactly | src/antigona/chain/fsops.py:290-314 | At an instant of a publication a crash shows only the old entry or the whole data if and only if the name is possible for an unsynced file no more than before. |
| Fsops.DurableAfterSync | src/antigona/chain/fsops.py:90-111 | After a sync of its directory a file is safe from crashes if and only if the way to it is durable and its contents are synced. |
| Fsops.LinkNeverTears | src/antigona/chain/fsops.py:20-23 | After linking a synced file a crash shows the old destination or the whole source. |
| Fsops.CopyMayTear | src/antigona/chain/fsops.py:290-305 | Wherever the current file is not synced, a crash may show any bytes at all. |
| ChainWalk.ReadHead | src/antigona/chain/store.py:158-186 | The revision comes from the HEAD file as it is on the disk; only an absent file is the empty chain, anything but one revision is corruption. |
| ChainWalk.HeadExactly | src/antigona/chain/store.py:171-186 | A HEAD file names a revision if and only if its text is that revision with nothing but white space around it. |
| ChainWalk.RevisionsExactly | src/antigona/chain/hashing.py:112-119 | A revision is `sha256:` and 64 hexadecimal digits in lower case, and nothing else is. |
| ChainWalk.NamesExactly | src/antigona/chain/store.py:141-154 | HEAD is `HEAD` in the directory of the store, an event is `events/` and the digits of its revision with `.json`. |
| ChainWalk.CheckChain | src/antigona/chain/store.py:247-263 | Passes exactly if the head's name is its revision, every record names the revision before it, and the rules accept every link. |
| ChainWalk.LoadChain | src/antigona/chain/store.py:195-282 | Terminates on every disk, cycles included. What is loaded is a chain on the disk, without repetition, that ends at the head and that the rules accept; and whenever there is such a chain it is loaded, unless a call fails. |
| ChainWalk.OneChainEach | src/antigona/chain/store.py:225-263 | Two chains on one disk with the same head are one. |
| CrashDisk.UpIsAlone | src/antigona/chain/fsops.py:157-161 | A file that no crash can leave under two names passes the link-count check after every crash. |
| ChainCommit.Publish | src/antigona/chain/store.py:362-385 | At every instant only the event's name, if it was free, and temporary names are touched, and the event may come up under two names only if its file has been linked. On success the event holds these bytes, readable, its file is synced exactly if it is new or had been synced, and nothing on the way to it was. Unless a call fails it succeeds exactly if the name was free or held the same bytes under this name alone. |
| ChainCommit.SyncedIsAlone | src/antigona/chain/store.py:334-337 | The sync of the events' directory takes away every second name of a readable event. |
| ChainCommit.CommittedSafe | src/antigona/chain/store.py:333-338 | At the end no crash can take HEAD or the event, or make either unreadable, if and only if the way to HEAD was durable and an event file that was there already had been synced. |
| ChainCommit.SwitchTears | src/antigona/chain/store.py:334-338 | If the way to the event was not durable, or a file that was there had not been synced, the switch of HEAD is an instant at which a crash shows the new HEAD and may lose the event. |
| ChainStore.FreshStore | src/antigona/chain/store.py:158-170 | A tidy store soundly holds the empty chain exactly if no crash can show a HEAD. |
| ChainStore.HeldIsWalkable | src/antigona/chain/store.py:195-282 | In a sound store HEAD is readable, names the last revision of a chain, and the walk finds every file of it, readable, under its name. |
| ChainStore.StoredIdentity | src/antigona/chain/store.py:188-193 | The digest over the revisions of the chain that HEAD names; of a sound store, unless a call fails, it is given exactly if there is a chain and the rules accept it; a missing HEAD is answered as no chain, and only that is. |
| ChainStore.LineageGrows | src/antigona/chain/store.py:301-333 | A new link never repeats a revision of the chain: the file of that name would hold a record with another predecessor. |
| ChainStore.Append | src/antigona/chain/store.py:284-360 | Whenever a revision is acknowledged, as a new link or as a retry, the event of that name is live and reads back as a record with the caller's operation and payload on top of the expected revision under the schema of the store; it lies on a chain that can be walked to its first event and that the rules accept, and a new link fits the rule itself. A new link only if HEAD named the expected revision, and only if the event's name was free or held the same bytes under this name alone; a retry only of the head itself. Unless a call fails or a lock is refused, a record is added exactly if it fits, and otherwise the reply is what the store has against it: another head, with the three revisions, or a rule. A read-only store is answered so, exactly; so is a record without canonical bytes. For every set of chains that HEAD may name after a crash when the call begins: at every instant all of them stay whole and readable, and if all was ready HEAD names one of them or was switched to the longer chain, which is whole and readable, too. A successful append fixes the longer chain if and only if the way to HEAD was durable and an event file that was there had been synced; if not all was ready it has an instant at which a crash shows HEAD without its event. |
| ChainCrash.CrashRecovers | src/antigona/chain/store.py:22-23 | From any sound state the machine comes up with one of the chains that HEAD could name: HEAD and every event are there, whole, readable and durable, the walk finds them, and the next append is ready. |
| ChainCrash.BlocksExactly | src/antigona/chain/fsops.py:157-161 | After a crash the record of an event may be refused for a second link if and only if the event's file had another name together with this one that no sync has taken away. |
| ChainCrash.LinkDoubles | src/antigona/chain/fsops.py:278-287 | The instant after the link: the store holds what it held, and the machine may come up with the event under two names, so that its record is refused for ever although the bytes are right. |
| ChainCrash.LeftoverUnsettles | src/antigona/chain/store.py:377-382 | A copy whose sync and removal both failed leaves a sound store in which the next append of that record meets an event file that is not synced. |
| ChainCrash.MkdirUnsettles | src/antigona/chain/fsops.py:126-134 | An events' directory that was made, but whose entry could not be synced, leaves a sound store in which the way to every event can be lost. |
| ChainCrash.UnsyncedEventsDirectory | src/antigona/chain/fsops.py:126-134 | One concrete such disk. |
| ChainLife.AcknowledgedIsKept | src/antigona/chain/store.py:284-360 | In every life of a store, any sequence of appends with any outcome, failures and crashes at any instant, in which each append begins ready: an acknowledged link is never lost, then or later, if and only if it was not acknowledged as a retry while a crash could still undo the switch of HEAD. |
| ChainLife.AcknowledgedTooEarly | src/antigona/chain/store.py:318-322 | An append that fails in the last sync has switched HEAD; a retry is then acknowledged, and a crash may bring the store up without the link. |
| StoreLock.MutualExclusion | src/antigona/chain/locking.py:121-153 | In no interleaving do two callers hold the lock of one path. |
| StoreLock.LeaksExactlyWhenOwnerRaises | src/antigona/chain/locking.py:146-185 | A lock or descriptor outlives its acquisition in a run if and only if making the owner block failed at some point of it. |
| StoreLock.OwnerBlockLeaks | src/antigona/chain/locking.py:146-170 | Three calls, the last of them the failed owner block, leave the lock taken with nobody to give it back. |
| StoreLock.TakeFlock | src/antigona/chain/locking.py:131-153 | Contention if and only if the attempt met another holder, who still had its descriptor open; with the lock free only a failing call refuses it; a refused attempt keeps neither lock nor descriptor. |
| StoreLock.WriteOwnerBlock | src/antigona/chain/locking.py:170-183 | Whatever the number of writes, the lock is kept, and the handle may be given out exactly if all of them succeeded; otherwise the unlocking begins. |
| StoreLock.AcquireStoreLock | src/antigona/chain/locking.py:121-185 | With others acting between any two calls: a granted lock is the kernel's; contention if and only if the attempt met another open descriptor that had the lock; a free lock is granted if and only if no call fails; typed refusals keep nothing; and the owner block is the one way to fail with the lock taken, exactly when making it fails. |
| StoreLock.TextIsTheHolders | src/antigona/chain/locking.py:170-177 | The text of a lock file changes only by a write of the caller that holds the lock, and to what that caller writes. |
| StoreLock.StoreLock.ReleaseLock | src/antigona/chain/locking.py:95-103 | Release gives lock and descriptor back even if the unlock call fails; a second release makes no call. |
| PathBoundary.DeepestExistingAncestor | src/antigona/path_boundary.py:128-141 | The deepest prefix at which `os.stat` finds a directory, or none if there is no such prefix; the path itself exactly if it is a directory. |
| PathBoundary.FileIsNotItsOwnAncestor | src/antigona/path_boundary.py:128-141 | An existing file is not its own deepest existing ancestor. |
| PathBoundary.IsContainedByRootIdentity | src/antigona/path_boundary.py:178-212 | An error if and only if `os.stat` does not find a directory at the root. Otherwise contained if and only if `os.stat` finds the very same object at some ancestor, through symlinks or not, and the rest descends from it through real directories of its device, with a tail that may be missing. |
| PathBoundary.UpAndBackIsContained | src/antigona/path_boundary.py:25-32 | The documented spelling: with `ws/up` a symlink to the parent of `ws`, the path `ws/up/ws/kept.txt` is contained in `ws`. |
| PathBoundary.MatchDescends | src/antigona/path_boundary.py:144-175 | Below any ancestor that reaches the root, the lookups of the climb all pass if and only if the path descends so. |
| PathBoundary.DeepestMatchDecides | src/antigona/path_boundary.py:200-212 | Inspecting the nodes below the first match of the climb decides containment. |
| PathBoundary.ContainedResolvesInside | src/antigona/path_boundary.py:178-194 | The kernel resolves a contained path, all symlinks followed, to nothing yet or to an object of the root's own subtree and device. |
| BraceScanner.BoundedJsonObject | src/antigona/task_goal.py:663-699 | The scanner returns exactly the object that the JSON parser reads at this place, and None exactly where it reads none; which texts those are is pinned by `JsonLaws`. |
| BraceScanner.ScanObject | src/antigona/task_goal.py:678-690 | Over the text of an object the automaton first comes back to its depth at the object's own closing brace. |
| BraceScanner.ObjectThenAnything | src/antigona/task_goal.py:664-671 | An object text followed by any text comes back whole. |
| JsonLaws.WhiteSpaceInObjects | src/antigona/task_goal.py:691-698 | An object comes back whole and with the same value whatever space, tab, line feed and carriage return stand between its tokens and whatever follows it. |
| JsonLaws.WhiteSpaceAfterBrace | src/antigona/task_goal.py:691-698 | In particular behind the opening brace: the object with the white space inserted comes back. |
| JsonLaws.EscapeLetters | src/antigona/task_goal.py:691-698 | Exactly the eight letters may follow a backslash, and each stands for its character. |
| JsonLaws.HexEscapes | src/antigona/task_goal.py:691-698 | Exactly four hexadecimal digits, in either case, may follow a backslash and u. |
| JsonLaws.EscapesAreRead | src/antigona/task_goal.py:691-698 | Every character reads back from its escapes in either case, those beyond the basic plane from a surrogate pair. |
| JsonLaws.PlainCharacters | src/antigona/task_goal.py:691-698 | Any other character stands for itself in a string exactly if it is no control character and no quote. |
| JsonLaws.WordsAreRead | src/antigona/task_goal.py:691-698 | The six words and what they mean. |
| JsonLaws.IntegersAreRead | src/antigona/task_goal.py:691-698 | A minus or none and digits without a leading zero are that integer. |
| JsonLaws.FloatsAreRead | src/antigona/task_goal.py:691-698 | With a fraction, an exponent in either case with a sign or none, or both, a number is a float. |
| JsonLaws.SeparatorsAreRead | src/antigona/task_goal.py:691-698 | Braces, brackets, commas and colons, empty brackets, and a repeated key, whose last value counts. |
| DraftCleaner.LongestCompilablePrefix | src/antigona/task_goal.py:440-467 | Blank or compilable text is returned as it is; otherwise the longest proper line prefix that compiles after stripping outer newlines, or the text itself if there is none. |
| DraftCleaner.StripCodeFences | src/antigona/task_goal.py:470-511 | The lines before the first report that are no fences, without outer blank lines; unchanged text if there is nothing to remove; then the prefix for Python files. |
| DraftCleaner.LinesEndAtFeeds | src/antigona/task_goal.py:493 | A text is cut into lines at its line feeds, code point 10, and nowhere else. |
| DraftCleaner.TrimDropsOuterLines | src/antigona/task_goal.py:505-507 | Stripping newlines drops outer empty lines and alters no line in between. |
| DraftCleaner.TruncationOnlyCuts | src/antigona/task_goal.py:441-446 | A truncated draft consists of consecutive, unaltered lines of the source. |
| DraftCleaner.CleaningIsIdempotent | src/antigona/task_goal.py:479-480 | Cleaning twice is cleaning once, for all line predicates, every compiler, and both kinds of path. |
| Lease.LeaseTable.AcquireLease | src/antigona/repository.py:467-474 | Succeeds exactly if the row is as read and free, expired or the worker's own, and then is the worker's until the time asked for; otherwise nothing changes. |
| Lease.LeaseTable.RenewLease | src/antigona/repository.py:476-480 | Exactly the owner moves the expiry. |
| Lease.LeaseTable.ReleaseLease | src/antigona/repository.py:482-483 | Exactly the owner frees the row. |
| Lease.LeaseExclusion | src/antigona/repository.py:467-483 | After an acquire, as long as the worker has not released or lost the lease, another worker's acquire on a row that is as it read it succeeds if and only if the expiry the worker set last has strictly passed. |
| SubtaskTree.TaskTable.SpawnChildFlow | src/antigona/orchestrator.py:1369-1457 | A keyed call that named a child before gives that child, whatever the limits say. Otherwise each refusal exactly for its reason, in the order of the code: depth, then budget, then a key that is taken; and a child, with its fields, exactly if there is none. |
| SubtaskTree.TreeBound | src/antigona/orchestrator.py:1394-1441 | Whatever is spawned in whatever order, the tree of a depth-0 root with limits D and B has depth at most D and at most 1 + B + ... + B^D tasks. |
| SubtaskTree.RepeatedKeyAddsNothing | src/antigona/orchestrator.py:1379-1392 | A keyed spawn repeated after anything else returns the same child and adds nothing, even with the limits reached. |
| SubtaskTree.OverlappingSpawnsOverrun | src/antigona/orchestrator.py:1406-1456 | Two spawns that pass the gates on the same table exceed the budget exactly when one place was left. |
| TaskRepository.Repository.Journal | src/antigona/repository.py:402-407 | One row and one progress message for it. |
| TaskRepository.Repository.Transition | src/antigona/repository.py:409-431 | Accepted exactly for a legal edge on an unchanged revision, with sticky cancellation; otherwise the row is untouched. |
| TaskRepository.Repository.TransitionStep | src/antigona/repository.py:444-465 | The same for a step, journalled from the state it was in. |
| TaskRepository.Repository.RequestApproval | src/antigona/repository.py:485-549 | An existing approval for the task's tool is reused; a new one names tool and arguments, is dated, and is approved by policy or undecided. |
| TaskRepository.Repository.DecideApproval | src/antigona/repository.py:551-561 | The row is decided as the caller last saw it, without comparing it with the row as it is; approving issues a one-shot grant. |
| TaskRepository.Repository.Cancel | src/antigona/repository.py:583-588 | All open steps and the task are cancelled, or nothing changes; it succeeds exactly on a task that the caller saw ended, or on one that has not ended and of which no open step has been moved since. |
| TaskRepository.Repository.FinalizeVerified | src/antigona/verifier_service.py:1454-1566 | DONE, its journal row and the result messages in one transaction, exactly if the row is the VERIFYING row that was read. |
| TaskRepository.ConfiguredChannels | src/antigona/verifier_service.py:540-546 | The configured names, trimmed and lower-cased, without blank ones and repetitions, or the default. |
| TaskRepository.IndexesDistinct | src/antigona/repository.py:291-381 | Step indexes never decrease and are distinct exactly unless a task both reads back and fixes. |
| TaskJournal.JournalIsHistory | src/antigona/repository.py:402-465 | In every state of every run the task rows are one unbroken chain of legal edges from None to the current status, the revision is their number minus one, and likewise for every step. |
| TaskJournal.OneProgressMessageEach | src/antigona/repository.py:402-407 | Every accepted repository transition has exactly one progress message, the verifier's row none. |
| TaskJournal.ResultsExactlyWhenDone | src/antigona/verifier_service.py:1549-1566 | Result messages exist if and only if the task is DONE; a channel has one if and only if one of the configured names means it, or it is the default and none is configured; no channel has two. |
| TaskJournal.TerminalIsFinal | src/antigona/orchestrator.py:415-433 | A terminal state is never left, whatever stale callers try; DONE is not overwritten by FAILED. |
| TaskJournal.CancellationIsComplete | src/antigona/repository.py:583-588 | In every run a task with a requested cancellation is CANCELLED and no step of it is left pending or running. |
| TaskRace.OneEdgeLeavesVerifying | src/antigona/verifier_service.py:1453-1470 | In every state of every disciplined run the journal holds at most one edge out of VERIFYING, and none while the status is not terminal, however verifier, orchestrator and cancellation race. |
| TaskRace.LateDecisionIsRefused | src/antigona/verifier_service.py:1453-1470 | Once the VERIFYING row has been left, every decision taken on it is refused without effect. |
| TaskRace.DoneIsTheVerifiers | src/antigona/durable/state_machine.py:3-10 | In every run the task is DONE if and only if some finalization of the run saw it in VERIFYING with evidence and found the row VERIFYING, at the same revision. |
| TaskGate.ApprovalGate | src/antigona/orchestrator.py:290-536 | In every state of every disciplined run TOOL_EXECUTING was entered once for each spent permit. Each permit, spent or held, rests on what was a row of this very task, approved, and no older than the TTL when the permit was given (the dispatch asks no time), with a consumed grant of its approver for its tool and arguments or a risk that needs none; no grant stands behind two; a waiting task has its approval row. |
| TaskGate.PermitsOriginate | src/antigona/orchestrator.py:290-516 | In every run, disciplined or not, the approval behind every permit was a row of the task. |
| TaskGate.NoUncheckedDispatch | src/antigona/orchestrator.py:318-356 | The dispatch of a waiting task without approval row is never enabled. |
| TaskApprovals.ApprovedStaysUnlessStale | src/antigona/repository.py:551-561 | An action undoes an approved row if and only if it is a decision on an outdated copy of it. |
| TaskApprovals.ClaimsStayApproved | src/antigona/repository.py:551-561 | If decisions are taken on current rows, the very approval behind each execution is still among the rows, approved, in every later state. |
| TaskApprovals.StaleDenialOverwrites | src/antigona/repository.py:551-561 | A run in which an outdated denial overwrites the approval of an executing task. |
| TaskApprovals.StaleDenialIsDisciplined | src/antigona/repository.py:551-561 | All callers of that run keep to their program order. |
| TaskRecovery.RecoveryInvariant | src/antigona/orchestrator.py:826-885 | In every state of every disciplined run a step is COMPLETED exactly when it has exactly one artifact, COMPLETED steps form a prefix in index order, and an observed, verifying or DONE task has the evidence of all steps. |
| Worker.Session.PersistArtifact | src/antigona/orchestrator.py:1328-1367 | Step and artifact in one change, possible exactly for a running step. |
| Worker.BeginAttempt | src/antigona/orchestrator.py:909-927 | The attempt is durable as pending before the tool runs. |
| Worker.HandleFailure | src/antigona/orchestrator.py:1245-1298 | A retry exactly if the failure is retryable, no cancellation, and retries are left; it uses up one retry and leaves the rest alone. A cancelled tool ends in CANCELLED; every other failure fails the step and leaves the task in the state that the failure calls for, all in one commit. |
| Worker.FinishStep | src/antigona/orchestrator.py:853-1324 | An applied operation is adopted without running the tool: the step is completed with the recorded effect and nothing else changes. Otherwise what is in place is recorded, or the tool runs, exactly once; the outcome is the one that this leads to, and only this step changes. |
| Worker.RunAllSteps | src/antigona/orchestrator.py:823-1326 | The restarted loop terminates, stays within the executions allowed, and unless the process dies produces the artifact exactly if every step comes through. |
| Worker.RecoverOrExecute | src/antigona/orchestrator.py:823-1326 | At most one execution more than retries are left, none for a completed or failed step or an applied operation; over all commits of all runs an applied operation is never changed and its tool never runs again; its artifact has the recorded path, digest and size; no tool ran more often than the attempts made durable before it. Unless the process dies, it produces an artifact if and only if there are steps and each of them is completed, or is open and its effect is recorded, in place, or delivered before its retries run out. If every effect is recorded, it does so, or dies, without running any tool. |
| Worker.RetryQuota | src/antigona/orchestrator.py:1272-1275 | A retry shrinks the retries left, and what the restarted loop may execute the interrupted one could have. |
| OperationRace.NeverAgainExactly | src/antigona/orchestrator.py:853-1324 | Over every interleaving of any number of workers an applied operation is never changed and its tool never runs again if and only if, at every commit of an attempt, every tool call and every commit of an outcome, the row is not APPLIED or the commit leaves it as it stands. |
| OperationRace.OneAtATime | src/antigona/orchestrator.py:853-1324 | If nobody takes up a step that another worker is at, that holds, whoever dies in between. |
| OperationRace.AttemptOverwrites | src/antigona/orchestrator.py:925-927 | A run of two workers in which an attempt makes an applied row pending. |
| OperationRace.CallComesLate | src/antigona/orchestrator.py:925-927 | A run in which the attempt was in time but its tool runs after the other worker has applied. |
| OperationRace.ReportComesLate | src/antigona/orchestrator.py:1235-1243 | A run in which attempts and calls are in time, so that a guard at these two would not do, and a failure report overwrites the applied row. |
| LeaseRace.LeaseSuffices | src/antigona/orchestrator.py:247-267 | If every worker works within the lease that it took at the start of its run, no applied operation is changed and its tool never runs again, in whatever order workers start, stop, die and take over. |
| Orchestrator.VerifyAndConsume | src/antigona/orchestrator.py:436-516 | Unless the process dies, true if and only if the row is approved, not older than an hour and, with a token, the stored grant is there, unexpired, unconsumed, of the same owner and the same tool and arguments, or, without one, its risk is approved by the policy itself. True leaves a permit for this very approval with its grant consumed; false denies the task. |
| Orchestrator.DispatchTask | src/antigona/orchestrator.py:518-536 | Unless the process dies, the dispatch enters TOOL_EXECUTING exactly if that move is allowed, and spends the permit. |
| Orchestrator.PassGate | src/antigona/orchestrator.py:290-356 | Unless the process dies, a row is dispatched if and only if it entitles the worker to it and the move is allowed; any other approved row and a denied one end POLICY_DENIED; an undecided one waits or times out. |
| Orchestrator.Execute | src/antigona/orchestrator.py:357-394 | Unless the process dies or the task is cancelled, it awaits verification exactly if it was observed before, or is no sensitive execution and every step comes through; with all steps completed, within the executions allowed; a sensitive execution is blocked without running anything. |
| Orchestrator.RequestVerification | src/antigona/orchestrator.py:395-434 | Unless the process dies, the task is DONE exactly if the verifier finished it and FAILED if it failed it; if it changed nothing, the task stays VERIFYING if it said DONE and is FAILED otherwise; no tool runs. |
| Orchestrator.Resume | src/antigona/orchestrator.py:247-434 | One run from any committed state, wherever it dies, keeps every applied operation and never repeats its tool; each tool runs at most once more than its step has retries left, and not at all if the step is completed or its operation applied; a task that is observed, verifying or DONE has the evidence of every step. Unless it dies, it makes an open task DONE if and only if the task is past the approval gate or entitled to pass it, its execution is not sensitive, every step comes through, and the verifier finishes it. |
| Orchestrator.ResumeRepeatedly | src/antigona/orchestrator.py:247-434 | The same over any number of runs and crashes, with any decisions, cancellations and verifications of others between them, and no tool runs more often than once for each run and retry. |

## Where the code and its documentation differ

The model follows the code.

* `locking.py` promises a typed refusal for every failure before a usable lock exists; an exception
  while the owner block is made escapes with the lock still taken: `StoreLock.OwnerBlockLeaks`, and
  exactly then: `StoreLock.LeaksExactlyWhenOwnerRaises`.
* `records.py` promises its own error for what cannot be serialised; a surrogate escapes as the
  codec's error: `Records.SurrogateEscapes`, and exactly then: `Records.CanonicalBytesOutcome`.
* `path_boundary.py` says that an existing path is its own deepest existing ancestor; the code says
  so of directories only: `PathBoundary.FileIsNotItsOwnAncestor`,
  `PathBoundary.DeepestExistingAncestor`.
* `fsops.py:11-12` promises that whatever reports success has synced the file and its directory.
  Directories that existed before the call are not synced: `Fsops.OldDirectoryLosesTarget`, and
  exactly then a success of `write_atomic` can be lost: `Fsops.WriteAtomic`. Publication
  (`fsops.py:269-314`) syncs no directory at all, so that every success can be lost until the caller
  syncs; what that sync makes safe is `Fsops.WriteImmutableNoReplace`.
* `fsops.py:20-23` offers the copy as a substitute for the hard link; the link is crash-atomic
  (`Fsops.LinkNeverTears`), the copy is not while it is unsynced (`Fsops.TearsExactly`,
  `Fsops.CopyMayTear`).
* `store.py:19-23` promises that a crash never leaves a HEAD that names an event which is not
  durable. An event file that exists already is compared, but not synced, and an events directory
  that exists already is not synced before HEAD names the event: `ChainCrash.LeftoverUnsettles`,
  `ChainCrash.MkdirUnsettles`, `ChainCrash.UnsyncedEventsDirectory`, `ChainCommit.SwitchTears`, and
  exactly then: `ChainStore.Append`.
* `store.py:22-23` calls an orphan event recoverable. A crash between `os.link` and `os.unlink`
  (`fsops.py:278-287`), or before the directory is synced, may leave it under two names; nothing
  removes the other one, and the no-follow reader refuses the event whenever its record is appended
  again: `ChainCrash.LinkDoubles`, and exactly then: `ChainCrash.BlocksExactly`.
* `store.py:289-292` promises that repeating a committed record is idempotent. The exact retry
  (`store.py:318-322`) syncs nothing, so that after an append that failed in the last sync it
  acknowledges a link that a crash can still take back: `ChainLife.AcknowledgedTooEarly`, and exactly
  then: `ChainLife.AcknowledgedIsKept`.
* Operation rows are written without compare-and-swap (`orchestrator.py:925-927`, `1235-1243`,
  `1301-1310`), so that the promise of recovery needs the lease: `OperationRace`.

## Left out

- Fsops.WriteAtomic: promises nothing for an absent target whose own name starts with the reserved prefix of temporary files, because a temporary file may then be created under that very name (`TempNameCollides`).
- Fsops.MkdirAllSync: one process, nobody else making or removing directories meanwhile; and a path component that is a symlink is refused, while the code goes on through one that leads to a directory.
- ChainStore.Append: one append at a time, as the store lock provides; the lock file's own entry and text are not part of the chain's state. Files of the events' directory have names in it only. The blank operation is excluded by the record's own constructor.
- ChainLife.AcknowledgedIsKept: the appends of a life begin with the way to their event durable and an event file that is there synced; what a single append is worth otherwise is part of `ChainStore.Append`.
- ChainWalk.LoadChain: the rules are functions that accept or refuse.
- StoreLock.AcquireStoreLock: nobody unlinks the lock file, and descriptors are not inherited by a fork; `flock` is present.
- PathBoundary.IsContainedByRootIdentity: the file system does not change during one call, paths are given as `os.path.abspath` returns them, and a bind mount of a directory on the same device looks like a directory.
- SubtaskTree.TreeBound: spawns do not overlap; `OverlappingSpawnsOverrun` says what happens when they do.
- Worker.RecoverOrExecute: one worker at a time. The lease provides that only until `lease_seconds` have passed, because `orchestrator.py` never renews it; `LeaseRace` says what follows as long as it lasts, and `OperationRace` what overlapping workers keep. What other callers do meanwhile to the task row is covered by `TaskGate` and `TaskRecovery`.
- TaskGate.ApprovalGate: the callers are orchestrator, repository, gateway decisions and verifier; `worker/agent_core.py:254-268`, which can enter TOOL_EXECUTING, too, `worker/turn_executor.py` and `core/task_registry.py` also write task rows and are not modelled.
- TaskRepository.Repository.RequestApproval: the risk of a plan is a parameter; how it is computed from tools and steps is not modelled.
- TaskRepository.ConfiguredChannels: trimming and lower-casing one name is a parameter.
- Records.CanonicalBytesOutcome: the payload is a JSON tree; a value that is none, an integer over the digit limit and nesting over the recursion limit fail in other ways.
- Records.RecordRoundTrip: a float is its literal text, not a binary number; Python's equality across booleans, integers and floats, its limit on the digits of an integer and its recursion limit are not modelled.
- BraceScanner.BoundedJsonObject: the code also answers None when `json.loads` meets its limit on the digits of an integer or on nesting.
- Orchestrator.Execute: which executions the sensitivity classification blocks is a parameter.
- DraftCleaner.StripCodeFences: whether the path names a Python file is a parameter.
- Rejection rows and observation rows of the journal, which record no transition.
- SHA-256 itself; the regular expressions; Unicode normalisation; the lexical path policy.
- The database engine, HTTP, the container and MCP tools, the confirmation policy and the language-model judge: their outcomes are arbitrary choices.
- The materialisation of tool output into files.
- Windows fallbacks of locking and file access.
- Delivery workers, user interfaces and configuration.
