/** What every run keeps, whoever calls the repository and however stale the callers' snapshots are:
    the journal is the history of the task, and DONE belongs to the verifier. */
module TaskJournal {
  import opened Basics
  import opened TaskStore

  // ---- Reading the journal ----

  /** The accepted rows of type task, in order. */
  function TaskRows(journal: seq<Row>): seq<Row> {
    if journal == [] then []
    else
      var n := |journal| - 1;
      TaskRows(journal[..n]) + if journal[n].TaskRow? then [journal[n]] else []
  }

  /** The accepted rows of one step, in order. */
  function StepRows(journal: seq<Row>, i: nat): seq<Row> {
    if journal == [] then []
    else
      var n := |journal| - 1;
      StepRows(journal[..n], i) + if journal[n].StepRow? && journal[n].step == i then [journal[n]] else []
  }

  /** An unbroken chain of legal edges from None -> RECEIVED to `to`. */
  predicate Chain(rows: seq<Row>, to: TaskState) {
    && rows != []
    && (forall i :: 0 <= i < |rows| ==> rows[i].TaskRow?)
    && rows[0] == TaskRow(None, Received)
    && (forall i :: 0 < i < |rows| ==> rows[i].from == Some(rows[i - 1].to) && LegalEdge(rows[i - 1].to, rows[i].to))
    && rows[|rows| - 1].to == to
  }

  predicate LegalEdge(from: TaskState, to: TaskState) {
    TaskEdge(from, to) || (from.Verifying? && to.Done?)
  }

  predicate StepChain(rows: seq<Row>, to: StepState) {
    && (forall i :: 0 <= i < |rows| ==> rows[i].StepRow? && StepEdge(rows[i].before, rows[i].after))
    && (forall i :: 0 < i < |rows| ==> rows[i].before == rows[i - 1].after)
    && if rows == [] then to.Pending? else rows[0].before.Pending? && rows[|rows| - 1].after == to
  }

  /** The journal positions that must have a progress message: all but the verifier's own row. */
  function ProgressOf(journal: seq<Row>): seq<nat> {
    if journal == [] then []
    else
      var n := |journal| - 1;
      ProgressOf(journal[..n]) + if journal[n].TaskRow? && journal[n].to.Done? then [] else [n]
  }

  predicate InvTask(db: Db) {
    Chain(TaskRows(db.journal), db.status) && |TaskRows(db.journal)| == db.revision + 1
  }

  predicate InvStep(db: Db, i: nat)
    requires i < |db.steps|
  {
    StepChain(StepRows(db.journal, i), db.steps[i].status) && |StepRows(db.journal, i)| == db.steps[i].revision
  }

  predicate InvOutbox(env: Env, db: Db) {
    && db.progress == ProgressOf(db.journal)
    && db.results == (if db.status.Done? then ResultChannels(env) else [])
  }

  predicate Inv(env: Env, db: Db) {
    && InvTask(db) && InvOutbox(env, db)
    && forall i :: 0 <= i < |db.steps| ==> InvStep(db, i)
  }

  /** What time does to the row: revisions only grow, an unchanged revision means an unchanged state,
      nothing terminal changes, and the journal is only appended to. */
  predicate Later(a: Db, b: Db) {
    && a.revision <= b.revision
    && (a.revision == b.revision ==> a.status == b.status && a.cancel == b.cancel)
    && (Terminal(a.status) ==> b.revision == a.revision)
    && |a.steps| == |b.steps| && a.journal <= b.journal
    && (forall i :: 0 <= i < |a.steps| ==> StepLater(a.steps[i], b.steps[i]))
  }

  predicate StepLater(a: Step, b: Step) {
    && a.index == b.index && a.revision <= b.revision
    && (a.revision == b.revision ==> a.status == b.status)
    && (!Open(a.status) ==> a.revision == b.revision)
  }

  lemma {:induction false} LaterTransitive(a: Db, b: Db, c: Db)
    requires Later(a, b) && Later(b, c)
    ensures Later(a, c)
  {
  }

  // ---- The two kinds of journalled change ----

  lemma {:induction false} RowsAppend(journal: seq<Row>, row: Row)
    ensures TaskRows(journal + [row]) == TaskRows(journal) + if row.TaskRow? then [row] else []
    ensures ProgressOf(journal + [row]) ==
      ProgressOf(journal) + if row.TaskRow? && row.to.Done? then [] else [|journal|]
    ensures forall i: nat ::
      StepRows(journal + [row], i) == StepRows(journal, i) + if row.StepRow? && row.step == i then [row] else []
  {
  }

  lemma {:induction false} ChainAppend(rows: seq<Row>, from: TaskState, to: TaskState)
    requires Chain(rows, from) && LegalEdge(from, to)
    ensures Chain(rows + [TaskRow(Some(from), to)], to)
  {
  }

  lemma {:induction false} StepChainAppend(rows: seq<Row>, i: nat, from: StepState, to: StepState)
    requires StepChain(rows, from) && StepEdge(from, to)
    ensures StepChain(rows + [StepRow(i, from, to)], to)
  {
  }

  lemma {:induction false} MovedKeeps(env: Env, db: Db, to: TaskState)
    requires Inv(env, db) && TaskEdge(db.status, to)
    ensures Inv(env, Moved(db, to)) && Later(db, Moved(db, to))
  {
    var after := Moved(db, to);
    RowsAppend(db.journal, TaskRow(Some(db.status), to));
    ChainAppend(TaskRows(db.journal), db.status, to);
    forall i | 0 <= i < |after.steps| ensures InvStep(after, i) {
      assert InvStep(db, i);
    }
  }

  lemma {:induction false} MovedStepKeeps(env: Env, db: Db, i: nat, to: StepState)
    requires Inv(env, db) && i < |db.steps| && StepEdge(db.steps[i].status, to)
    ensures Inv(env, MovedStep(db, i, to)) && Later(db, MovedStep(db, i, to))
  {
    var after := MovedStep(db, i, to);
    RowsAppend(db.journal, StepRow(i, db.steps[i].status, to));
    assert InvStep(db, i);
    StepChainAppend(StepRows(db.journal, i), i, db.steps[i].status, to);
    forall j | 0 <= j < |after.steps| ensures InvStep(after, j) {
      assert InvStep(db, j);
    }
  }

  /** A change of columns that the invariant does not speak of. */
  predicate SameHistory(a: Db, b: Db) {
    && a.status == b.status && a.revision == b.revision && a.cancel == b.cancel && a.steps == b.steps
    && a.journal == b.journal && a.progress == b.progress && a.results == b.results
  }

  lemma {:induction false} SameHistoryKeeps(env: Env, a: Db, b: Db)
    requires Inv(env, a) && SameHistory(a, b)
    ensures Inv(env, b) && Later(a, b)
  {
    forall i | 0 <= i < |b.steps| ensures InvStep(b, i) {
      assert InvStep(a, i);
    }
  }

  lemma {:induction false} FinalizedKeeps(env: Env, db: Db)
    requires Inv(env, db) && db.status.Verifying?
    ensures Inv(env, Finalized(env, db)) && Later(db, Finalized(env, db))
  {
    var after := Finalized(env, db);
    RowsAppend(db.journal, TaskRow(Some(Verifying), Done));
    ChainAppend(TaskRows(db.journal), Verifying, Done);
    forall i | 0 <= i < |after.steps| ensures InvStep(after, i) {
      assert InvStep(db, i);
    }
  }

  lemma {:induction false} CancelStepsKeep(env: Env, db: Db, seen: Db, from: nat)
    requires Inv(env, db) && Later(seen, db) && from <= |seen.steps| && MayCancelSteps(db, seen, from)
    ensures var after := CancelledSteps(db, seen, from);
      Inv(env, after) && Later(db, after) && after.status == db.status && after.revision == db.revision
    decreases |seen.steps| - from
  {
    if from < |seen.steps| {
      assert StepLater(seen.steps[from], db.steps[from]);
      if Open(seen.steps[from].status) {
        var next := MovedStep(db, from, StepCancelled);
        MovedStepKeeps(env, db, from, StepCancelled);
        LaterTransitive(seen, db, next);
        StillCancellable(db, seen, from);
        CancelStepsKeep(env, next, seen, from + 1);
        LaterTransitive(db, next, CancelledSteps(db, seen, from));
      } else {
        CancelStepsKeep(env, db, seen, from + 1);
      }
    }
  }

  lemma {:induction false} StillCancellable(db: Db, seen: Db, from: nat)
    requires from < |seen.steps| == |db.steps| && MayCancelSteps(db, seen, from)
    ensures MayCancelSteps(MovedStep(db, from, StepCancelled), seen, from + 1)
  {
    OthersCancellable(db, seen, from, from + 1);
  }

  lemma {:induction false} OthersCancellable(db: Db, seen: Db, moved: nat, from: nat)
    requires moved < from <= |seen.steps| == |db.steps| && MayCancelSteps(db, seen, from)
    ensures MayCancelSteps(MovedStep(db, moved, StepCancelled), seen, from)
    decreases |seen.steps| - from
  {
    if from < |seen.steps| {
      OthersCancellable(db, seen, moved, from + 1);
    }
  }

  lemma {:induction false} StepMoveKeeps(env: Env, db: Db, seen: Db, i: nat, to: StepState)
    requires Inv(env, db) && Later(seen, db) && MayMoveStep(db, seen, i, to)
    ensures Inv(env, MovedStep(db, i, to)) && Later(db, MovedStep(db, i, to))
  {
    assert StepLater(seen.steps[i], db.steps[i]);
    MovedStepKeeps(env, db, i, to);
  }

  lemma {:induction false} CompleteKeeps(env: Env, db: Db, seen: Db, i: nat, effect: Effect)
    requires Inv(env, db) && Later(seen, db) && MayMoveStep(db, seen, i, Completed)
    ensures var after := MovedStep(db, i, Completed).(artifacts := db.artifacts + [Artifact(i, effect)]);
      Inv(env, after) && Later(db, after)
  {
    var moved := MovedStep(db, i, Completed);
    var after := moved.(artifacts := db.artifacts + [Artifact(i, effect)]);
    StepMoveKeeps(env, db, seen, i, Completed);
    SameHistoryKeeps(env, moved, after);
    LaterTransitive(db, moved, after);
  }

  predicate Journalled(a: Action) {
    a.Transition? || a.StepTransition? || a.Complete? || a.Dispatch? || a.DispatchUnchecked? || a.Cancel? || a.Finalize?
  }

  lemma {:induction false} BookkeepingKeeps(env: Env, db: Db, seen: Db, a: Action)
    requires Inv(env, db) && !Journalled(a)
    ensures Inv(env, Apply(env, db, seen, a)) && Later(db, Apply(env, db, seen, a))
  {
    SameHistoryKeeps(env, db, Apply(env, db, seen, a));
  }

  /** Every action, on whatever earlier state it was decided. */
  lemma {:induction false} ApplyKeeps(env: Env, db: Db, seen: Db, a: Action)
    requires Inv(env, db) && Later(seen, db)
    ensures Inv(env, Apply(env, db, seen, a)) && Later(db, Apply(env, db, seen, a))
  {
    if !Journalled(a) {
      BookkeepingKeeps(env, db, seen, a);
    } else if Apply(env, db, seen, a) == db {
      SameHistoryKeeps(env, db, db);
    } else if a.Transition? {
      MovedKeeps(env, db, a.target);
    } else if a.StepTransition? {
      StepMoveKeeps(env, db, seen, a.i, a.to);
    } else if a.Complete? {
      CompleteKeeps(env, db, seen, a.i, a.effect);
    } else if a.Dispatch? {
      DispatchKeeps(env, db, seen, a.worker);
    } else if a.DispatchUnchecked? {
      MovedKeeps(env, db, ToolExecuting);
    } else if a.Cancel? {
      CancelKeeps(env, db, seen);
    } else {
      FinalizedKeeps(env, db);
    }
  }

  lemma {:induction false} DispatchKeeps(env: Env, db: Db, seen: Db, worker: Worker)
    requires Inv(env, db) && Later(seen, db)
    ensures var after := Apply(env, db, seen, Dispatch(0, worker)); Inv(env, after) && Later(db, after)
  {
    var after := Apply(env, db, seen, Dispatch(0, worker));
    if worker in db.permits && MayMove(db, seen, ToolExecuting) {
      MovedKeeps(env, db, ToolExecuting);
      SameHistoryKeeps(env, Moved(db, ToolExecuting), after);
    } else {
      SameHistoryKeeps(env, db, after);
    }
  }

  lemma {:induction false} CancelIsLegal(s: TaskState)
    requires !Terminal(s)
    ensures TaskEdge(s, Cancelled)
  {
  }

  lemma {:induction false} CancelFlag(env: Env, t: Db, u: Db)
    requires Inv(env, u) && Later(t, u) && t.revision < u.revision
    ensures Inv(env, u.(cancel := true)) && Later(t, u.(cancel := true))
  {
    forall i | 0 <= i < |u.steps| ensures InvStep(u.(cancel := true), i) {
      assert InvStep(u, i);
    }
  }

  lemma {:induction false} CancelMoveKeeps(env: Env, t: Db)
    requires Inv(env, t) && !Terminal(t.status)
    ensures var after := Moved(t, Cancelled).(cancel := true); Inv(env, after) && Later(t, after)
  {
    CancelIsLegal(t.status);
    MovedKeeps(env, t, Cancelled);
    CancelFlag(env, t, Moved(t, Cancelled));
  }

  lemma {:induction false} CancelKeeps(env: Env, db: Db, seen: Db)
    requires Inv(env, db) && Later(seen, db) && !Terminal(db.status) && MayCancelSteps(db, seen, 0)
    ensures var after := Moved(CancelledSteps(db, seen, 0), Cancelled).(cancel := true);
      Inv(env, after) && Later(db, after)
  {
    CancelStepsKeep(env, db, seen, 0);
    var t := CancelledSteps(db, seen, 0);
    CancelMoveKeeps(env, t);
    LaterTransitive(db, t, Moved(t, Cancelled).(cancel := true));
  }

  // ---- Whole runs ----

  lemma {:induction false} FreshInv(env: Env, init: Db)
    requires Fresh(init)
    ensures Inv(env, init)
  {
    assert init.journal[..0] == [];
    assert TaskRows(init.journal[..0]) == [] && ProgressOf(init.journal[..0]) == [];
    forall i | 0 <= i < |init.steps| ensures InvStep(init, i) {
      assert StepRows(init.journal[..0], i) == [];
    }
  }

  lemma {:induction false} LaterSelf(db: Db)
    ensures Later(db, db)
  {
  }

  /** The invariant holds in every state, and every earlier state relates to every later one. */
  predicate Sound(env: Env, h: seq<Db>) {
    && (forall i :: 0 <= i < |h| ==> Inv(env, h[i]))
    && (forall i, j :: 0 <= i <= j < |h| ==> Later(h[i], h[j]))
  }

  lemma {:induction false} SoundAt(env: Env, h: seq<Db>, i: nat, j: nat)
    requires Sound(env, h) && i <= j < |h|
    ensures Inv(env, h[i]) && Inv(env, h[j]) && Later(h[i], h[j])
  {
  }

  lemma {:induction false} SoundAppend(env: Env, h: seq<Db>, next: Db)
    requires h != [] && Sound(env, h) && Inv(env, next) && Later(h[|h| - 1], next)
    ensures Sound(env, h + [next])
  {
    LaterSelf(next);
    forall i | 0 <= i < |h| ensures Later(h[i], next) {
      SoundAt(env, h, i, |h| - 1);
      LaterTransitive(h[i], h[|h| - 1], next);
    }
    forall i, j | 0 <= i <= j < |h| + 1 ensures Later((h + [next])[i], (h + [next])[j]) {
      if j < |h| {
        SoundAt(env, h, i, j);
      }
    }
  }

  lemma {:induction false} SoundOne(env: Env, db: Db)
    requires Inv(env, db)
    ensures Sound(env, [db])
  {
  }

  lemma {:induction false} HistoryIsSound(env: Env, init: Db, actions: seq<Action>)
    requires Fresh(init)
    ensures Sound(env, History(env, init, actions))
  {
    if actions == [] {
      FreshInv(env, init);
      SoundOne(env, init);
    } else {
      var n := |actions| - 1;
      var h := History(env, init, actions[..n]);
      HistoryIsSound(env, init, actions[..n]);
      var seenAt := if actions[n].seenAt < |h| then actions[n].seenAt else n;
      SoundAt(env, h, seenAt, n);
      ApplyKeeps(env, h[n], h[seenAt], actions[n]);
      SoundAppend(env, h, Apply(env, h[n], h[seenAt], actions[n]));
    }
  }

  /** The journal is the history: under any interleaving of callers with stale snapshots the task rows form one
      unbroken chain of legal edges from None -> RECEIVED to the current status, the revision is their number
      minus one, and so for every step. */
  lemma {:induction false} JournalIsHistory(env: Env, init: Db, actions: seq<Action>, k: nat)
    requires Fresh(init) && k <= |actions|
    ensures var db := History(env, init, actions)[k];
      && Chain(TaskRows(db.journal), db.status) && db.revision == |TaskRows(db.journal)| - 1
      && forall i :: 0 <= i < |db.steps| ==>
           StepChain(StepRows(db.journal, i), db.steps[i].status) && db.steps[i].revision == |StepRows(db.journal, i)|
  {
    HistoryIsSound(env, init, actions);
    var db := History(env, init, actions)[k];
    SoundAt(env, History(env, init, actions), k, k);
    InvMeans(env, db);
  }

  lemma {:induction false} InvMeans(env: Env, db: Db)
    requires Inv(env, db)
    ensures forall i :: 0 <= i < |db.steps| ==>
      StepChain(StepRows(db.journal, i), db.steps[i].status) && db.steps[i].revision == |StepRows(db.journal, i)|
  {
    forall i | 0 <= i < |db.steps|
      ensures StepChain(StepRows(db.journal, i), db.steps[i].status) &&
        db.steps[i].revision == |StepRows(db.journal, i)|
    {
      assert InvStep(db, i);
    }
  }

  /** Exactly one progress message for each accepted repository transition, none for the verifier's row. */
  lemma {:induction false} OneProgressMessageEach(env: Env, init: Db, actions: seq<Action>, k: nat)
    requires Fresh(init) && k <= |actions|
    ensures var db := History(env, init, actions)[k];
      && (forall i, j :: 0 <= i < j < |db.progress| ==> db.progress[i] < db.progress[j])
      && (forall r: nat :: r in db.progress <==> r < |db.journal| && !VerifierRow(db.journal[r]))
  {
    HistoryIsSound(env, init, actions);
    SoundAt(env, History(env, init, actions), k, k);
    ProgressMeans(History(env, init, actions)[k].journal);
  }

  predicate VerifierRow(row: Row) {
    row.TaskRow? && row.to.Done?
  }

  lemma {:induction false} ProgressMeans(journal: seq<Row>)
    ensures var p := ProgressOf(journal);
      && (forall i, j :: 0 <= i < j < |p| ==> p[i] < p[j])
      && (forall r: nat :: r in p <==> r < |journal| && !VerifierRow(journal[r]))
  {
    if journal != [] {
      var n := |journal| - 1;
      ProgressMeans(journal[..n]);
      var (p, q) := (ProgressOf(journal), ProgressOf(journal[..n]));
      assert p == q + if VerifierRow(journal[n]) then [] else [n];
      forall r: nat ensures r in p <==> r < |journal| && !VerifierRow(journal[r]) {
        assert r in p <==> r in q || (r == n && !VerifierRow(journal[n]));
      }
      assert forall i :: 0 <= i < |q| ==> q[i] in q && q[i] < n;
    }
  }

  lemma {:induction false} DedupMeans(names: seq<string>)
    ensures forall c :: c in Dedup(names) <==> c in names
    ensures forall i, j :: 0 <= i < j < |Dedup(names)| ==> Dedup(names)[i] != Dedup(names)[j]
  {
    if names != [] {
      var n := |names| - 1;
      DedupMeans(names[..n]);
      var (d, front) := (Dedup(names), Dedup(names[..n]));
      assert d == if names[n] in front then front else front + [names[n]];
      assert names == names[..n] + [names[n]];
      assert forall c :: c in names <==> c in names[..n] || c == names[n];
      assert forall i :: 0 <= i < |front| ==> front[i] in front;
    }
  }

  predicate NamedBy(env: Env, i: nat, channel: string) {
    i < |env.channels| && env.channels[i] != "" && channel != "" && env.normal(env.channels[i]) == channel
  }

  /** A channel gets the result if its name is configured, or by default if no name is. */
  ghost predicate Configured(env: Env, channel: string) {
    || (exists i :: NamedBy(env, i, channel))
    || (channel == "telegram" && forall i, named: string :: !NamedBy(env, i, named))
  }

  lemma {:induction false} NormalisedMeans(env: Env, names: seq<string>, channel: string)
    ensures channel in Normalised(env, names) <==>
      exists i :: 0 <= i < |names| && NamesChannel(env, names[i]) && env.normal(names[i]) == channel
  {
    if names != [] {
      var n := |names| - 1;
      NormalisedMeans(env, names[..n], channel);
      if channel in Normalised(env, names[..n]) {
        var i :| 0 <= i < n && NamesChannel(env, names[..n][i]) && env.normal(names[..n][i]) == channel;
        assert names[i] == names[..n][i];
      }
      forall i | 0 <= i < n && NamesChannel(env, names[i]) && env.normal(names[i]) == channel
        ensures channel in Normalised(env, names[..n])
      {
        assert names[..n][i] == names[i];
      }
    }
  }

  lemma {:induction false} ResultsMean(env: Env)
    ensures forall c :: c in ResultChannels(env) <==> Configured(env, c)
    ensures ResultChannels(env) != []
    ensures forall i, j :: 0 <= i < j < |ResultChannels(env)| ==> ResultChannels(env)[i] != ResultChannels(env)[j]
  {
    var names := Normalised(env, env.channels);
    DedupMeans(names);
    forall c ensures c in names <==> exists i :: NamedBy(env, i, c) {
      NormalisedMeans(env, env.channels, c);
      if c in names {
        var i :| 0 <= i < |env.channels| && NamesChannel(env, env.channels[i]) && env.normal(env.channels[i]) == c;
        assert NamedBy(env, i, c);
      }
    }
    forall i | 0 <= i < |env.channels| && NamesChannel(env, env.channels[i])
      ensures env.normal(env.channels[i]) in Dedup(names)
    {
      assert NamedBy(env, i, env.normal(env.channels[i]));
    }
    forall c ensures c in ResultChannels(env) <==> Configured(env, c) {
      assert Dedup(names) != [] ==> Dedup(names)[0] in names;
    }
  }

  /** The result outbox has rows exactly when the task is DONE: one per configured channel, none twice. */
  lemma {:induction false} ResultsExactlyWhenDone(env: Env, init: Db, actions: seq<Action>, k: nat)
    requires Fresh(init) && k <= |actions|
    ensures var db := History(env, init, actions)[k];
      && (db.results != [] <==> db.status.Done?)
      && (forall i, j :: 0 <= i < j < |db.results| ==> db.results[i] != db.results[j])
      && (db.status.Done? ==> forall c :: c in db.results <==> Configured(env, c))
  {
    HistoryIsSound(env, init, actions);
    SoundAt(env, History(env, init, actions), k, k);
    ResultsMean(env);
  }

  /** A terminal state is final: whatever worker, gateway or verifier still try on their old snapshots, a committed
      DONE is never overwritten by FAILED, nor FAILED by DONE, and its journal gains no task row. */
  lemma {:induction false} TerminalIsFinal(env: Env, init: Db, actions: seq<Action>, i: nat, j: nat)
    requires Fresh(init) && i <= j <= |actions| && Terminal(History(env, init, actions)[i].status)
    ensures var h := History(env, init, actions);
      h[j].status == h[i].status && h[j].revision == h[i].revision &&
        |TaskRows(h[j].journal)| == |TaskRows(h[i].journal)|
  {
    HistoryIsSound(env, init, actions);
    SoundAt(env, History(env, init, actions), i, j);
  }

  lemma {:induction false} CancelKeepsStatus(db: Db, seen: Db, from: nat)
    requires from <= |seen.steps| == |db.steps|
    ensures CancelledSteps(db, seen, from).status == db.status
    decreases |seen.steps| - from
  {
    if from < |seen.steps| {
      CancelKeepsStatus(
        if Open(seen.steps[from].status) then MovedStep(db, from, StepCancelled) else db, seen, from + 1);
    }
  }

  // ---- Cancellation ----

  /** A cancellation by the owner is complete: the task is CANCELLED and no step is left open. */
  predicate CancelledWhole(db: Db) {
    db.cancel ==> db.status.Cancelled? && forall i :: 0 <= i < |db.steps| ==> !Open(db.steps[i].status)
  }

  lemma {:induction false} CancelStepsClose(db: Db, seen: Db, from: nat)
    requires from <= |seen.steps| == |db.steps| && MayCancelSteps(db, seen, from)
    requires forall j :: from <= j < |db.steps| ==> StepLater(seen.steps[j], db.steps[j])
    requires forall j :: 0 <= j < from ==> !Open(db.steps[j].status)
    ensures forall j :: 0 <= j < |db.steps| ==> !Open(CancelledSteps(db, seen, from).steps[j].status)
    decreases |seen.steps| - from
  {
    if from < |seen.steps| {
      if Open(seen.steps[from].status) {
        StillCancellable(db, seen, from);
        CancelStepsClose(MovedStep(db, from, StepCancelled), seen, from + 1);
      } else {
        assert StepLater(seen.steps[from], db.steps[from]);
        CancelStepsClose(db, seen, from + 1);
      }
    }
  }

  lemma {:induction false} CancelledStays(a: Db, b: Db)
    requires Later(a, b) && a.cancel && CancelledWhole(a)
    ensures CancelledWhole(b)
  {
    forall i | 0 <= i < |b.steps| ensures !Open(b.steps[i].status) {
      assert StepLater(a.steps[i], b.steps[i]);
    }
  }

  lemma {:induction false} OnlyCancelFlags(env: Env, db: Db, seen: Db, a: Action)
    requires !db.cancel && Later(seen, db)
    ensures Apply(env, db, seen, a).cancel ==> a.Cancel? && Apply(env, db, seen, a) != db
  {
  }

  lemma {:induction false} CancelIsWhole(env: Env, db: Db, seen: Db, a: Action)
    requires Later(seen, db) && a.Cancel? && Apply(env, db, seen, a) != db
    ensures CancelledWhole(Apply(env, db, seen, a))
  {
    assert forall j :: 0 <= j < |db.steps| ==> StepLater(seen.steps[j], db.steps[j]);
    CancelStepsClose(db, seen, 0);
  }

  /** In every run a task with a requested cancellation is CANCELLED, with no step left pending or running, although
      the gateway chose the steps to cancel on a snapshot of its own. */
  lemma {:induction false} CancellationIsComplete(env: Env, init: Db, actions: seq<Action>)
    requires Fresh(init)
    ensures CancelledWhole(History(env, init, actions)[|actions|])
  {
    if actions != [] {
      var n := |actions| - 1;
      var h := History(env, init, actions[..n]);
      var a := actions[n];
      CancellationIsComplete(env, init, actions[..n]);
      HistoryIsSound(env, init, actions[..n]);
      var seenAt := if a.seenAt < |h| then a.seenAt else n;
      SoundAt(env, h, seenAt, n);
      ApplyKeeps(env, h[n], h[seenAt], a);
      if h[n].cancel {
        CancelledStays(h[n], Apply(env, h[n], h[seenAt], a));
      } else {
        OnlyCancelFlags(env, h[n], h[seenAt], a);
        if Apply(env, h[n], h[seenAt], a).cancel {
          CancelIsWhole(env, h[n], h[seenAt], a);
        }
      }
    }
  }
}
