/** The resumable worker: recovery of the steps of one task, one durable operation per side effect.
    One worker at a time, as the lease provides; a crash may follow any commit. */
module Worker {
  import opened Basics
  import opened TaskStore
  import opened TaskJournal
  import opened TaskGate
  import opened TaskRecovery

  datatype OpStatus = OpPrepared | OpPending | OpApplied | OpFailed

  /** What the row stores of a tool call: a summary at first, and of a successful one its effect. */
  datatype OpResult = Summary(text: string) | Recorded(effect: Effect)

  datatype Operation = Operation(status: OpStatus, attempts: nat, result: Option<OpResult>)

  /** The row as it is inserted. */
  const PREPARED := Operation(OpPrepared, 0, None)

  /** What decides the branches after a tool call. `ran`: the tool was really run; an answer-only plan, an unknown tool
      and a refused overwrite fail without running anything. */
  datatype ToolResult =
    ToolResult(effect: Option<Effect>, summary: string, cancelled: bool, retryable: bool, reason: string, ran: bool)

  /** What one run meets: the answer of the tool of step `i` after `n` earlier attempts, and the effect that it finds in
      place before that attempt, if the step writes a text that is there already. */
  datatype ToolWorld = ToolWorld(tool: (nat, nat) -> ToolResult, present: (nat, nat) -> Option<Effect>)

  /** `Crashed`: the process died; `Raised`: an exception left the method. */
  datatype Outcome = Produced(artifact: Artifact) | NoArtifact | Raised | Crashed

  // ---- Facts about committed states ----

  /** What is durable of the operations, and which tools have really run so far. */
  datatype Point = Point(ops: map<nat, Operation>, log: seq<nat>)

  function Count(log: seq<nat>, i: nat): nat {
    if log == [] then 0 else Count(log[..|log| - 1], i) + if log[|log| - 1] == i then 1 else 0
  }

  /** `_recover_or_execute` stops at this row instead of calling the tool. */
  predicate Finished(op: Operation) {
    op.status.OpApplied? && op.result.Some?
  }

  predicate Applied(ops: map<nat, Operation>, i: nat) {
    i in ops && Finished(ops[i]) && ops[i].result.value.Recorded?
  }

  function EffectOf(ops: map<nat, Operation>, i: nat): Effect
    requires Applied(ops, i)
  {
    ops[i].result.value.effect
  }

  /** From `p` on no applied operation is changed, and its tool is not run again. */
  predicate Kept(p: Point, q: Point) {
    forall i :: i in p.ops && Applied(p.ops, i) ==>
      i in q.ops && q.ops[i] == p.ops[i] && Count(q.log, i) == Count(p.log, i)
  }

  /** Over all commits of all runs so far. */
  predicate NeverAgain(trace: seq<Point>) {
    forall a, b :: 0 <= a <= b < |trace| ==> Kept(trace[a], trace[b])
  }

  /** No commit so far, nor the present, breaks what an earlier commit promised. */
  predicate Unbroken(trace: seq<Point>, now: Point) {
    match now
    case Point(ops, log) =>
      trace != [] && NeverAgain(trace) && trace[|trace| - 1].ops == ops && Kept(trace[|trace| - 1], Point(ops, log))
  }

  function Attempts(ops: map<nat, Operation>, i: nat): nat {
    if i in ops then ops[i].attempts else 0
  }

  /** No tool ran more often than the attempts that were durable before it. */
  ghost predicate Accounted(ops: map<nat, Operation>, log: seq<nat>) {
    forall i: nat :: Count(log, i) <= Attempts(ops, i)
  }

  /** The artifact of a step is the recorded effect of its operation. */
  predicate Faithful(db: Db, ops: map<nat, Operation>) {
    forall k :: 0 <= k < |db.artifacts| && Applied(ops, db.artifacts[k].step) ==>
      db.artifacts[k].effect == EffectOf(ops, db.artifacts[k].step)
  }

  ghost predicate Reached(env: Env, init: Db, db: Db) {
    exists actions :: FromStart(init) && DisciplinedRun(env, init, actions) &&
      db == History(env, init, actions)[|actions|]
  }

  /** A newly created task, its steps in index order as `repository.get` delivers them. */
  predicate FromStart(init: Db) {
    Fresh(init) && Sorted(init)
  }

  predicate Sorted(db: Db) {
    forall i, j :: 0 <= i < j < |db.steps| ==> db.steps[i].index <= db.steps[j].index
  }

  lemma {:induction false} ReachedFacts(env: Env, init: Db, db: Db)
    requires Reached(env, init, db)
    ensures Recoverable(db) && Sorted(db) && |db.steps| == |init.steps|
  {
    var actions :| DisciplinedRun(env, init, actions) && db == History(env, init, actions)[|actions|];
    RunIsRecoverable(env, init, actions);
    HistoryIsSound(env, init, actions);
    SoundAt(env, History(env, init, actions), 0, |actions|);
    FirstState(env, init, actions);
    assert forall i :: 0 <= i < |init.steps| ==> StepLater(init.steps[i], db.steps[i]);
  }

  lemma {:induction false} FirstState(env: Env, init: Db, actions: seq<Action>)
    ensures History(env, init, actions)[0] == init
  {
    if actions != [] {
      FirstState(env, init, actions[..|actions| - 1]);
    }
  }

  lemma {:induction false} SeenAtIsOnlyAnIndex(env: Env, db: Db, a: Action, n: nat)
    ensures Apply(env, db, db, a.(seenAt := n)) == Apply(env, db, db, a)
    ensures Disciplined(db, a.(seenAt := n)) <==> Disciplined(db, a)
  {
    match a {
      case Transition(_, _) =>
      case StepTransition(_, _, _) =>
      case Complete(_, _, _) =>
      case RequestApproval(_, _, _, _) =>
      case Authorize(_, _, _, _) =>
      case Dispatch(_, _) =>
      case DispatchUnchecked(_) =>
      case Crash(_, _) =>
      case Decide(_, _, _, _, _, _) =>
      case Cancel(_) =>
      case Finalize(_) =>
    }
  }

  lemma {:induction false} RunExtends(env: Env, init: Db, actions: seq<Action>, a: Action)
    requires DisciplinedRun(env, init, actions) && a.seenAt == |actions|
    requires Disciplined(History(env, init, actions)[|actions|], a)
    ensures DisciplinedRun(env, init, actions + [a])
    ensures var db := History(env, init, actions)[|actions|];
      History(env, init, actions + [a])[|actions| + 1] == Apply(env, db, db, a)
  {
  }

  /** `a`, decided on the state it meets. */
  lemma {:induction false} ReachedNext(env: Env, init: Db, db: Db, a: Action)
    requires Reached(env, init, db) && Disciplined(db, a)
    ensures Reached(env, init, Apply(env, db, db, a))
  {
    var actions :| DisciplinedRun(env, init, actions) && db == History(env, init, actions)[|actions|];
    SeenAtIsOnlyAnIndex(env, db, a, |actions|);
    RunExtends(env, init, actions, a.(seenAt := |actions|));
    ReachedBy(env, init, actions + [a.(seenAt := |actions|)]);
  }

  lemma {:induction false} ReachedBy(env: Env, init: Db, actions: seq<Action>)
    requires FromStart(init) && DisciplinedRun(env, init, actions)
    ensures Reached(env, init, History(env, init, actions)[|actions|])
  {
  }

  /** What is applied at one moment is kept ever after. */
  lemma {:induction false} KeptSince(trace0: seq<Point>, now0: Point, trace: seq<Point>, now: Point)
    requires Unbroken(trace0, now0) && Unbroken(trace, now) && trace0 <= trace
    ensures Kept(now0, now)
  {
  }

  lemma {:induction false} CountAppend(log: seq<nat>, x: nat, i: nat)
    ensures Count(log + [x], i) == Count(log, i) + if x == i then 1 else 0
  {
  }

  lemma {:induction false} NoArtifactYet(artifacts: seq<Artifact>, i: nat)
    requires ArtifactsOf(artifacts, i) == 0
    ensures forall k :: 0 <= k < |artifacts| ==> artifacts[k].step != i
  {
    if artifacts != [] {
      NoArtifactYet(artifacts[..|artifacts| - 1], i);
    }
  }

  // ---- Retries ----

  function Left(retries: seq<nat>, max: int): nat {
    if retries == [] then 0
    else Left(retries[..|retries| - 1], max) + Room(retries[|retries| - 1], max)
  }

  function Room(r: nat, max: int): nat {
    if r < max then max - r else 0
  }

  lemma {:induction false} LeftDecreases(retries: seq<nat>, max: int, i: nat)
    requires i < |retries| && retries[i] < max
    ensures Left(retries[i := retries[i] + 1], max) < Left(retries, max)
  {
    var (n, after) := (|retries| - 1, retries[i := retries[i] + 1]);
    if i == n {
      assert after[..n] == retries[..n];
    } else {
      assert after[..n] == retries[..n][i := retries[..n][i] + 1];
      LeftDecreases(retries[..n], max, i);
    }
  }

  function CompletedStep(db: Db, i: nat, effect: Effect): Db
    requires i < |db.steps|
  {
    MovedStep(db, i, Completed).(artifacts := db.artifacts + [Artifact(i, effect)])
  }

  /** The operation of step `i` is `op`, the others are as they were. */
  ghost predicate Wrote(ops0: map<nat, Operation>, ops: map<nat, Operation>, i: nat, op: Operation) {
    && i in ops && ops[i] == op
    && forall j: nat :: j != i ==> (j in ops <==> j in ops0) && (j in ops0 ==> ops[j] == ops0[j])
  }

  // ---- The session of one worker ----

  /** What a session keeps: its columns were reached by disciplined steps, and no promise was broken. */
  ghost predicate Coherent(env: Env, init: Db, db: Db, saved: Db, ops: map<nat, Operation>, retries: seq<nat>,
      log: seq<nat>, trace: seq<Point>)
  {
    && Reached(env, init, db) && Reached(env, init, saved)
    && |retries| == |db.steps| == |saved.steps|
    && Unbroken(trace, Point(ops, log))
    && Faithful(db, ops) && Faithful(saved, ops) && Accounted(ops, log)
  }

  lemma {:induction false} CoherentAtStart(env: Env, init: Db, retries: seq<nat>)
    requires FromStart(init) && |retries| == |init.steps|
    ensures Coherent(env, init, init, init, map[], retries, [], [Point(map[], [])])
  {
    var none: seq<Action> := [];
    assert History(env, init, none) == [init];
    ReachedBy(env, init, none);
  }

  lemma {:induction false} CoherentDo(env: Env, init: Db, db: Db, saved: Db, ops: map<nat, Operation>,
      retries: seq<nat>, log: seq<nat>, trace: seq<Point>, a: Action)
    requires Coherent(env, init, db, saved, ops, retries, log, trace) && Disciplined(db, a) && !a.Complete?
    ensures Coherent(env, init, Apply(env, db, db, a), saved, ops, retries, log, trace)
  {
    var after := Apply(env, db, db, a);
    ReachedNext(env, init, db, a);
    ReachedFacts(env, init, db);
    ReachedFacts(env, init, after);
    NoNewArtifact(env, db, a);
    assert Faithful(after, ops);
  }

  lemma {:induction false} CoherentComplete(env: Env, init: Db, db: Db, saved: Db, ops: map<nat, Operation>,
      retries: seq<nat>, log: seq<nat>, trace: seq<Point>, i: nat, effect: Effect)
    requires Coherent(env, init, db, saved, ops, retries, log, trace)
    requires EarlierCompleted(db, i) && MayMoveStep(db, db, i, Completed)
    requires Applied(ops, i) ==> effect == EffectOf(ops, i)
    ensures Coherent(env, init, CompletedStep(db, i, effect), saved, ops, retries, log, trace)
  {
    ReachedNext(env, init, db, Complete(0, i, effect));
    assert Apply(env, db, db, Complete(0, i, effect)) == CompletedStep(db, i, effect);
  }

  lemma {:induction false} CoherentRun(env: Env, init: Db, db: Db, saved: Db, ops: map<nat, Operation>,
      retries: seq<nat>, log: seq<nat>, trace: seq<Point>, i: nat)
    requires Coherent(env, init, db, saved, ops, retries, log, trace)
    requires !Applied(ops, i) && Count(log, i) < Attempts(ops, i)
    ensures Coherent(env, init, db, saved, ops, retries, log + [i], trace)
  {
    forall j: nat ensures Count(log + [i], j) <= Attempts(ops, j) {
      CountAppend(log, i, j);
    }
    RunKeeps(trace, ops, log, i);
  }

  /** The columns of a commit, and the point it makes durable. */
  lemma {:induction false} CoherentCommit(env: Env, init: Db, db: Db, saved: Db, ops: map<nat, Operation>,
      retries: seq<nat>, log: seq<nat>, trace: seq<Point>, newOps: map<nat, Operation>, newRetries: seq<nat>)
    requires Coherent(env, init, db, saved, ops, retries, log, trace) && |newRetries| == |retries|
    requires Kept(Point(ops, log), Point(newOps, log)) && Faithful(db, newOps) && Accounted(newOps, log)
    ensures Coherent(env, init, db, db, newOps, newRetries, log, trace + [Point(newOps, log)])
    ensures Coherent(env, init, saved, saved, ops, retries, log, trace)
  {
    CommitPoint(trace, ops, newOps, log);
  }

  class Session {
    const env: Env
    const maxRetries: int
    ghost const init: Db
    var db: Db
    var saved: Db
    var ops: map<nat, Operation>
    var retries: seq<nat>
    ghost var log: seq<nat>
    ghost var trace: seq<Point>
    /** How often the process has died in a commit. */
    ghost var deaths: nat

    ghost predicate Valid()
      reads this
    {
      Coherent(env, init, db, saved, ops, retries, log, trace)
    }

    constructor (env: Env, maxRetries: int, init: Db)
      requires FromStart(init)
      ensures Valid() && this.env == env && this.maxRetries == maxRetries && this.init == init && db == saved == init
      ensures ops == map[] && |retries| == |init.steps| && (forall i :: 0 <= i < |retries| ==> retries[i] == 0)
      ensures log == [] && deaths == 0
    {
      this.env, this.maxRetries, this.init := env, maxRetries, init;
      db, saved := init, init;
      ops, retries := map[], seq(|init.steps|, _ => 0);
      log, trace, deaths := [], [Point(map[], [])], 0;
      new;
      CoherentAtStart(env, init, retries);
    }

    /** A journalled change within the session's transaction. */
    method Do(a: Action)
      requires Valid() && Disciplined(db, a) && !a.Complete?
      modifies this`db
      ensures Valid() && db == Apply(env, old(db), old(db), a)
    {
      CoherentDo(env, init, db, saved, ops, retries, log, trace, a);
      db := Apply(env, db, db, a);
    }

    /** `commit()`, with the operation and retry columns that changed. The process may die before it, so that everything
        since the last commit is lost, or right after it. */
    method Commit(newOps: map<nat, Operation>, newRetries: seq<nat>) returns (alive: bool)
      requires Valid() && |newRetries| == |retries|
      requires Kept(Point(ops, log), Point(newOps, log)) && Faithful(db, newOps) && Accounted(newOps, log)
      modifies this
      ensures Valid() && log == old(log) && old(trace) <= trace
      ensures alive ==> ops == newOps && retries == newRetries && db == saved == old(db)
      ensures !alive ==>
        || (ops == newOps && retries == newRetries && db == saved == old(db))
        || (ops == old(ops) && retries == old(retries) && db == saved == old(saved))
      ensures deaths == old(deaths) + if alive then 0 else 1
    {
      alive := *;
      var reached := *;
      deaths := deaths + if alive then 0 else 1;
      CoherentCommit(env, init, db, saved, ops, retries, log, trace, newOps, newRetries);
      if !alive && !reached {
        db := saved;
        return;
      }
      ops, retries := newOps, newRetries;
      saved := db;
      trace := trace + [Point(ops, log)];
    }

    /** `commit()` of nothing but journalled changes. */
    method CommitRows() returns (alive: bool)
      requires Valid()
      modifies this
      ensures Valid() && log == old(log) && old(trace) <= trace
      ensures alive ==> ops == old(ops) && retries == old(retries) && db == saved == old(db)
      ensures deaths == old(deaths) + if alive then 0 else 1
    {
      KeptSelf(Point(ops, log));
      alive := Commit(ops, retries);
    }

    /** Commits the operation of step `i`; an applied one is never touched again. */
    method WriteOperation(i: nat, op: Operation) returns (alive: bool)
      requires Valid() && !Applied(ops, i) && Count(log, i) <= op.attempts
      requires op.status.OpApplied? ==> forall k :: 0 <= k < |db.artifacts| ==> db.artifacts[k].step != i
      modifies this
      ensures Valid() && log == old(log) && old(trace) <= trace
      ensures alive ==> Wrote(old(ops), ops, i, op) && retries == old(retries) && db == old(db)
      ensures deaths == old(deaths) + if alive then 0 else 1
    {
      alive := Commit(ops[i := op], retries);
    }

    /** The tool of step `i` really runs; this happens outside the database and is never undone. */
    method RunTool(i: nat)
      requires Valid() && !Applied(ops, i) && Count(log, i) < Attempts(ops, i)
      modifies this`log
      ensures Valid() && log == old(log) + [i]
    {
      CoherentRun(env, init, db, saved, ops, retries, log, trace, i);
      log := log + [i];
    }

    /** `_persist_artifact`: the step and its evidence in one go; false when the step cannot be completed any more. */
    method PersistArtifact(i: nat, effect: Effect) returns (ok: bool)
      requires Valid() && EarlierCompleted(db, i) && !db.steps[i].status.Completed?
      requires Applied(ops, i) ==> effect == EffectOf(ops, i)
      modifies this`db
      ensures Valid()
      ensures ok <==> old(db).steps[i].status.Running?
      ensures db == if ok then CompletedStep(old(db), i, effect) else old(db)
    {
      ok := MayMoveStep(db, db, i, Completed);
      if ok {
        CoherentComplete(env, init, db, saved, ops, retries, log, trace, i, effect);
        db := CompletedStep(db, i, effect);
      }
    }

    /** `transition_step`; false is InvalidTransition. */
    method MoveStep(i: nat, to: StepState) returns (ok: bool)
      requires Valid() && i < |db.steps| && !to.Completed?
      modifies this`db
      ensures Valid()
      ensures ok <==> StepEdge(old(db).steps[i].status, to)
      ensures db == if ok then MovedStep(old(db), i, to) else old(db)
    {
      ok := MayMoveStep(db, db, i, to);
      Do(StepTransition(0, i, to));
    }

    /** `transition` to one of the worker's final states; false is InvalidTransition. */
    method Stop(target: TaskState) returns (ok: bool)
      requires Valid() && (target.Failed? || target.Timeout? || target.Blocked? || target.Cancelled?)
      modifies this`db
      ensures Valid()
      ensures ok <==> MayMove(old(db), old(db), target)
      ensures db == if ok then Moved(old(db), target) else old(db)
    {
      ok := MayMove(db, db, target);
      Do(Transition(0, target));
    }
  }

  lemma {:induction false} SameLength(s: Session)
    requires s.Valid()
    ensures |s.retries| == |s.db.steps| == |s.init.steps|
  {
    ReachedFacts(s.env, s.init, s.db);
  }

  lemma {:induction false} RunKeeps(trace: seq<Point>, ops: map<nat, Operation>, log: seq<nat>, i: nat)
    requires Unbroken(trace, Point(ops, log)) && !Applied(ops, i)
    ensures Unbroken(trace, Point(ops, log + [i]))
  {
  }

  lemma {:induction false} CommitPoint(trace: seq<Point>, ops: map<nat, Operation>, newOps: map<nat, Operation>,
      log: seq<nat>)
    requires Unbroken(trace, Point(ops, log)) && Kept(Point(ops, log), Point(newOps, log))
    ensures Unbroken(trace + [Point(newOps, log)], Point(newOps, log))
  {
  }

  lemma {:induction false} KeptSelf(p: Point)
    ensures Kept(p, p)
  {
  }

  lemma {:induction false} NoNewArtifact(env: Env, db: Db, a: Action)
    requires !a.Complete?
    ensures Apply(env, db, db, a).artifacts == db.artifacts
  {
    CancelKeepsArtifacts(db, db, 0);
  }

  lemma {:induction false} CancelKeepsArtifacts(db: Db, seen: Db, from: nat)
    requires from <= |seen.steps| == |db.steps|
    ensures CancelledSteps(db, seen, from).artifacts == db.artifacts
    decreases |seen.steps| - from
  {
    if from < |seen.steps| {
      CancelKeepsArtifacts(
        if Open(seen.steps[from].status) then MovedStep(db, from, StepCancelled) else db, seen, from + 1);
    }
  }

  // ---- One step ----

  /** The session's columns at one moment, and the tools run by then. */
  datatype View = View(db: Db, ops: map<nat, Operation>, retries: seq<nat>, log: seq<nat>)

  ghost function Now(s: Session): View
    reads s
  {
    View(s.db, s.ops, s.retries, s.log)
  }

  /** The process died during the call. */
  twostate predicate Died(s: Session)
    reads s
  {
    s.deaths > old(s.deaths)
  }

  /** Before the tool runs, the attempt is recorded as pending. */
  method BeginAttempt(s: Session, i: nat) returns (alive: bool, op: Operation)
    requires s.Valid() && !Applied(s.ops, i)
    modifies s
    ensures s.Valid() && s.log == old(s.log) && old(s.trace) <= s.trace
    ensures (alive <==> !Died(s)) && s.deaths >= old(s.deaths)
    ensures alive ==> s.db == old(s.db) && s.retries == old(s.retries)
    ensures alive ==> Wrote(old(s.ops), s.ops, i, op) && !op.status.OpApplied? && Count(s.log, i) < op.attempts
    ensures alive ==> op.attempts == Attempts(old(s.ops), i) + 1
  {
    op := PREPARED;
    assert Count(s.log, i) <= Attempts(s.ops, i);
    if i in s.ops {
      op := s.ops[i];
    } else {
      alive := s.WriteOperation(i, op);
      if !alive {
        return;
      }
    }
    op := op.(attempts := op.attempts + 1, status := OpPending);
    alive := s.WriteOperation(i, op);
  }

  /** Whoever reports an effect has run. */
  predicate Ran(tool: ToolResult) {
    tool.ran || tool.effect.Some?
  }

  /** The tool call itself. */
  method CallTool(s: Session, tool: ToolResult, i: nat)
    requires s.Valid() && !Applied(s.ops, i) && Count(s.log, i) < Attempts(s.ops, i)
    modifies s`log
    ensures s.Valid() && s.log == (if Ran(tool) then old(s.log) + [i] else old(s.log))
    ensures Count(s.log, i) <= Attempts(s.ops, i)
  {
    if Ran(tool) {
      CountAppend(s.log, i, i);
      s.RunTool(i);
    }
  }

  /** One attempt, up to the commit that records how it went. */
  method Attempt(s: Session, world: ToolWorld, i: nat) returns (alive: bool, tool: ToolResult, op: Operation)
    requires s.Valid() && !Applied(s.ops, i)
    modifies s
    ensures s.Valid() && old(s.trace) <= s.trace
    ensures (alive <==> !Died(s)) && s.deaths >= old(s.deaths)
    ensures tool == world.tool(i, Attempts(old(s.ops), i))
    ensures alive ==> s.db == old(s.db) && s.retries == old(s.retries)
    ensures alive ==> Wrote(old(s.ops), s.ops, i, op) && Count(s.log, i) <= op.attempts
    ensures alive ==> op == Operation(
      if tool.effect.Some? then OpPending else OpFailed, Attempts(old(s.ops), i) + 1, Some(Summary(tool.summary)))
    ensures s.log == old(s.log) || (Ran(tool) && s.log == old(s.log) + [i])
    ensures alive && (tool.ran || tool.effect.Some?) ==> s.log == old(s.log) + [i]
  {
    hide Coherent, Count;
    tool := world.tool(i, Attempts(s.ops, i));
    alive, op := BeginAttempt(s, i);
    if !alive {
      return;
    }
    CallTool(s, tool, i);
    op := op.(status := if tool.effect.Some? then OpPending else OpFailed, result := Some(Summary(tool.summary)));
    alive := s.WriteOperation(i, op);
  }

  predicate NoneRunning(db: Db, before: nat) {
    forall j :: 0 <= j < before && j < |db.steps| ==> !db.steps[j].status.Running?
  }

  /** The running steps among the first `n` are cancelled, the others are as they were. */
  predicate RunningCancelled(db0: Db, db: Db, n: nat) {
    && |db.steps| == |db0.steps|
    && forall j :: 0 <= j < |db.steps| ==>
         db.steps[j].status == (if j < n && db0.steps[j].status.Running? then StepCancelled else db0.steps[j].status)
  }

  method CancelRunning(s: Session)
    requires s.Valid()
    modifies s`db
    ensures s.Valid() && RunningCancelled(old(s.db), s.db, |s.db.steps|)
    ensures s.db.status == old(s.db).status
  {
    for j := 0 to |s.db.steps|
      invariant s.Valid() && RunningCancelled(old(s.db), s.db, j)
      invariant s.db.status == old(s.db).status
    {
      if s.db.steps[j].status.Running? {
        var ok := s.MoveStep(j, StepCancelled);
      }
    }
  }

  /** The cancelled tool: every running step and the task are cancelled. */
  method CancelTask(s: Session) returns (r: Outcome)
    requires s.Valid()
    modifies s
    ensures s.Valid() && s.log == old(s.log) && old(s.trace) <= s.trace && s.deaths >= old(s.deaths)
    ensures r == NoArtifact || r == Raised || r == Crashed
    ensures r == Crashed <==> Died(s)
    ensures !Died(s) ==>
      (r == NoArtifact <==> old(s.db).status.Cancelled? || TaskEdge(old(s.db).status, Cancelled))
    ensures r == NoArtifact ==> s.db.status.Cancelled?
    ensures r == Raised ==> s.db.status == old(s.db).status
    ensures r == NoArtifact && !old(s.db).status.Cancelled? ==>
      s.db == s.saved && RunningCancelled(old(s.db), s.db, |s.db.steps|)
  {
    hide Coherent;
    if s.db.status.Cancelled? {
      return NoArtifact;
    }
    CancelRunning(s);
    var ok := s.Stop(Cancelled);
    if !ok {
      return Raised;
    }
    var alive := s.CommitRows();
    return if alive then NoArtifact else Crashed;
  }

  /** Commits what the session has changed, and one more retry of step `i`. */
  method CountRetry(s: Session, i: nat) returns (alive: bool)
    requires s.Valid() && i < |s.retries|
    modifies s
    ensures s.Valid() && s.log == old(s.log) && old(s.trace) <= s.trace
    ensures (alive <==> !Died(s)) && s.deaths >= old(s.deaths)
    ensures alive ==> s.db == s.saved == old(s.db) && s.ops == old(s.ops) && Retried(old(s.retries), s.retries, i)
  {
    KeptSelf(Point(s.ops, s.log));
    alive := s.Commit(s.ops, s.retries[i := s.retries[i] + 1]);
  }

  /** The final failure of step `i`. */
  method FailTask(s: Session, i: nat, target: TaskState) returns (r: Outcome)
    requires s.Valid() && i < |s.db.steps| && |s.retries| == |s.db.steps| &&
      (target.Failed? || target.Timeout? || target.Blocked?)
    modifies s
    ensures s.Valid() && s.log == old(s.log) && old(s.trace) <= s.trace && s.deaths >= old(s.deaths)
    ensures r == NoArtifact || r == Raised || r == Crashed
    ensures r == Crashed <==> Died(s)
    ensures !Died(s) ==>
      (r == NoArtifact <==> old(s.db).steps[i].status.Running? && MayMove(old(s.db), old(s.db), target))
    ensures r == NoArtifact ==> s.db == s.saved == Moved(MovedStep(old(s.db), i, StepFailed), target)
    ensures r == NoArtifact ==> Retried(old(s.retries), s.retries, i)
    ensures r == Raised ==> s.db.status == old(s.db).status
  {
    hide Coherent;
    var ok := s.MoveStep(i, StepFailed);
    if !ok {
      return Raised;
    }
    ok := s.Stop(target);
    if !ok {
      return Raised;
    }
    var alive := CountRetry(s, i);
    return if alive then NoArtifact else Crashed;
  }

  datatype StepOutcome = Next(artifact: Artifact) | Retry | Exit(outcome: Outcome)

  function FindArtifact(artifacts: seq<Artifact>, i: nat): (a: Option<Artifact>)
    ensures a.Some? ==> a.value in artifacts && a.value.step == i
    ensures a.None? ==> forall k :: 0 <= k < |artifacts| ==> artifacts[k].step != i
  {
    if artifacts == [] then None
    else if artifacts[0].step == i then Some(artifacts[0])
    else FindArtifact(artifacts[1..], i)
  }

  lemma {:induction false} EarlierInOrder(db: Db, i: nat)
    requires Sorted(db) && i < |db.steps| && forall j :: 0 <= j < i ==> db.steps[j].status.Completed?
    ensures EarlierCompleted(db, i)
  {
  }

  /** The rows of the two operations tables for step `i` are the same. */
  predicate SameOperation(ops0: map<nat, Operation>, ops: map<nat, Operation>, i: nat) {
    (i in ops <==> i in ops0) && (i in ops ==> ops[i] == ops0[i])
  }

  /** What a step in progress may change besides itself: nothing. */
  ghost predicate OthersKept(db0: Db, ops0: map<nat, Operation>, db: Db, ops: map<nat, Operation>, i: nat) {
    && |db.steps| == |db0.steps|
    && (forall j :: 0 <= j < |db.steps| && j != i ==> db.steps[j] == db0.steps[j])
    && (forall j: nat :: j != i ==> SameOperation(ops0, ops, j))
  }

  /** The step is over: it has its artifact, it has failed, or its operation is applied. */
  predicate Settled(db: Db, ops: map<nat, Operation>, i: nat) {
    (i < |db.steps| && (db.steps[i].status.Completed? || db.steps[i].status.StepFailed?)) || Applied(ops, i)
  }

  predicate CompletedAt(db: Db, i: nat) {
    i < |db.steps| && db.steps[i].status.Completed?
  }

  lemma {:induction false} OthersKeptTransitive(a: Db, ops1: map<nat, Operation>, b: Db, ops2: map<nat, Operation>,
      c: Db, ops3: map<nat, Operation>, i: nat)
    requires OthersKept(a, ops1, b, ops2, i) && OthersKept(b, ops2, c, ops3, i)
    ensures OthersKept(a, ops1, c, ops3, i)
  {
    forall j: nat | j != i ensures SameOperation(ops1, ops3, j) {
      assert SameOperation(ops1, ops2, j) && SameOperation(ops2, ops3, j);
    }
  }

  lemma {:induction false} WroteKeeps(db: Db, ops0: map<nat, Operation>, ops: map<nat, Operation>, i: nat,
      op: Operation)
    requires Wrote(ops0, ops, i, op)
    ensures OthersKept(db, ops0, db, ops, i)
  {
  }

  lemma {:induction false} CompletedStepKeeps(db: Db, ops: map<nat, Operation>, i: nat, effect: Effect)
    requires i < |db.steps|
    ensures var db' := CompletedStep(db, i, effect);
      OthersKept(db, ops, db', ops, i) && CompletedAt(db', i) && Artifact(i, effect) in db'.artifacts
  {
    var (n, db') := (|db.artifacts|, CompletedStep(db, i, effect));
    assert db'.artifacts[n] == Artifact(i, effect);
  }

  /** What comes of an effect: a running step is completed with it as its artifact, any other one raises. */
  ghost predicate Delivered(db0: Db, db: Db, i: nat, effect: Effect, e: StepOutcome)
    requires i < |db0.steps|
  {
    if db0.steps[i].status.Running? then e == Next(Artifact(i, effect)) && db == CompletedStep(db0, i, effect)
    else e == Exit(Raised) && db == db0
  }

  method Adopt(s: Session, i: nat, effect: Effect) returns (e: StepOutcome)
    requires s.Valid() && i < |s.db.steps| && !s.db.steps[i].status.Completed?
    requires forall j :: 0 <= j < i ==> s.db.steps[j].status.Completed?
    requires Applied(s.ops, i) ==> effect == EffectOf(s.ops, i)
    modifies s`db
    ensures s.Valid() && Delivered(old(s.db), s.db, i, effect, e)
  {
    ReachedFacts(s.env, s.init, s.db);
    EarlierInOrder(s.db, i);
    var ok := s.PersistArtifact(i, effect);
    e := if ok then Next(Artifact(i, effect)) else Exit(Raised);
  }

  /** A pending step is set running. */
  method StartStep(s: Session, i: nat) returns (alive: bool)
    requires s.Valid() && i < |s.db.steps|
    modifies s
    ensures s.Valid() && s.log == old(s.log) && old(s.trace) <= s.trace
    ensures (alive <==> !Died(s)) && s.deaths >= old(s.deaths)
    ensures alive ==> s.ops == old(s.ops) && s.retries == old(s.retries)
    ensures alive ==>
      s.db == if old(s.db).steps[i].status.Pending? then MovedStep(old(s.db), i, Running) else old(s.db)
    ensures alive && old(s.db).steps[i].status.Pending? ==> s.saved == s.db
  {
    alive := true;
    if s.db.steps[i].status.Pending? {
      var ok := s.MoveStep(i, Running);
      alive := s.CommitRows();
    }
  }

  /** One more retry of step `i`. */
  ghost predicate Retried(before: seq<nat>, after: seq<nat>, i: nat) {
    && |after| == |before| && i < |after| && after[i] == before[i] + 1
    && forall j :: 0 <= j < |after| && j != i ==> after[j] == before[j]
  }

  /** The state in which a failure without retry leaves the task. */
  function FinalState(reason: string): TaskState {
    if reason == "tool execution timed out" then Timeout
    else if reason == "tool execution blocked by sandbox" then Blocked
    else Failed
  }

  /** A failure that may be tried again. */
  predicate MayRetry(tool: ToolResult, retries: nat, max: int) {
    !tool.cancelled && tool.retryable && retries < max
  }

  /** How a failure ends the task: cancelled, or failed in the state that the reason calls for. */
  ghost predicate EndedBy(tool: ToolResult, db0: Db, db: Db, i: nat)
    requires i < |db0.steps|
  {
    if tool.cancelled then db.status.Cancelled?
    else
      && db.steps == db0.steps[i := Step(db0.steps[i].index, StepFailed, db0.steps[i].revision + 1)]
      && (db.status.Timeout? <==> tool.reason == "tool execution timed out")
      && (db.status.Blocked? <==> tool.reason == "tool execution blocked by sandbox")
      && (db.status.Timeout? || db.status.Blocked? || db.status.Failed?)
      && db.artifacts == db0.artifacts
  }

  /** A failed attempt: another try, exactly if the failure is retryable and retries are left; or else cancellation or
      the end of the task. */
  method HandleFailure(s: Session, i: nat, tool: ToolResult) returns (e: StepOutcome)
    requires s.Valid() && i < |s.db.steps|
    modifies s
    ensures s.Valid() && s.log == old(s.log) && old(s.trace) <= s.trace && s.deaths >= old(s.deaths)
    ensures !e.Next? && (e.Exit? ==> !e.outcome.Produced?)
    ensures e == Exit(Crashed) <==> Died(s)
    ensures !Died(s) ==>
      (e.Retry? <==> !tool.cancelled && tool.retryable && i < |old(s.retries)| && old(s.retries)[i] < s.maxRetries)
    ensures e.Retry? ==> s.db == s.saved == old(s.db) && s.ops == old(s.ops)
    ensures e.Retry? ==> Retried(old(s.retries), s.retries, i) && s.retries[i] <= s.maxRetries
    ensures !Died(s) && !e.Retry? && !tool.cancelled ==>
      (e == Exit(NoArtifact) <==>
        old(s.db).steps[i].status.Running? && MayMove(old(s.db), old(s.db), FinalState(tool.reason)))
    ensures !Died(s) && tool.cancelled ==>
      (e == Exit(NoArtifact) <==> old(s.db).status.Cancelled? || TaskEdge(old(s.db).status, Cancelled))
    ensures e == Exit(NoArtifact) ==> EndedBy(tool, old(s.db), s.db, i)
    ensures e == Exit(NoArtifact) && !tool.cancelled ==> s.db == s.saved && Retried(old(s.retries), s.retries, i)
    ensures e == Exit(Raised) ==> s.db.status == old(s.db).status
  {
    hide Coherent;
    if tool.cancelled {
      var r := CancelTask(s);
      return Exit(r);
    }
    SameLength(s);
    if tool.retryable && s.retries[i] + 1 <= s.maxRetries {
      var alive := CountRetry(s, i);
      return if alive then Retry else Exit(Crashed);
    }
    var r := FailTask(s, i, FinalState(tool.reason));
    return Exit(r);
  }

  /** The successful attempt: the operation becomes APPLIED with its effect, then the step completes. */
  method RecordEffect(s: Session, i: nat, op: Operation, effect: Effect) returns (e: StepOutcome)
    requires s.Valid() && i < |s.db.steps| && !s.db.steps[i].status.Completed? && !Applied(s.ops, i) &&
      Count(s.log, i) <= op.attempts
    requires forall j :: 0 <= j < i ==> s.db.steps[j].status.Completed?
    modifies s
    ensures s.Valid() && s.log == old(s.log) && old(s.trace) <= s.trace && s.deaths >= old(s.deaths)
    ensures e == Exit(Crashed) <==> Died(s)
    ensures !Died(s) ==> Delivered(old(s.db), s.db, i, effect, e) && s.retries == old(s.retries)
    ensures !Died(s) ==>
      Wrote(old(s.ops), s.ops, i, Operation(OpApplied, op.attempts, Some(Recorded(effect))))
  {
    ReachedFacts(s.env, s.init, s.db);
    NoArtifactYet(s.db.artifacts, i);
    var applied := op.(status := OpApplied, result := Some(Recorded(effect)));
    var alive := s.WriteOperation(i, applied);
    if !alive {
      return Exit(Crashed);
    }
    e := Adopt(s, i, effect);
  }

  /** A step whose operation is not finished: run the tool once and record what came of it. */
  method ExecuteStep(s: Session, world: ToolWorld, i: nat) returns (e: StepOutcome)
    requires s.Valid() && i < |s.db.steps| && !s.db.steps[i].status.Completed? && !Applied(s.ops, i)
    requires forall j :: 0 <= j < i ==> s.db.steps[j].status.Completed?
    modifies s
    ensures s.Valid() && old(s.trace) <= s.trace && s.deaths >= old(s.deaths)
    ensures e == Exit(Crashed) <==> Died(s)
    ensures !Died(s) ==> Executed(old(Now(s)), Now(s), world.tool(i, Attempts(old(s.ops), i)), s.maxRetries, i, e)
    ensures s.log == old(s.log) || s.log == old(s.log) + [i]
    ensures e.Next? ==> e.artifact in s.db.artifacts && e.artifact.step == i
    ensures e.Exit? ==> !e.outcome.Produced?
  {
    hide Coherent, Count;
    var alive, tool, op := Attempt(s, world, i);
    if !alive {
      return Exit(Crashed);
    }
    ghost var ops1 := s.ops;
    WroteKeeps(s.db, old(s.ops), s.ops, i, op);
    if tool.effect.None? {
      e := HandleFailure(s, i, tool);
      return;
    }
    CompletedStepKeeps(s.db, s.ops, i, tool.effect.value);
    e := RecordEffect(s, i, op, tool.effect.value);
    WroteTwice(old(s.ops), ops1, s.ops, i, op);
  }

  lemma {:induction false} WroteTwice(ops0: map<nat, Operation>, ops1: map<nat, Operation>, ops: map<nat, Operation>,
      i: nat, op: Operation)
    requires Wrote(ops0, ops1, i, op)
    ensures forall last :: Wrote(ops1, ops, i, last) ==> Wrote(ops0, ops, i, last)
  {
  }

  /** What the answer of the tool makes of the step, when the process lives. */
  ghost predicate Executed(v0: View, v: View, tool: ToolResult, max: int, i: nat, e: StepOutcome)
    requires i < |v0.db.steps|
  {
    && v.log == (if tool.ran || tool.effect.Some? then v0.log + [i] else v0.log)
    && match tool.effect
       case Some(effect) =>
         && Delivered(v0.db, v.db, i, effect, e) && v.retries == v0.retries
         && Wrote(v0.ops, v.ops, i, Operation(OpApplied, Attempts(v0.ops, i) + 1, Some(Recorded(effect))))
       case None =>
         && !e.Next? && (e.Exit? ==> e.outcome == NoArtifact || e.outcome == Raised)
         && (e.Retry? <==> i < |v0.retries| && MayRetry(tool, v0.retries[i], max))
         && (e.Retry? ==> v.db == v0.db && Retried(v0.retries, v.retries, i) && v.retries[i] <= max)
         && (e.Retry? ==>
              Wrote(v0.ops, v.ops, i, Operation(OpFailed, Attempts(v0.ops, i) + 1, Some(Summary(tool.summary)))))
         && (e == Exit(NoArtifact) ==> EndedBy(tool, v0.db, v.db, i))
         && (e == Exit(Raised) ==> v.db.status == v0.db.status)
  }

  /** A started step that is not completed: adopt what is already done, or run the tool. */
  method FinishStep(s: Session, world: ToolWorld, i: nat) returns (e: StepOutcome)
    requires s.Valid() && i < |s.db.steps| && !s.db.steps[i].status.Completed?
    requires forall j :: 0 <= j < i ==> s.db.steps[j].status.Completed?
    modifies s
    ensures s.Valid() && old(s.trace) <= s.trace && s.deaths >= old(s.deaths)
    ensures e == Exit(Crashed) <==> Died(s)
    // an applied operation is adopted, whatever the tool would do now: a running step is completed with the recorded
    // effect
    ensures Applied(old(s.ops), i) && old(s.db).steps[i].status.Running? ==>
      && e == Next(Artifact(i, EffectOf(old(s.ops), i)))
      && s.db == CompletedStep(old(s.db), i, EffectOf(old(s.ops), i))
      && s.log == old(s.log) && s.ops == old(s.ops) && s.retries == old(s.retries)
    ensures !Died(s) ==> Finishes(old(Now(s)), Now(s), world, s.maxRetries, i, e)
    ensures s.log == old(s.log) || (!Applied(old(s.ops), i) && s.log == old(s.log) + [i])
    ensures e.Next? ==> e.artifact in s.db.artifacts && e.artifact.step == i
    ensures e.Exit? ==> !e.outcome.Produced?
  {
    hide Coherent, Executed;
    if i in s.ops && Finished(s.ops[i]) {
      if s.ops[i].result.value.Summary? {
        return Exit(Raised);
      }
      CompletedStepKeeps(s.db, s.ops, i, EffectOf(s.ops, i));
      e := Adopt(s, i, EffectOf(s.ops, i));
      return;
    }
    var observed := world.present(i, Attempts(s.ops, i));
    if observed.Some? {
      CompletedStepKeeps(s.db, s.ops, i, observed.value);
      e := Adopt(s, i, observed.value);
      return;
    }
    e := ExecuteStep(s, world, i);
  }

  /** What becomes of a step when the process lives: a finished operation is adopted, then what is in place, and only
      then the tool is asked. */
  ghost predicate Finishes(v0: View, v: View, world: ToolWorld, max: int, i: nat, e: StepOutcome)
    requires i < |v0.db.steps|
  {
    var n := Attempts(v0.ops, i);
    if Applied(v0.ops, i) then
      Delivered(v0.db, v.db, i, EffectOf(v0.ops, i), e) && v == v0.(db := v.db)
    else if i in v0.ops && Finished(v0.ops[i]) then e == Exit(Raised) && v == v0
    else if world.present(i, n).Some? then
      Delivered(v0.db, v.db, i, world.present(i, n).value, e) && v == v0.(db := v.db)
    else Executed(v0, v, world.tool(i, n), max, i, e)
  }

  /** At most one execution, of the tool of step `i`, and none if the step was settled. */
  ghost predicate OneExecution(v1: View, log: seq<nat>, i: nat) {
    log == v1.log || (!Settled(v1.db, v1.ops, i) && log == v1.log + [i])
  }

  lemma {:induction false} OneExecutionCounts(v1: View, log: seq<nat>, i: nat)
    requires OneExecution(v1, log, i)
    ensures forall j: nat :: j != i ==> Count(log, j) == Count(v1.log, j)
    ensures Count(log, i) <= Count(v1.log, i) + if Settled(v1.db, v1.ops, i) then 0 else 1
  {
    forall j: nat ensures Count(v1.log + [i], j) == Count(v1.log, j) + if j == i then 1 else 0 {
      CountAppend(v1.log, i, j);
    }
  }

  /** The task row is where it was. */
  ghost predicate SameRow(db0: Db, db: Db) {
    db.status == db0.status && db.cancel == db0.cancel
  }

  /** Step `i` has been completed. */
  ghost predicate Advanced(v1: View, v: View, i: nat) {
    match v
    case View(db, ops, retries, log) =>
      && OthersKept(v1.db, v1.ops, db, ops, i) && SameRow(v1.db, db) && CompletedAt(db, i)
      && OneExecution(v1, log, i) && retries == v1.retries
  }

  /** Step `i` failed once more and may be tried again. */
  ghost predicate Restartable(v1: View, v: View, max: int, i: nat) {
    match v
    case View(db, ops, retries, log) =>
      && OthersKept(v1.db, v1.ops, db, ops, i) && !Settled(v1.db, v1.ops, i) && OneExecution(v1, log, i)
      && SameRow(v1.db, db) && Retried(v1.retries, retries, i) && retries[i] <= max
      && i < |db.steps| && !db.steps[i].status.Completed?
  }

  // ---- Which steps come through ----

  /** From its `n`-th attempt on the step finds an effect in place or its tool succeeds, before the retries run out. */
  predicate Succeeds(world: ToolWorld, i: nat, n: nat, left: nat)
    decreases left
  {
    || world.present(i, n).Some? || world.tool(i, n).effect.Some?
    || (left > 0 && world.tool(i, n).retryable && !world.tool(i, n).cancelled && Succeeds(world, i, n + 1, left - 1))
  }

  /** The step is completed, or it is still open and its effect is recorded already or will be delivered in time. */
  predicate Promising(v: View, world: ToolWorld, max: int, i: nat) {
    && i < |v.db.steps| && i < |v.retries|
    && var status := v.db.steps[i].status;
       || status.Completed?
       || ((status.Pending? || status.Running?) &&
            (Applied(v.ops, i) ||
              (!(i in v.ops && Finished(v.ops[i])) && Succeeds(world, i, Attempts(v.ops, i), Room(v.retries[i], max)))))
  }

  ghost predicate AllPromising(v: View, world: ToolWorld, max: int) {
    forall i :: 0 <= i < |v.db.steps| ==> Promising(v, world, max, i)
  }

  lemma {:induction false} OthersPromising(v1: View, v: View, world: ToolWorld, max: int, i: nat, j: nat)
    requires OthersKept(v1.db, v1.ops, v.db, v.ops, i) && |v.retries| == |v1.retries| && i != j
    requires j < |v.retries| ==> v.retries[j] == v1.retries[j]
    ensures Promising(v, world, max, j) <==> Promising(v1, world, max, j)
  {
    assert SameOperation(v1.ops, v.ops, j);
  }

  /** How the way through one step agrees with the promise. */
  ghost predicate KeepsPromise(v1: View, v: View, world: ToolWorld, max: int, i: nat, e: StepOutcome) {
    match e
    case Next(_) => Promising(v1, world, max, i)
    case Retry => Promising(v, world, max, i) <==> Promising(v1, world, max, i)
    case Exit(_) => !Promising(v1, world, max, i)
  }

  lemma {:induction false} RetryKeepsPromise(v1: View, v: View, world: ToolWorld, max: int, i: nat)
    requires i < |v1.db.steps| && Finishes(v1, v, world, max, i, Retry) && !v1.db.steps[i].status.Completed?
    ensures Promising(v, world, max, i) <==> Promising(v1, world, max, i)
  {
    var n := Attempts(v1.ops, i);
    assert Attempts(v.ops, i) == n + 1 && !Finished(v.ops[i]);
    assert Room(v1.retries[i], max) == Room(v.retries[i], max) + 1;
  }

  lemma {:induction false} FinishKeepsPromise(v1: View, v: View, world: ToolWorld, max: int, i: nat, e: StepOutcome)
    requires i < |v1.retries| && i < |v1.db.steps| && Finishes(v1, v, world, max, i, e)
    requires !v1.db.steps[i].status.Completed? && !v1.db.steps[i].status.Pending?
    ensures KeepsPromise(v1, v, world, max, i, e)
  {
    match e {
      case Next(_) =>
      case Retry => RetryKeepsPromise(v1, v, world, max, i);
      case Exit(_) =>
    }
  }

  lemma {:induction false} StartKeepsPromise(v1: View, world: ToolWorld, max: int, i: nat)
    requires i < |v1.db.steps| && v1.db.steps[i].status.Pending?
    ensures Promising(v1.(db := MovedStep(v1.db, i, Running)), world, max, i) <==> Promising(v1, world, max, i)
    ensures SameRow(v1.db, MovedStep(v1.db, i, Running))
    ensures OthersKept(v1.db, v1.ops, MovedStep(v1.db, i, Running), v1.ops, i)
  {
  }

  lemma {:induction false} FinishMeans(v1: View, v: View, world: ToolWorld, max: int, i: nat, e: StepOutcome)
    requires i < |v1.db.steps| && Finishes(v1, v, world, max, i, e) && !v1.db.steps[i].status.Completed?
    requires !v1.db.steps[i].status.StepFailed?
    ensures !e.Exit? ==> OthersKept(v1.db, v1.ops, v.db, v.ops, i)
    ensures e.Next? ==> Advanced(v1, v, i)
    ensures e.Retry? ==> Restartable(v1, v, max, i)
    ensures e.Exit? && v.db.status.Done? && e.outcome != Crashed ==> v1.db.status.Done?
  {
    if e.Next? {
      CompletedStepKeeps(v1.db, v.ops, i, e.artifact.effect);
    }
  }

  /** The body of the loop for a step that is not completed. */
  method RunStep(s: Session, world: ToolWorld, i: nat) returns (e: StepOutcome)
    requires s.Valid() && i < |s.db.steps| && !s.db.steps[i].status.Completed?
    requires forall j :: 0 <= j < i ==> s.db.steps[j].status.Completed?
    modifies s
    ensures s.Valid() && old(s.trace) <= s.trace && s.deaths >= old(s.deaths)
    ensures e == Exit(Crashed) <==> Died(s)
    ensures e.Next? ==> Advanced(old(Now(s)), Now(s), i) && e.artifact in s.db.artifacts && e.artifact.step == i
    ensures e.Retry? ==> Restartable(old(Now(s)), Now(s), s.maxRetries, i)
    ensures e.Exit? ==> OneExecution(old(Now(s)), s.log, i) && !e.outcome.Produced?
    ensures !Died(s) ==> KeepsPromise(old(Now(s)), Now(s), world, s.maxRetries, i, e)
    ensures e.Exit? && !Died(s) && s.db.status.Done? ==> old(s.db).status.Done?
  {
    hide Coherent, Count, Finishes, Succeeds;
    if s.db.steps[i].status.StepFailed? {
      return Exit(NoArtifact);
    }
    ghost var v0 := Now(s);
    var alive := StartStep(s, i);
    if !alive {
      return Exit(Crashed);
    }
    ghost var v1 := Now(s);
    SameLength(s);
    if v0.db.steps[i].status.Pending? {
      StartKeepsPromise(v0, world, s.maxRetries, i);
    }
    e := FinishStep(s, world, i);
    if e != Exit(Crashed) {
      FinishMeans(v1, Now(s), world, s.maxRetries, i, e);
      FinishKeepsPromise(v1, Now(s), world, s.maxRetries, i, e);
    }
    if !e.Exit? {
      OthersKeptTransitive(v0.db, v0.ops, v1.db, v1.ops, s.db, s.ops, i);
    }
  }

  // ---- All steps, restarted after every retryable failure ----

  /** How often a run from here may still execute the tool of step `i`. */
  function Allowed(v: View, max: int, i: nat): nat
    requires i < |v.retries|
  {
    if Settled(v.db, v.ops, i) then 0 else Room(v.retries[i], max) + 1
  }

  ghost predicate AllSettled(v: View) {
    forall i :: 0 <= i < |v.retries| ==> Settled(v.db, v.ops, i)
  }

  ghost predicate WithinQuota(v0: View, max: int, log: seq<nat>) {
    && (AllSettled(v0) ==> log == v0.log)
    && match v0
       case View(_, _, retries, log0) =>
         forall i :: 0 <= i < |retries| ==> Count(log, i) <= Count(log0, i) + Allowed(v0, max, i)
  }

  /** Nothing was executed, and as much may still be. */
  ghost predicate SameAllowance(v0: View, v: View) {
    match v
    case View(db, ops, retries, log) =>
      && log == v0.log && retries == v0.retries
      && forall i :: 0 <= i < |retries| ==> (Settled(db, ops, i) <==> Settled(v0.db, v0.ops, i))
  }

  lemma {:induction false} SameQuota(v0: View, v: View, max: int, log: seq<nat>)
    requires SameAllowance(v0, v) && WithinQuota(v, max, log)
    ensures WithinQuota(v0, max, log)
  {
    forall i | 0 <= i < |v0.retries| ensures Count(log, i) <= Count(v0.log, i) + Allowed(v0, max, i) {
      assert Allowed(v, max, i) == Allowed(v0, max, i);
    }
  }

  lemma {:induction false} SameAllowanceTransitive(a: View, b: View, c: View)
    requires SameAllowance(a, b) && SameAllowance(b, c)
    ensures SameAllowance(a, c)
  {
  }

  /** Where the loop of a run that began at `v0` stands at step `i`. */
  ghost predicate Progress(v0: View, v: View, i: nat) {
    match v
    case View(db, ops, retries, log) =>
      && |db.steps| == |v0.db.steps| == |v0.retries| && i <= |db.steps| && retries == v0.retries
      && (forall j :: 0 <= j < i ==> CompletedAt(db, j))
      && (forall j :: i <= j < |db.steps| ==> db.steps[j] == v0.db.steps[j])
      && (forall j: nat :: i <= j ==> SameOperation(v0.ops, ops, j) && Count(log, j) == Count(v0.log, j))
      && (forall j: nat :: j < i ==> Count(log, j) <= Count(v0.log, j) + if Settled(v0.db, v0.ops, j) then 0 else 1)
      && (AllSettled(v0) ==> log == v0.log) && SameRow(v0.db, db)
  }

  /** And the steps so far could be relied on. */
  ghost predicate PromisedSoFar(v0: View, world: ToolWorld, max: int, i: nat) {
    forall j :: 0 <= j < i ==> Promising(v0, world, max, j)
  }

  lemma {:induction false} ProgressSettled(v0: View, v1: View, i: nat)
    requires Progress(v0, v1, i) && i < |v0.retries|
    ensures Settled(v1.db, v1.ops, i) <==> Settled(v0.db, v0.ops, i)
  {
    assert SameOperation(v0.ops, v1.ops, i);
  }

  lemma {:induction false} ProgressPromising(v0: View, v1: View, world: ToolWorld, max: int, i: nat)
    requires Progress(v0, v1, i) && i < |v0.retries|
    ensures forall j :: i <= j < |v0.retries| ==> (Promising(v1, world, max, j) <==> Promising(v0, world, max, j))
  {
    forall j | i <= j < |v0.retries| ensures Promising(v1, world, max, j) <==> Promising(v0, world, max, j) {
      assert SameOperation(v0.ops, v1.ops, j);
    }
  }

  lemma {:induction false} ProgressNext(v0: View, v1: View, v: View, i: nat)
    requires Progress(v0, v1, i) && i < |v0.retries| && Advanced(v1, v, i)
    ensures Progress(v0, v, i + 1)
  {
    ProgressSettled(v0, v1, i);
    OneExecutionCounts(v1, v.log, i);
    assert forall j :: 0 <= j < i ==> CompletedAt(v1.db, j) && v.db.steps[j] == v1.db.steps[j];
    forall j: nat | i + 1 <= j ensures SameOperation(v0.ops, v.ops, j) {
      assert SameOperation(v0.ops, v1.ops, j) && SameOperation(v1.ops, v.ops, j);
    }
  }

  lemma {:induction false} ProgressWithinQuota(v0: View, v1: View, max: int, log: seq<nat>, i: nat)
    requires Progress(v0, v1, i)
    requires if i < |v0.retries| then OneExecution(v1, log, i) else log == v1.log
    ensures WithinQuota(v0, max, log)
  {
    if i < |v0.retries| {
      ProgressSettled(v0, v1, i);
      OneExecutionCounts(v1, log, i);
    }
  }

  /** A retry uses up one of the executions that were allowed. */
  lemma {:induction false} RetryWithinQuota(v0: View, v1: View, v2: View, max: int, log: seq<nat>, i: nat)
    requires Progress(v0, v1, i) && i < |v0.retries| && Restartable(v1, v2, max, i) && WithinQuota(v2, max, log)
    ensures WithinQuota(v0, max, log)
  {
    ProgressSettled(v0, v1, i);
    OneExecutionCounts(v1, v2.log, i);
    forall j | 0 <= j < |v0.retries| ensures Count(log, j) <= Count(v0.log, j) + Allowed(v0, max, j) {
      assert Count(log, j) <= Count(v2.log, j) + Allowed(v2, max, j);
      if j < i {
        assert CompletedAt(v1.db, j) && CompletedAt(v2.db, j);
      } else if j > i {
        assert v2.db.steps[j] == v0.db.steps[j];
        assert SameOperation(v0.ops, v1.ops, j) && SameOperation(v1.ops, v2.ops, j);
      } else {
        assert !Settled(v0.db, v0.ops, i);
      }
    }
  }

  lemma {:induction false} RetriesLeft(before: seq<nat>, after: seq<nat>, max: int, i: nat)
    requires Retried(before, after, i) && after[i] <= max
    ensures Left(after, max) < Left(before, max)
  {
    assert after == before[i := before[i] + 1];
    LeftDecreases(before, max, i);
  }

  /** A completed step is skipped; its artifact is there. */
  method SkipStep(s: Session, i: nat, ghost v0: View) returns (e: StepOutcome)
    requires s.Valid() && CompletedAt(s.db, i) && Progress(v0, Now(s), i)
    ensures e.Next? && Progress(v0, Now(s), i + 1) && e.artifact in s.db.artifacts && e.artifact.step == i
  {
    ReachedFacts(s.env, s.init, s.db);
    CompletedHasArtifact(s.db, i);
    var found := FindArtifact(s.db.artifacts, i);
    if found.None? {
      return Exit(NoArtifact);
    }
    ProgressNext(v0, Now(s), Now(s), i);
    return Next(found.value);
  }

  lemma {:induction false} CompletedHasArtifact(db: Db, i: nat)
    requires Recoverable(db) && CompletedAt(db, i)
    ensures exists k :: 0 <= k < |db.artifacts| && db.artifacts[k].step == i
  {
    HasArtifact(db.artifacts, i);
  }

  lemma {:induction false} HasArtifact(artifacts: seq<Artifact>, i: nat)
    requires ArtifactsOf(artifacts, i) > 0
    ensures exists k :: 0 <= k < |artifacts| && artifacts[k].step == i
  {
    var n := |artifacts| - 1;
    if artifacts[n].step != i {
      HasArtifact(artifacts[..n], i);
      var k :| 0 <= k < n && artifacts[..n][k].step == i;
      assert artifacts[k].step == i;
    }
  }

  /** What the restarted loop may execute, the interrupted one could have. */
  lemma {:induction false} RetryQuota(v0: View, v1: View, v2: View, max: int, i: nat)
    requires Progress(v0, v1, i) && i < |v0.retries| && Restartable(v1, v2, max, i)
    ensures Left(v2.retries, max) < Left(v0.retries, max)
    ensures forall log :: WithinQuota(v2, max, log) ==> WithinQuota(v0, max, log)
  {
    RetriesLeft(v1.retries, v2.retries, max, i);
    forall log | WithinQuota(v2, max, log) ensures WithinQuota(v0, max, log) {
      RetryWithinQuota(v0, v1, v2, max, log, i);
    }
  }

  /** The restarted loop comes through exactly if the interrupted one could be relied on. */
  lemma {:induction false} RetryPromise(v0: View, v1: View, v2: View, world: ToolWorld, max: int, i: nat)
    requires Progress(v0, v1, i) && i < |v0.retries| && PromisedSoFar(v0, world, max, i)
    requires Restartable(v1, v2, max, i) && KeepsPromise(v1, v2, world, max, i, Retry)
    ensures AllPromising(v2, world, max) <==> AllPromising(v0, world, max)
  {
    ProgressPromising(v0, v1, world, max, i);
    forall j | 0 <= j < |v0.retries| ensures Promising(v2, world, max, j) <==> Promising(v0, world, max, j) {
      if j < i {
        assert CompletedAt(v1.db, j) && v2.db.steps[j] == v1.db.steps[j];
      } else if j > i {
        OthersPromising(v1, v2, world, max, i, j);
      }
    }
  }

  /** The loop body, for a step in whatever state. */
  method LoopBody(s: Session, world: ToolWorld, i: nat, ghost v0: View) returns (e: StepOutcome)
    requires s.Valid() && i < |s.db.steps| && Progress(v0, Now(s), i) && PromisedSoFar(v0, world, s.maxRetries, i)
    modifies s
    ensures s.Valid() && old(s.trace) <= s.trace && s.deaths >= old(s.deaths)
    ensures e == Exit(Crashed) <==> Died(s)
    ensures e.Next? ==> Progress(v0, Now(s), i + 1) && e.artifact in s.db.artifacts && e.artifact.step == i
    ensures e.Next? ==> PromisedSoFar(v0, world, s.maxRetries, i + 1)
    ensures e.Exit? ==> WithinQuota(v0, s.maxRetries, s.log) && !e.outcome.Produced?
    ensures e.Exit? && !Died(s) ==> !AllPromising(v0, world, s.maxRetries)
    ensures e.Exit? && !Died(s) && s.db.status.Done? ==> v0.db.status.Done?
    ensures e.Retry? ==> SameRow(v0.db, s.db) && !AllCompleted(s.db)
    ensures e.Retry? ==> Left(s.retries, s.maxRetries) < Left(v0.retries, s.maxRetries)
    ensures e.Retry? ==> forall log :: WithinQuota(Now(s), s.maxRetries, log) ==> WithinQuota(v0, s.maxRetries, log)
    ensures e.Retry? ==> (AllPromising(Now(s), world, s.maxRetries) <==> AllPromising(v0, world, s.maxRetries))
  {
    hide Coherent, WithinQuota;
    ghost var v1 := Now(s);
    ProgressPromising(v0, v1, world, s.maxRetries, i);
    if s.db.steps[i].status.Completed? {
      e := SkipStep(s, i, v0);
      return;
    }
    ProgressSoFar(v0, v1, i);
    e := RunStep(s, world, i);
    match e {
      case Next(_) => ProgressNext(v0, v1, Now(s), i);
      case Retry =>
        RetryQuota(v0, v1, Now(s), s.maxRetries, i);
        RetryPromise(v0, v1, Now(s), world, s.maxRetries, i);
      case Exit(_) => ProgressWithinQuota(v0, v1, s.maxRetries, s.log, i);
    }
  }

  lemma {:induction false} ProgressSoFar(v0: View, v: View, i: nat)
    requires Progress(v0, v, i)
    ensures i <= |v.db.steps| == |v0.retries| && forall j :: 0 <= j < i ==> v.db.steps[j].status.Completed?
  {
    forall j | 0 <= j < i ensures j < |v.db.steps| && v.db.steps[j].status.Completed? {
      assert CompletedAt(v.db, j);
    }
  }

  lemma {:induction false} ProgressStarts(v: View)
    requires |v.db.steps| == |v.retries|
    ensures Progress(v, v, 0)
  {
  }

  lemma {:induction false} ProgressEnds(v0: View, v: View, max: int)
    requires Progress(v0, v, |v0.retries|)
    ensures AllCompleted(v.db) && WithinQuota(v0, max, v.log)
  {
    ProgressWithinQuota(v0, v, max, v.log, |v0.retries|);
    ProgressSoFar(v0, v, |v0.retries|);
  }

  lemma {:induction false} NothingExecuted(v: View, max: int)
    ensures WithinQuota(v, max, v.log)
  {
  }

  /** One pass over the steps, in order; the last artifact if it came through. */
  method PassOverSteps(s: Session, world: ToolWorld) returns (e: StepOutcome)
    requires s.Valid() && |s.db.steps| > 0
    modifies s
    ensures s.Valid() && old(s.trace) <= s.trace && s.deaths >= old(s.deaths)
    ensures e == Exit(Crashed) <==> Died(s)
    ensures |s.db.steps| == |old(s.db).steps|
    ensures e.Next? ==>
      AllCompleted(s.db) && e.artifact in s.db.artifacts && WithinQuota(old(Now(s)), s.maxRetries, s.log)
    ensures e.Next? ==> e.artifact.step == |s.db.steps| - 1
    ensures e.Retry? ==> !AllCompleted(s.db)
    ensures e.Next? ==> AllPromising(old(Now(s)), world, s.maxRetries)
    ensures e.Exit? ==> WithinQuota(old(Now(s)), s.maxRetries, s.log) && !e.outcome.Produced?
    ensures e.Exit? && !Died(s) ==> !AllPromising(old(Now(s)), world, s.maxRetries)
    ensures e.Exit? && !Died(s) && s.db.status.Done? ==> old(s.db).status.Done?
    ensures !e.Exit? ==> SameRow(old(s.db), s.db)
    ensures e.Retry? ==> Left(s.retries, s.maxRetries) < Left(old(s.retries), s.maxRetries)
    ensures e.Retry? ==>
      forall log :: WithinQuota(Now(s), s.maxRetries, log) ==> WithinQuota(old(Now(s)), s.maxRetries, log)
    ensures e.Retry? ==>
      (AllPromising(Now(s), world, s.maxRetries) <==> AllPromising(old(Now(s)), world, s.maxRetries))
  {
    hide Coherent, WithinQuota, AllCompleted, Count;
    ghost var v0 := Now(s);
    e := Exit(NoArtifact);
    SameLength(s);
    ProgressStarts(v0);
    for i := 0 to |s.db.steps|
      invariant s.Valid() && old(s.trace) <= s.trace && s.deaths == old(s.deaths)
      invariant Progress(v0, Now(s), i) && PromisedSoFar(v0, world, s.maxRetries, i)
      invariant i > 0 ==> e.Next? && e.artifact in s.db.artifacts && e.artifact.step == i - 1
    {
      e := LoopBody(s, world, i, v0);
      SameLength(s);
      if !e.Next? {
        return;
      }
    }
    ProgressEnds(v0, Now(s), s.maxRetries);
  }

  lemma {:induction false} CompletedIsPromising(v: View, world: ToolWorld, max: int)
    requires AllCompleted(v.db) && |v.retries| == |v.db.steps|
    ensures AllPromising(v, world, max)
  {
  }

  /** The loop over the steps, restarted from the first one after every retryable failure. */
  method RunAllSteps(s: Session, world: ToolWorld) returns (r: Outcome)
    requires s.Valid()
    modifies s
    ensures s.Valid() && old(s.trace) <= s.trace && s.deaths >= old(s.deaths)
    ensures r == Crashed <==> Died(s)
    ensures WithinQuota(old(Now(s)), s.maxRetries, s.log)
    ensures !Died(s) ==>
      (r.Produced? <==> old(s.db).steps != [] && AllPromising(old(Now(s)), world, s.maxRetries))
    ensures r.Produced? ==> AllCompleted(s.db) && r.artifact in s.db.artifacts && SameRow(old(s.db), s.db)
    // the artifact of the last step, or the last one there is if nothing was left to do
    ensures r.Produced? ==>
      if AllCompleted(old(s.db)) && old(s.db).artifacts != [] then
        r.artifact == old(s.db).artifacts[|old(s.db).artifacts| - 1]
      else r.artifact.step == |s.db.steps| - 1
    ensures !Died(s) && s.db.status.Done? ==> old(s.db).status.Done?
    decreases Left(s.retries, s.maxRetries)
  {
    hide Coherent, WithinQuota, AllPromising;
    NothingExecuted(Now(s), s.maxRetries);
    if |s.db.steps| == 0 {
      return NoArtifact;
    }
    if AllCompleted(s.db) && s.db.artifacts != [] {
      SameLength(s);
      CompletedIsPromising(Now(s), world, s.maxRetries);
      return Produced(s.db.artifacts[|s.db.artifacts| - 1]);
    }
    var e := PassOverSteps(s, world);
    match e {
      case Next(artifact) => r := Produced(artifact);
      case Exit(outcome) => r := outcome;
      case Retry => r := RunAllSteps(s, world);
    }
  }

  /** Every step is completed, or still open with its effect recorded. */
  predicate Deliverable(db: Db, ops: map<nat, Operation>) {
    forall i :: 0 <= i < |db.steps| ==>
      var status := db.steps[i].status;
      status.Completed? || ((status.Pending? || status.Running?) && Applied(ops, i))
  }

  lemma {:induction false} RecordedComesThrough(v: View, world: ToolWorld, max: int)
    requires Deliverable(v.db, v.ops) && |v.retries| == |v.db.steps|
    ensures AllPromising(v, world, max) && AllSettled(v)
  {
  }

  /** `_recover_or_execute`. It terminates although every retryable failure restarts the whole loop; it runs the tool
      of a step at most once more than it has retries left, and not at all when the step is completed or its operation
      applied; no commit of any run ever changes an applied operation or is followed by another run of its tool; and
      every artifact it persists for an applied operation has the recorded path, digest and size. Unless the process
      dies, it comes through exactly if every step is completed or is still open and its effect is recorded, in place,
      or delivered before its retries run out. */
  method RecoverOrExecute(s: Session, world: ToolWorld) returns (r: Outcome)
    requires s.Valid()
    modifies s
    ensures s.Valid() && old(s.trace) <= s.trace && s.deaths >= old(s.deaths)
    ensures r == Crashed <==> Died(s)
    ensures WithinQuota(old(Now(s)), s.maxRetries, s.log)
    ensures Kept(old(Point(s.ops, s.log)), Point(s.ops, s.log)) && NeverAgain(s.trace)
    ensures Faithful(s.db, s.ops) && Accounted(s.ops, s.log)
    ensures r.Produced? ==> AllCompleted(s.db) && r.artifact in s.db.artifacts && SameRow(old(s.db), s.db)
    // the artifact of the last step, or the last one there is if nothing was left to do
    ensures r.Produced? ==>
      if AllCompleted(old(s.db)) && old(s.db).artifacts != [] then
        r.artifact == old(s.db).artifacts[|old(s.db).artifacts| - 1]
      else r.artifact.step == |s.db.steps| - 1
    ensures !Died(s) && s.db.status.Done? ==> old(s.db).status.Done?
    ensures !Died(s) ==>
      (r.Produced? <==> old(s.db).steps != [] && AllPromising(old(Now(s)), world, s.maxRetries))
    // what is recorded already is adopted without running any tool
    ensures Deliverable(old(s.db), old(s.ops)) && old(s.db).steps != [] ==>
      s.log == old(s.log) && (r.Produced? || r == Crashed)
  {
    SameLength(s);
    if Deliverable(s.db, s.ops) {
      RecordedComesThrough(Now(s), world, s.maxRetries);
    }
    r := RunAllSteps(s, world);
    KeptSince(old(s.trace), old(Point(s.ops, s.log)), s.trace, Point(s.ops, s.log));
  }
}
