/** `run` and `_resume`: one worker takes a task from whatever state it was committed in as far as it gets.
    Every change goes through `Session.Do`, whose precondition is the discipline that the theorems about
    interleaved runs assume of the orchestrator. */
module Orchestrator {
  import opened Basics
  import opened TaskStore
  import opened TaskGate
  import opened TaskRecovery
  import opened Worker

  /** What the verifier commits on its own connection, before it answers. */
  datatype Commits = NoChange | Finishes | Fails

  /** What one run meets: the task's request for approval, the clock, whether a waiting approval has timed out, whether
      the grant store answers, the safety classification, the tools, and what the verifier commits and answers. */
  datatype Visit = Visit(
    worker: TaskStore.Worker, subject: Subject, risk: Risk, now: int, timedOut: bool, storeOk: bool, sensitive: bool,
    world: ToolWorld, verifier: Commits, saysDone: bool)

  /** Nothing was done to an applied operation, and its tool did not run again. */
  ghost predicate Safe(s: Session, before: seq<Point>)
    reads s
  {
    s.Valid() && before <= s.trace
  }

  /** Nothing but the verifier makes a task DONE. */
  twostate predicate Undone(s: Session)
    reads s
  {
    !Died(s) && s.db.status.Done? ==> old(s.db).status.Done?
  }

  lemma {:induction false} Onwards(a: seq<Point>, b: seq<Point>, c: seq<Point>)
    requires a <= b && b <= c
    ensures a <= c
  {
  }

  lemma {:induction false} SameSteps(v0: View, v: View)
    requires v.log == v0.log && v.retries == v0.retries && v.ops == v0.ops && v.db.steps == v0.db.steps
    ensures SameAllowance(v0, v)
  {
  }

  /** What the rest of a run depends on: the steps with their operations and retries. */
  predicate SameWork(v0: View, v: View) {
    v.log == v0.log && v.retries == v0.retries && v.ops == v0.ops && v.db.steps == v0.db.steps
  }

  /** The task row after an attempt to move it, which raises if the move is refused. */
  ghost predicate MovedIfAllowed(db0: Db, db: Db, target: TaskState) {
    db == if MayMove(db0, db0, target) then Moved(db0, target) else db0
  }

  /** Whether the row may move depends on three of its columns only. */
  lemma {:induction false} SameMoves(db0: Db, db: Db, target: TaskState)
    requires SameRow(db0, db) && db.revision == db0.revision
    ensures MayMove(db, db, target) <==> MayMove(db0, db0, target)
  {
  }

  lemma {:induction false} MovedHas(db0: Db, db: Db, target: TaskState)
    requires MovedIfAllowed(db0, db, target)
    ensures db.status == if MayMove(db0, db0, target) then target else db0.status
    ensures db.steps == db0.steps && db.artifacts == db0.artifacts && db.cancel == db0.cancel
  {
  }

  /** `repository.transition` and `commit`; false is an exception or the end of the process. */
  method MoveAndCommit(s: Session, target: TaskState) returns (moved: bool)
    requires s.Valid() && Disciplined(s.db, Transition(0, target))
    modifies s
    ensures Safe(s, old(s.trace)) && s.log == old(s.log) && s.deaths >= old(s.deaths)
    ensures moved <==> !Died(s) && MayMove(old(s.db), old(s.db), target)
    ensures !Died(s) ==>
      MovedIfAllowed(old(s.db), s.db, target) && s.ops == old(s.ops) && s.retries == old(s.retries)
  {
    moved := MayMove(s.db, s.db, target);
    s.Do(Transition(0, target));
    var committed := s.CommitRows();
    moved := moved && committed;
  }

  // ---- The approval gate ----

  /** The approval entitles the worker to a dispatch: it is approved and not older than an hour; its token, if it has
      one, is that of a stored grant which is neither expired nor consumed and was issued to the deciding owner for what
      the approval names; and without a token its risk is one that the policy approves by itself. */
  ghost predicate Entitled(env: Env, grants: map<Token, Grant>, row: Approval, now: int, storeOk: bool) {
    && row.decision == Approved
    && (row.decidedAt.Some? ==> now - row.decidedAt.value <= 3600)
    && match row.token
       case None => env.auto(row.risk)
       case Some(token) =>
         && storeOk && token in grants
         && grants[token].expiresAt > now && !grants[token].consumed
         && grants[token].actor == row.decidedBy && grants[token].subject == row.subject
  }

  lemma {:induction false} EntitledMeans(env: Env, db: Db, row: Approval, now: int, storeOk: bool)
    ensures Entitled(env, db.grants, row, now, storeOk) <==>
      MayAuthorize(env, db, row, now) && (row.token.Some? ==> storeOk)
  {
  }

  lemma {:induction false} AuthorizeMeans(env: Env, db: Db, worker: TaskStore.Worker, k: nat, now: int)
    requires Gate(env, db) && k < |db.approvals| && MayAuthorize(env, db, db.approvals[k], now)
    ensures var after := Apply(env, db, db, Authorize(0, worker, k, now));
      && after == db.(grants := after.grants, permits := after.permits)
      && worker in after.permits && after.permits[worker] == Permit(db.approvals[k], now)
      && Justified(env, after.permits[worker]) && TokenUsed(after, after.permits[worker])
  {
  }

  /** `_verify_and_consume_approval`: the grant store commits on its own connection. */
  method VerifyAndConsume(s: Session, worker: TaskStore.Worker, k: nat, now: int, storeOk: bool)
      returns (authorized: bool)
    requires s.Valid() && k < |s.db.approvals|
    modifies s
    ensures Safe(s, old(s.trace)) && s.log == old(s.log) && s.deaths >= old(s.deaths)
    ensures Undone(s)
    ensures authorized <==>
      !Died(s) && Entitled(s.env, old(s.db).grants, old(s.db).approvals[k], now, storeOk)
    ensures authorized ==> SameWork(old(Now(s)), Now(s))
    ensures authorized ==> s.db == old(s.db).(grants := s.db.grants, permits := s.db.permits)
    ensures authorized ==> worker in s.db.permits && s.db.permits[worker] == Permit(old(s.db).approvals[k], now)
    ensures authorized ==> Justified(s.env, s.db.permits[worker]) && TokenUsed(s.db, s.db.permits[worker])
    // the grant is consumed for good before the worker goes on
    ensures authorized && old(s.db).approvals[k].token.Some? ==> s.saved == s.db
    ensures !authorized && !Died(s) ==> MovedIfAllowed(old(s.db), s.db, PolicyDenied)
  {
    hide Coherent, Entitled;
    SessionGate(s);
    var approval := s.db.approvals[k];
    EntitledMeans(s.env, s.db, approval, now, storeOk);
    authorized := MayAuthorize(s.env, s.db, approval, now) && (approval.token.Some? ==> storeOk);
    if !authorized {
      var denied := MoveAndCommit(s, PolicyDenied);
      return;
    }
    AuthorizeMeans(s.env, s.db, worker, k, now);
    s.Do(Authorize(0, worker, k, now));
    if approval.token.Some? {
      authorized := s.CommitRows();
    }
  }

  lemma {:induction false} ReachedGate(env: Env, init: Db, db: Db)
    requires Reached(env, init, db)
    ensures Gate(env, db)
  {
    var actions :| FromStart(init) && DisciplinedRun(env, init, actions) &&
      db == History(env, init, actions)[|actions|];
    RunIsGated(env, init, actions);
    GatedAt(env, History(env, init, actions), |actions|, |actions|);
  }

  lemma {:induction false} SessionGate(s: Session)
    requires s.Valid()
    ensures Gate(s.env, s.db)
  {
    ReachedGate(s.env, s.init, s.db);
  }

  /** A pending first step is running, the other steps are as they were. */
  predicate FirstStarted(db0: Db, db: Db) {
    db.steps == if db0.steps != [] && db0.steps[0].status.Pending?
                then db0.steps[0 := db0.steps[0].(status := Running, revision := db0.steps[0].revision + 1)]
                else db0.steps
  }

  /** The same work, but that the first step may have been started. */
  ghost predicate StartedWork(v0: View, v: View) {
    v.log == v0.log && v.retries == v0.retries && v.ops == v0.ops && (FirstStarted(v0.db, v.db) || SameWork(v0, v))
  }

  lemma {:induction false} StartedKeeps(v0: View, v: View)
    requires StartedWork(v0, v)
    ensures SameAllowance(v0, v)
    ensures forall world, max :: AllPromising(v, world, max) <==> AllPromising(v0, world, max)
  {
    forall i | 0 <= i < |v.retries| ensures Settled(v.db, v.ops, i) <==> Settled(v0.db, v0.ops, i) {
      assert i < |v.db.steps| ==> (v.db.steps[i].status.Completed? <==> v0.db.steps[i].status.Completed?);
    }
    forall world, max ensures AllPromising(v, world, max) <==> AllPromising(v0, world, max) {
      forall i | 0 <= i < |v.db.steps| ensures Promising(v, world, max, i) <==> Promising(v0, world, max, i) {
      }
    }
  }

  method StartFirstStep(s: Session)
    requires s.Valid()
    modifies s`db
    ensures s.Valid() && FirstStarted(old(s.db), s.db)
    ensures s.db == old(s.db).(steps := s.db.steps, journal := s.db.journal, progress := s.db.progress)
  {
    hide Coherent;
    if |s.db.steps| > 0 && s.db.steps[0].status.Pending? {
      var ok := s.MoveStep(0, Running);
    }
  }

  lemma {:induction false} DispatchMeans(env: Env, db: Db, worker: TaskStore.Worker)
    requires worker in db.permits && MayMove(db, db, ToolExecuting)
    ensures var after := Apply(env, db, db, Dispatch(0, worker));
      && after.status.ToolExecuting? && after.steps == db.steps && !after.cancel
      && after.dispatched == db.dispatched + [db.permits[worker]]
  {
  }

  /** The permit is spent on entering TOOL_EXECUTING. */
  method SpendPermit(s: Session, worker: TaskStore.Worker) returns (spent: bool)
    requires s.Valid() && worker in s.db.permits
    modifies s
    ensures Safe(s, old(s.trace)) && s.log == old(s.log) && s.deaths >= old(s.deaths)
    ensures Undone(s)
    ensures spent <==> !Died(s) && MayMove(old(s.db), old(s.db), ToolExecuting)
    ensures spent ==> s.db.status.ToolExecuting? && !s.db.cancel && SameWork(old(Now(s)), Now(s))
    ensures spent ==> s.db.dispatched == old(s.db).dispatched + [old(s.db).permits[worker]]
  {
    spent := MayMove(s.db, s.db, ToolExecuting);
    if spent {
      DispatchMeans(s.env, s.db, worker);
    }
    s.Do(Dispatch(0, worker));
    var committed := s.CommitRows();
    spent := spent && committed;
  }

  /** `_dispatch`: the first step is set running, the permit is spent. Unless the process dies, the task is executing
      exactly if it may be. */
  method DispatchTask(s: Session, worker: TaskStore.Worker) returns (dispatched: bool)
    requires s.Valid() && worker in s.db.permits
    modifies s
    ensures Safe(s, old(s.trace)) && s.log == old(s.log) && s.deaths >= old(s.deaths)
    ensures Undone(s)
    ensures dispatched <==> !Died(s) && MayMove(old(s.db), old(s.db), ToolExecuting)
    ensures dispatched ==> s.db.status.ToolExecuting? && !s.db.cancel && StartedWork(old(Now(s)), Now(s))
    ensures dispatched ==> s.db.dispatched == old(s.db).dispatched + [old(s.db).permits[worker]]
    ensures dispatched ==> FirstStarted(old(s.db), s.db)
  {
    StartFirstStep(s);
    dispatched := SpendPermit(s, worker);
  }

  /** The concrete approval a waiting task resumes on: the first undecided one, or else the first one. */
  function ResumeOn(approvals: seq<Approval>, from: nat): (k: Option<nat>)
    requires from <= |approvals|
    ensures approvals != [] ==> k.Some?
    ensures k.Some? ==> k.value < |approvals|
    ensures (exists j :: from <= j < |approvals| && approvals[j].decision.Undecided?) ==>
      k.Some? && from <= k.value && approvals[k.value].decision.Undecided? &&
        forall j :: from <= j < k.value ==> !approvals[j].decision.Undecided?
    ensures approvals != [] && (forall j :: from <= j < |approvals| ==> !approvals[j].decision.Undecided?) ==>
      k == Some(0)
    decreases |approvals| - from
  {
    if from == |approvals| then (if approvals == [] then None else Some(0))
    else if approvals[from].decision.Undecided? then Some(from)
    else ResumeOn(approvals, from + 1)
  }

  /** What the gate leaves of a task that it does not dispatch. */
  ghost predicate HeldBack(db0: Db, db: Db, k: nat, now: int, timedOut: bool)
    requires k < |db0.approvals|
  {
    match db0.approvals[k].decision
    case Approved => MovedIfAllowed(db0, db, PolicyDenied)
    case Denied => MovedIfAllowed(db0, db, PolicyDenied)
    case Undecided =>
      if db0.status.Planning? then MovedIfAllowed(db0, db, WaitingApproval)
      else if timedOut then
        && |db.approvals| == |db0.approvals|
        && db.approvals[k] == db0.approvals[k].(
             decision := Denied, decidedBy := "system_timeout", decidedAt := Some(now))
        && (forall j :: 0 <= j < |db.approvals| && j != k ==> db.approvals[j] == db0.approvals[j])
        && (MayMove(db0, db0, PolicyDenied) ==> db.status.PolicyDenied?)
      else db == db0
  }

  /** An undecided approval that timed out is denied by the system, and the task with it. */
  method TimeOut(s: Session, k: nat, now: int)
    requires s.Valid() && k < |s.db.approvals| && s.db.approvals[k].decision.Undecided? && s.db.status.WaitingApproval?
    modifies s
    ensures Safe(s, old(s.trace)) && s.log == old(s.log) && s.deaths >= old(s.deaths)
    ensures Undone(s)
    ensures !Died(s) ==> HeldBack(old(s.db), s.db, k, now, true)
  {
    hide Coherent;
    s.Do(Decide(0, k, false, "system_timeout", now, 0));
    var alive := s.CommitRows();
    if alive {
      var denied := MoveAndCommit(s, PolicyDenied);
    }
  }

  /** The approval check of PLANNING and of WAITING_APPROVAL. Unless the process dies, the task is dispatched exactly if
      the approval entitles it and the move is allowed; otherwise it waits, times out or is denied. */
  method PassGate(s: Session, worker: TaskStore.Worker, k: nat, now: int, timedOut: bool, storeOk: bool)
    returns (dispatched: bool)
    requires s.Valid() && k < |s.db.approvals| && (s.db.status.Planning? || s.db.status.WaitingApproval?)
    modifies s
    ensures Safe(s, old(s.trace)) && s.log == old(s.log) && s.deaths >= old(s.deaths)
    ensures Undone(s)
    ensures dispatched <==>
      !Died(s) && Entitled(s.env, old(s.db).grants, old(s.db).approvals[k], now, storeOk) &&
        MayMove(old(s.db), old(s.db), ToolExecuting)
    ensures dispatched ==> s.db.status.ToolExecuting? && !s.db.cancel && StartedWork(old(Now(s)), Now(s))
    ensures dispatched ==> s.db.dispatched == old(s.db).dispatched + [Permit(old(s.db).approvals[k], now)]
    ensures !Died(s) && !Entitled(s.env, old(s.db).grants, old(s.db).approvals[k], now, storeOk) ==>
      HeldBack(old(s.db), s.db, k, now, timedOut)
  {
    hide Coherent, AllPromising, MayMove;
    dispatched := false;
    match s.db.approvals[k].decision {
      case Undecided =>
        if s.db.status.Planning? {
          var waiting := MoveAndCommit(s, WaitingApproval);
        } else if timedOut {
          TimeOut(s, k, now);
        }
      case Denied =>
        var denied := MoveAndCommit(s, PolicyDenied);
      case Approved =>
        var authorized := VerifyAndConsume(s, worker, k, now, storeOk);
        if authorized {
          SameMoves(old(s.db), s.db, ToolExecuting);
          dispatched := DispatchTask(s, worker);
        }
    }
  }

  // ---- Execution and verification ----

  /** `_recover_or_execute`, and the commit that releasing the lease makes of whatever an exception left pending. */
  method Recover(s: Session, world: ToolWorld) returns (produced: bool)
    requires s.Valid()
    modifies s
    ensures Safe(s, old(s.trace)) && WithinQuota(old(Now(s)), s.maxRetries, s.log) && s.deaths >= old(s.deaths)
    ensures Undone(s)
    ensures produced ==> AllCompleted(s.db) && s.db.artifacts != [] && !Died(s)
    ensures !Died(s) && old(s.db).steps != [] && AllPromising(old(Now(s)), world, s.maxRetries) ==> produced
    ensures produced ==> old(s.db).steps != [] && AllPromising(old(Now(s)), world, s.maxRetries)
    ensures produced ==> s.db.status == old(s.db).status && s.db.cancel == old(s.db).cancel
  {
    var r := RecoverOrExecute(s, world);
    if r.Raised? {
      var committed := s.CommitRows();
    }
    produced := r.Produced?;
  }

  /** OBSERVING and VERIFYING have the evidence. */
  lemma {:induction false} ObservedHasEvidence(s: Session)
    requires s.Valid() && Observed(s.db.status) && s.db.steps != []
    ensures AllCompleted(s.db) && s.db.artifacts != []
  {
    ReachedFacts(s.env, s.init, s.db);
    CompletedHasArtifact(s.db, 0);
  }

  /** OBSERVING and VERIFYING look for the evidence once more. */
  method EnsureEvidence(s: Session, world: ToolWorld) returns (present: bool)
    requires s.Valid()
    modifies s
    ensures Safe(s, old(s.trace)) && WithinQuota(old(Now(s)), s.maxRetries, s.log) && s.deaths >= old(s.deaths)
    ensures Undone(s)
    ensures old(s.db).artifacts != [] ==> Now(s) == old(Now(s)) && present && !Died(s)
  {
    NothingExecuted(Now(s), s.maxRetries);
    present := true;
    if s.db.artifacts == [] {
      present := Recover(s, world);
      if present {
        present := s.CommitRows();
      }
    }
  }

  /** A resumed task that was already observed, or even in verification. */
  method ExecuteObserved(s: Session, world: ToolWorld) returns (verifying: bool)
    requires s.Valid() && s.db.steps != []
    modifies s
    ensures Safe(s, old(s.trace)) && WithinQuota(old(Now(s)), s.maxRetries, s.log) && s.deaths >= old(s.deaths)
    ensures Undone(s)
    ensures s.log == old(s.log)
    ensures verifying ==> s.db.status.Verifying? && AllCompleted(s.db) && s.db.artifacts != [] && !Died(s)
    ensures verifying ==> s.db.cancel == old(s.db).cancel
    ensures !Died(s) && !old(s.db).cancel ==>
      (verifying <==> old(s.db).status.Observing? || old(s.db).status.Verifying?)
  {
    hide Coherent, WithinQuota;
    NothingExecuted(Now(s), s.maxRetries);
    verifying := false;
    if s.db.status.Observing? || s.db.status.Verifying? {
      ObservedHasEvidence(s);
      var present := EnsureEvidence(s, world);
      if !present {
        return;
      }
    }
    if s.db.status.Observing? {
      var moved := MoveAndCommit(s, Verifying);
      if !moved {
        return;
      }
    }
    verifying := s.db.status.Verifying?;
  }

  method FailFirstStep(s: Session)
    requires s.Valid() && s.db.steps != []
    modifies s`db
    ensures s.Valid() && |s.db.steps| == |old(s.db).steps|
    ensures s.db == old(s.db).(steps := s.db.steps, journal := s.db.journal, progress := s.db.progress)
    ensures Open(old(s.db).steps[0].status) ==> s.db.steps[0].status.StepFailed?
    ensures !Open(old(s.db).steps[0].status) ==> s.db.steps == old(s.db).steps
  {
    hide Coherent;
    if s.db.steps[0].status.Pending? {
      var started := s.MoveStep(0, Running);
    }
    if s.db.steps[0].status.Running? {
      var failed := s.MoveStep(0, StepFailed);
    }
  }

  lemma {:induction false} BlockedIsDisciplined(db: Db)
    ensures Disciplined(db, Transition(0, Blocked))
  {
  }

  /** `_block_sensitive_execution`: an open first step fails and the task is blocked. */
  method BlockExecution(s: Session)
    requires s.Valid() && s.db.steps != []
    modifies s
    ensures Safe(s, old(s.trace)) && s.log == old(s.log) && s.deaths >= old(s.deaths)
    ensures Undone(s)
    ensures !Died(s) && MayMove(old(s.db), old(s.db), Blocked) ==> s.db.status.Blocked?
    ensures !Died(s) ==> |s.db.steps| == |old(s.db).steps|
    ensures !Died(s) && Open(old(s.db).steps[0].status) ==> s.db.steps[0].status.StepFailed?
  {
    hide Coherent, MayMove, MovedIfAllowed, Apply, Disciplined;
    FailFirstStep(s);
    BlockedIsDisciplined(s.db);
    SameMoves(old(s.db), s.db, Blocked);
    ghost var failed := s.db;
    var blocked := MoveAndCommit(s, Blocked);
    if !Died(s) {
      MovedHas(failed, s.db, Blocked);
    }
  }

  /** The task that is executed or was executed before comes to verification. */
  ghost predicate Executable(v: View, visit: Visit, max: int) {
    || v.db.status.Observing? || v.db.status.Verifying?
    || (v.db.status.ToolExecuting? && !visit.sensitive && AllPromising(v, visit.world, max))
  }

  /** From TOOL_EXECUTING on; true when the task awaits verification. Unless the process dies or the task was cancelled,
      it does exactly if it was observed before, or is no sensitive execution and every step comes through. */
  method Execute(s: Session, visit: Visit) returns (verifying: bool)
    requires s.Valid() && s.db.steps != []
    modifies s
    ensures Safe(s, old(s.trace)) && WithinQuota(old(Now(s)), s.maxRetries, s.log) && s.deaths >= old(s.deaths)
    ensures Undone(s)
    ensures verifying ==> s.db.status.Verifying? && AllCompleted(s.db) && s.db.artifacts != [] && !Died(s)
    ensures verifying ==> s.db.cancel == old(s.db).cancel
    ensures !Died(s) && !old(s.db).cancel ==> (verifying <==> Executable(old(Now(s)), visit, s.maxRetries))
    ensures visit.sensitive ==> s.log == old(s.log)
    ensures visit.sensitive && old(s.db).status.ToolExecuting? && !old(s.db).cancel && !Died(s) ==> s.db.status.Blocked?
  {
    hide Coherent, WithinQuota, AllPromising, AllCompleted;
    ghost var (t0, v0) := (s.trace, Now(s));
    SameLength(s);
    if s.db.status.ToolExecuting? {
      if visit.sensitive {
        BlockExecution(s);
        LogUnchanged(v0, s.maxRetries, s.log);
        return false;
      }
      var produced := Recover(s, visit.world);
      ghost var t1 := s.trace;
      if !produced {
        return false;
      }
      var moved := MoveAndCommit(s, Observing);
      Onwards(t0, t1, s.trace);
      if !moved {
        return false;
      }
    }
    ghost var t2 := s.trace;
    SameLength(s);
    verifying := ExecuteObserved(s, visit.world);
    Onwards(t0, t2, s.trace);
  }

  /** RECEIVED and QUEUED: true when the task is past them. */
  method Admit(s: Session) returns (admitted: bool)
    requires s.Valid()
    modifies s
    ensures Safe(s, old(s.trace)) && s.log == old(s.log) && s.deaths >= old(s.deaths)
    ensures Undone(s)
    ensures admitted ==> !Died(s) && SameWork(old(Now(s)), Now(s))
    ensures !Died(s) && !old(s.db).cancel ==> admitted
    ensures admitted ==> s.db.approvals == old(s.db).approvals && s.db.grants == old(s.db).grants
    ensures admitted ==> s.db.cancel == old(s.db).cancel
    ensures admitted ==>
      s.db.status == if old(s.db).status.Received? || old(s.db).status.Queued? then Planning else old(s.db).status
  {
    admitted := true;
    if s.db.status.Received? {
      admitted := MoveAndCommit(s, Queued);
    }
    if admitted && s.db.status.Queued? {
      admitted := MoveAndCommit(s, Planning);
    }
  }

  /** A new approval row: decided by the policy at a risk that it approves by itself, or else undecided. */
  function Requested(env: Env, subject: Subject, risk: Risk, now: int): (row: Approval)
    ensures row.subject == subject && row.risk == risk && row.token.None?
    ensures env.auto(risk) ==> row.decision.Approved? && row.decidedAt == Some(now)
    ensures !env.auto(risk) ==> row.decision.Undecided?
  {
    if env.auto(risk) then Approval(subject, Approved, "policy", Some(now), None, risk)
    else Approval(subject, Undecided, "", None, None, risk)
  }

  /** `request_approval`: the first approval of the task's tool, or a new one. */
  method AskApproval(s: Session, subject: Subject, risk: Risk, now: int) returns (k: nat)
    requires s.Valid()
    modifies s`db
    ensures s.Valid() && k < |s.db.approvals|
    ensures s.db == old(s.db).(approvals := s.db.approvals)
    ensures if exists j :: 0 <= j < |old(s.db).approvals| && old(s.db).approvals[j].subject.tool == subject.tool then
              && s.db.approvals == old(s.db).approvals && s.db.approvals[k].subject.tool == subject.tool
              && forall j :: 0 <= j < k ==> s.db.approvals[j].subject.tool != subject.tool
            else
              && k == |old(s.db).approvals|
              && s.db.approvals == old(s.db).approvals + [Requested(s.env, subject, risk, now)]
  {
    hide Coherent;
    var existing := ApprovalFor(s.db.approvals, subject.tool);
    k := if existing.Some? then existing.value else |s.db.approvals|;
    FirstApproval(s.db.approvals, subject.tool);
    s.Do(RequestApproval(0, subject, risk, now));
  }

  lemma {:induction false} FirstApproval(approvals: seq<Approval>, tool: string)
    ensures var k := ApprovalFor(approvals, tool);
      k.Some? ==> forall j :: 0 <= j < k.value ==> approvals[j].subject.tool != tool
  {
    if approvals != [] {
      var n := |approvals| - 1;
      FirstApproval(approvals[..n], tool);
      var front := ApprovalFor(approvals[..n], tool);
      if front.Some? {
        assert forall j :: 0 <= j < front.value ==> approvals[j] == approvals[..n][j];
      } else {
        assert forall j :: 0 <= j < n ==> approvals[j] == approvals[..n][j];
      }
    }
  }

  /** A new process holds no permit. */
  method ForgetPermit(s: Session, worker: TaskStore.Worker)
    requires s.Valid()
    modifies s`db
    ensures s.Valid() && s.db == old(s.db).(permits := old(s.db).permits - {worker})
  {
    s.Do(Crash(0, worker));
  }

  /** The approval that decides about the task: in PLANNING the first one of its tool, or a new one; while it waits the
      first undecided one, or else the first one. */
  ghost predicate Decides(env: Env, db: Db, visit: Visit, row: Approval) {
    if db.status.WaitingApproval? then
      if exists j :: 0 <= j < |db.approvals| && db.approvals[j].decision.Undecided? then
        exists k :: 0 <= k < |db.approvals| && row == db.approvals[k] && row.decision.Undecided? &&
          forall j :: 0 <= j < k ==> !db.approvals[j].decision.Undecided?
      else db.approvals != [] && row == db.approvals[0]
    else if exists j :: 0 <= j < |db.approvals| && db.approvals[j].subject.tool == visit.subject.tool then
      exists k :: 0 <= k < |db.approvals| && row == db.approvals[k] && row.subject.tool == visit.subject.tool &&
        forall j :: 0 <= j < k ==> db.approvals[j].subject.tool != visit.subject.tool
    else row == Requested(env, visit.subject, visit.risk, visit.now)
  }

  lemma {:induction false} OneDecides(env: Env, db: Db, visit: Visit, a: Approval, b: Approval)
    requires Decides(env, db, visit, a) && Decides(env, db, visit, b)
    ensures a == b
  {
  }

  /** The gate of a task in PLANNING or WAITING_APPROVAL; true when it was dispatched. */
  method Approve(s: Session, visit: Visit) returns (dispatched: bool)
    requires s.Valid() && (s.db.status.Planning? || s.db.status.WaitingApproval?)
    modifies s
    ensures Safe(s, old(s.trace)) && s.log == old(s.log) && s.deaths >= old(s.deaths)
    ensures Undone(s)
    ensures dispatched ==> s.db.status.ToolExecuting? && !s.db.cancel && StartedWork(old(Now(s)), Now(s)) && !Died(s)
    ensures !Died(s) && !old(s.db).cancel ==> forall row :: Decides(s.env, old(s.db), visit, row) ==>
      (dispatched <==> Entitled(s.env, old(s.db).grants, row, visit.now, visit.storeOk))
  {
    hide Coherent, Entitled, AllPromising;
    ghost var db0 := s.db;
    var k: nat := 0;
    if s.db.status.Planning? {
      k := AskApproval(s, visit.subject, visit.risk, visit.now);
    } else {
      // the branch without any approval row would dispatch unchecked; no reachable state takes it
      SessionGate(s);
      k := ResumeOn(s.db.approvals, 0).value;
    }
    assert Decides(s.env, db0, visit, s.db.approvals[k]);
    forall row | Decides(s.env, db0, visit, row) ensures row == s.db.approvals[k] {
      OneDecides(s.env, db0, visit, row, s.db.approvals[k]);
    }
    dispatched := PassGate(s, visit.worker, k, visit.now, visit.timedOut, visit.storeOk);
  }

  predicate BeforeGate(status: TaskState) {
    status.Received? || status.Queued? || status.Planning? || status.WaitingApproval?
  }

  /** The task is past the gate, or the approval that decides about it entitles it. */
  ghost predicate Admitted(env: Env, db: Db, visit: Visit) {
    BeforeGate(db.status) ==>
      exists row :: Decides(env, db, visit, row) && Entitled(env, db.grants, row, visit.now, visit.storeOk)
  }

  lemma {:induction false} SomeDecides(env: Env, db: Db, visit: Visit) returns (row: Approval)
    requires db.status.WaitingApproval? ==> db.approvals != []
    ensures Decides(env, db, visit, row)
  {
    if db.status.WaitingApproval? {
      row := db.approvals[ResumeOn(db.approvals, 0).value];
    } else {
      FirstApproval(db.approvals, visit.subject.tool);
      var k := ApprovalFor(db.approvals, visit.subject.tool);
      row := if k.Some? then db.approvals[k.value] else Requested(env, visit.subject, visit.risk, visit.now);
    }
  }

  /** Admission changes nothing that decides about the task. */
  lemma {:induction false} AdmittedLater(env: Env, db0: Db, db: Db, visit: Visit)
    requires db.approvals == db0.approvals && db.grants == db0.grants
    requires db.status == if db0.status.Received? || db0.status.Queued? then Planning else db0.status
    ensures Admitted(env, db, visit) <==> Admitted(env, db0, visit)
    ensures forall row :: Decides(env, db, visit, row) <==> Decides(env, db0, visit, row)
  {
  }

  /** Up to the execution: true when the task may be executed or was executed before. */
  method Prepare(s: Session, visit: Visit) returns (ready: bool)
    requires s.Valid()
    modifies s
    ensures Safe(s, old(s.trace)) && s.log == old(s.log) && s.deaths >= old(s.deaths)
    ensures Undone(s)
    ensures ready ==> StartedWork(old(Now(s)), Now(s)) && !Died(s)
    ensures !Died(s) && !old(s.db).cancel ==> (ready <==> Admitted(s.env, old(s.db), visit))
    ensures ready && !old(s.db).cancel ==> !s.db.cancel
    ensures ready ==> s.db.status == (if BeforeGate(old(s.db).status) then ToolExecuting else old(s.db).status)
  {
    hide Coherent, Entitled, Decides, AllPromising;
    ghost var (t0, db0) := (s.trace, s.db);
    ForgetPermit(s, visit.worker);
    ready := Admit(s);
    if !ready {
      return;
    }
    AdmittedLater(s.env, db0, s.db, visit);
    ghost var t1 := s.trace;
    if s.db.status.Planning? || s.db.status.WaitingApproval? {
      SessionGate(s);
      ghost var row := SomeDecides(s.env, s.db, visit);
      forall other | Decides(s.env, s.db, visit, other) ensures other == row {
        OneDecides(s.env, s.db, visit, other, row);
      }
      ready := Approve(s, visit);
      Onwards(t0, t1, s.trace);
    }
  }

  /** The verifier, on its own connection: it may finish the task, fail it, or do neither. */
  method VerifierCommits(s: Session, commits: Commits) returns (alive: bool)
    requires s.Valid() && s.db.status.Verifying?
    modifies s
    ensures Safe(s, old(s.trace)) && s.log == old(s.log) && s.deaths >= old(s.deaths)
    ensures alive <==> !Died(s)
    ensures alive && commits.Finishes? && old(s.db).artifacts != [] ==> s.db.status.Done?
    ensures alive && commits.Fails? ==> MovedIfAllowed(old(s.db), s.db, Failed)
    ensures alive && (commits.NoChange? || (commits.Finishes? && old(s.db).artifacts == [])) ==> s.db == old(s.db)
    ensures alive && s.db.status.Done? ==> commits.Finishes?
  {
    match commits {
      case Finishes => s.Do(Finalize(0));
      case Fails => s.Do(Transition(0, Failed));
      case NoChange =>
    }
    alive := s.CommitRows();
  }

  /** Whatever the verifier answers or fails to answer, a task that it left in VERIFYING without saying DONE fails. True
      when the task has its final state. */
  method RequestVerification(s: Session, commits: Commits, saysDone: bool) returns (ended: bool)
    requires s.Valid() && s.db.status.Verifying?
    modifies s
    ensures Safe(s, old(s.trace)) && s.log == old(s.log) && s.deaths >= old(s.deaths)
    ensures ended ==> s.db.status.Done? || s.db.status.Failed?
    ensures !Died(s) && !old(s.db).cancel && old(s.db).artifacts != [] ==>
      s.db.status == match commits
                     case Finishes => Done
                     case Fails => Failed
                     case NoChange => if saysDone then Verifying else Failed
    ensures !Died(s) && s.db.status.Done? ==> commits.Finishes?
    ensures !Died(s) && !old(s.db).cancel ==> (ended <==> !s.db.status.Verifying?)
  {
    hide Coherent;
    ended := VerifierCommits(s, commits);
    if !ended {
      return;
    }
    ended := !s.db.status.Verifying?;
    if ended || saysDone {
      return;
    }
    ghost var t1 := s.trace;
    ended := MoveAndCommit(s, Failed);
    Onwards(old(s.trace), t1, s.trace);
  }

  /** A run from here brings the task to verification. */
  ghost predicate ComesToVerification(env: Env, v: View, visit: Visit, max: int) {
    && Admitted(env, v.db, visit)
    && match v.db.status
       case Observing => true
       case Verifying => true
       case Received | Queued | Planning | WaitingApproval | ToolExecuting =>
         !visit.sensitive && AllPromising(v, visit.world, max)
       case _ => false
  }

  /** One run of the worker, from any committed state. Wherever it dies, no applied operation is touched and no tool of
      one runs again; the tool of a step runs at most once more than it has retries left, and not at all when the step
      is completed or its operation applied; a DONE task has the evidence of every step. Unless it dies, it makes an
      open task DONE exactly if the task is past the approval gate or entitled to pass it, its execution is not
      sensitive, every step comes through, and the verifier finishes it. */
  method Resume(s: Session, visit: Visit) returns (ended: bool)
    requires s.Valid() && s.db.steps != []
    modifies s
    ensures Safe(s, old(s.trace)) && s.deaths >= old(s.deaths)
    ensures Kept(old(Point(s.ops, s.log)), Point(s.ops, s.log)) && Faithful(s.db, s.ops)
    ensures WithinQuota(old(Now(s)), s.maxRetries, s.log)
    ensures ended ==> Terminal(s.db.status) || s.db.cancel
    ensures Observed(s.db.status) ==> AllCompleted(s.db)
    ensures old(s.db).cancel || Terminal(old(s.db).status) ==> Now(s) == old(Now(s))
    ensures !Died(s) && !old(s.db).cancel && !Terminal(old(s.db).status) ==>
      (s.db.status.Done? <==>
        ComesToVerification(s.env, old(Now(s)), visit, s.maxRetries) && visit.verifier.Finishes?)
    ensures visit.sensitive ==> s.log == old(s.log)
  {
    ghost var (t0, v0) := (s.trace, Now(s));
    NothingExecuted(v0, s.maxRetries);
    ended := s.db.cancel || Terminal(s.db.status);
    if !ended {
      ended := Advance(s, visit);
    }
    KeptSince(t0, Point(v0.ops, v0.log), s.trace, Point(s.ops, s.log));
    ReachedFacts(s.env, s.init, s.db);
  }

  /** A run of a task that has not ended. */
  method Advance(s: Session, visit: Visit) returns (ended: bool)
    requires s.Valid() && s.db.steps != [] && !s.db.cancel && !Terminal(s.db.status)
    modifies s
    ensures Safe(s, old(s.trace)) && WithinQuota(old(Now(s)), s.maxRetries, s.log) && s.deaths >= old(s.deaths)
    ensures ended ==> Terminal(s.db.status)
    ensures !Died(s) ==>
      (s.db.status.Done? <==>
        ComesToVerification(s.env, old(Now(s)), visit, s.maxRetries) && visit.verifier.Finishes?)
    ensures visit.sensitive ==> s.log == old(s.log)
  {
    hide Coherent, WithinQuota, AllPromising, Admitted, StartedWork;
    ghost var (t0, v0) := (s.trace, Now(s));
    SameLength(s);
    NothingExecuted(v0, s.maxRetries);
    ended := false;
    var ready := Prepare(s, visit);
    if !ready {
      LogUnchanged(v0, s.maxRetries, s.log);
      return;
    }
    ghost var (t1, v1) := (s.trace, Now(s));
    StartedKeeps(v0, v1);
    SameLength(s);
    var verifying := Execute(s, visit);
    ghost var t2 := s.trace;
    SameQuota(v0, v1, s.maxRetries, s.log);
    Onwards(t0, t1, t2);
    if verifying {
      ended := RequestVerification(s, visit.verifier, visit.saysDone);
      Onwards(t0, t2, s.trace);
    }
  }

  lemma {:induction false} LogUnchanged(v: View, max: int, log: seq<nat>)
    requires log == v.log
    ensures WithinQuota(v, max, log)
  {
  }

  /** No tool of the first `n` steps ran more than `times` times since. */
  predicate AtMost(log: seq<nat>, log0: seq<nat>, n: nat, times: int) {
    forall i :: 0 <= i < n ==> Count(log, i) <= Count(log0, i) + times
  }

  /** A run executes each tool at most once more than there are retries at all. */
  lemma {:induction false} OneRunMore(v: View, max: int, log: seq<nat>, log0: seq<nat>, runs: nat)
    requires WithinQuota(v, max, log) && AtMost(v.log, log0, |v.retries|, runs * (Room(0, max) + 1))
    ensures AtMost(log, log0, |v.retries|, (runs + 1) * (Room(0, max) + 1))
  {
    var perRun := Room(0, max) + 1;
    assert (runs + 1) * perRun == runs * perRun + perRun;
    forall i | 0 <= i < |v.retries| ensures Count(log, i) <= Count(v.log, i) + perRun {
      assert Allowed(v, max, i) <= perRun;
    }
  }

  /** What gateway and verifier do to the task on their own connections. */
  predicate ByOthers(a: Action) {
    a.Decide? || a.Cancel? || a.Finalize? || (a.Transition? && a.target.Failed?)
  }

  method OtherActs(s: Session, a: Action)
    requires s.Valid() && ByOthers(a)
    modifies s
    ensures Safe(s, old(s.trace)) && s.log == old(s.log)
  {
    s.Do(a);
    var committed := s.CommitRows();
  }

  /** Any committed actions of the owner, the gateway and the verifier. */
  method OthersAct(s: Session, actions: seq<Action>)
    requires s.Valid() && forall i :: 0 <= i < |actions| ==> ByOthers(actions[i])
    modifies s
    ensures Safe(s, old(s.trace)) && s.log == old(s.log)
  {
    hide ByOthers;
    ghost var t0 := s.trace;
    for i := 0 to |actions|
      invariant Safe(s, t0) && s.log == old(s.log)
    {
      ghost var t1 := s.trace;
      OtherActs(s, actions[i]);
      Onwards(t0, t1, s.trace);
    }
  }

  /** Any number of runs, each one resuming what the one before left committed when it ended or died and what the owner,
      the gateway and the verifier made of it since: over all of them no applied operation was ever changed, no tool of
      one ever ran again, and no tool ran more often than once per run and retry. */
  method ResumeRepeatedly(s: Session, runs: nat, visits: nat -> Visit, others: nat -> seq<Action>)
    requires s.Valid() && s.db.steps != [] && forall k: nat, i :: 0 <= i < |others(k)| ==> ByOthers(others(k)[i])
    modifies s
    ensures Safe(s, old(s.trace)) && NeverAgain(s.trace) && Faithful(s.db, s.ops)
    ensures Kept(old(Point(s.ops, s.log)), Point(s.ops, s.log))
    ensures AtMost(s.log, old(s.log), |s.db.steps|, runs * (Room(0, s.maxRetries) + 1))
  {
    ghost var (t0, log0) := (s.trace, s.log);
    ReachedFacts(s.env, s.init, s.db);
    for k := 0 to runs
      invariant Safe(s, t0)
      invariant AtMost(s.log, log0, |s.init.steps|, k * (Room(0, s.maxRetries) + 1))
    {
      ghost var t1 := s.trace;
      OthersAct(s, others(k));
      ghost var t2 := s.trace;
      ResumeOnce(s, k, log0, visits(k));
      Onwards(t1, t2, s.trace);
    }
    KeptSince(t0, old(Point(s.ops, s.log)), s.trace, Point(s.ops, s.log));
    ReachedFacts(s.env, s.init, s.db);
  }

  method ResumeOnce(s: Session, ghost k: nat, ghost log0: seq<nat>, visit: Visit)
    requires s.Valid() && s.init.steps != [] && AtMost(s.log, log0, |s.init.steps|, k * (Room(0, s.maxRetries) + 1))
    modifies s
    ensures Safe(s, old(s.trace))
    ensures AtMost(s.log, log0, |s.init.steps|, (k + 1) * (Room(0, s.maxRetries) + 1))
  {
    ghost var v := Now(s);
    ReachedFacts(s.env, s.init, s.db);
    var ended := Resume(s, visit);
    OneRunMore(v, s.maxRetries, s.log, log0, k);
  }
}
