/** The task row and the tables around it: what every caller's transaction does to them, when
    the caller decides on a snapshot that may be stale. */
module TaskStore {
  import opened Basics

  // ---- The transition graph ----

  datatype TaskState =
    | Created | Received | Queued | Planning | Ready | WaitingApproval | ToolExecuting | Observing | Verifying
    | RetryScheduled | ReplanRequested | WaitingUser | Paused
    | Done | Failed | Blocked | Cancelled | Timeout | PolicyDenied

  datatype StepState = Pending | Running | Completed | StepFailed | StepCancelled

  predicate Terminal(s: TaskState) {
    s.Done? || s.Failed? || s.Blocked? || s.Cancelled? || s.Timeout? || s.PolicyDenied?
  }

  /** The edges of the repository API; DONE is not among them. */
  predicate TaskEdge(from: TaskState, to: TaskState) {
    match from
    case Created | Received => to.Queued? || to.Cancelled?
    case Queued => to.Planning? || to.Cancelled?
    case Planning => to.Ready? || to.WaitingApproval? || to.ToolExecuting? || to.Cancelled? || to.PolicyDenied?
    case Ready => to.ToolExecuting? || to.Cancelled?
    case WaitingApproval => to.ToolExecuting? || to.PolicyDenied? || to.Cancelled?
    case ToolExecuting => to.Observing? || to.Paused? || to.Failed? || to.Blocked? || to.Timeout? || to.Cancelled?
    case Observing => to.Verifying? || to.Failed? || to.Cancelled?
    case Verifying =>
      to.RetryScheduled? || to.ReplanRequested? || to.WaitingUser? || to.WaitingApproval? || to.Failed? ||
        to.Blocked? || to.Cancelled?
    case RetryScheduled => to.ToolExecuting? || to.Failed? || to.Cancelled?
    case ReplanRequested => to.Planning? || to.Failed? || to.Cancelled?
    case WaitingUser => to.Planning? || to.Cancelled?
    case Paused => to.ToolExecuting? || to.Cancelled?
    case _ => false
  }

  predicate StepEdge(from: StepState, to: StepState) {
    || (from.Pending? && (to.Running? || to.StepCancelled?))
    || (from.Running? && (to.Completed? || to.StepFailed? || to.StepCancelled?))
  }

  // ---- Rows ----

  datatype Step = Step(index: int, status: StepState, revision: nat)

  datatype Row =
    | TaskRow(from: Option<TaskState>, to: TaskState)
    | StepRow(step: nat, before: StepState, after: StepState)

  datatype Effect = Effect(path: string, sha256: string, size: int)

  datatype Artifact = Artifact(step: nat, effect: Effect)

  datatype Risk = Low | Medium | High

  datatype Decision = Undecided | Approved | Denied

  type Token = nat
  type Worker = nat

  /** What is approved: a tool, and the digest of its arguments. */
  datatype Subject = Subject(tool: string, arguments: string)

  datatype Approval = Approval(
    subject: Subject, decision: Decision, decidedBy: string, decidedAt: Option<int>, token: Option<Token>, risk: Risk)

  datatype Grant = Grant(actor: string, subject: Subject, expiresAt: int, consumed: bool)

  /** What a worker holds between the approval check and its dispatch. */
  datatype Permit = Permit(approval: Approval, at: int)

  /** `progress` lists the journal rows with a progress message in the outbox, `results` the channels with a result
      message; `dispatched` records the permits that were spent on entering TOOL_EXECUTING. */
  datatype Db = Db(
    status: TaskState,
    revision: nat,
    cancel: bool,
    steps: seq<Step>,
    journal: seq<Row>,
    progress: seq<nat>,
    results: seq<string>,
    artifacts: seq<Artifact>,
    approvals: seq<Approval>,
    grants: map<Token, Grant>,
    permits: map<Worker, Permit>,
    dispatched: seq<Permit>)

  /** Configuration: the names of the result channels as they are written, `strip().lower()`, and the confirmation
      policy. */
  datatype Env = Env(channels: seq<string>, normal: string -> string, auto: Risk -> bool)

  const APPROVAL_GRANT_TTL_SECONDS := 3600

  // ---- Transactions ----

  /** One journalled change of the task row, with its progress message. */
  function Moved(db: Db, to: TaskState): Db {
    db.(status := to, revision := db.revision + 1,
        journal := db.journal + [TaskRow(Some(db.status), to)],
        progress := db.progress + [|db.journal|])
  }

  /** `check_task_transition` and the revision compare-and-swap, decided on the snapshot. */
  predicate MayMove(db: Db, seen: Db, to: TaskState) {
    && TaskEdge(seen.status, to) && (seen.cancel ==> to.Cancelled?)
    && db.revision == seen.revision
  }

  function MovedStep(db: Db, i: nat, to: StepState): Db
    requires i < |db.steps|
  {
    db.(steps := db.steps[i := db.steps[i].(status := to, revision := db.steps[i].revision + 1)],
        journal := db.journal + [StepRow(i, db.steps[i].status, to)],
        progress := db.progress + [|db.journal|])
  }

  /** `check_step_transition` and the step's own compare-and-swap. */
  predicate MayMoveStep(db: Db, seen: Db, i: nat, to: StepState) {
    && i < |db.steps| && i < |seen.steps|
    && StepEdge(seen.steps[i].status, to) && db.steps[i].revision == seen.steps[i].revision
  }

  predicate Open(s: StepState) {
    s.Pending? || s.Running?
  }

  /** Every open step of the snapshot can still be cancelled. */
  predicate MayCancelSteps(db: Db, seen: Db, from: nat)
    requires from <= |seen.steps|
    decreases |seen.steps| - from
  {
    || from == |seen.steps|
    || ((Open(seen.steps[from].status) ==> MayMoveStep(db, seen, from, StepCancelled)) &&
      MayCancelSteps(db, seen, from + 1))
  }

  function CancelledSteps(db: Db, seen: Db, from: nat): (r: Db)
    requires from <= |seen.steps| == |db.steps|
    ensures |r.steps| == |db.steps|
    decreases |seen.steps| - from
  {
    if from == |seen.steps| then db
    else CancelledSteps(
      if Open(seen.steps[from].status) then MovedStep(db, from, StepCancelled) else db, seen, from + 1)
  }

  /** `verify_and_consume_stored` accepts the token. */
  predicate GrantValid(db: Db, approval: Approval, now: int)
    requires approval.token.Some?
  {
    && approval.token.value in db.grants
    && var grant := db.grants[approval.token.value];
       now < grant.expiresAt && !grant.consumed && grant.actor == approval.decidedBy &&
         grant.subject == approval.subject
  }

  /** The first approval of this tool, which `request_approval` takes instead of adding another one. */
  function ApprovalFor(approvals: seq<Approval>, tool: string): (k: Option<nat>)
    ensures k.Some? ==> k.value < |approvals| && approvals[k.value].subject.tool == tool
    ensures k.None? ==> forall j :: 0 <= j < |approvals| ==> approvals[j].subject.tool != tool
  {
    if approvals == [] then None
    else
      var n := |approvals| - 1;
      var front := ApprovalFor(approvals[..n], tool);
      if front.Some? then front else if approvals[n].subject.tool == tool then Some(n) else None
  }

  /** `_verify_and_consume_approval` returns True. */
  predicate MayAuthorize(env: Env, db: Db, approval: Approval, now: int) {
    && approval.decision.Approved?
    && (approval.decidedAt.Some? ==> now - approval.decidedAt.value <= APPROVAL_GRANT_TTL_SECONDS)
    && if approval.token.Some? then GrantValid(db, approval, now) else env.auto(approval.risk)
  }

  function Consumed(db: Db, approval: Approval): Db {
    if approval.token.Some? && approval.token.value in db.grants then
      db.(grants := db.grants[approval.token.value := db.grants[approval.token.value].(consumed := true)])
    else db
  }

  /** `list(dict.fromkeys(...))` */
  function Dedup(names: seq<string>): seq<string> {
    if names == [] then []
    else
      var front := Dedup(names[..|names| - 1]);
      if names[|names| - 1] in front then front else front + [names[|names| - 1]]
  }

  predicate NamesChannel(env: Env, name: string) {
    name != "" && env.normal(name) != ""
  }

  /** The normalised names; blank ones do not count. */
  function Normalised(env: Env, names: seq<string>): seq<string> {
    if names == [] then []
    else
      var last := names[|names| - 1];
      Normalised(env, names[..|names| - 1]) + if NamesChannel(env, last) then [env.normal(last)] else []
  }

  function ResultChannels(env: Env): seq<string> {
    var channels := Dedup(Normalised(env, env.channels));
    if channels == [] then ["telegram"] else channels
  }

  /** The verifier's transaction: status, its own journal row without progress message, and the result fan-out. */
  function Finalized(env: Env, db: Db): Db {
    db.(status := Done, revision := db.revision + 1,
        journal := db.journal + [TaskRow(Some(Verifying), Done)],
        results := db.results + ResultChannels(env))
  }

  // ---- Actions ----

  /** `seenAt` is the committed state that the caller read; it may be any earlier one. */
  datatype Action =
    | Transition(seenAt: nat, target: TaskState)
    | StepTransition(seenAt: nat, i: nat, to: StepState)
    | Complete(seenAt: nat, i: nat, effect: Effect)
    | RequestApproval(seenAt: nat, subject: Subject, risk: Risk, now: int)
    | Authorize(seenAt: nat, worker: Worker, k: nat, now: int)
    | Dispatch(seenAt: nat, worker: Worker)
    | DispatchUnchecked(seenAt: nat)
    | Crash(seenAt: nat, worker: Worker)
    | Decide(seenAt: nat, k: nat, approve: bool, owner: string, now: int, token: Token)
    | Cancel(seenAt: nat)
    | Finalize(seenAt: nat)

  function Apply(env: Env, db: Db, seen: Db, a: Action): Db {
    match a
    case Transition(_, target) => if MayMove(db, seen, target) then Moved(db, target) else db
    case StepTransition(_, i, to) => if MayMoveStep(db, seen, i, to) then MovedStep(db, i, to) else db
    case Complete(_, i, effect) =>
      if MayMoveStep(db, seen, i, Completed) then
        MovedStep(db, i, Completed).(artifacts := db.artifacts + [Artifact(i, effect)])
      else db
    case RequestApproval(_, subject, risk, now) =>
      if ApprovalFor(seen.approvals, subject.tool).Some? then db
      else if env.auto(risk) then
        db.(approvals := db.approvals + [Approval(subject, Approved, "policy", Some(now), None, risk)])
      else db.(approvals := db.approvals + [Approval(subject, Undecided, "", None, None, risk)])
    case Authorize(_, worker, k, now) =>
      if k < |seen.approvals| && MayAuthorize(env, db, seen.approvals[k], now) then
        Consumed(db, seen.approvals[k]).(permits := db.permits[worker := Permit(seen.approvals[k], now)])
      else db
    case Dispatch(_, worker) =>
      if worker !in db.permits then db
      else
        var spent := db.(permits := db.permits - {worker});
        if MayMove(db, seen, ToolExecuting) then
          Moved(spent, ToolExecuting).(dispatched := db.dispatched + [db.permits[worker]])
        else spent
    case DispatchUnchecked(_) =>
      // the branch for WAITING_APPROVAL without any approval row
      if seen.status.WaitingApproval? && seen.approvals == [] && MayMove(db, seen, ToolExecuting) then
        Moved(db, ToolExecuting)
      else db
    case Crash(_, worker) => db.(permits := db.permits - {worker})
    case Decide(_, k, approve, owner, now, token) =>
      if k < |seen.approvals| && k < |db.approvals| && seen.approvals[k].decision.Undecided? &&
        (approve ==> token !in db.grants) then
        if approve then
          var row := db.approvals[k];
          db.(approvals := db.approvals[k := Approval(row.subject, Approved, owner, Some(now), Some(token), row.risk)],
              grants := db.grants[token := Grant(owner, row.subject, now + APPROVAL_GRANT_TTL_SECONDS, false)])
        else
          var row := db.approvals[k];
          db.(approvals := db.approvals[k := row.(decision := Denied, decidedBy := owner, decidedAt := Some(now))])
      else db
    case Cancel(_) =>
      if Terminal(seen.status) || Terminal(db.status) || |seen.steps| != |db.steps| || !MayCancelSteps(db, seen, 0) then
        db
      else Moved(CancelledSteps(db, seen, 0), Cancelled).(cancel := true)
    case Finalize(_) =>
      if seen.status.Verifying? && seen.artifacts != [] && db.status.Verifying? && db.revision == seen.revision then
        Finalized(env, db)
      else db
  }

  // ---- Runs ----

  /** What `create` commits. */
  predicate Fresh(db: Db) {
    && db.status.Received? && db.revision == 0 && !db.cancel
    && db.journal == [TaskRow(None, Received)] && db.progress == [0]
    && db.results == [] && db.artifacts == [] && db.approvals == [] && db.grants == map[] && db.permits == map[] &&
      db.dispatched == []
    && forall i :: 0 <= i < |db.steps| ==> db.steps[i].status.Pending? && db.steps[i].revision == 0
  }

  /** All committed states of a run, the latest last; callers interleave in any way. */
  function History(env: Env, init: Db, actions: seq<Action>): (h: seq<Db>)
    ensures |h| == |actions| + 1
  {
    if actions == [] then [init]
    else
      var n := |actions| - 1;
      var h := History(env, init, actions[..n]);
      h + [Apply(env, h[n], Seen(h, actions[n]), actions[n])]
  }

  function Seen(h: seq<Db>, a: Action): Db
    requires h != []
  {
    if a.seenAt < |h| then h[a.seenAt] else h[|h| - 1]
  }
}
