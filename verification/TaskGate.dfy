/** What the orchestrator's program order adds: the approval gate and the recovery invariant, over every
    interleaving of any number of workers (overlapping ones included), gateway and verifier, with a crash
    possible between any two commits. */
module TaskGate {
  import opened Basics
  import opened TaskStore

  // ---- The discipline of the callers ----

  predicate AllCompleted(db: Db) {
    forall i :: 0 <= i < |db.steps| ==> db.steps[i].status.Completed?
  }

  /** `_recover_or_execute` comes to step `i` only after the steps with a smaller index. */
  predicate EarlierCompleted(db: Db, i: nat) {
    i < |db.steps| && forall j :: 0 <= j < |db.steps| && db.steps[j].index < db.steps[i].index ==>
      db.steps[j].status.Completed?
  }

  /** What orchestrator, gateway and verifier check, on their own snapshot, before they ask for the change.
      TOOL_EXECUTING is entered by the dispatch only, COMPLETED together with its artifact only. */
  predicate Disciplined(seen: Db, a: Action) {
    match a
    case Transition(_, target) =>
      || target.Queued? || target.Planning? || target.PolicyDenied? || target.Verifying?
      || target.Failed? || target.Timeout? || target.Blocked? || target.Cancelled?
      || (target.WaitingApproval? && seen.status.Planning? && seen.approvals != [])
      || (target.Observing? && AllCompleted(seen))
    case StepTransition(_, _, to) => !to.Completed?
    case Complete(_, i, _) => EarlierCompleted(seen, i)
    case _ => true
  }

  predicate DisciplinedRun(env: Env, init: Db, actions: seq<Action>) {
    actions == [] ||
    (var n := |actions| - 1;
     DisciplinedRun(env, init, actions[..n]) &&
       Disciplined(Seen(History(env, init, actions[..n]), actions[n]), actions[n]))
  }

  // ---- The approval gate ----

  /** How often the task entered TOOL_EXECUTING. */
  function Claims(journal: seq<Row>): nat {
    if journal == [] then 0
    else
      var n := |journal| - 1;
      Claims(journal[..n]) + if journal[n].TaskRow? && journal[n].to.ToolExecuting? then 1 else 0
  }

  /** The permit rests on an approval that was APPROVED and no older than the TTL when it was checked, with a token
      or at a risk that needs none. */
  predicate Justified(env: Env, p: Permit) {
    && p.approval.decision.Approved?
    && p.approval.decidedAt.Some? && p.at - p.approval.decidedAt.value <= APPROVAL_GRANT_TTL_SECONDS
    && (p.approval.token.None? ==> env.auto(p.approval.risk))
  }

  /** The token was consumed, and its grant was issued by the deciding owner for what the approval names. */
  predicate TokenUsed(db: Db, p: Permit) {
    p.approval.token.Some? ==>
      && p.approval.token.value in db.grants
      && var grant := db.grants[p.approval.token.value];
         grant.consumed && grant.actor == p.approval.decidedBy && grant.subject == p.approval.subject
  }

  predicate SameToken(p: Permit, q: Permit) {
    p.approval.token.Some? && p.approval.token == q.approval.token
  }

  predicate Dated(db: Db) {
    forall k :: 0 <= k < |db.approvals| && db.approvals[k].decision.Approved? ==> db.approvals[k].decidedAt.Some?
  }

  /** No token stands behind two permits, spent or not. */
  predicate TokensOnce(db: Db) {
    && (forall i, j :: 0 <= i < j < |db.dispatched| ==> !SameToken(db.dispatched[i], db.dispatched[j]))
    && (forall w, i :: w in db.permits && 0 <= i < |db.dispatched| ==> !SameToken(db.permits[w], db.dispatched[i]))
    && (forall w, v :: w in db.permits && v in db.permits && w != v ==> !SameToken(db.permits[w], db.permits[v]))
  }

  predicate Backed(env: Env, db: Db) {
    && (forall i :: 0 <= i < |db.dispatched| ==> Justified(env, db.dispatched[i]) && TokenUsed(db, db.dispatched[i]))
    && (forall w :: w in db.permits ==> Justified(env, db.permits[w]) && TokenUsed(db, db.permits[w]))
  }

  predicate Gate(env: Env, db: Db) {
    && (db.status.WaitingApproval? ==> db.approvals != [])
    && Dated(db) && Backed(env, db) && TokensOnce(db)
    && Claims(db.journal) == |db.dispatched|
  }

  lemma {:induction false} ClaimsAppend(journal: seq<Row>, row: Row)
    ensures Claims(journal + [row]) == Claims(journal) + if row.TaskRow? && row.to.ToolExecuting? then 1 else 0
  {
  }

  /** The columns of the gate are untouched. */
  predicate SameGate(a: Db, b: Db) {
    a.approvals == b.approvals && a.grants == b.grants && a.permits == b.permits && a.dispatched == b.dispatched
  }

  lemma {:induction false} SameGateKeeps(env: Env, a: Db, b: Db)
    requires Gate(env, a) && SameGate(a, b) && Claims(b.journal) == Claims(a.journal)
    requires b.status.WaitingApproval? ==> b.approvals != []
    ensures Gate(env, b)
  {
  }

  lemma {:induction false} GateMoved(env: Env, db: Db, to: TaskState)
    requires Gate(env, db) && !to.ToolExecuting? && (to.WaitingApproval? ==> db.approvals != [])
    ensures Gate(env, Moved(db, to))
  {
  }

  lemma {:induction false} GateMovedStep(env: Env, db: Db, i: nat, to: StepState)
    requires Gate(env, db) && i < |db.steps|
    ensures Gate(env, MovedStep(db, i, to))
  {
  }

  lemma {:induction false} GateCancelledSteps(env: Env, db: Db, seen: Db, from: nat)
    requires Gate(env, db) && from <= |seen.steps| == |db.steps|
    ensures Gate(env, CancelledSteps(db, seen, from)) && SameGate(db, CancelledSteps(db, seen, from))
    decreases |seen.steps| - from
  {
    if from < |seen.steps| {
      if Open(seen.steps[from].status) {
        GateMovedStep(env, db, from, StepCancelled);
        GateCancelledSteps(env, MovedStep(db, from, StepCancelled), seen, from + 1);
      } else {
        GateCancelledSteps(env, db, seen, from + 1);
      }
    }
  }

  lemma {:induction false} GateAuthorize(env: Env, db: Db, seen: Db, worker: Worker, k: nat, now: int)
    requires Gate(env, db) && Dated(seen) && k < |seen.approvals| && MayAuthorize(env, db, seen.approvals[k], now)
    ensures Gate(env, Apply(env, db, seen, Authorize(0, worker, k, now)))
  {
    var approval := seen.approvals[k];
    var p := Permit(approval, now);
    var after := Consumed(db, approval).(permits := db.permits[worker := p]);
    assert after == Apply(env, db, seen, Authorize(0, worker, k, now));
    assert Justified(env, p) && TokenUsed(after, p);
    forall i | 0 <= i < |db.dispatched| ensures TokenUsed(after, db.dispatched[i]) && !SameToken(p, db.dispatched[i]) {
      assert TokenUsed(db, db.dispatched[i]);
    }
    forall w | w in db.permits
      ensures TokenUsed(after, db.permits[w]) && !SameToken(p, db.permits[w]) && !SameToken(db.permits[w], p) {
      assert TokenUsed(db, db.permits[w]);
    }
  }

  lemma {:induction false} GateSpent(env: Env, db: Db, worker: Worker)
    requires Gate(env, db) && worker in db.permits
    ensures var p := db.permits[worker];
      var after := db.(permits := db.permits - {worker}, dispatched := db.dispatched + [p]);
      Dated(after) && Backed(env, after) && TokensOnce(after)
    ensures Gate(env, db.(permits := db.permits - {worker}))
  {
  }

  lemma {:induction false} GateDispatch(env: Env, db: Db, seen: Db, worker: Worker)
    requires Gate(env, db)
    ensures Gate(env, Apply(env, db, seen, Dispatch(0, worker)))
  {
    if worker in db.permits {
      GateSpent(env, db, worker);
      ClaimsAppend(db.journal, TaskRow(Some(db.status), ToolExecuting));
    }
  }

  /** Approval rows may change and grants may be added as long as approved rows stay dated. */
  lemma {:induction false} GateApprovalsChange(env: Env, db: Db, after: Db)
    requires Gate(env, db) && Dated(after) && (db.approvals != [] ==> after.approvals != [])
    requires after.status == db.status && after.journal == db.journal
    requires after.permits == db.permits && after.dispatched == db.dispatched
    requires forall g :: g in db.grants ==> g in after.grants && after.grants[g] == db.grants[g]
    ensures Gate(env, after)
  {
  }

  lemma {:induction false} GateDecide(env: Env, db: Db, seen: Db, a: Action)
    requires Gate(env, db) && a.Decide?
    ensures Gate(env, Apply(env, db, seen, a))
  {
    GateApprovalsChange(env, db, Apply(env, db, seen, a));
  }

  lemma {:induction false} GateCancel(env: Env, db: Db, seen: Db)
    requires Gate(env, db) && |seen.steps| == |db.steps|
    ensures Gate(env, Moved(CancelledSteps(db, seen, 0), Cancelled).(cancel := true))
  {
    GateCancelledSteps(env, db, seen, 0);
    var t := CancelledSteps(db, seen, 0);
    GateMoved(env, t, Cancelled);
    SameGateKeeps(env, Moved(t, Cancelled), Moved(t, Cancelled).(cancel := true));
  }

  lemma {:induction false} GateComplete(env: Env, db: Db, i: nat, effect: Effect)
    requires Gate(env, db) && i < |db.steps|
    ensures Gate(env, MovedStep(db, i, Completed).(artifacts := db.artifacts + [Artifact(i, effect)]))
  {
  }

  lemma {:induction false} GateFinalized(env: Env, db: Db)
    requires Gate(env, db)
    ensures Gate(env, Finalized(env, db))
  {
  }

  /** The actions that touch approvals, grants and permits. */
  predicate Approving(a: Action) {
    a.RequestApproval? || a.Authorize? || a.Dispatch? || a.Decide? || a.Crash?
  }

  lemma {:induction false} GateApproving(env: Env, db: Db, seen: Db, a: Action)
    requires Gate(env, db) && Dated(seen) && Approving(a)
    ensures Gate(env, Apply(env, db, seen, a))
  {
    if Apply(env, db, seen, a) == db {
    } else if a.RequestApproval? {
      GateRequest(env, db, seen, a);
    } else if a.Authorize? {
      GateAuthorize(env, db, seen, a.worker, a.k, a.now);
    } else if a.Dispatch? {
      GateDispatch(env, db, seen, a.worker);
    } else if a.Decide? {
      GateDecide(env, db, seen, a);
    } else {
      GateCrash(env, db, seen, a);
    }
  }

  /** Every disciplined action keeps the gate; the unchecked dispatch is never enabled. */
  lemma {:induction false} GateKept(env: Env, db: Db, seen: Db, a: Action)
    requires Gate(env, db) && Gate(env, seen) && Disciplined(seen, a) && |seen.approvals| <= |db.approvals|
    ensures Gate(env, Apply(env, db, seen, a))
  {
    if Approving(a) {
      GateApproving(env, db, seen, a);
    } else if Apply(env, db, seen, a) == db {
    } else if a.Transition? {
      GateMoved(env, db, a.target);
    } else if a.StepTransition? {
      GateMovedStep(env, db, a.i, a.to);
    } else if a.Complete? {
      GateComplete(env, db, a.i, a.effect);
    } else if a.Cancel? {
      GateCancel(env, db, seen);
    } else if a.Finalize? {
      GateFinalized(env, db);
    }
  }

  lemma {:induction false} ApprovalsGrow(env: Env, db: Db, seen: Db, a: Action)
    ensures |db.approvals| <= |Apply(env, db, seen, a).approvals|
  {
    if a.Cancel? && |seen.steps| == |db.steps| {
      CancelSameGate(db, seen, 0);
    }
  }

  lemma {:induction false} CancelSameGate(db: Db, seen: Db, from: nat)
    requires from <= |seen.steps| == |db.steps|
    ensures SameGate(db, CancelledSteps(db, seen, from))
    decreases |seen.steps| - from
  {
    if from < |seen.steps| {
      CancelSameGate(if Open(seen.steps[from].status) then MovedStep(db, from, StepCancelled) else db, seen, from + 1);
    }
  }

  lemma {:induction false} GateRequest(env: Env, db: Db, seen: Db, a: Action)
    requires Gate(env, db) && a.RequestApproval?
    ensures Gate(env, Apply(env, db, seen, a))
  {
    GateApprovalsChange(env, db, Apply(env, db, seen, a));
  }

  lemma {:induction false} GateCrash(env: Env, db: Db, seen: Db, a: Action)
    requires Gate(env, db) && a.Crash?
    ensures Gate(env, Apply(env, db, seen, a))
  {
  }

  // ---- The gate over whole runs ----

  /** In every state the gate holds, and approval rows are never removed. */
  predicate Gated(env: Env, h: seq<Db>) {
    && (forall i :: 0 <= i < |h| ==> Gate(env, h[i]))
    && (forall i, j :: 0 <= i <= j < |h| ==> |h[i].approvals| <= |h[j].approvals|)
  }

  lemma {:induction false} GatedAt(env: Env, h: seq<Db>, i: nat, j: nat)
    requires Gated(env, h) && i <= j < |h|
    ensures Gate(env, h[i]) && Gate(env, h[j]) && |h[i].approvals| <= |h[j].approvals|
  {
  }

  lemma {:induction false} GatedAppend(env: Env, h: seq<Db>, next: Db)
    requires h != [] && Gated(env, h) && Gate(env, next) && |h[|h| - 1].approvals| <= |next.approvals|
    ensures Gated(env, h + [next])
  {
  }

  lemma {:induction false} FreshGate(env: Env, init: Db)
    requires Fresh(init)
    ensures Gated(env, [init])
  {
    assert Claims(init.journal[..0]) == 0;
    assert Gate(env, init);
  }

  lemma {:induction false} RunIsGated(env: Env, init: Db, actions: seq<Action>)
    requires Fresh(init) && DisciplinedRun(env, init, actions)
    ensures Gated(env, History(env, init, actions))
  {
    if actions == [] {
      FreshGate(env, init);
    } else {
      var n := |actions| - 1;
      var h := History(env, init, actions[..n]);
      RunIsGated(env, init, actions[..n]);
      var seenAt := if actions[n].seenAt < |h| then actions[n].seenAt else n;
      GatedAt(env, h, seenAt, n);
      GateKept(env, h[n], h[seenAt], actions[n]);
      ApprovalsGrow(env, h[n], h[seenAt], actions[n]);
      GatedAppend(env, h, Apply(env, h[n], h[seenAt], actions[n]));
    }
  }

  /** Up to state `k` this very approval was a row of the task. */
  ghost predicate WasRow(h: seq<Db>, k: nat, approval: Approval) {
    exists j :: 0 <= j <= k && j < |h| && approval in h[j].approvals
  }

  /** Every permit, held or spent, was given on a row of the task. */
  ghost predicate Originated(h: seq<Db>, k: nat)
    requires k < |h|
  {
    && (forall i :: 0 <= i < |h[k].dispatched| ==> WasRow(h, k, h[k].dispatched[i].approval))
    && (forall w :: w in h[k].permits ==> WasRow(h, k, h[k].permits[w].approval))
  }

  /** Permits are given on approvals of the caller's snapshot and spent from those that are held. */
  lemma {:induction false} PermitsFromRows(env: Env, db: Db, seen: Db, a: Action)
    ensures var after := Apply(env, db, seen, a);
      && (forall w :: w in after.permits ==>
           (w in db.permits && after.permits[w] == db.permits[w]) || after.permits[w].approval in seen.approvals)
      && (forall i :: 0 <= i < |after.dispatched| ==>
           after.dispatched[i] in db.dispatched || exists w :: w in db.permits && after.dispatched[i] == db.permits[w])
  {
    if a.Cancel? && |seen.steps| == |db.steps| {
      CancelSameGate(db, seen, 0);
    }
  }

  lemma {:induction false} OriginatedNext(env: Env, h: seq<Db>, a: Action)
    requires h != [] && Originated(h, |h| - 1)
    ensures Originated(h + [Apply(env, h[|h| - 1], Seen(h, a), a)], |h|)
  {
    var n := |h| - 1;
    var next := Apply(env, h[n], Seen(h, a), a);
    var all := h + [next];
    PermitsFromRows(env, h[n], Seen(h, a), a);
    forall approval | WasRow(h, n, approval) ensures WasRow(all, n + 1, approval) {
      var j :| 0 <= j <= n && approval in h[j].approvals;
      assert approval in all[j].approvals;
    }
    forall w | w in next.permits ensures WasRow(all, n + 1, next.permits[w].approval) {
      if !(w in h[n].permits && next.permits[w] == h[n].permits[w]) {
        assert next.permits[w].approval in all[if a.seenAt < |h| then a.seenAt else n].approvals;
      }
    }
  }

  /** In every state of every run, disciplined or not, a permit rests on what was a row of this task. */
  lemma {:induction false} PermitsOriginate(env: Env, init: Db, actions: seq<Action>, k: nat)
    requires Fresh(init) && k <= |actions|
    ensures Originated(History(env, init, actions), k)
  {
    if actions != [] {
      var n := |actions| - 1;
      var h := History(env, init, actions[..n]);
      if k <= n {
        PermitsOriginate(env, init, actions[..n], k);
        var all := History(env, init, actions);
        forall approval | WasRow(h, k, approval) ensures WasRow(all, k, approval) {
          var j :| 0 <= j <= k && approval in h[j].approvals;
          assert approval in all[j].approvals;
        }
      } else {
        PermitsOriginate(env, init, actions[..n], n);
        OriginatedNext(env, h, actions[n]);
      }
    }
  }

  /** The approval gate over whole runs: the task enters TOOL_EXECUTING exactly as often as a permit was spent; every
      permit rests on an approval that was a row of this task, and was justified when it was given; no grant stands
      behind two of them. */
  lemma {:induction false} ApprovalGate(env: Env, init: Db, actions: seq<Action>, k: nat)
    requires Fresh(init) && DisciplinedRun(env, init, actions) && k <= |actions|
    ensures var h := History(env, init, actions); var db := h[k];
      && Claims(db.journal) == |db.dispatched|
      && (db.status.WaitingApproval? ==> db.approvals != [])
      && (forall i :: 0 <= i < |db.dispatched| ==>
           WasRow(h, k, db.dispatched[i].approval) && Justified(env, db.dispatched[i]) &&
             TokenUsed(db, db.dispatched[i]))
      && (forall w :: w in db.permits ==>
           WasRow(h, k, db.permits[w].approval) && Justified(env, db.permits[w]) && TokenUsed(db, db.permits[w]))
      && (forall i, j :: 0 <= i < j < |db.dispatched| ==> !SameToken(db.dispatched[i], db.dispatched[j]))
  {
    RunIsGated(env, init, actions);
    GatedAt(env, History(env, init, actions), k, k);
    PermitsOriginate(env, init, actions, k);
  }

  /** The branch that would dispatch a waiting task without any approval is never taken. */
  lemma {:induction false} NoUncheckedDispatch(env: Env, init: Db, actions: seq<Action>, a: Action)
    requires Fresh(init) && DisciplinedRun(env, init, actions) && a.DispatchUnchecked?
    ensures var h := History(env, init, actions); Apply(env, h[|actions|], Seen(h, a), a) == h[|actions|]
  {
    RunIsGated(env, init, actions);
    var h := History(env, init, actions);
    GatedAt(env, h, if a.seenAt < |h| then a.seenAt else |h| - 1, |h| - 1);
  }
}
