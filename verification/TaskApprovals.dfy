/** Owner decisions have no compare-and-swap: when an approved row keeps standing behind its dispatch. */
module TaskApprovals {
  import opened Basics
  import opened TaskStore
  import opened TaskJournal
  import opened TaskGate

  /** The decision is taken on a row that is still undecided when it is written. */
  predicate Current(db: Db, a: Action) {
    a.Decide? && a.k < |db.approvals| ==> db.approvals[a.k].decision.Undecided?
  }

  predicate CurrentRun(env: Env, init: Db, actions: seq<Action>) {
    actions == [] ||
    (var n := |actions| - 1;
     CurrentRun(env, init, actions[..n]) && Current(History(env, init, actions[..n])[n], actions[n]))
  }

  /** Every permit, spent or not, still has its approval among the rows. */
  predicate Retained(db: Db) {
    && (forall i :: 0 <= i < |db.dispatched| ==> db.dispatched[i].approval in db.approvals)
    && (forall w :: w in db.permits ==> db.permits[w].approval in db.approvals)
  }

  /** What was approved stays as it was. */
  predicate ApprovedStays(a: Db, b: Db) {
    && |a.approvals| <= |b.approvals|
    && forall k :: 0 <= k < |a.approvals| && a.approvals[k].decision.Approved? ==> b.approvals[k] == a.approvals[k]
  }

  /** A token that stands in a row was issued. */
  predicate TokensIssued(db: Db) {
    forall k :: 0 <= k < |db.approvals| && db.approvals[k].token.Some? ==> db.approvals[k].token.value in db.grants
  }

  /** Exactly a decision taken on an outdated row can undo an approval. */
  lemma {:induction false} ApprovedStaysUnlessStale(env: Env, db: Db, seen: Db, a: Action)
    requires TokensIssued(db) && |seen.approvals| <= |db.approvals|
    ensures ApprovedStays(db, Apply(env, db, seen, a)) <==>
      !(a.Decide? && Apply(env, db, seen, a) != db && db.approvals[a.k].decision.Approved?)
  {
    if a.Cancel? && |seen.steps| == |db.steps| {
      CancelSameGate(db, seen, 0);
    }
    var after := Apply(env, db, seen, a);
    if a.Decide? && after != db && db.approvals[a.k].decision.Approved? {
      assert after.approvals[a.k] != db.approvals[a.k];
    }
  }

  lemma {:induction false} TokensIssuedIn(db: Db, after: Db)
    requires TokensIssued(db) && after.approvals == db.approvals && db.grants.Keys <= after.grants.Keys
    ensures TokensIssued(after)
  {
  }

  /** Only requests and decisions touch approvals, and no grant is ever removed. */
  lemma {:induction false} OthersKeepApprovals(env: Env, db: Db, seen: Db, a: Action)
    requires !a.RequestApproval? && !a.Decide? && |seen.steps| == |db.steps|
    ensures var after := Apply(env, db, seen, a); after.approvals == db.approvals && db.grants.Keys <= after.grants.Keys
  {
    if a.Cancel? {
      CancelSameGate(db, seen, 0);
    }
  }

  lemma {:induction false} TokensIssuedKept(env: Env, db: Db, seen: Db, a: Action)
    requires TokensIssued(db) && |seen.steps| == |db.steps|
    ensures TokensIssued(Apply(env, db, seen, a))
  {
    if !a.RequestApproval? && !a.Decide? {
      OthersKeepApprovals(env, db, seen, a);
      TokensIssuedIn(db, Apply(env, db, seen, a));
    }
  }

  predicate PermitsApproved(db: Db) {
    && (forall i :: 0 <= i < |db.dispatched| ==> db.dispatched[i].approval.decision.Approved?)
    && (forall w :: w in db.permits ==> db.permits[w].approval.decision.Approved?)
  }

  lemma {:induction false} RetainedRows(db: Db, after: Db)
    requires Retained(db) && PermitsApproved(db) && ApprovedStays(db, after)
    requires after.dispatched == db.dispatched && forall w :: w in after.permits ==>
      w in db.permits && after.permits[w] == db.permits[w]
    ensures Retained(after)
  {
  }

  lemma {:induction false} RetainedDispatch(env: Env, db: Db, seen: Db, worker: Worker)
    requires Retained(db)
    ensures Retained(Apply(env, db, seen, Dispatch(0, worker)))
  {
  }

  lemma {:induction false} RetainedAuthorize(env: Env, db: Db, seen: Db, worker: Worker, k: nat, now: int)
    requires Retained(db) && ApprovedStays(seen, db)
    ensures Retained(Apply(env, db, seen, Authorize(0, worker, k, now)))
  {
  }

  lemma {:induction false} OthersKeepPermits(env: Env, db: Db, seen: Db, a: Action)
    requires !a.Dispatch? && !a.Authorize? && |seen.steps| == |db.steps|
    ensures var after := Apply(env, db, seen, a);
      after.dispatched == db.dispatched && forall w :: w in after.permits ==>
        w in db.permits && after.permits[w] == db.permits[w]
  {
    if a.Cancel? {
      CancelSameGate(db, seen, 0);
    }
  }

  lemma {:induction false} RetainedKept(env: Env, db: Db, seen: Db, a: Action)
    requires Retained(db) && PermitsApproved(db) && |seen.steps| == |db.steps|
    requires ApprovedStays(seen, db) && ApprovedStays(db, Apply(env, db, seen, a))
    ensures Retained(Apply(env, db, seen, a))
  {
    if a.Dispatch? {
      RetainedDispatch(env, db, seen, a.worker);
    } else if a.Authorize? {
      RetainedAuthorize(env, db, seen, a.worker, a.k, a.now);
    } else {
      OthersKeepPermits(env, db, seen, a);
      RetainedRows(db, Apply(env, db, seen, a));
    }
  }

  // ---- Whole runs ----

  predicate Standing(db: Db) {
    Retained(db) && TokensIssued(db)
  }

  predicate AllStanding(h: seq<Db>) {
    && (forall i :: 0 <= i < |h| ==> Standing(h[i]))
    && (forall i, j :: 0 <= i <= j < |h| ==> ApprovedStays(h[i], h[j]))
  }

  lemma {:induction false} StandingAt(h: seq<Db>, i: nat, j: nat)
    requires AllStanding(h) && i <= j < |h|
    ensures Standing(h[i]) && Standing(h[j]) && ApprovedStays(h[i], h[j])
  {
  }

  lemma {:induction false} StandingAppend(h: seq<Db>, next: Db)
    requires h != [] && AllStanding(h) && Standing(next) && ApprovedStays(h[|h| - 1], next)
    ensures AllStanding(h + [next])
  {
  }

  lemma {:induction false} GatePermits(env: Env, db: Db)
    requires Gate(env, db)
    ensures PermitsApproved(db)
  {
  }

  lemma {:induction false} CurrentRunStands(env: Env, init: Db, actions: seq<Action>)
    requires Fresh(init) && DisciplinedRun(env, init, actions) && CurrentRun(env, init, actions)
    ensures AllStanding(History(env, init, actions))
  {
    if actions == [] {
      assert Standing(init);
    } else {
      var n := |actions| - 1;
      var h := History(env, init, actions[..n]);
      var a := actions[n];
      CurrentRunStands(env, init, actions[..n]);
      RunIsGated(env, init, actions[..n]);
      HistoryIsSound(env, init, actions[..n]);
      var seenAt := if a.seenAt < |h| then a.seenAt else n;
      SoundAt(env, h, seenAt, n);
      StandingAt(h, seenAt, n);
      GatedAt(env, h, n, n);
      NextStands(env, h[n], h[seenAt], a);
      StandingAppend(h, Apply(env, h[n], h[seenAt], a));
    }
  }

  lemma {:induction false} NextStands(env: Env, db: Db, seen: Db, a: Action)
    requires Standing(db) && Gate(env, db) && ApprovedStays(seen, db) && |seen.steps| == |db.steps| && Current(db, a)
    ensures Standing(Apply(env, db, seen, a)) && ApprovedStays(db, Apply(env, db, seen, a))
  {
    ApprovedStaysUnlessStale(env, db, seen, a);
    GatePermits(env, db);
    RetainedKept(env, db, seen, a);
    TokensIssuedKept(env, db, seen, a);
  }

  /** If every owner decision is taken on the row as it then is, then behind every entry into TOOL_EXECUTING its own
      approval still stands among the rows, APPROVED, in every later state. */
  lemma {:induction false} ClaimsStayApproved(env: Env, init: Db, actions: seq<Action>, k: nat)
    requires Fresh(init) && DisciplinedRun(env, init, actions) && CurrentRun(env, init, actions) && k <= |actions|
    ensures var db := History(env, init, actions)[k];
      && Claims(db.journal) == |db.dispatched|
      && forall i :: 0 <= i < |db.dispatched| ==>
           db.dispatched[i].approval in db.approvals && db.dispatched[i].approval.decision.Approved?
  {
    CurrentRunStands(env, init, actions);
    RunIsGated(env, init, actions);
    var h := History(env, init, actions);
    StandingAt(h, k, k);
    GatedAt(env, h, k, k);
    GatePermits(env, h[k]);
  }

  // ---- Without that, a late denial overwrites the approval under a running tool ----

  function Grow(env: Env, h: seq<Db>, a: Action): seq<Db>
    requires h != []
  {
    h + [Apply(env, h[|h| - 1], Seen(h, a), a)]
  }

  lemma {:induction false} GrowIsHistory(env: Env, init: Db, actions: seq<Action>, a: Action)
    ensures History(env, init, actions + [a]) == Grow(env, History(env, init, actions), a)
  {
  }

  const DELETION := Subject("sandbox.shell", "d3b0")

  /** The owner approves, the worker dispatches, and a gateway that read the row before the approval denies it. */
  const STALE_DENIAL: seq<Action> := [
    Transition(0, Queued), Transition(1, Planning), RequestApproval(2, DELETION, High, 0),
      Transition(3, WaitingApproval),
    Decide(4, 0, true, "owner", 10, 7), Authorize(5, 1, 0, 20), Dispatch(6, 1), Decide(4, 0, false, "owner", 30, 0)]

  function After(env: Env, init: Db, n: nat): seq<Db>
    requires n <= 8
  {
    History(env, init, STALE_DENIAL[..n])
  }

  lemma {:induction false} AfterNext(env: Env, init: Db, n: nat)
    requires n < 8
    ensures After(env, init, n + 1) == Grow(env, After(env, init, n), STALE_DENIAL[n])
  {
    GrowIsHistory(env, init, STALE_DENIAL[..n], STALE_DENIAL[n]);
    assert STALE_DENIAL[..n] + [STALE_DENIAL[n]] == STALE_DENIAL[..n + 1];
  }

  /** What the example looks at in a state. */
  predicate Is(db: Db, status: TaskState, revision: nat, approvals: seq<Approval>) {
    db.status == status && db.revision == revision && !db.cancel && db.approvals == approvals
  }

  lemma {:induction false} Planned(env: Env, init: Db)
    requires Fresh(init)
    ensures var h := After(env, init, 2); Is(h[2], Planning, 2, []) && h[2].grants == map[] && h[2].permits == map[]
  {
    assert STALE_DENIAL[..0] == [];
    AfterNext(env, init, 0);
    AfterNext(env, init, 1);
  }

  const ASKED := Approval(DELETION, Undecided, "", None, None, High)
  const GRANTED := Approval(DELETION, Approved, "owner", Some(10), Some(7), High)

  lemma {:induction false} Requested(env: Env, init: Db)
    requires Fresh(init) && !env.auto(High)
    ensures var h := After(env, init, 3);
      Is(h[3], Planning, 2, [ASKED]) && h[3].grants == map[] && h[3].permits == map[]
  {
    Planned(env, init);
    AfterNext(env, init, 2);
  }

  lemma {:induction false} Asked(env: Env, init: Db)
    requires Fresh(init) && !env.auto(High)
    ensures var h := After(env, init, 4);
      Is(h[4], WaitingApproval, 3, [ASKED]) && h[4].grants == map[] && h[4].permits == map[]
  {
    Requested(env, init);
    AfterNext(env, init, 3);
  }

  lemma {:induction false} Authorized(env: Env, init: Db)
    requires Fresh(init) && !env.auto(High)
    ensures var h := After(env, init, 6);
      Is(h[6], WaitingApproval, 3, [GRANTED]) && 1 in h[6].permits && Is(h[4], WaitingApproval, 3, [ASKED])
  {
    Asked(env, init);
    AfterNext(env, init, 4);
    var h := After(env, init, 5);
    assert Is(h[5], WaitingApproval, 3, [GRANTED]);
    assert h[5].grants == map[7 := Grant("owner", DELETION, 10 + APPROVAL_GRANT_TTL_SECONDS, false)];
    AfterNext(env, init, 5);
  }

  lemma {:induction false} StaleDenialOverwrites(env: Env, init: Db)
    requires Fresh(init) && !env.auto(High)
    ensures var db := History(env, init, STALE_DENIAL)[8];
      db.status.ToolExecuting? && |db.approvals| == 1 && db.approvals[0].decision.Denied?
  {
    Authorized(env, init);
    AfterNext(env, init, 6);
    assert Is(After(env, init, 7)[7], ToolExecuting, 4, [GRANTED]);
    AfterNext(env, init, 7);
    assert STALE_DENIAL[..8] == STALE_DENIAL;
  }

  lemma {:induction false} DisciplinedNext(env: Env, init: Db, n: nat)
    requires n < 8 && DisciplinedRun(env, init, STALE_DENIAL[..n])
    requires Disciplined(Seen(After(env, init, n), STALE_DENIAL[n]), STALE_DENIAL[n])
    ensures DisciplinedRun(env, init, STALE_DENIAL[..n + 1])
  {
    assert STALE_DENIAL[..n + 1][..n] == STALE_DENIAL[..n];
  }

  /** The callers of the example all keep to their program order. */
  lemma {:induction false} StaleDenialIsDisciplined(env: Env, init: Db)
    requires Fresh(init) && !env.auto(High)
    ensures DisciplinedRun(env, init, STALE_DENIAL)
  {
    Requested(env, init);
    for n := 0 to 8
      invariant DisciplinedRun(env, init, STALE_DENIAL[..n])
    {
      DisciplinedNext(env, init, n);
    }
    assert STALE_DENIAL[..8] == STALE_DENIAL;
  }
}
