/** The recovery invariant: what a worker that resumes from any committed state may rely on. */
module TaskRecovery {
  import opened TaskStore
  import opened TaskJournal
  import opened TaskGate

  /** How many artifacts belong to step `i`. */
  function ArtifactsOf(artifacts: seq<Artifact>, i: nat): nat {
    if artifacts == [] then 0
    else ArtifactsOf(artifacts[..|artifacts| - 1], i) + if artifacts[|artifacts| - 1].step == i then 1 else 0
  }

  /** A step is COMPLETED exactly when there is exactly one artifact of it; otherwise there is none. */
  predicate Evidenced(db: Db) {
    forall i :: 0 <= i < |db.steps| ==> ArtifactsOf(db.artifacts, i) == if db.steps[i].status.Completed? then 1 else 0
  }

  /** The COMPLETED steps come first in index order, whether or not two steps share an index. */
  predicate PrefixCompleted(db: Db) {
    forall i :: 0 <= i < |db.steps| && db.steps[i].status.Completed? ==> EarlierCompleted(db, i)
  }

  predicate Observed(s: TaskState) {
    s.Observing? || s.Verifying? || s.Done?
  }

  predicate Recoverable(db: Db) {
    Evidenced(db) && PrefixCompleted(db) && (Observed(db.status) ==> AllCompleted(db))
  }

  lemma {:induction false} MovedRecoverable(db: Db, seen: Db, to: TaskState)
    requires Recoverable(db) && Later(seen, db) && MayMove(db, seen, to) && (to.Observing? ==> AllCompleted(seen))
    ensures Recoverable(Moved(db, to))
  {
  }

  /** A step that leaves an open state for anything but COMPLETED changes no completed step. */
  lemma {:induction false} OpenStepRecoverable(db: Db, i: nat, to: StepState)
    requires Recoverable(db) && i < |db.steps| && Open(db.steps[i].status) && !to.Completed?
    ensures Recoverable(MovedStep(db, i, to))
  {
  }

  lemma {:induction false} CompleteRecoverable(db: Db, seen: Db, i: nat, effect: Effect)
    requires Recoverable(db) && Later(seen, db) && MayMoveStep(db, seen, i, Completed) && EarlierCompleted(seen, i)
    ensures Recoverable(MovedStep(db, i, Completed).(artifacts := db.artifacts + [Artifact(i, effect)]))
  {
  }

  lemma {:induction false} CancelledRecoverable(db: Db, seen: Db, from: nat)
    requires Recoverable(db) && from <= |seen.steps| == |db.steps| && MayCancelSteps(db, seen, from)
    requires forall i :: 0 <= i < |seen.steps| ==> StepLater(seen.steps[i], db.steps[i])
    ensures Recoverable(CancelledSteps(db, seen, from))
    decreases |seen.steps| - from
  {
    if from < |seen.steps| {
      if Open(seen.steps[from].status) {
        OpenStepRecoverable(db, from, StepCancelled);
        StillCancellable(db, seen, from);
        CancelledRecoverable(MovedStep(db, from, StepCancelled), seen, from + 1);
      } else {
        CancelledRecoverable(db, seen, from + 1);
      }
    }
  }

  lemma {:induction false} CancelRecoverable(db: Db, seen: Db)
    requires Recoverable(db) && Later(seen, db) && MayCancelSteps(db, seen, 0)
    ensures Recoverable(Moved(CancelledSteps(db, seen, 0), Cancelled).(cancel := true))
  {
    CancelledRecoverable(db, seen, 0);
  }

  lemma {:induction false} SameColumnsRecoverable(db: Db, after: Db)
    requires Recoverable(db) && after.steps == db.steps && after.artifacts == db.artifacts
    requires Observed(after.status) ==> Observed(db.status)
    ensures Recoverable(after)
  {
  }

  /** The other actions write no step and no artifact, and enter no observed state without evidence. */
  lemma {:induction false} OthersKeepEvidence(env: Env, db: Db, seen: Db, a: Action)
    requires !a.Transition? && !a.StepTransition? && !a.Complete? && !a.Cancel?
    ensures var after := Apply(env, db, seen, a);
      && after.steps == db.steps && after.artifacts == db.artifacts
      && (Observed(after.status) ==> Observed(db.status))
  {
  }

  lemma {:induction false} RecoverableKept(env: Env, db: Db, seen: Db, a: Action)
    requires Recoverable(db) && Later(seen, db) && Disciplined(seen, a)
    ensures Recoverable(Apply(env, db, seen, a))
  {
    var after := Apply(env, db, seen, a);
    if after == db {
    } else if a.Transition? {
      MovedRecoverable(db, seen, a.target);
    } else if a.StepTransition? {
      assert StepLater(seen.steps[a.i], db.steps[a.i]);
      OpenStepRecoverable(db, a.i, a.to);
    } else if a.Complete? {
      CompleteRecoverable(db, seen, a.i, a.effect);
    } else if a.Cancel? {
      CancelRecoverable(db, seen);
    } else {
      OthersKeepEvidence(env, db, seen, a);
      SameColumnsRecoverable(db, after);
    }
  }

  predicate AllRecoverable(h: seq<Db>) {
    forall i :: 0 <= i < |h| ==> Recoverable(h[i])
  }

  lemma {:induction false} RunIsRecoverable(env: Env, init: Db, actions: seq<Action>)
    requires Fresh(init) && DisciplinedRun(env, init, actions)
    ensures AllRecoverable(History(env, init, actions))
  {
    if actions == [] {
      assert Recoverable(init);
    } else {
      var n := |actions| - 1;
      var h := History(env, init, actions[..n]);
      RunIsRecoverable(env, init, actions[..n]);
      HistoryIsSound(env, init, actions[..n]);
      var seenAt := if actions[n].seenAt < |h| then actions[n].seenAt else n;
      SoundAt(env, h, seenAt, n);
      RecoverableKept(env, h[n], h[seenAt], actions[n]);
    }
  }

  /** In every committed state, however workers crash and overlap: a step is COMPLETED exactly when it has exactly one
      artifact, the COMPLETED steps form a prefix in index order, and a task that is observed, in verification or
      DONE has the evidence of every step. */
  lemma {:induction false} RecoveryInvariant(env: Env, init: Db, actions: seq<Action>, k: nat)
    requires Fresh(init) && DisciplinedRun(env, init, actions) && k <= |actions|
    ensures var db := History(env, init, actions)[k];
      && (forall i :: 0 <= i < |db.steps| ==>
           && (db.steps[i].status.Completed? <==> ArtifactsOf(db.artifacts, i) == 1) &&
             ArtifactsOf(db.artifacts, i) <= 1)
      && (forall i, j :: 0 <= i < |db.steps| && 0 <= j < |db.steps| && db.steps[j].index < db.steps[i].index ==>
           db.steps[i].status.Completed? ==> db.steps[j].status.Completed?)
      && (Observed(db.status) ==> forall i :: 0 <= i < |db.steps| ==> ArtifactsOf(db.artifacts, i) == 1)
  {
    RunIsRecoverable(env, init, actions);
    var db := History(env, init, actions)[k];
    assert Recoverable(db);
    forall i, j | 0 <= i < |db.steps| && 0 <= j < |db.steps| && db.steps[j].index < db.steps[i].index
      && db.steps[i].status.Completed? ensures db.steps[j].status.Completed?
    {
      assert EarlierCompleted(db, i);
    }
  }
}
