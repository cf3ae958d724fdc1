/** Worker, verifier and gateway race for a VERIFYING task: at most one accepted edge leaves VERIFYING, and DONE is
    the verifier's alone. */
module TaskRace {
  import opened Basics
  import opened TaskStore
  import opened TaskJournal
  import opened TaskGate

  // ---- DONE ----

  /** DONE is the verifier's alone: no other action, on no snapshot, makes a task DONE. */
  lemma {:induction false} OnlyFinalizeFinishes(env: Env, db: Db, seen: Db, a: Action)
    requires !db.status.Done?
    ensures Apply(env, db, seen, a).status.Done? ==>
      && a.Finalize? && db.status.Verifying? && db.revision == seen.revision
      && seen.status.Verifying? && seen.artifacts != []
  {
    if a.Cancel? && |seen.steps| == |db.steps| {
      CancelKeepsStatus(db, seen, 0);
    }
  }

  /** Action `n` of the run was the verifier's, decided on evidence it saw in VERIFYING, and met the row unchanged. */
  ghost predicate FinishedBy(env: Env, init: Db, actions: seq<Action>, n: nat)
    requires n < |actions|
  {
    var h := History(env, init, actions[..n]);
    var seen := Seen(h, actions[n]);
    && actions[n].Finalize? && seen.status.Verifying? && seen.artifacts != []
    && h[n].status.Verifying? && h[n].revision == seen.revision
  }

  lemma {:induction false} FinishedByLast(env: Env, init: Db, actions: seq<Action>)
    requires Fresh(init) && actions != []
    ensures var last := |actions| - 1;
      History(env, init, actions)[last + 1].status.Done? <==>
        History(env, init, actions[..last])[last].status.Done? || FinishedBy(env, init, actions, last)
  {
    var last := |actions| - 1;
    var h := History(env, init, actions[..last]);
    if h[last].status.Done? {
      TerminalIsFinal(env, init, actions, last, last + 1);
    } else {
      OnlyFinalizeFinishes(env, h[last], Seen(h, actions[last]), actions[last]);
    }
  }

  lemma {:induction false} FinishedByInPrefix(env: Env, init: Db, actions: seq<Action>, last: nat, n: nat)
    requires n < last <= |actions|
    ensures FinishedBy(env, init, actions, n) <==> FinishedBy(env, init, actions[..last], n)
  {
    assert actions[..last][..n] == actions[..n];
  }

  ghost predicate Finished(env: Env, init: Db, actions: seq<Action>, upTo: nat)
    requires upTo <= |actions|
  {
    exists n :: 0 <= n < upTo && FinishedBy(env, init, actions, n)
  }

  /** In every run, however stale the callers are, a task is DONE if and only if some action was such a finalization. */
  lemma {:induction false} DoneIsTheVerifiers(env: Env, init: Db, actions: seq<Action>)
    requires Fresh(init)
    ensures History(env, init, actions)[|actions|].status.Done? <==> Finished(env, init, actions, |actions|)
  {
    if actions != [] {
      var last := |actions| - 1;
      DoneIsTheVerifiers(env, init, actions[..last]);
      FinishedByLast(env, init, actions);
      forall n | 0 <= n < last
        ensures FinishedBy(env, init, actions, n) <==> FinishedBy(env, init, actions[..last], n) {
        FinishedByInPrefix(env, init, actions, last, n);
      }
      assert Finished(env, init, actions, |actions|) <==>
        Finished(env, init, actions[..last], last) || FinishedBy(env, init, actions, last);
    }
  }

  // ---- Edges out of VERIFYING ----

  predicate LeavesVerifying(row: Row) {
    row.TaskRow? && row.from == Some(Verifying)
  }

  /** How many accepted edges left VERIFYING. */
  function Exits(journal: seq<Row>): nat {
    if journal == [] then 0
    else Exits(journal[..|journal| - 1]) + if LeavesVerifying(journal[|journal| - 1]) then 1 else 0
  }

  lemma {:induction false} ExitsAppend(journal: seq<Row>, row: Row)
    ensures Exits(journal + [row]) == Exits(journal) + if LeavesVerifying(row) then 1 else 0
  {
  }

  predicate LeftOnce(db: Db) {
    Exits(db.journal) <= if Terminal(db.status) then 1 else 0
  }

  lemma {:induction false} MovedLeftOnce(db: Db, to: TaskState)
    requires LeftOnce(db) && !Terminal(db.status) && (db.status.Verifying? ==> Terminal(to))
    ensures LeftOnce(Moved(db, to))
  {
    ExitsAppend(db.journal, TaskRow(Some(db.status), to));
  }

  lemma {:induction false} MovedStepLeftOnce(db: Db, i: nat, to: StepState)
    requires LeftOnce(db) && i < |db.steps|
    ensures LeftOnce(MovedStep(db, i, to)) && MovedStep(db, i, to).status == db.status
  {
    ExitsAppend(db.journal, StepRow(i, db.steps[i].status, to));
  }

  lemma {:induction false} CancelledStepsLeftOnce(db: Db, seen: Db, from: nat)
    requires LeftOnce(db) && from <= |seen.steps| == |db.steps|
    ensures LeftOnce(CancelledSteps(db, seen, from)) && CancelledSteps(db, seen, from).status == db.status
    decreases |seen.steps| - from
  {
    if from < |seen.steps| {
      if Open(seen.steps[from].status) {
        MovedStepLeftOnce(db, from, StepCancelled);
        CancelledStepsLeftOnce(MovedStep(db, from, StepCancelled), seen, from + 1);
      } else {
        CancelledStepsLeftOnce(db, seen, from + 1);
      }
    }
  }

  lemma {:induction false} CancelLeftOnce(db: Db, seen: Db)
    requires LeftOnce(db) && |seen.steps| == |db.steps| && !Terminal(db.status)
    ensures LeftOnce(Moved(CancelledSteps(db, seen, 0), Cancelled).(cancel := true))
  {
    CancelledStepsLeftOnce(db, seen, 0);
    MovedLeftOnce(CancelledSteps(db, seen, 0), Cancelled);
  }

  lemma {:induction false} FinalizedLeftOnce(env: Env, db: Db)
    requires LeftOnce(db) && db.status.Verifying?
    ensures LeftOnce(Finalized(env, db))
  {
    ExitsAppend(db.journal, TaskRow(Some(Verifying), Done));
  }

  /** The worker leaves VERIFYING for a terminal state only. */
  lemma {:induction false} TransitionLeftOnce(db: Db, seen: Db, to: TaskState)
    requires LeftOnce(db) && Later(seen, db) && MayMove(db, seen, to) && Disciplined(seen, Transition(0, to))
    ensures LeftOnce(Moved(db, to))
  {
    MovedLeftOnce(db, to);
  }

  lemma {:induction false} DispatchLeftOnce(env: Env, db: Db, seen: Db, worker: Worker)
    requires LeftOnce(db) && Later(seen, db)
    ensures LeftOnce(Apply(env, db, seen, Dispatch(0, worker)))
  {
    if worker in db.permits && MayMove(db, seen, ToolExecuting) {
      MovedLeftOnce(db, ToolExecuting);
    }
  }

  lemma {:induction false} LeftOnceKept(env: Env, db: Db, seen: Db, a: Action)
    requires LeftOnce(db) && Later(seen, db) && Disciplined(seen, a)
    ensures LeftOnce(Apply(env, db, seen, a))
  {
    if Apply(env, db, seen, a) == db {
    } else if a.Transition? {
      TransitionLeftOnce(db, seen, a.target);
    } else if a.StepTransition? {
      MovedStepLeftOnce(db, a.i, a.to);
    } else if a.Complete? {
      MovedStepLeftOnce(db, a.i, Completed);
    } else if a.Dispatch? {
      DispatchLeftOnce(env, db, seen, a.worker);
    } else if a.DispatchUnchecked? {
      MovedLeftOnce(db, ToolExecuting);
    } else if a.Cancel? {
      CancelLeftOnce(db, seen);
    } else if a.Finalize? {
      FinalizedLeftOnce(env, db);
    }
  }

  /** Worker, verifier and gateway race for VERIFYING: in every disciplined run, however stale the snapshots, the
      journal holds at most one accepted edge out of VERIFYING, and none as long as the task is not terminal. */
  lemma {:induction false} OneEdgeLeavesVerifying(env: Env, init: Db, actions: seq<Action>, k: nat)
    requires Fresh(init) && DisciplinedRun(env, init, actions) && k <= |actions|
    ensures var db := History(env, init, actions)[k];
      Exits(db.journal) <= 1 && (!Terminal(db.status) ==> Exits(db.journal) == 0)
  {
    if actions == [] {
      assert init.journal[..0] == [];
      assert Exits(init.journal[..0]) == 0;
    } else {
      var n := |actions| - 1;
      var h := History(env, init, actions[..n]);
      OneEdgeLeavesVerifying(env, init, actions[..n], if k <= n then k else n);
      if k > n {
        HistoryIsSound(env, init, actions[..n]);
        SoundAt(env, h, if actions[n].seenAt < |h| then actions[n].seenAt else n, n);
        LeftOnceKept(env, h[n], Seen(h, actions[n]), actions[n]);
      }
    }
  }

  /** And whoever comes too late is refused: once the VERIFYING row has been left, a decision taken on it changes
      nothing, however much later it arrives. */
  lemma {:induction false} LateDecisionIsRefused(env: Env, init: Db, actions: seq<Action>, left: nat, a: Action)
    requires Fresh(init) && left <= |actions| && (a.Transition? || a.Finalize?) && a.seenAt <= left
    requires var h := History(env, init, actions);
      h[a.seenAt].status.Verifying? && h[left].status != Verifying
    ensures var h := History(env, init, actions);
      Apply(env, h[|actions|], h[a.seenAt], a) == h[|actions|]
  {
    HistoryIsSound(env, init, actions);
    SoundAt(env, History(env, init, actions), a.seenAt, left);
    SoundAt(env, History(env, init, actions), left, |actions|);
  }
}
