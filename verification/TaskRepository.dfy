/** The repository and the verifier's transaction as they run: field by field and row by row, each proved to be
    the transaction that the theorems about whole runs speak of. `seen` is what the caller has in memory. */
module TaskRepository {
  import opened Basics
  import opened TaskStore
  import opened TaskJournal

  datatype Result = Ok | InvalidTransition | ConcurrentUpdate | ApprovalUnavailable | CasFailed | Rejected

  /** The open steps of a snapshot can be cancelled unless one has been moved since. */
  lemma {:induction false} MayCancelMeans(db: Db, seen: Db, from: nat)
    requires Later(seen, db) && from <= |seen.steps|
    ensures MayCancelSteps(db, seen, from) <==>
      forall i :: from <= i < |seen.steps| && Open(seen.steps[i].status) ==>
        db.steps[i].revision == seen.steps[i].revision
    decreases |seen.steps| - from
  {
    if from < |seen.steps| {
      MayCancelMeans(db, seen, from + 1);
      assert Open(seen.steps[from].status) ==> StepEdge(seen.steps[from].status, StepCancelled);
    }
  }

  class Repository {
    const env: Env
    var db: Db

    /** The append-only journal row and its progress message. */
    method Journal(row: Row)
      modifies this
      ensures db == old(db).(journal := old(db).journal + [row], progress := old(db).progress + [|old(db).journal|])
    {
      var position := |db.journal|;
      db := db.(journal := db.journal + [row]);
      db := db.(progress := db.progress + [position]);
    }

    method Transition(seen: Db, target: TaskState) returns (r: Result)
      modifies this
      ensures r == Ok <==> MayMove(old(db), seen, target)
      ensures r == InvalidTransition <==> !TaskEdge(seen.status, target) || (seen.cancel && !target.Cancelled?)
      ensures Later(seen, old(db)) ==> db == Apply(env, old(db), seen, TaskStore.Transition(0, target))
    {
      if Terminal(seen.status) || !TaskEdge(seen.status, target) {
        return InvalidTransition;
      }
      if seen.cancel && target != Cancelled {
        return InvalidTransition;
      }
      var expected := seen.revision;
      if db.revision != expected {
        return ConcurrentUpdate;
      }
      db := db.(status := target, revision := expected + 1);
      Journal(TaskRow(Some(seen.status), target));
      return Ok;
    }

    method TransitionStep(seen: Db, i: nat, to: StepState) returns (r: Result)
      requires i < |seen.steps| == |db.steps|
      modifies this
      ensures r == Ok <==> MayMoveStep(old(db), seen, i, to)
      ensures r == InvalidTransition <==> !StepEdge(seen.steps[i].status, to)
      ensures StepLater(seen.steps[i], old(db).steps[i]) ==>
        db == if r == Ok then MovedStep(old(db), i, to) else old(db)
    {
      if !StepEdge(seen.steps[i].status, to) {
        return InvalidTransition;
      }
      var before := seen.steps[i].status;
      var expected := seen.steps[i].revision;
      if db.steps[i].revision != expected {
        return ConcurrentUpdate;
      }
      db := db.(steps := db.steps[i := db.steps[i].(status := to, revision := expected + 1)]);
      Journal(StepRow(i, before, to));
      return Ok;
    }

    /** An approval of this tool is reused; a new one is decided by the policy at once, or waits for the owner. */
    method RequestApproval(seen: Db, subject: Subject, risk: Risk, now: int)
      modifies this
      ensures db == Apply(env, old(db), seen, TaskStore.RequestApproval(0, subject, risk, now))
    {
      for k := 0 to |seen.approvals|
        invariant ApprovalFor(seen.approvals[..k], subject.tool).None?
      {
        assert seen.approvals[..k + 1][..k] == seen.approvals[..k];
        if seen.approvals[k].subject.tool == subject.tool {
          HasApproval(seen.approvals, k, subject.tool);
          return;
        }
      }
      assert seen.approvals[..|seen.approvals|] == seen.approvals;
      var approval := Approval(subject, Undecided, "", None, None, risk);
      if env.auto(risk) {
        approval := approval.(decision := Approved);
        approval := approval.(decidedBy := "policy", decidedAt := Some(now));
      }
      db := db.(approvals := db.approvals + [approval]);
    }

    /** No compare-and-swap: the row is written as the caller last saw it, undecided, whatever it is now. */
    method DecideApproval(seen: Db, k: nat, owner: string, approve: bool, now: int, token: Token) returns (r: Result)
      requires |seen.approvals| <= |db.approvals| && (approve ==> token !in db.grants)
      modifies this
      ensures r == Ok <==> k < |seen.approvals| && seen.approvals[k].decision.Undecided?
      ensures db == Apply(env, old(db), seen, Decide(0, k, approve, owner, now, token))
    {
      if k >= |seen.approvals| || seen.approvals[k].decision != Undecided {
        return ApprovalUnavailable;
      }
      var row := db.approvals[k];
      if approve {
        db := db.(grants := db.grants[token := Grant(owner, row.subject, now + APPROVAL_GRANT_TTL_SECONDS, false)]);
        row := row.(token := Some(token));
      }
      row := row.(decision := if approve then Approved else Denied);
      row := row.(decidedBy := owner, decidedAt := Some(now));
      db := db.(approvals := db.approvals[k := row]);
      return Ok;
    }

    /** All or nothing: the first step that cannot be cancelled any more undoes the whole transaction. */
    method Cancel(seen: Db) returns (r: Result)
      requires Later(seen, db)
      modifies this
      ensures db == Apply(env, old(db), seen, TaskStore.Cancel(0))
      ensures r == Ok <==>
        || Terminal(seen.status)
        || (!Terminal(old(db).status) && forall i :: 0 <= i < |seen.steps| && Open(seen.steps[i].status) ==>
              old(db).steps[i].revision == seen.steps[i].revision)
    {
      var before := db;
      MayCancelMeans(db, seen, 0);
      if Terminal(seen.status) {
        return Ok;
      }
      for i := 0 to |seen.steps|
        invariant |db.steps| == |seen.steps| && db.status == before.status && db.revision == before.revision
        invariant forall j :: i <= j < |seen.steps| ==> StepLater(seen.steps[j], db.steps[j])
        invariant MayCancelSteps(before, seen, 0) <==> MayCancelSteps(db, seen, i)
        invariant CancelledSteps(before, seen, 0) == CancelledSteps(db, seen, i)
      {
        if Open(seen.steps[i].status) {
          CancelOthers(db, seen, i, i + 1);
          r := TransitionStep(seen, i, StepCancelled);
          if r != Ok {
            db := before;
            return;
          }
        }
      }
      // the row is read again here, in the transaction that already holds it
      if Terminal(db.status) {
        db := before;
        return InvalidTransition;
      }
      db := db.(status := Cancelled, revision := db.revision + 1, cancel := true);
      Journal(TaskRow(Some(before.status), Cancelled));
      return Ok;
    }

    /** The verifier's finalization: compare-and-swap on status and revision, its journal row, and one result message
        per configured channel. */
    method FinalizeVerified(seen: Db) returns (r: Result)
      modifies this
      ensures db == Apply(env, old(db), seen, Finalize(0))
      ensures r == Ok <==>
        seen.status.Verifying? && seen.artifacts != [] && old(db).status.Verifying? && old(db).revision == seen.revision
    {
      if seen.status != Verifying || seen.artifacts == [] {
        return Rejected;
      }
      if db.status != Verifying || db.revision != seen.revision {
        return CasFailed;
      }
      var before := db;
      db := db.(status := Done, revision := seen.revision + 1);
      db := db.(journal := db.journal + [TaskRow(Some(Verifying), Done)]);
      var channels := ConfiguredChannels(env);
      for i := 0 to |channels|
        invariant db == Finalized(env, before).(results := before.results + channels[..i])
      {
        assert channels[..i + 1] == channels[..i] + [channels[i]];
        db := db.(results := db.results + [channels[i]]);
      }
      assert channels[..|channels|] == channels;
      return Ok;
    }
  }

  /** `list(dict.fromkeys(...)) or ["telegram"]` over the normalised names */
  method ConfiguredChannels(env: Env) returns (channels: seq<string>)
    ensures channels == ResultChannels(env)
  {
    channels := [];
    for i := 0 to |env.channels|
      invariant channels == Dedup(Normalised(env, env.channels[..i]))
    {
      ghost var before := Normalised(env, env.channels[..i]);
      assert env.channels[..i + 1][..i] == env.channels[..i];
      if NamesChannel(env, env.channels[i]) {
        var name := env.normal(env.channels[i]);
        assert (before + [name])[..|before|] == before;
        if name !in channels {
          channels := channels + [name];
        }
      } else {
        assert Normalised(env, env.channels[..i + 1]) == before;
      }
    }
    assert env.channels[..|env.channels|] == env.channels;
    if channels == [] {
      channels := ["telegram"];
    }
  }

  lemma {:induction false} HasApproval(approvals: seq<Approval>, k: nat, tool: string)
    requires k < |approvals| && approvals[k].subject.tool == tool
    ensures ApprovalFor(approvals, tool).Some?
  {
  }

  lemma {:induction false} CancelOthers(db: Db, seen: Db, moved: nat, from: nat)
    requires moved < from <= |seen.steps| == |db.steps|
    ensures MayCancelSteps(MovedStep(db, moved, StepCancelled), seen, from) <==> MayCancelSteps(db, seen, from)
    decreases |seen.steps| - from
  {
    if from < |seen.steps| {
      CancelOthers(db, seen, moved, from + 1);
    }
  }

  // ---- Creation ----

  /** The step indexes `create` assigns. */
  function StepIndexes(readAfterWrite: bool, fixAfterRun: bool, runAfterWrite: bool): seq<int> {
    [0] + (if readAfterWrite then [1] else [])
    + if fixAfterRun then [1, 2, 3]
      else if runAfterWrite then [if readAfterWrite then 2 else 1]
      else []
  }

  /** Indexes never decrease, and they are distinct except when a task both reads back and fixes: then two steps have
      index 1. */
  lemma {:induction false} IndexesDistinct(readAfterWrite: bool, fixAfterRun: bool, runAfterWrite: bool)
    ensures var indexes := StepIndexes(readAfterWrite, fixAfterRun, runAfterWrite);
      && (forall i, j :: 0 <= i < j < |indexes| ==> indexes[i] <= indexes[j])
      && ((forall i, j :: 0 <= i < j < |indexes| ==> indexes[i] != indexes[j]) <==> !(readAfterWrite && fixAfterRun))
  {
    var indexes := StepIndexes(readAfterWrite, fixAfterRun, runAfterWrite);
    if readAfterWrite && fixAfterRun {
      assert indexes[1] == indexes[2];
    }
  }
}
