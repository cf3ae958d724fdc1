/** The writer lease on a task row: one row, any number of workers, no assumption on the clock. */
module Lease {
  import opened Basics

  type Worker = string

  /** The lease columns of the task row. */
  datatype Row = Row(owner: Option<Worker>, expires: Option<int>)

  /** A call that reached the database; `current` says whether the row still has the revision the caller read. */
  datatype Event =
    | Acquire(worker: Worker, now: int, seconds: int, current: bool)
    | Heartbeat(worker: Worker, now: int, seconds: int)
    | Release(worker: Worker)

  /** The conditional UPDATE finds its row. */
  predicate Succeeds(row: Row, e: Event) {
    match e
    case Acquire(worker, now, _, current) =>
      current && (row.expires.None? || row.expires.value < now || row.owner == Some(worker))
    case Heartbeat(worker, _, _) => row.owner == Some(worker)
    case Release(worker) => row.owner == Some(worker)
  }

  function Apply(row: Row, e: Event): Row {
    if !Succeeds(row, e) then row
    else match e
      case Acquire(worker, now, seconds, _) => Row(Some(worker), Some(now + seconds))
      case Heartbeat(_, now, seconds) => row.(expires := Some(now + seconds))
      case Release(_) => Row(None, None)
  }

  datatype Result = Ok | LeaseConflict

  class LeaseTable {
    var row: Row

    /** A row read up to date can be acquired exactly if it has no expiry, its expiry has strictly passed, or it is the
        worker's own. */
    method AcquireLease(worker: Worker, now: int, seconds: int, current: bool) returns (r: Result)
      modifies this
      ensures r == Ok <==>
        current && (old(row).expires == None || old(row).expires.value < now || old(row).owner == Some(worker))
      ensures r == Ok <==> Succeeds(old(row), Acquire(worker, now, seconds, current))
      ensures r == Ok ==> row.owner == Some(worker) && row.expires == Some(now + seconds)
      ensures r != Ok ==> row == old(row)
      ensures row == Apply(old(row), Acquire(worker, now, seconds, current))
    {
      if !(current && (row.expires.None? || row.expires.value < now || row.owner == Some(worker))) {
        return LeaseConflict;
      }
      row := row.(owner := Some(worker));
      row := row.(expires := Some(now + seconds));
      return Ok;
    }

    method RenewLease(worker: Worker, now: int, seconds: int) returns (r: Result)
      modifies this
      ensures r == Ok <==> old(row).owner == Some(worker)
      ensures row == Apply(old(row), Heartbeat(worker, now, seconds))
      ensures row == if old(row).owner == Some(worker) then Row(Some(worker), Some(now + seconds)) else old(row)
    {
      if row.owner != Some(worker) {
        return LeaseConflict;
      }
      row := row.(expires := Some(now + seconds));
      return Ok;
    }

    /** Releasing a lease that is not one's own is no error and has no effect. */
    method ReleaseLease(worker: Worker)
      modifies this
      ensures row == Apply(old(row), Release(worker))
      ensures row == if old(row).owner == Some(worker) then Row(None, None) else old(row)
    {
      if row.owner == Some(worker) {
        row := Row(None, None);
      }
    }
  }

  function Run(row: Row, events: seq<Event>): Row {
    if events == [] then row else Apply(Run(row, events[..|events| - 1]), events[|events| - 1])
  }

  /** The expiry `worker` set last: by acquiring, or by a heartbeat after that. */
  function LastSet(events: seq<Event>, worker: Worker): Option<int> {
    if events == [] then None
    else
      var e := events[|events| - 1];
      if !e.Release? && e.worker == worker && (e.Acquire? ==> e.current) then Some(e.now + e.seconds)
      else LastSet(events[..|events| - 1], worker)
  }

  /** `worker` acquired first; since then it did not release, and nobody else's acquire succeeded. */
  predicate Tenure(row: Row, events: seq<Event>, worker: Worker) {
    && events != [] && events[0].Acquire? && events[0].worker == worker && Succeeds(row, events[0])
    && forall i :: 0 < i < |events| ==>
      && events[i] != Release(worker)
      && (events[i].Acquire? && events[i].worker != worker ==> !Succeeds(Run(row, events[..i]), events[i]))
  }

  lemma {:induction false} TenantOwns(row: Row, events: seq<Event>, worker: Worker)
    requires Tenure(row, events, worker)
    ensures LastSet(events, worker).Some?
    ensures Run(row, events) == Row(Some(worker), LastSet(events, worker))
  {
    var n := |events| - 1;
    assert events[..n][..0] == [] && events[..0] == [];
    if n == 0 {
      assert Run(row, events[..0]) == row;
    } else {
      assert forall i :: 0 < i < n ==> events[..n][..i] == events[..i] && events[..n][i] == events[i];
      TenantOwns(row, events[..n], worker);
      assert events[n] != Release(worker);
    }
  }

  /** Exclusion: while `worker` neither released nor lost the lease, another worker's acquire succeeds exactly
      when the expiry that `worker` set last has strictly passed (and the row was read up to date). */
  lemma {:induction false} LeaseExclusion(row: Row, events: seq<Event>, worker: Worker, intruder: Event)
    requires Tenure(row, events, worker) && intruder.Acquire? && intruder.worker != worker
    ensures LastSet(events, worker).Some?
    ensures Succeeds(Run(row, events), intruder) <==> intruder.current && LastSet(events, worker).value < intruder.now
  {
    TenantOwns(row, events, worker);
  }
}
