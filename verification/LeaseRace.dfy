/** What the lease gives the operation rows: as long as every worker works within the lease that it took, no applied
    operation is touched and no tool of one runs again. Nobody renews the lease while a run goes on. */
module LeaseRace {
  import opened Basics
  import opened Worker
  import opened OperationRace
  import Lease

  /** A run starts by taking the lease and ends by giving it back; its work lies in between. */
  datatype Act = Take(w: Id, seconds: int, current: bool) | Drop(w: Id) | Work(a: Action)

  datatype Timed = Timed(now: int, act: Act)

  /** `until` is the expiry of the lease that each worker took last, if it got it and has not given it back. */
  datatype World = World(race: State, row: Lease.Row, until: map<Id, int>)

  /** A new run has a new session. */
  function RaceAction(act: Act): Action {
    match act
    case Take(w, _, _) => Leave(w)
    case Drop(w) => Leave(w)
    case Work(a) => a
  }

  function Next(name: Id -> Lease.Worker, x: World, t: Timed): World {
    var race := Step(x.race, RaceAction(t.act));
    match t.act
    case Take(w, seconds, current) =>
      var e := Lease.Acquire(name(w), t.now, seconds, current);
      World(race, Lease.Apply(x.row, e),
        if Lease.Succeeds(x.row, e) then x.until[w := t.now + seconds] else x.until - {w})
    case Drop(w) => World(race, Lease.Apply(x.row, Lease.Release(name(w))), x.until - {w})
    case Work(_) => World(race, x.row, x.until)
  }

  /** The worker has a lease that has not expired. Dying needs none. */
  predicate WithinLease(x: World, t: Timed) {
    t.act.Work? && !t.act.a.Leave? ==> t.act.a.w in x.until && t.now <= x.until[t.act.a.w]
  }

  /** Workers have names of their own, and the clock does not go back. */
  ghost predicate IsTimedRun(name: Id -> Lease.Worker, worlds: seq<World>, steps: seq<Timed>) {
    && (forall v: Id, w: Id :: name(v) == name(w) ==> v == w)
    && |worlds| == |steps| + 1 && worlds[0].until == map[]
    && (forall k :: 0 <= k < |steps| ==> worlds[k + 1] == Next(name, worlds[k], steps[k]))
    && (forall j, k :: 0 <= j <= k < |steps| ==> steps[j].now <= steps[k].now)
  }

  /** Whoever is within its lease from `now` on has the row's lease columns, and the operation row as its session has
      it in memory. */
  ghost predicate Covered(name: Id -> Lease.Worker, x: World, now: int) {
    forall w :: w in x.until && now <= x.until[w] ==>
      x.row == Lease.Row(Some(name(w)), Some(x.until[w])) && InStep(x.race, PhaseOf(x.race, w))
  }

  lemma {:induction false} OwnStep(s: State, a: Action)
    requires InStep(s, PhaseOf(s, a.w))
    ensures Guarded(s, a) && InStep(Step(s, a), PhaseOf(Step(s, a), a.w))
  {
  }

  lemma {:induction false} LeavingIsQuiet(s: State, w: Id, v: Id)
    ensures Guarded(s, Leave(w)) && Step(s, Leave(w)).ops == s.ops && PhaseOf(Step(s, Leave(w)), w) == Idle
    ensures v != w ==> PhaseOf(Step(s, Leave(w)), v) == PhaseOf(s, v)
  {
  }

  lemma {:induction false} CoveredKept(name: Id -> Lease.Worker, x: World, t: Timed)
    requires forall v: Id, w: Id :: name(v) == name(w) ==> v == w
    requires Covered(name, x, t.now) && WithinLease(x, t)
    ensures Covered(name, Next(name, x, t), t.now) && Guarded(x.race, RaceAction(t.act))
  {
    var y := Next(name, x, t);
    if t.act.Work? && !t.act.a.Leave? {
      OwnStep(x.race, t.act.a);
      forall w | w in y.until && t.now <= y.until[w] ensures w == t.act.a.w {
        assert x.row == Lease.Row(Some(name(w)), Some(x.until[w]));
      }
    } else {
      var v := RaceAction(t.act).w;
      LeavingIsQuiet(x.race, v, v);
      forall w | w in y.until && t.now <= y.until[w]
        ensures y.row == Lease.Row(Some(name(w)), Some(y.until[w])) && InStep(y.race, PhaseOf(y.race, w))
      {
        LeavingIsQuiet(x.race, v, w);
        if w != v {
          assert w in x.until && x.row == Lease.Row(Some(name(w)), Some(x.until[w])) && name(v) != name(w);
        }
      }
    }
  }

  lemma {:induction false} CoveredUpTo(name: Id -> Lease.Worker, worlds: seq<World>, steps: seq<Timed>, k: nat)
    requires IsTimedRun(name, worlds, steps) && k < |steps|
    requires forall i :: 0 <= i < |steps| ==> WithinLease(worlds[i], steps[i])
    ensures Covered(name, worlds[k], steps[k].now)
  {
    if k > 0 {
      CoveredUpTo(name, worlds, steps, k - 1);
      CoveredKept(name, worlds[k - 1], steps[k - 1]);
      assert worlds[k - 1 + 1] == Next(name, worlds[k - 1], steps[k - 1]);
    }
  }

  function Races(worlds: seq<World>): seq<State> {
    seq(|worlds|, k requires 0 <= k < |worlds| => worlds[k].race)
  }

  function RaceActions(steps: seq<Timed>): seq<Action> {
    seq(|steps|, k requires 0 <= k < |steps| => RaceAction(steps[k].act))
  }

  /** If every worker works within the lease that it took, nothing is done to an applied operation and its tool does not
      run again, in whatever order the workers start, stop, die and take over. */
  lemma {:induction false} LeaseSuffices(name: Id -> Lease.Worker, worlds: seq<World>, steps: seq<Timed>)
    requires IsTimedRun(name, worlds, steps)
    requires forall k :: 0 <= k < |steps| ==> WithinLease(worlds[k], steps[k])
    ensures NeverAgain(Points(Races(worlds)))
  {
    var (states, actions) := (Races(worlds), RaceActions(steps));
    forall k | 0 <= k < |steps| ensures states[k + 1] == Step(states[k], actions[k]) && Guarded(states[k], actions[k]) {
      CoveredUpTo(name, worlds, steps, k);
      CoveredKept(name, worlds[k], steps[k]);
      assert worlds[k + 1] == Next(name, worlds[k], steps[k]);
    }
    NeverAgainExactly(states, actions);
  }
}
