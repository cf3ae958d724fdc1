/** Operation rows have no revision and no compare-and-swap: what any number of workers that overlap after a lost
    lease do to them, one commit or tool call at a time. */
module OperationRace {
  import opened Basics
  import opened TaskStore
  import opened Worker

  type Id = nat

  /** Where a worker stands with the operation of step `i`. `mem` is the row as its session has it; the session does
      not read it again, not even for a retry. */
  datatype Phase =
    | Idle
    | Missing(i: nat)
    | Loaded(i: nat, mem: Operation)
    | Attempted(i: nat, mem: Operation)
    | Returned(i: nat, mem: Operation, produced: Option<Effect>)
    | Reported(i: nat, mem: Operation, effect: Effect)

  datatype State = State(phase: map<Id, Phase>, ops: map<nat, Operation>, log: seq<nat>)

  datatype Action =
    | Load(w: Id, i: nat)
    | Insert(w: Id)
    | Attempt(w: Id)
    | Call(w: Id, runs: bool, produced: Option<Effect>)
    | Report(w: Id, text: string)
    | Record(w: Id)
    | Leave(w: Id)

  function PhaseOf(s: State, w: Id): Phase {
    if w in s.phase then s.phase[w] else Idle
  }

  function To(s: State, w: Id, phase: Phase): State {
    s.(phase := s.phase[w := phase])
  }

  /** An UPDATE sets only the columns that differ from what the session has in memory. */
  function Written(row: Operation, mem: Operation, new': Operation): Operation {
    Operation(
      if new'.status != mem.status then new'.status else row.status,
      if new'.attempts != mem.attempts then new'.attempts else row.attempts,
      if new'.result != mem.result then new'.result else row.result)
  }

  function Row(ops: map<nat, Operation>, i: nat): Operation {
    if i in ops then ops[i] else PREPARED
  }

  function Update(s: State, i: nat, mem: Operation, new': Operation): State {
    s.(ops := s.ops[i := Written(Row(s.ops, i), mem, new')])
  }

  function AttemptOf(mem: Operation): Operation {
    mem.(attempts := mem.attempts + 1, status := OpPending)
  }

  function ReportOf(mem: Operation, produced: Option<Effect>, text: string): Operation {
    mem.(result := Some(Summary(text)), status := if produced.Some? then OpPending else OpFailed)
  }

  function RecordOf(mem: Operation, effect: Effect): Operation {
    mem.(status := OpApplied, result := Some(Recorded(effect)))
  }

  /** An action out of turn changes nothing. */
  function Step(s: State, a: Action): State {
    var phase := PhaseOf(s, a.w);
    match a
    case Load(w, i) =>
      if !phase.Idle? || (i in s.ops && Finished(s.ops[i])) then s
      else To(s, w, if i in s.ops then Loaded(i, s.ops[i]) else Missing(i))
    case Insert(w) =>
      if !phase.Missing? then s
      else if phase.i in s.ops then To(s, w, Idle)
      else To(s.(ops := s.ops[phase.i := PREPARED]), w, Loaded(phase.i, PREPARED))
    case Attempt(w) =>
      if !phase.Loaded? then s
      else To(Update(s, phase.i, phase.mem, AttemptOf(phase.mem)), w, Attempted(phase.i, AttemptOf(phase.mem)))
    case Call(w, runs, produced) =>
      if !phase.Attempted? then s
      else
        To(s.(log := if runs then s.log + [phase.i] else s.log), w,
           Returned(phase.i, phase.mem, if runs then produced else None))
    case Report(w, text) =>
      if !phase.Returned? then s
      else
        var mem := ReportOf(phase.mem, phase.produced, text);
        To(Update(s, phase.i, phase.mem, mem), w,
           match phase.produced case Some(effect) => Reported(phase.i, mem, effect) case None => Loaded(phase.i, mem))
    case Record(w) =>
      if !phase.Reported? then s
      else To(Update(s, phase.i, phase.mem, RecordOf(phase.mem, phase.effect)), w, Idle)
    case Leave(w) => To(s, w, Idle)
  }

  function Start(ops: map<nat, Operation>, log: seq<nat>): State {
    State(map[], ops, log)
  }

  /** Every state of a run and what happened between any two of them; the workers interleave in any way. */
  predicate IsRun(states: seq<State>, actions: seq<Action>) {
    |states| == |actions| + 1 && forall k :: 0 <= k < |actions| ==> states[k + 1] == Step(states[k], actions[k])
  }

  function PointOf(s: State): Point {
    Point(s.ops, s.log)
  }

  function Points(states: seq<State>): seq<Point> {
    seq(|states|, k requires 0 <= k < |states| => PointOf(states[k]))
  }

  // ---- Exactly when the promise holds ----

  /** What a worker would have to look up right before its own call or commit: the row is not APPLIED, or a commit
      would leave it as it stands. */
  predicate Guarded(s: State, a: Action) {
    var phase := PhaseOf(s, a.w);
    match a
    case Call(_, runs, _) => phase.Attempted? && runs ==> !Applied(s.ops, phase.i)
    case Attempt(_) => phase.Loaded? ==> MayWrite(s, phase.i, phase.mem, AttemptOf(phase.mem))
    case Report(_, text) =>
      phase.Returned? ==> MayWrite(s, phase.i, phase.mem, ReportOf(phase.mem, phase.produced, text))
    case Record(_) => phase.Reported? ==> MayWrite(s, phase.i, phase.mem, RecordOf(phase.mem, phase.effect))
    case _ => true
  }

  predicate MayWrite(s: State, i: nat, mem: Operation, new': Operation) {
    !Applied(s.ops, i) || Written(s.ops[i], mem, new') == s.ops[i]
  }

  lemma {:induction false} RunOnce(s: State, i: nat)
    ensures Kept(PointOf(s), Point(s.ops, s.log + [i])) <==> !Applied(s.ops, i)
  {
    forall j: nat ensures Count(s.log + [i], j) == Count(s.log, j) + if i == j then 1 else 0 {
      CountAppend(s.log, i, j);
    }
  }

  lemma {:induction false} WriteOnce(s: State, i: nat, mem: Operation, new': Operation)
    ensures Kept(PointOf(s), PointOf(Update(s, i, mem, new'))) <==> MayWrite(s, i, mem, new')
  {
  }

  lemma {:induction false} StepKeepsExactly(s: State, a: Action)
    ensures Kept(PointOf(s), PointOf(Step(s, a))) <==> Guarded(s, a)
  {
    var phase := PhaseOf(s, a.w);
    match a {
      case Call(_, runs, _) =>
        if phase.Attempted? {
          RunOnce(s, phase.i);
        }
      case Attempt(_) =>
        if phase.Loaded? {
          WriteOnce(s, phase.i, phase.mem, AttemptOf(phase.mem));
        }
      case Report(_, text) =>
        if phase.Returned? {
          WriteOnce(s, phase.i, phase.mem, ReportOf(phase.mem, phase.produced, text));
        }
      case Record(_) =>
        if phase.Reported? {
          WriteOnce(s, phase.i, phase.mem, RecordOf(phase.mem, phase.effect));
        }
      case _ =>
    }
  }

  lemma {:induction false} KeptTransitive(p: Point, q: Point, r: Point)
    requires Kept(p, q) && Kept(q, r)
    ensures Kept(p, r)
  {
  }

  lemma {:induction false} KeptAlong(trace: seq<Point>, a: nat, b: nat)
    requires a <= b < |trace| && forall k :: 0 <= k < |trace| - 1 ==> Kept(trace[k], trace[k + 1])
    ensures Kept(trace[a], trace[b])
    decreases b - a
  {
    if a < b {
      KeptAlong(trace, a, b - 1);
      assert Kept(trace[b - 1], trace[b - 1 + 1]);
      KeptTransitive(trace[a], trace[b - 1], trace[b]);
    }
  }

  lemma {:induction false} NeverAgainStepwise(trace: seq<Point>)
    ensures NeverAgain(trace) <==> forall k :: 0 <= k < |trace| - 1 ==> Kept(trace[k], trace[k + 1])
  {
    if forall k :: 0 <= k < |trace| - 1 ==> Kept(trace[k], trace[k + 1]) {
      forall a, b | 0 <= a <= b < |trace| ensures Kept(trace[a], trace[b]) {
        KeptAlong(trace, a, b);
      }
    }
  }

  /** Over every interleaving of any number of workers: no applied operation is ever changed and no tool of one runs
      again if and only if the guard holds at every commit of an attempt, at every tool call and at every commit of
      what came of it. */
  lemma {:induction false} NeverAgainExactly(states: seq<State>, actions: seq<Action>)
    requires IsRun(states, actions)
    ensures NeverAgain(Points(states)) <==> forall k :: 0 <= k < |actions| ==> Guarded(states[k], actions[k])
  {
    var trace := Points(states);
    NeverAgainStepwise(trace);
    forall k | 0 <= k < |actions| ensures Kept(trace[k], trace[k + 1]) <==> Guarded(states[k], actions[k]) {
      StepKeepsExactly(states[k], actions[k]);
    }
    if NeverAgain(trace) {
      forall k | 0 <= k < |actions| ensures Guarded(states[k], actions[k]) {
        assert Kept(trace[k], trace[k + 1]);
      }
    }
  }

  // ---- One worker at a time ----

  predicate AtStep(s: State, w: Id, i: nat) {
    !PhaseOf(s, w).Idle? && PhaseOf(s, w).i == i
  }

  /** What the lease is there for: nobody takes up a step that another worker is still at. */
  ghost predicate Exclusive(s: State, a: Action) {
    a.Load? ==> forall v: Id :: v != a.w ==> !AtStep(s, v, a.i)
  }

  /** The row is as the only worker at the step has it in memory, and not applied. */
  ghost predicate Owned(s: State) {
    && (forall w: Id, v: Id :: w != v && !PhaseOf(s, w).Idle? ==> !AtStep(s, v, PhaseOf(s, w).i))
    && (forall w: Id :: InStep(s, PhaseOf(s, w)))
  }

  predicate InStep(s: State, phase: Phase) {
    match phase
    case Idle => true
    case Missing(i) => i !in s.ops
    case Loaded(i, mem) => i in s.ops && s.ops[i] == mem && !Finished(mem)
    case Attempted(i, mem) => i in s.ops && s.ops[i] == mem && !Finished(mem)
    case Returned(i, mem, _) => i in s.ops && s.ops[i] == mem && !Finished(mem)
    case Reported(i, mem, _) => i in s.ops && s.ops[i] == mem && !Finished(mem)
  }

  lemma {:induction false} OwnedKept(s: State, a: Action)
    requires Owned(s) && Exclusive(s, a)
    ensures Owned(Step(s, a)) && Guarded(s, a)
  {
    var t := Step(s, a);
    assert InStep(s, PhaseOf(s, a.w));
    forall v: Id | v != a.w
      ensures PhaseOf(t, v) == PhaseOf(s, v) && InStep(t, PhaseOf(t, v))
      ensures !PhaseOf(t, v).Idle? ==> !AtStep(t, a.w, PhaseOf(t, v).i)
    {
      assert InStep(s, PhaseOf(s, v));
      assert !PhaseOf(s, v).Idle? ==> !AtStep(s, a.w, PhaseOf(s, v).i);
      assert a.Load? ==> !AtStep(s, v, a.i);
    }
    forall w: Id, v: Id | w != v && !PhaseOf(t, w).Idle? ensures !AtStep(t, v, PhaseOf(t, w).i) {
      assert w != a.w && v != a.w ==> !AtStep(s, v, PhaseOf(s, w).i);
    }
    assert InStep(t, PhaseOf(t, a.w));
  }

  lemma {:induction false} OwnedUpTo(states: seq<State>, actions: seq<Action>, n: nat)
    requires IsRun(states, actions) && Owned(states[0]) && n <= |actions|
    requires forall k :: 0 <= k < |actions| ==> Exclusive(states[k], actions[k])
    ensures Owned(states[n])
  {
    if n > 0 {
      OwnedUpTo(states, actions, n - 1);
      OwnedKept(states[n - 1], actions[n - 1]);
      assert states[n - 1 + 1] == states[n];
    }
  }

  /** If nobody takes up a step that another worker is at, the promise holds, whoever dies in between. */
  lemma {:induction false} OneAtATime(states: seq<State>, actions: seq<Action>, ops: map<nat, Operation>, log: seq<nat>)
    requires IsRun(states, actions) && states[0] == Start(ops, log)
    requires forall k :: 0 <= k < |actions| ==> Exclusive(states[k], actions[k])
    ensures NeverAgain(Points(states))
  {
    forall k | 0 <= k < |actions| ensures Guarded(states[k], actions[k]) {
      OwnedUpTo(states, actions, k);
      OwnedKept(states[k], actions[k]);
    }
    NeverAgainExactly(states, actions);
  }

  // ---- The three ways in which an overlap breaks it ----

  predicate GuardedRun(states: seq<State>, actions: seq<Action>) {
    IsRun(states, actions) && forall k :: 0 <= k < |actions| ==> Guarded(states[k], actions[k])
  }

  /** Every guard but the last one held. */
  predicate BreaksLast(states: seq<State>, actions: seq<Action>) {
    && IsRun(states, actions) && actions != [] && !NeverAgain(Points(states))
    && forall k :: 0 <= k < |actions| - 1 ==> Guarded(states[k], actions[k])
  }

  lemma {:induction false} BreaksHere(states: seq<State>, actions: seq<Action>, a: Action) returns (all: seq<State>)
    requires GuardedRun(states, actions) && !Guarded(states[|actions|], a)
    ensures BreaksLast(all, actions + [a]) && all == states + [Step(states[|actions|], a)]
  {
    all := states + [Step(states[|actions|], a)];
    var broken := actions + [a];
    assert broken[|actions|] == a && all[|actions|] == states[|actions|];
    NeverAgainExactly(all, broken);
  }

  lemma {:induction false} Joined(states: seq<State>, actions: seq<Action>, more: seq<State>, next: seq<Action>)
    requires GuardedRun(states, actions) && GuardedRun(more, next) && more[0] == states[|actions|]
    ensures GuardedRun(states + more[1..], actions + next)
  {
    var (all, done) := (states + more[1..], actions + next);
    forall k | 0 <= k < |done| ensures all[k + 1] == Step(all[k], done[k]) && Guarded(all[k], done[k]) {
      if k >= |actions| {
        assert all[k] == more[k - |actions|] && all[k + 1] == more[k + 1 - |actions|];
      }
    }
  }

  const EFFECT := Effect("out.txt", "9f86", 4)

  /** One attempt of step 0 has failed. */
  const ONCE_FAILED := Start(map[0 := Operation(OpFailed, 1, Some(Summary("exit 1")))], [0])

  const SECOND := Operation(OpPending, 2, Some(Summary("exit 1")))
  const SUCCEEDED := Operation(OpPending, 2, Some(Summary("")))

  /** Worker 2 runs its tool, reports the success and records the effect. */
  const SUCCESS: seq<Action> := [Call(2, true, Some(EFFECT)), Report(2, ""), Record(2)]

  function AfterSuccess(first: Phase, log: seq<nat>): State {
    State(map[1 := first, 2 := Idle], map[0 := RecordOf(SUCCEEDED, EFFECT)], log + [0])
  }

  lemma {:induction false} Succeeds(first: Phase, log: seq<nat>) returns (states: seq<State>)
    ensures GuardedRun(states, SUCCESS) && states[3] == AfterSuccess(first, log)
    ensures states[0] == State(map[1 := first, 2 := Attempted(0, SECOND)], map[0 := SECOND], log)
  {
    var s0 := State(map[1 := first, 2 := Attempted(0, SECOND)], map[0 := SECOND], log);
    var s1 := Step(s0, SUCCESS[0]);
    var s2 := Step(s1, SUCCESS[1]);
    states := [s0, s1, s2, AfterSuccess(first, log)];
    assert s1.phase == map[1 := first, 2 := Returned(0, SECOND, Some(EFFECT))];
    assert s2.phase == map[1 := first, 2 := Reported(0, SUCCEEDED, EFFECT)] && s2.ops == map[0 := SUCCEEDED];
    assert Step(s2, SUCCESS[2]).phase == map[1 := first, 2 := Idle];
    assert Step(s2, SUCCESS[2]) == AfterSuccess(first, log);
  }

  const READ: seq<Action> := [Load(1, 0), Load(2, 0)]

  /** Both workers read the failed row, and then each one makes its attempt if it is among `attempts`. */
  lemma {:induction false} BothRead(one: bool) returns (states: seq<State>)
    ensures var attempts := if one then [Attempt(1), Attempt(2)] else [Attempt(2)];
      GuardedRun(states, READ + attempts) && states[0] == ONCE_FAILED
    ensures var row := ONCE_FAILED.ops[0];
      states[if one then 4 else 3] ==
        State(
          map[1 := if one then Attempted(0, SECOND) else Loaded(0, row), 2 := Attempted(0, SECOND)],
          map[0 := SECOND], [0])
  {
    var row := ONCE_FAILED.ops[0];
    var s1 := Step(ONCE_FAILED, READ[0]);
    var s2 := Step(s1, READ[1]);
    assert s2.phase == map[1 := Loaded(0, row), 2 := Loaded(0, row)];
    var s3 := if one then Step(s2, Attempt(1)) else s2;
    var s4 := Step(s3, Attempt(2));
    states := if one then [ONCE_FAILED, s1, s2, s3, s4] else [ONCE_FAILED, s1, s2, s4];
    assert s4.phase == map[1 := if one then Attempted(0, SECOND) else Loaded(0, row), 2 := Attempted(0, SECOND)];
    assert s4.ops == map[0 := SECOND];
  }

  /** Worker 1 reads the failed row, worker 2 retries and applies; then the attempt of worker 1 makes the row
      pending. */
  lemma {:induction false} AttemptOverwrites() returns (states: seq<State>)
    ensures BreaksLast(states, READ + [Attempt(2)] + SUCCESS + [Attempt(1)]) && states[0] == ONCE_FAILED
    ensures Applied(states[6].ops, 0) && states[7].ops[0].status.OpPending?
  {
    var before := BothRead(false);
    var success := Succeeds(Loaded(0, ONCE_FAILED.ops[0]), [0]);
    Joined(before, READ + [Attempt(2)], success, SUCCESS);
    states := BreaksHere(before + success[1..], READ + [Attempt(2)] + SUCCESS, Attempt(1));
  }

  /** Both attempts are committed before anything is applied; the tool call of worker 1 comes after worker 2 applied. */
  lemma {:induction false} CallComesLate() returns (states: seq<State>)
    ensures BreaksLast(states, READ + [Attempt(1), Attempt(2)] + SUCCESS + [Call(1, true, None)])
    ensures states[0] == ONCE_FAILED && Applied(states[7].ops, 0) && states[8].log == states[7].log + [0]
  {
    var before := BothRead(true);
    var success := Succeeds(Attempted(0, SECOND), [0]);
    Joined(before, READ + [Attempt(1), Attempt(2)], success, SUCCESS);
    states := BreaksHere(before + success[1..], READ + [Attempt(1), Attempt(2)] + SUCCESS, Call(1, true, None));
  }

  /** The guard at the attempts and at the tool calls alone is not enough: both tools run before anything is applied,
      and worker 1 reports its failure after worker 2 applied. */
  lemma {:induction false} ReportComesLate() returns (states: seq<State>)
    ensures BreaksLast(states,
      READ + [Attempt(1), Attempt(2)] + [Call(1, true, None)] + SUCCESS + [Report(1, "exit 2")])
    ensures states[0] == ONCE_FAILED && Applied(states[8].ops, 0) && states[9].ops[0].status.OpFailed?
  {
    var before := BothRead(true);
    var called := Step(before[4], Call(1, true, None));
    assert called.phase == map[1 := Returned(0, SECOND, None), 2 := Attempted(0, SECOND)];
    Joined(before, READ + [Attempt(1), Attempt(2)], [before[4], called], [Call(1, true, None)]);
    var success := Succeeds(Returned(0, SECOND, None), [0, 0]);
    Joined(before + [called], READ + [Attempt(1), Attempt(2)] + [Call(1, true, None)], success, SUCCESS);
    states := BreaksHere(before + [called] + success[1..],
      READ + [Attempt(1), Attempt(2)] + [Call(1, true, None)] + SUCCESS, Report(1, "exit 2"));
  }
}
