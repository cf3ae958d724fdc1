/** The advisory store lock: every interleaving of any number of callers, system call by system
    call. One lock file per path; nobody unlinks it, so a path names one inode for ever. */
module StoreLock {
  import opened Basics

  type Caller = nat
  type Path = nat

  /** An open file description, the thing that owns an flock. Numbers are never reused. */
  datatype Desc = Desc(owner: Caller, path: Path)

  /** Where a caller stands inside `acquire_store_lock` or with a lock in hand. */
  datatype Phase =
    | Idle
    | Opened(d: nat)
    | Acquired(d: nat)
    | Writing(d: nat)
    | Held(d: nat)
    | Unlocking(d: nat)
    | Closing(d: nat)

  datatype State = State(
    phase: Caller -> Phase,
    open: nat -> Option<Desc>,
    holder: Path -> Option<nat>,
    text: Path -> string,
    next: nat)

  /** One system call, with the outcome the environment gives it. */
  datatype Action =
    | Open(c: Caller, path: Path, ok: bool)
    | Flock(c: Caller, ok: bool)
    | NewOwner(c: Caller, ok: bool)
    | WriteOwner(c: Caller, ok: bool, text: string, last: bool)
    | Release(c: Caller)
    | Unlock(c: Caller, ok: bool)
    | Close(c: Caller)

  function Init(): State {
    State(_ => Idle, _ => None, _ => None, _ => "", 0)
  }

  function To(s: State, c: Caller, phase: Phase): State {
    s.(phase := (b: Caller) => if b == c then phase else s.phase(b))
  }

  function WithHolder(s: State, p: Path, h: Option<nat>): State {
    s.(holder := (q: Path) => if q == p then h else s.holder(q))
  }

  function WithOpen(s: State, d: nat, desc: Option<Desc>): State {
    s.(open := (e: nat) => if e == d then desc else s.open(e))
  }

  /** The path behind a caller's descriptor. */
  function PathOf(s: State, d: nat): Path {
    match s.open(d)
    case Some(desc) => desc.path
    case None => 0
  }

  /** flock(2) with LOCK_NB would answer EWOULDBLOCK. */
  predicate Busy(s: State, d: nat) {
    s.holder(PathOf(s, d)).Some? && s.holder(PathOf(s, d)) != Some(d)
  }

  function Unlocked(s: State, d: nat): State {
    if s.holder(PathOf(s, d)) == Some(d) then WithHolder(s, PathOf(s, d), None) else s
  }

  /** A call out of turn changes nothing. */
  function Step(s: State, a: Action): State {
    match a
    case Open(c, path, ok) =>
      if s.phase(c).Idle? && ok then
        To(WithOpen(s.(next := s.next + 1), s.next, Some(Desc(c, path))), c, Opened(s.next))
      else s
    case Flock(c, ok) =>
      if !s.phase(c).Opened? then s
      else
        var d := s.phase(c).d;
        if Busy(s, d) || !ok then To(s, c, Closing(d))
        else To(WithHolder(s, PathOf(s, d), Some(d)), c, Acquired(d))
    case NewOwner(c, ok) =>
      if !s.phase(c).Acquired? then s
      else if ok then To(s, c, Writing(s.phase(c).d))
      else To(s, c, Idle)
    case WriteOwner(c, ok, text, last) =>
      if !s.phase(c).Writing? then s
      else
        var d := s.phase(c).d;
        if !ok then To(s, c, Unlocking(d))
        else
          var t := s.(text := (q: Path) => if q == PathOf(s, d) then text else s.text(q));
          if last then To(t, c, Held(d)) else t
    case Release(c) =>
      if s.phase(c).Held? then To(s, c, Unlocking(s.phase(c).d)) else s
    case Unlock(c, ok) =>
      if !s.phase(c).Unlocking? then s
      else
        var d := s.phase(c).d;
        To(if ok then Unlocked(s, d) else s, c, Closing(d))
    case Close(c) =>
      if !s.phase(c).Closing? then s
      else
        var d := s.phase(c).d;
        To(WithOpen(Unlocked(s, d), d, None), c, Idle)
  }

  function Run(s: State, actions: seq<Action>): State {
    if actions == [] then s else Step(Run(s, actions[..|actions| - 1]), actions[|actions| - 1])
  }

  /** The text in a lock file changes only by a write of the caller that holds the lock, and to what is written. */
  lemma {:induction false} TextIsTheHolders(s: State, a: Action, p: Path)
    requires Inv(s)
    ensures var writes := a.WriteOwner? && a.ok && s.phase(a.c).Writing? &&
        s.open(s.phase(a.c).d) == Some(Desc(a.c, p));
      && Step(s, a).text(p) == (if writes then a.text else s.text(p))
      && (writes ==> s.holder(p) == Some(s.phase(a.c).d))
  {
    if a.WriteOwner? && s.phase(a.c).Writing? {
      assert s.open(s.phase(a.c).d).value.owner == a.c;
    }
  }

  // ---- Invariant ----

  predicate Locking(phase: Phase) {
    phase.Acquired? || phase.Writing? || phase.Held?
  }

  ghost predicate Inv(s: State) {
    && (forall c :: !s.phase(c).Idle? ==> s.open(s.phase(c).d).Some? && s.open(s.phase(c).d).value.owner == c)
    && (forall p: Path :: s.holder(p).Some? ==>
      s.open(s.holder(p).value).Some? && s.open(s.holder(p).value).value.path == p)
    && (forall c :: Locking(s.phase(c)) ==> s.holder(PathOf(s, s.phase(c).d)) == Some(s.phase(c).d))
    && (forall c :: s.phase(c).Opened? ==> s.holder(PathOf(s, s.phase(c).d)) != Some(s.phase(c).d))
    && (forall d: nat :: d >= s.next ==> s.open(d).None?)
  }

  /** The calls that move a caller without touching locks or descriptors. */
  lemma {:induction false} MoveKeepsInv(s: State, c: Caller, phase: Phase)
    requires Inv(s) && !s.phase(c).Idle? && (phase.Idle? || phase.d == s.phase(c).d)
    requires Locking(phase) ==> Locking(s.phase(c))
    requires phase.Opened? ==> s.phase(c).Opened?
    ensures Inv(To(s, c, phase))
  {
  }

  lemma {:induction false} OpenKeepsInv(s: State, c: Caller, path: Path)
    requires Inv(s) && s.phase(c).Idle?
    ensures Inv(To(WithOpen(s.(next := s.next + 1), s.next, Some(Desc(c, path))), c, Opened(s.next)))
  {
  }

  lemma {:induction false} FlockKeepsInv(s: State, c: Caller)
    requires Inv(s) && s.phase(c).Opened? && !Busy(s, s.phase(c).d)
    ensures var d := s.phase(c).d; Inv(To(WithHolder(s, PathOf(s, d), Some(d)), c, Acquired(d)))
  {
  }

  lemma {:induction false} CloseKeepsInv(s: State, c: Caller)
    requires Inv(s) && s.phase(c).Closing?
    ensures var d := s.phase(c).d; Inv(To(WithOpen(Unlocked(s, d), d, None), c, Idle))
  {
  }

  lemma {:induction false} StepKeepsInv(s: State, a: Action)
    requires Inv(s)
    ensures Inv(Step(s, a))
  {
    var phase := s.phase(a.c);
    match a {
      case Open(c, path, ok) =>
        if phase.Idle? && ok {
          OpenKeepsInv(s, c, path);
        }
      case Flock(c, ok) =>
        if phase.Opened? {
          if Busy(s, phase.d) || !ok {
            MoveKeepsInv(s, c, Closing(phase.d));
          } else {
            FlockKeepsInv(s, c);
          }
        }
      case Close(c) =>
        if phase.Closing? {
          CloseKeepsInv(s, c);
        }
      case NewOwner(c, ok) =>
        if phase.Acquired? {
          MoveKeepsInv(s, c, if ok then Writing(phase.d) else Idle);
        }
      case WriteOwner(c, ok, text, last) =>
        if phase.Writing? {
          MoveKeepsInv(s, c, if !ok then Unlocking(phase.d) else if last then Held(phase.d) else phase);
        }
      case Release(c) =>
        if phase.Held? {
          MoveKeepsInv(s, c, Unlocking(phase.d));
        }
      case _ =>
    }
  }

  lemma {:induction false} RunKeepsInv(s: State, actions: seq<Action>)
    requires Inv(s)
    ensures Inv(Run(s, actions))
  {
    if actions != [] {
      RunKeepsInv(s, actions[..|actions| - 1]);
      StepKeepsInv(Run(s, actions[..|actions| - 1]), actions[|actions| - 1]);
    }
  }

  /** In no interleaving do two callers hold the lock of one path. */
  lemma {:induction false} MutualExclusion(actions: seq<Action>, a: Caller, b: Caller)
    requires var s := Run(Init(), actions);
      s.phase(a).Held? && s.phase(b).Held? && PathOf(s, s.phase(a).d) == PathOf(s, s.phase(b).d)
    ensures a == b
  {
    RunKeepsInv(Init(), actions);
  }

  // ---- Descriptors that nobody will close ----

  predicate Tracked(s: State, d: nat) {
    s.open(d).Some? ==> var c := s.open(d).value.owner; !s.phase(c).Idle? && s.phase(c).d == d
  }

  ghost predicate Leaks(s: State) {
    exists d: nat :: !Tracked(s, d)
  }

  /** The owner block could not be made although the lock had been granted. */
  predicate OwnerRaises(s: State, a: Action) {
    a.NewOwner? && !a.ok && s.phase(a.c).Acquired?
  }

  lemma {:induction false} StepLeaks(s: State, a: Action)
    requires Inv(s)
    ensures Leaks(Step(s, a)) <==> Leaks(s) || OwnerRaises(s, a)
  {
    var t := Step(s, a);
    if d: nat :| !Tracked(s, d) {
      assert !Tracked(t, d);
    }
    if OwnerRaises(s, a) {
      assert !Tracked(t, s.phase(a.c).d);
    }
    if d: nat :| !Tracked(t, d) {
      assert OwnerRaises(s, a) || !Tracked(s, d);
    }
  }

  ghost predicate OwnerRaised(actions: seq<Action>) {
    exists i :: 0 <= i < |actions| && OwnerRaises(Run(Init(), actions[..i]), actions[i])
  }

  lemma {:induction false} OwnerRaisedLast(actions: seq<Action>)
    requires actions != []
    ensures var n := |actions| - 1;
      OwnerRaised(actions) <==> OwnerRaised(actions[..n]) || OwnerRaises(Run(Init(), actions[..n]), actions[n])
  {
    var n := |actions| - 1;
    forall i | 0 <= i < n ensures actions[..n][..i] == actions[..i] && actions[..n][i] == actions[i] {
    }
    if OwnerRaised(actions) {
      var i :| 0 <= i < |actions| && OwnerRaises(Run(Init(), actions[..i]), actions[i]);
      assert i < n ==> OwnerRaises(Run(Init(), actions[..n][..i]), actions[..n][i]);
    }
    if OwnerRaised(actions[..n]) {
      var i :| 0 <= i < n && OwnerRaises(Run(Init(), actions[..n][..i]), actions[..n][i]);
      assert OwnerRaises(Run(Init(), actions[..i]), actions[i]);
    }
  }

  /** A lock or a descriptor outlives its acquisition exactly when making the owner block failed at some point:
      every other failing path, and every release, gives both back. */
  lemma {:induction false} LeaksExactlyWhenOwnerRaises(actions: seq<Action>)
    ensures Leaks(Run(Init(), actions)) <==> OwnerRaised(actions)
  {
    if actions != [] {
      var n := |actions| - 1;
      LeaksExactlyWhenOwnerRaises(actions[..n]);
      RunKeepsInv(Init(), actions[..n]);
      StepLeaks(Run(Init(), actions[..n]), actions[n]);
      OwnerRaisedLast(actions);
    }
  }

  /** Three calls that leave the lock of path 0 taken for ever, with nobody to give it back. */
  const LEAK: seq<Action> := [Open(0, 0, true), Flock(0, true), NewOwner(0, false)]

  lemma {:induction false} OwnerBlockLeaks()
    ensures var s := Run(Init(), LEAK);
      Leaks(s) && s.phase(0).Idle? && s.holder(0) == Some(0) && s.open(0) == Some(Desc(0, 0))
  {
    assert LEAK[..2][..1][..0] == [] && LEAK[..2][..1] == [LEAK[0]] && LEAK[..2] == [LEAK[0], LEAK[1]];
    var s1 := Step(Init(), LEAK[0]);
    var s2 := Step(s1, LEAK[1]);
    var s3 := Step(s2, LEAK[2]);
    assert Run(Init(), LEAK[..2][..1]) == s1;
    assert Run(Init(), LEAK[..2]) == s2;
    assert Run(Init(), LEAK) == s3;
    assert !Tracked(s3, 0);
  }

  // ---- One caller among others ----

  /** What the other callers cannot change: this caller's place, its descriptors, and the locks they own. */
  ghost predicate Mine(s: State, t: State, me: Caller) {
    && s.phase(me) == t.phase(me)
    && (forall d: nat, p: Path :: s.open(d) == Some(Desc(me, p)) <==> t.open(d) == Some(Desc(me, p)))
    && (forall d: nat, p: Path :: s.open(d) == Some(Desc(me, p)) ==>
      (s.holder(p) == Some(d) <==> t.holder(p) == Some(d)))
  }

  predicate Foreign(me: Caller, actions: seq<Action>) {
    forall i :: 0 <= i < |actions| ==> actions[i].c != me
  }

  lemma {:induction false} ForeignStep(s: State, a: Action, me: Caller)
    requires Inv(s) && a.c != me
    ensures Mine(s, Step(s, a), me)
  {
  }

  lemma {:induction false} ForeignRun(s: State, actions: seq<Action>, me: Caller)
    requires Inv(s) && Foreign(me, actions)
    ensures Inv(Run(s, actions)) && Mine(s, Run(s, actions), me)
  {
    if actions != [] {
      var n := |actions| - 1;
      ForeignRun(s, actions[..n], me);
      RunKeepsInv(s, actions[..n]);
      ForeignStep(Run(s, actions[..n]), actions[n], me);
      StepKeepsInv(Run(s, actions[..n]), actions[n]);
    }
  }

  datatype Reply = Fine | WouldBlock | Failed

  /** What the caller learns from its call. */
  function ReplyTo(s: State, a: Action): Reply {
    match a
    case Flock(c, ok) => if s.phase(c).Opened? && Busy(s, s.phase(c).d) then WouldBlock else if ok then Fine else Failed
    case Open(_, _, ok) => if ok then Fine else Failed
    case NewOwner(_, ok) => if ok then Fine else Failed
    case WriteOwner(_, ok, _, _) => if ok then Fine else Failed
    case Unlock(_, ok) => if ok then Fine else Failed
    case _ => Fine
  }

  /** The kernel as one caller meets it: before each of its calls the others make any number of theirs. */
  class Machine {
    var s: State

    constructor ()
      ensures Inv(s)
    {
      s := Init();
    }

    /** `before` is the state the call itself met. */
    method Call(me: Caller, a: Action) returns (reply: Reply, ghost before: State)
      requires Inv(s) && a.c == me
      modifies this
      ensures Inv(s) && Inv(before) && Mine(old(s), before, me) && s == Step(before, a)
      ensures reply == ReplyTo(before, a)
    {
      var others: seq<Action> := *;
      if Foreign(me, others) {
        ForeignRun(s, others, me);
        s := Run(s, others);
      }
      before := s;
      reply := ReplyTo(s, a);
      StepKeepsInv(s, a);
      s := Step(s, a);
    }
  }

  /** `Escaped`: the exception of making the owner block, which nothing catches. */
  datatype Outcome = Locked(lock: StoreLock) | Contended | PreAcquisition | Escaped

  /** The caller has no descriptor it did not have before, and no lock through one. */
  ghost predicate NothingKept(s0: State, s: State, me: Caller) {
    s.phase(me).Idle? && forall d: nat, p: Path :: s.open(d) == Some(Desc(me, p)) ==> s0.open(d) == Some(Desc(me, p))
  }

  /** Unlock, whether or not that works, and close: both errors are suppressed. */
  method GiveBack(m: Machine, me: Caller, fd: nat)
    requires Inv(m.s) && m.s.phase(me) == Unlocking(fd)
    modifies m
    ensures Inv(m.s) && m.s.phase(me).Idle? && m.s.open(fd).None?
    ensures forall p: Path :: m.s.holder(p) != Some(fd)
    ensures forall d: nat, p: Path :: m.s.open(d) == Some(Desc(me, p)) ==>
      d != fd && old(m.s).open(d) == Some(Desc(me, p))
  {
    var unlockOk := *;
    var reply, before := m.Call(me, Unlock(me, unlockOk));
    reply, before := m.Call(me, Close(me));
  }

  class StoreLock {
    const owner: Caller
    const fd: nat
    var released: bool

    constructor (owner: Caller, fd: nat)
      ensures this.owner == owner && this.fd == fd && !released
    {
      this.owner := owner;
      this.fd := fd;
      released := false;
    }

    /** Idempotent: a second call makes no system call at all, so it cannot hit a descriptor that was opened since. */
    method ReleaseLock(m: Machine)
      requires Inv(m.s) && (!released ==> m.s.phase(owner) == Held(fd))
      modifies this, m
      ensures released && Inv(m.s)
      ensures old(released) ==> m.s == old(m.s)
      ensures !old(released) ==> NothingKept(old(m.s), m.s, owner) && m.s.open(fd).None?
      ensures forall p: Path :: !old(released) ==> m.s.holder(p) != Some(fd)
    {
      if released {
        return;
      }
      released := true;
      var reply, before := m.Call(owner, Release(owner));
      GiveBack(m, owner, fd);
    }
  }

  /** Directory walk and no-follow open (`openOk`), then the lock attempt; a refused attempt closes the descriptor. */
  method TakeFlock(m: Machine, me: Caller, path: Path, openOk: bool, flockOk: bool)
    returns (reply: Reply, fd: nat, ghost at: State)
    requires Inv(m.s) && m.s.phase(me).Idle?
    modifies m
    ensures Inv(m.s) && Inv(at)
    ensures reply == Fine ==>
      m.s.phase(me) == Acquired(fd) && m.s.open(fd) == Some(Desc(me, path)) && m.s.holder(path) == Some(fd)
    ensures reply == Fine ==> forall d: nat, p: Path :: m.s.open(d) == Some(Desc(me, p)) ==>
      old(m.s).open(d) == Some(Desc(me, p)) || d == fd
    // busy exactly if the attempt met another holder, who still had the lock's descriptor open
    ensures reply == WouldBlock <==> openOk && at.holder(path).Some?
    ensures reply == WouldBlock ==> at.holder(path) != Some(fd) && at.open(at.holder(path).value).Some?
    ensures reply == Failed <==> !openOk || (at.holder(path).None? && !flockOk)
    ensures reply != Fine ==> NothingKept(old(m.s), m.s, me)
  {
    fd, at := 0, m.s;
    ghost var before;
    reply, before := m.Call(me, Open(me, path, openOk));
    if reply == Failed {
      return;
    }
    fd := m.s.phase(me).d;
    reply, at := m.Call(me, Flock(me, flockOk));
    if reply != Fine {
      var closed;
      closed, before := m.Call(me, Close(me));
    }
  }

  predicate AllFine(outcomes: seq<bool>) {
    forall i :: 0 <= i < |outcomes| ==> outcomes[i]
  }

  /** `openOk`, `flockOk`, `ownerOk` and `writes` are what the environment makes of the calls: the open, the lock
      attempt if the lock is free, the making of the owner block, and each call that writes it. `at` is the state the
      lock attempt met. */
  method AcquireStoreLock(m: Machine, me: Caller, path: Path, openOk: bool, flockOk: bool, ownerOk: bool,
      writes: seq<bool>)
    returns (r: Outcome, ghost at: State, ghost d: nat)
    requires Inv(m.s) && m.s.phase(me).Idle? && writes != []
    modifies m
    ensures Inv(m.s) && Inv(at)
    // success: the kernel's lock table says so, for this path and this descriptor
    ensures r.Locked? ==> fresh(r.lock) && !r.lock.released && r.lock.owner == me && r.lock.fd == d
    ensures r.Locked? ==> m.s.phase(me) == Held(d) && m.s.open(d) == Some(Desc(me, path)) && m.s.holder(path) == Some(d)
    // contention exactly if at the attempt another open descriptor of this path had the lock
    ensures r.Contended? <==> openOk && at.holder(path).Some?
    ensures r.Contended? ==> at.holder(path) != Some(d) && at.open(at.holder(path).value).Some?
    // a free lock is taken exactly if no call fails
    ensures r.Locked? <==> openOk && at.holder(path).None? && flockOk && ownerOk && AllFine(writes)
    // every typed refusal leaves the caller without lock and descriptor
    ensures r.Contended? || r.PreAcquisition? ==> NothingKept(old(m.s), m.s, me)
    // the one way to fail with the lock still taken
    ensures r.Escaped? <==> openOk && at.holder(path).None? && flockOk && !ownerOk
    ensures r.Escaped? ==> m.s.holder(path) == Some(d) && !Tracked(m.s, d)
  {
    var reply, fd;
    reply, fd, at := TakeFlock(m, me, path, openOk, flockOk);
    d := fd;
    if reply != Fine {
      return if reply == WouldBlock then Contended else PreAcquisition, at, d;
    }
    ghost var before;
    reply, before := m.Call(me, NewOwner(me, ownerOk));
    if reply == Failed {
      return Escaped, at, d;
    }
    var kept := RecordOwner(m, me, path, fd, writes);
    if !kept {
      return PreAcquisition, at, d;
    }
    var lock := new StoreLock(me, fd);
    return Locked(lock), at, d;
  }

  /** The owner block goes into the file, or lock and descriptor are given back. */
  method RecordOwner(m: Machine, me: Caller, path: Path, fd: nat, writes: seq<bool>) returns (kept: bool)
    requires Inv(m.s) && m.s.phase(me) == Writing(fd) && m.s.open(fd) == Some(Desc(me, path)) && writes != []
    modifies m
    ensures Inv(m.s) && (kept <==> AllFine(writes))
    ensures kept ==> m.s.phase(me) == Held(fd) && m.s.open(fd) == Some(Desc(me, path)) && m.s.holder(path) == Some(fd)
    ensures !kept ==> m.s.phase(me).Idle? && m.s.open(fd).None?
    ensures forall d: nat, p: Path :: m.s.open(d) == Some(Desc(me, p)) ==>
      old(m.s).open(d) == Some(Desc(me, p)) && (kept || d != fd)
  {
    kept := WriteOwnerBlock(m, me, path, fd, writes);
    if !kept {
      GiveBack(m, me, fd);
    }
  }

  /** Truncate, write in any number of pieces, and sync as the last call; the first failure ends it. */
  method WriteOwnerBlock(m: Machine, me: Caller, path: Path, fd: nat, writes: seq<bool>) returns (written: bool)
    requires Inv(m.s) && m.s.phase(me) == Writing(fd) && m.s.open(fd) == Some(Desc(me, path)) && writes != []
    modifies m
    ensures written <==> AllFine(writes)
    ensures Inv(m.s) && m.s.phase(me) == (if written then Held(fd) else Unlocking(fd))
    ensures m.s.holder(path) == Some(fd)
    ensures forall d: nat, p: Path :: m.s.open(d) == Some(Desc(me, p)) <==> old(m.s).open(d) == Some(Desc(me, p))
  {
    var last := |writes| - 1;
    for i := 0 to last
      invariant Inv(m.s) && m.s.phase(me) == Writing(fd) && m.s.holder(path) == Some(fd)
      invariant forall j :: 0 <= j < i ==> writes[j]
      invariant forall d: nat, p: Path :: m.s.open(d) == Some(Desc(me, p)) <==> old(m.s).open(d) == Some(Desc(me, p))
    {
      var text: string := *;
      var reply, before := m.Call(me, WriteOwner(me, writes[i], text, false));
      if reply == Failed {
        return false;
      }
    }
    var text: string := *;
    var reply, before := m.Call(me, WriteOwner(me, writes[last], text, true));
    return reply == Fine;
  }
}
