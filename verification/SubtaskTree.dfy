/** `spawn_child_flow`: how large the tree of subtasks under one task can grow. */
module SubtaskTree {
  import opened Basics

  type Key = string

  /** A task row; its id is its position in the table. An absent column takes the default of the code. */
  datatype Task = Task(
    parent: Option<nat>,
    owner: string,
    key: Key,
    depth: Option<int>,
    maxDepth: Option<int>,
    maxChildBudget: Option<int>)
  {
    function Depth(): int { if depth.Some? then depth.value else 0 }

    function MaxDepth(): int { if maxDepth.Some? then maxDepth.value else 3 }

    function Budget(): int { if maxChildBudget.Some? then maxChildBudget.value else 5 }
  }

  type Table = seq<Task>

  function Children(tasks: Table, p: nat): set<nat> {
    set i: nat | i < |tasks| && tasks[i].parent == Some(p)
  }

  datatype Result =
    | Existing(id: nat)
    | Spawned(id: nat)
    | DepthLimitExceeded
    | BudgetLimitExceeded
    | IntegrityError

  /** The child of `parent` that this key already names. */
  predicate Names(tasks: Table, parent: nat, key: Key, i: nat)
    requires parent < |tasks|
  {
    i < |tasks| && tasks[i].owner == tasks[parent].owner && tasks[i].key == key && tasks[i].parent == Some(parent)
  }

  function Find(tasks: Table, parent: nat, key: Key, i: nat): (r: Option<nat>)
    requires parent < |tasks| && i <= |tasks|
    ensures r.Some? ==> i <= r.value && Names(tasks, parent, key, r.value)
    ensures r.None? ==> forall k :: i <= k < |tasks| ==> !Names(tasks, parent, key, k)
    decreases |tasks| - i
  {
    if i == |tasks| then None
    else if Names(tasks, parent, key, i) then Some(i)
    else Find(tasks, parent, key, i + 1)
  }

  /** The unique constraint on owner and idempotency key. */
  predicate KeyTaken(tasks: Table, owner: string, key: Key) {
    exists i :: 0 <= i < |tasks| && tasks[i].owner == owner && tasks[i].key == key
  }

  function Child(tasks: Table, parent: nat, key: Key): Task
    requires parent < |tasks|
  {
    var p := tasks[parent];
    Task(Some(parent), p.owner, key, Some(p.Depth() + 1), Some(p.MaxDepth()), Some(p.Budget()))
  }

  /** A key given by the caller names a child of this parent already. */
  ghost predicate Named(tasks: Table, parent: nat, key: Key)
    requires parent < |tasks|
  {
    && key != ""
    && exists i :: 0 <= i < |tasks| && SameFields(tasks[i], Some(parent), tasks[parent].owner, key)
  }

  predicate SameFields(task: Task, parent: Option<nat>, owner: string, key: Key) {
    task.parent == parent && task.owner == owner && task.key == key
  }

  lemma {:induction false} NamedIsFound(tasks: Table, parent: nat, key: Key)
    requires parent < |tasks|
    ensures Named(tasks, parent, key) <==> key != "" && Find(tasks, parent, key, 0).Some?
  {
    var found := Find(tasks, parent, key, 0);
    if i :| 0 <= i < |tasks| && SameFields(tasks[i], Some(parent), tasks[parent].owner, key) {
      assert Names(tasks, parent, key, i);
    }
    if found.Some? {
      assert SameFields(tasks[found.value], Some(parent), tasks[parent].owner, key);
    }
  }

  ghost predicate Taken(tasks: Table, owner: string, key: Key) {
    exists i :: 0 <= i < |tasks| && tasks[i].owner == owner && tasks[i].key == key
  }

  /** A child as the parent's row allows it: one level deeper, with the parent's owner and limits. */
  ghost function Place(p: Task, parent: nat, key: Key): (place: Task)
    ensures place.parent == Some(parent) && place.owner == p.owner && place.key == key
    ensures place.depth == Some(if p.depth == None then 1 else p.depth.value + 1)
    ensures place.maxDepth == Some(if p.maxDepth == None then 3 else p.maxDepth.value)
    ensures place.maxChildBudget == Some(if p.maxChildBudget == None then 5 else p.maxChildBudget.value)
  {
    Task(Some(parent), p.owner, key,
      Some(match p.depth case Some(depth) => depth + 1 case None => 1),
      Some(match p.maxDepth case Some(max) => max case None => 3),
      Some(match p.maxChildBudget case Some(budget) => budget case None => 5))
  }

  class TaskTable {
    var tasks: Table

    /** `autoKey` is the random key made up when the caller gives none. A keyed call finds the child it named before,
        whatever the limits say; otherwise a child is added exactly if the parent's depth and the number of its children
        allow one more and no task of the owner has the key. */
    method SpawnChildFlow(parent: nat, key: Key, autoKey: Key) returns (r: Result)
      requires parent < |tasks|
      modifies this
      ensures !r.Spawned? ==> tasks == old(tasks)
      ensures r.Existing? <==> Named(old(tasks), parent, key)
      ensures r.Existing? ==> r.id < |tasks| && SameFields(tasks[r.id], Some(parent), tasks[parent].owner, key)
      ensures !Named(old(tasks), parent, key) ==>
        var place := Place(old(tasks)[parent], parent, if key == "" then autoKey else key);
        var room := |Children(old(tasks), parent)| < place.maxChildBudget.value;
        var taken := Taken(old(tasks), place.owner, place.key);
        && (r == DepthLimitExceeded <==> place.depth.value > place.maxDepth.value)
        && (r == BudgetLimitExceeded <==> place.depth.value <= place.maxDepth.value && !room)
        && (r == IntegrityError <==> place.depth.value <= place.maxDepth.value && room && taken)
        && (r.Spawned? <==> place.depth.value <= place.maxDepth.value && room && !taken)
        && (r.Spawned? ==> r.id == |old(tasks)| && tasks == old(tasks) + [place])
      ensures (tasks, r) == Spawn(old(tasks), parent, key, autoKey)
    {
      NamedIsFound(tasks, parent, key);
      if key != "" {
        var existing := Find(tasks, parent, key, 0);
        if existing.Some? {
          return Existing(existing.value);
        }
      }
      var p := tasks[parent];
      if p.Depth() + 1 > p.MaxDepth() {
        return DepthLimitExceeded;
      }
      var childCount := |Children(tasks, parent)|;
      if childCount >= p.Budget() {
        return BudgetLimitExceeded;
      }
      var child := Child(tasks, parent, if key != "" then key else autoKey);
      if KeyTaken(tasks, child.owner, child.key) {
        return IntegrityError;
      }
      tasks := tasks + [child];
      return Spawned(|tasks| - 1);
    }
  }

  function Spawn(tasks: Table, parent: nat, key: Key, autoKey: Key): (Table, Result)
    requires parent < |tasks|
  {
    var named := if key == "" then None else Find(tasks, parent, key, 0);
    var p := tasks[parent];
    var child := Child(tasks, parent, if key != "" then key else autoKey);
    if named.Some? then (tasks, Existing(named.value))
    else if p.Depth() + 1 > p.MaxDepth() then (tasks, DepthLimitExceeded)
    else if |Children(tasks, parent)| >= p.Budget() then (tasks, BudgetLimitExceeded)
    else if KeyTaken(tasks, child.owner, child.key) then (tasks, IntegrityError)
    else (tasks + [child], Spawned(|tasks|))
  }

  // ---- Runs ----

  datatype Call = Call(parent: nat, key: Key, autoKey: Key)

  /** Any calls on any parents in any order; a call on a task that does not exist is none. */
  function Run(tasks: Table, calls: seq<Call>): (r: Table)
    ensures tasks <= r
  {
    if calls == [] then tasks
    else
      var before := Run(tasks, calls[..|calls| - 1]);
      var call := calls[|calls| - 1];
      if call.parent >= |before| then before else Spawn(before, call.parent, call.key, call.autoKey).0
  }

  predicate Valid(tasks: Table) {
    && (forall i :: 0 <= i < |tasks| && tasks[i].parent.Some? ==>
          && tasks[i].parent.value < i
          && var p := tasks[tasks[i].parent.value];
             && tasks[i].Depth() == p.Depth() + 1 <= p.MaxDepth()
             && tasks[i].MaxDepth() == p.MaxDepth() && tasks[i].Budget() == p.Budget())
    && (forall p :: 0 <= p < |tasks| ==> |Children(tasks, p)| <= Width(tasks[p].Budget()))
  }

  function Width(budget: int): nat {
    if budget < 0 then 0 else budget
  }

  lemma {:induction false} ChildrenAppend(tasks: Table, child: Task, p: nat)
    ensures Children(tasks + [child], p) == Children(tasks, p) + if child.parent == Some(p) then {|tasks|} else {}
  {
  }

  lemma {:induction false} NoChildrenYet(tasks: Table, p: nat)
    requires Valid(tasks) && p >= |tasks|
    ensures Children(tasks, p) == {}
  {
  }

  lemma {:induction false} SpawnKeepsValid(tasks: Table, parent: nat, key: Key, autoKey: Key)
    requires Valid(tasks) && parent < |tasks|
    ensures Valid(Spawn(tasks, parent, key, autoKey).0)
  {
    var after := Spawn(tasks, parent, key, autoKey).0;
    if after != tasks {
      var child := after[|tasks|];
      forall p | 0 <= p < |after| ensures |Children(after, p)| <= Width(after[p].Budget()) {
        ChildrenAppend(tasks, child, p);
        if p == |tasks| {
          NoChildrenYet(tasks, p);
        }
      }
    }
  }

  lemma {:induction false} RunKeepsValid(tasks: Table, calls: seq<Call>)
    requires Valid(tasks)
    ensures Valid(Run(tasks, calls))
  {
    if calls != [] {
      var n := |calls| - 1;
      RunKeepsValid(tasks, calls[..n]);
      var (before, call) := (Run(tasks, calls[..n]), calls[n]);
      if call.parent < |before| {
        SpawnKeepsValid(before, call.parent, call.key, call.autoKey);
      }
    }
  }

  // ---- The size of a tree ----

  /** `i` is `root` or below it. */
  predicate Below(tasks: Table, root: nat, i: nat)
    requires Valid(tasks)
    decreases i
  {
    i < |tasks| && (i == root || (tasks[i].parent.Some? && Below(tasks, root, tasks[i].parent.value)))
  }

  function Tree(tasks: Table, root: nat): set<nat>
    requires Valid(tasks)
  {
    set i: nat | i < |tasks| && Below(tasks, root, i)
  }

  /** The tasks `k` levels below `root`. */
  function Level(tasks: Table, root: nat, k: nat): set<nat>
    requires Valid(tasks) && root < |tasks|
  {
    set i: nat | i < |tasks| && Below(tasks, root, i) && tasks[i].Depth() == tasks[root].Depth() + k
  }

  function ChildrenOf(tasks: Table, parents: set<nat>): set<nat> {
    set i: nat | i < |tasks| && tasks[i].parent.Some? && tasks[i].parent.value in parents
  }

  function Power(b: nat, k: nat): nat {
    if k == 0 then 1 else b * Power(b, k - 1)
  }

  /** f(0) + ... + f(d) */
  function Sum(f: nat -> nat, d: nat): nat {
    f(d) + if d == 0 then 0 else Sum(f, d - 1)
  }

  /** 1 + b + ... + b^d */
  function Bound(b: nat, d: nat): nat {
    Sum((k: nat) => Power(b, k), d)
  }

  /** Below a common root everybody has the root's limits. */
  lemma {:induction false} BelowInherits(tasks: Table, root: nat, i: nat)
    requires Valid(tasks) && root < |tasks| && Below(tasks, root, i)
    ensures tasks[i].MaxDepth() == tasks[root].MaxDepth() && tasks[i].Budget() == tasks[root].Budget()
    ensures tasks[root].Depth() <= tasks[i].Depth() && (i != root ==> tasks[i].Depth() <= tasks[root].MaxDepth())
    decreases i
  {
    if i != root {
      BelowInherits(tasks, root, tasks[i].parent.value);
    }
  }

  lemma {:induction false} LevelZero(tasks: Table, root: nat)
    requires Valid(tasks) && root < |tasks|
    ensures Level(tasks, root, 0) == {root}
  {
    forall i | i in Level(tasks, root, 0) ensures i == root {
      if i != root {
        BelowInherits(tasks, root, tasks[i].parent.value);
      }
    }
  }

  lemma {:induction false} LevelAbove(tasks: Table, root: nat, k: nat)
    requires Valid(tasks) && root < |tasks|
    ensures Level(tasks, root, k + 1) <= ChildrenOf(tasks, Level(tasks, root, k))
  {
  }

  lemma {:induction false} FewChildren(tasks: Table, parents: set<nat>, b: nat)
    requires forall p :: p in parents ==> |Children(tasks, p)| <= b
    ensures |ChildrenOf(tasks, parents)| <= b * |parents|
  {
    if parents == {} {
      assert ChildrenOf(tasks, parents) == {};
    } else {
      var p :| p in parents;
      FewChildren(tasks, parents - {p}, b);
      assert ChildrenOf(tasks, parents) == ChildrenOf(tasks, parents - {p}) + Children(tasks, p);
      UnionSize(ChildrenOf(tasks, parents - {p}), Children(tasks, p));
      assert b * (|parents| - 1) + b == b * |parents|;
    }
  }

  lemma {:induction false} FewBelow(tasks: Table, root: nat, parents: set<nat>, b: nat)
    requires Valid(tasks) && root < |tasks| && b == Width(tasks[root].Budget())
    requires forall i :: i in parents ==> Below(tasks, root, i)
    ensures |ChildrenOf(tasks, parents)| <= b * |parents|
  {
    forall p | p in parents ensures |Children(tasks, p)| <= b {
      BelowInherits(tasks, root, p);
    }
    FewChildren(tasks, parents, b);
  }

  lemma {:induction false} LevelBound(tasks: Table, root: nat, k: nat, b: nat)
    requires Valid(tasks) && root < |tasks| && b == Width(tasks[root].Budget())
    ensures |Level(tasks, root, k)| <= Power(b, k)
  {
    if k == 0 {
      LevelZero(tasks, root);
    } else {
      var above := Level(tasks, root, k - 1);
      LevelBound(tasks, root, k - 1, b);
      LevelAbove(tasks, root, k - 1);
      FewBelow(tasks, root, above, b);
      Subset(Level(tasks, root, k), ChildrenOf(tasks, above));
      Times(b, |above|, Power(b, k - 1));
    }
  }

  lemma {:induction false} Times(b: nat, x: nat, y: nat)
    requires x <= y
    ensures b * x <= b * y
  {
  }

  /** g(0) + ... + g(d) */
  function Union(g: nat -> set<nat>, d: nat): set<nat> {
    g(d) + if d == 0 then {} else Union(g, d - 1)
  }

  lemma {:induction false} UnionSize(a: set<nat>, b: set<nat>)
    ensures |a + b| <= |a| + |b|
  {
  }

  lemma {:induction false} UnionBound(g: nat -> set<nat>, f: nat -> nat, d: nat)
    requires forall k: nat :: |g(k)| <= f(k)
    ensures |Union(g, d)| <= Sum(f, d)
  {
    if d == 0 {
      assert Union(g, 0) == g(0);
    } else {
      UnionBound(g, f, d - 1);
      UnionSize(g(d), Union(g, d - 1));
    }
  }

  lemma {:induction false} UnionContains(g: nat -> set<nat>, d: nat, k: nat)
    requires k <= d
    ensures g(k) <= Union(g, d)
  {
    if k < d {
      UnionContains(g, d - 1, k);
    }
  }

  /** Whatever is spawned in whatever order, a tree grown from a depth-0 root stays within the root's depth
      limit and has at most 1 + B + ... + B^D tasks. */
  lemma {:induction false} TreeBound(tasks: Table, calls: seq<Call>, root: nat, d: nat)
    requires Valid(tasks) && root < |tasks| && tasks[root].Depth() == 0 && tasks[root].MaxDepth() == d
    ensures var after := Run(tasks, calls);
      && Valid(after) && |Tree(after, root)| <= Bound(Width(tasks[root].Budget()), d)
      && forall i :: i in Tree(after, root) ==> 0 <= after[i].Depth() <= d
  {
    RunKeepsValid(tasks, calls);
    ValidTreeBound(Run(tasks, calls), root, d);
  }

  lemma {:induction false} TreeInLevels(tasks: Table, root: nat, d: nat, g: nat -> set<nat>)
    requires Valid(tasks) && root < |tasks| && tasks[root].Depth() == 0 && tasks[root].MaxDepth() == d
    requires forall k: nat :: g(k) == Level(tasks, root, k)
    ensures Tree(tasks, root) <= Union(g, d)
    ensures forall i :: i in Tree(tasks, root) ==> 0 <= tasks[i].Depth() <= d
  {
    forall i | i in Tree(tasks, root) ensures i in Union(g, d) && 0 <= tasks[i].Depth() <= d {
      BelowInherits(tasks, root, i);
      assert i in g(tasks[i].Depth());
      UnionContains(g, d, tasks[i].Depth());
    }
  }

  lemma {:induction false} LevelsFit(tasks: Table, root: nat, g: nat -> set<nat>, f: nat -> nat, b: nat)
    requires Valid(tasks) && root < |tasks| && b == Width(tasks[root].Budget())
    requires forall k: nat :: g(k) == Level(tasks, root, k)
    requires forall k: nat :: f(k) == Power(b, k)
    ensures forall k: nat :: |g(k)| <= f(k)
  {
    forall k: nat ensures |g(k)| <= f(k) {
      LevelBound(tasks, root, k, b);
    }
  }

  lemma {:induction false} ValidTreeBound(tasks: Table, root: nat, d: nat)
    requires Valid(tasks) && root < |tasks| && tasks[root].Depth() == 0 && tasks[root].MaxDepth() == d
    ensures |Tree(tasks, root)| <= Bound(Width(tasks[root].Budget()), d)
    ensures forall i :: i in Tree(tasks, root) ==> 0 <= tasks[i].Depth() <= d
  {
    var b := Width(tasks[root].Budget());
    var g := (k: nat) => Level(tasks, root, k);
    var f := (k: nat) => Power(b, k);
    TreeInLevels(tasks, root, d, g);
    LevelsFit(tasks, root, g, f, b);
    UnionBound(g, f, d);
    Subset(Tree(tasks, root), Union(g, d));
  }

  lemma {:induction false} Subset(a: set<nat>, b: set<nat>)
    requires a <= b
    ensures |a| <= |b|
  {
    if a != {} {
      var x :| x in a;
      Subset(a - {x}, b - {x});
    }
  }

  // ---- Idempotency ----

  lemma {:induction false} RunAppends(tasks: Table, calls: seq<Call>, parent: nat, key: Key, i: nat)
    requires parent < |tasks| && Names(tasks, parent, key, i)
    ensures Names(Run(tasks, calls), parent, key, i)
  {
  }

  /** Owner and key name one task. */
  predicate UniqueKeys(tasks: Table) {
    forall i, j :: 0 <= i < j < |tasks| ==> !(tasks[i].owner == tasks[j].owner && tasks[i].key == tasks[j].key)
  }

  lemma {:induction false} RunKeepsKeys(tasks: Table, calls: seq<Call>)
    requires UniqueKeys(tasks)
    ensures UniqueKeys(Run(tasks, calls))
  {
    if calls != [] {
      RunKeepsKeys(tasks, calls[..|calls| - 1]);
    }
  }

  /** A spawn with a key, repeated after anything else happened, returns the same child and adds nothing,
      even when the depth or budget limit has been reached since. */
  lemma {:induction false} RepeatedKeyAddsNothing(tasks: Table, parent: nat, key: Key, auto: Key, between: seq<Call>,
      again: Key)
    requires UniqueKeys(tasks) && parent < |tasks| && key != ""
    ensures var (first, r) := Spawn(tasks, parent, key, auto);
      r.Spawned? || r.Existing? ==>
        var later := Run(first, between); Spawn(later, parent, key, again) == (later, Existing(r.id))
  {
    var (first, r) := Spawn(tasks, parent, key, auto);
    if r.Spawned? || r.Existing? {
      var later := Run(first, between);
      assert Names(first, parent, key, r.id);
      RunAppends(first, between, parent, key, r.id);
      RunKeepsKeys(first, between);
    }
  }

  /** What the gates of the code decide before the insert. */
  predicate Admitted(tasks: Table, parent: nat)
    requires parent < |tasks|
  {
    tasks[parent].Depth() + 1 <= tasks[parent].MaxDepth() && |Children(tasks, parent)| < tasks[parent].Budget()
  }

  /** The budget is checked before the insert, not with it: when two spawns overlap, so that both pass the gates on
      the same table, the second insert exceeds the budget exactly when one place was left. */
  lemma {:induction false} OverlappingSpawnsOverrun(tasks: Table, parent: nat, a: Key, b: Key)
    requires parent < |tasks| && Admitted(tasks, parent)
    ensures var after := tasks + [Child(tasks, parent, a)] + [Child(tasks, parent, b)];
      |Children(after, parent)| > tasks[parent].Budget() <==> |Children(tasks, parent)| + 1 == tasks[parent].Budget()
  {
    var (x, y) := (Child(tasks, parent, a), Child(tasks, parent, b));
    ChildrenAppend(tasks, x, parent);
    ChildrenAppend(tasks + [x], y, parent);
    assert |tasks| !in Children(tasks, parent) && |tasks| + 1 !in Children(tasks + [x], parent);
  }
}
