/** The dependency check of an implementation plan (artifacts.py): unique task
    IDs, known dependencies, and a depth-first search that refuses cycles. */
module PlanGraph {
  import opened Prelude

  datatype TaskId = TaskId(name: string)
  type Graph = map<TaskId, set<TaskId>>

  datatype PlanTask = PlanTask(id: TaskId, dependencies: set<TaskId>)

  datatype PlanVerdict = Accepted | DuplicateIds | UnknownDependency | SelfDependency | CyclicDependencies

  function Ids(tasks: seq<PlanTask>): seq<TaskId> {
    seq(|tasks|, i requires 0 <= i < |tasks| => tasks[i].id)
  }

  /** `{task.id: set(task.dependencies) for task in tasks}`. */
  function GraphOf(tasks: seq<PlanTask>): (g: Graph)
    ensures forall t :: t in g <==> t in Ids(tasks)
  {
    if tasks == [] then map[]
    else
      var rest, last := tasks[..|tasks| - 1], tasks[|tasks| - 1];
      assert Ids(tasks) == Ids(rest) + [last.id];
      GraphOf(rest)[last.id := last.dependencies]
  }

  // ------------------------------------------------------------------ meaning

  predicate Closed(g: Graph) {
    forall t :: t in g ==> g[t] <= g.Keys
  }

  predicate Path(g: Graph, p: seq<TaskId>) {
    forall i :: 0 <= i < |p| - 1 ==> p[i] in g && p[i + 1] in g[p[i]]
  }

  predicate Cycle(g: Graph, p: seq<TaskId>) {
    |p| >= 2 && Path(g, p) && p[0] == p[|p| - 1]
  }

  ghost predicate Acyclic(g: Graph) {
    forall p :: !Cycle(g, p)
  }

  /** Every task once, each after all of its dependencies. */
  ghost predicate Topological(g: Graph, order: seq<TaskId>) {
    && Distinct(order)
    && (forall i :: 0 <= i < |order| ==> order[i] in g && g[order[i]] <= Elements(order[..i]))
  }

  lemma {:induction false} PositionDrops(g: Graph, order: seq<TaskId>, p: seq<TaskId>, i: nat)
    returns (at: nat, start: nat)
    requires Topological(g, order) && Elements(order) == g.Keys
    requires Path(g, p) && |p| >= 2 && i < |p| && p[|p| - 1] in g
    ensures start < |order| && order[start] == p[0]
    ensures at < |order| && order[at] == p[i] && at + i <= start
  {
    assert p[0] in Elements(order);
    if i == 0 {
      start :| 0 <= start < |order| && order[start] == p[0];
      at := start;
    } else {
      var previous;
      previous, start := PositionDrops(g, order, p, i - 1);
      assert p[i] in Elements(order[..previous]);
      at :| 0 <= at < previous && order[at] == p[i];
    }
  }

  /** A task list that has a topological order has no cycle. */
  lemma TopologicalIsAcyclic(g: Graph, order: seq<TaskId>)
    requires Topological(g, order) && Elements(order) == g.Keys && Closed(g)
    ensures Acyclic(g)
  {
    forall p ensures !Cycle(g, p) {
      if Cycle(g, p) {
        var at, start := PositionDrops(g, order, p, |p| - 1);
        assert false;
      }
    }
  }

  // ------------------------------------------------------------------- search

  /** What the call stack and the completion order of a search keep. */
  ghost predicate Searching(g: Graph, stack: seq<TaskId>, order: seq<TaskId>) {
    && Closed(g)
    && Elements(stack) <= g.Keys
    && Elements(stack) !! Elements(order)
    && Path(g, stack)
    && Topological(g, order)
  }

  lemma ElementsAppend(s: seq<TaskId>, t: TaskId)
    ensures Elements(s + [t]) == Elements(s) + {t}
  {
  }

  lemma RevisitIsCycle(g: Graph, stack: seq<TaskId>, t: TaskId)
    requires Path(g, stack) && t in stack && stack[|stack| - 1] in g && t in g[stack[|stack| - 1]]
    ensures !Acyclic(g)
  {
    var at: nat :| at < |stack| && stack[at] == t;
    assert Cycle(g, stack[at..] + [t]);
  }

  lemma PushKeeps(g: Graph, stack: seq<TaskId>, order: seq<TaskId>, t: TaskId)
    requires Searching(g, stack, order) && t in g && t !in order
    requires stack != [] ==> t in g[stack[|stack| - 1]]
    ensures Searching(g, stack + [t], order)
  {
    ElementsAppend(stack, t);
  }

  /** A task whose dependencies are all done may come next. */
  lemma OrderAppend(g: Graph, order: seq<TaskId>, t: TaskId)
    requires Topological(g, order) && t in g && t !in order && g[t] <= Elements(order)
    ensures Topological(g, order + [t])
  {
    var order' := order + [t];
    forall i | 0 <= i < |order'| ensures order'[i] in g && g[order'[i]] <= Elements(order'[..i]) {
      assert order'[..i] == order[..i];
      if i == |order| { assert order[..i] == order; }
    }
  }

  lemma CompleteKeeps(g: Graph, stack: seq<TaskId>, order: seq<TaskId>, t: TaskId)
    requires Searching(g, stack + [t], order) && t !in stack
    requires g[t] <= Elements(order)
    ensures Searching(g, stack, order + [t])
  {
    ElementsAppend(stack, t);
    ElementsAppend(order, t);
    assert Path(g, stack) by {
      assert forall i :: 0 <= i < |stack| ==> (stack + [t])[i] == stack[i];
    }
    assert t in Elements(stack + [t]) && t !in Elements(order);
    OrderAppend(g, order, t);
  }

  /** The `visiting` and `visited` sets of one search, with the call stack and the
      completion order kept beside them for the proof. */
  class Search {
    const g: Graph
    var visiting: set<TaskId>
    var visited: set<TaskId>
    ghost var stack: seq<TaskId>
    ghost var order: seq<TaskId>

    ghost predicate Valid()
      reads this
    {
      && visiting == Elements(stack)
      && visited == Elements(order)
      && Searching(g, stack, order)
    }

    constructor (g: Graph)
      requires Closed(g)
      ensures Valid() && this.g == g && stack == [] && order == []
    {
      this.g := g;
      visiting, visited, stack, order := {}, {}, [], [];
    }

    method Enter(task: TaskId)
      requires Valid() && task in g && task !in visiting && task !in visited
      requires stack != [] ==> task in g[stack[|stack| - 1]]
      modifies this
      ensures Valid() && stack == old(stack) + [task] && order == old(order)
    {
      PushKeeps(g, stack, order, task);
      ElementsAppend(stack, task);
      visiting := visiting + {task};
      stack := stack + [task];
    }

    method Leave(task: TaskId, ghost outer: seq<TaskId>)
      requires Valid() && stack == outer + [task] && task !in outer && g[task] <= visited
      modifies this
      ensures Valid() && stack == outer && visited == old(visited) + {task}
    {
      CompleteKeeps(g, outer, order, task);
      ElementsAppend(outer, task);
      ElementsAppend(order, task);
      visiting := visiting - {task};
      visited := visited + {task};
      stack := outer;
      order := order + [task];
    }

    /** Returns false where the source raises. */
    method Visit(task: TaskId) returns (ok: bool)
      requires Valid() && task in g
      requires stack != [] ==> task in g[stack[|stack| - 1]]
      modifies this
      ensures ok ==> Valid() && stack == old(stack) && task in visited && old(visited) <= visited
      ensures !ok ==> !Acyclic(g)
      decreases g.Keys - visiting
    {
      if task in visiting {
        RevisitIsCycle(g, stack, task);
        return false;
      }
      if task in visited {
        return true;
      }
      ghost var outer := stack;
      Enter(task);
      var remaining := g[task];
      while remaining != {}
        invariant Valid() && stack == outer + [task]
        invariant remaining <= g[task] && g[task] - remaining <= visited
        invariant old(visited) <= visited
        decreases remaining
      {
        var dependency :| dependency in remaining;
        assert task in Elements(stack);
        ok := Visit(dependency);
        if !ok { return; }
        remaining := remaining - {dependency};
      }
      Leave(task, outer);
      return true;
    }
  }

  // ---------------------------------------------------------------- validation

  lemma {:induction false} GraphLookup(tasks: seq<PlanTask>, i: nat)
    requires i < |tasks|
    requires forall j :: i < j < |tasks| ==> tasks[j].id != tasks[i].id
    ensures tasks[i].id in GraphOf(tasks) && GraphOf(tasks)[tasks[i].id] == tasks[i].dependencies
  {
    if i == |tasks| - 1 {
    } else {
      GraphLookup(tasks[..|tasks| - 1], i);
    }
  }

  lemma UniqueLookup(tasks: seq<PlanTask>, i: nat)
    requires Distinct(Ids(tasks)) && i < |tasks|
    ensures tasks[i].id in GraphOf(tasks) && GraphOf(tasks)[tasks[i].id] == tasks[i].dependencies
  {
    assert forall j :: i < j < |tasks| ==> Ids(tasks)[j] == tasks[j].id && Ids(tasks)[i] == tasks[i].id;
    GraphLookup(tasks, i);
  }

  lemma KnownIsClosed(tasks: seq<PlanTask>)
    requires Distinct(Ids(tasks))
    requires forall j :: 0 <= j < |tasks| ==> tasks[j].dependencies <= GraphOf(tasks).Keys
    ensures Closed(GraphOf(tasks))
  {
    hide GraphOf;
    var g := GraphOf(tasks);
    forall t | t in g ensures g[t] <= g.Keys {
      var j: nat :| j < |Ids(tasks)| && Ids(tasks)[j] == t;
      UniqueLookup(tasks, j);
    }
  }

  lemma SelfDependencyIsCycle(g: Graph, t: TaskId)
    requires t in g && t in g[t]
    ensures !Acyclic(g)
  {
    assert Cycle(g, [t, t]);
  }

  /** The first loop: unknown and direct self-dependencies. */
  method CheckDependencies(tasks: seq<PlanTask>, g: Graph) returns (verdict: PlanVerdict)
    requires Distinct(Ids(tasks)) && g == GraphOf(tasks)
    ensures verdict in {Accepted, UnknownDependency, SelfDependency}
    ensures verdict.UnknownDependency? ==> !Closed(g)
    ensures verdict.SelfDependency? ==> !Acyclic(g)
    ensures verdict.Accepted? ==> Closed(g)
  {
    hide Acyclic, GraphOf, Ids;
    for i := 0 to |tasks|
      invariant forall j :: 0 <= j < i ==> tasks[j].dependencies <= g.Keys
    {
      UniqueLookup(tasks, i);
      if !(tasks[i].dependencies <= g.Keys) { return UnknownDependency; }
      if tasks[i].id in tasks[i].dependencies {
        SelfDependencyIsCycle(g, tasks[i].id);
        return SelfDependency;
      }
    }
    KnownIsClosed(tasks);
    return Accepted;
  }

  /** The second loop: one search over all tasks. */
  method SearchAll(ids: seq<TaskId>, g: Graph) returns (ok: bool, ghost order: seq<TaskId>)
    requires Closed(g) && forall t :: t in g <==> t in ids
    ensures ok ==> Topological(g, order) && Elements(order) == g.Keys
    ensures !ok ==> !Acyclic(g)
  {
    hide Acyclic, Topological, Path;
    order := [];
    var search := new Search(g);
    for i := 0 to |ids|
      invariant search.Valid() && search.g == g && search.stack == []
      invariant forall j :: 0 <= j < i ==> ids[j] in search.visited
    {
      ok := search.Visit(ids[i]);
      if !ok { return; }
    }
    order := search.order;
    OrderIsTopological(g, search.stack, order);
    assert Elements(order) == g.Keys;
    ok := true;
  }

  lemma OrderIsTopological(g: Graph, stack: seq<TaskId>, order: seq<TaskId>)
    requires Searching(g, stack, order)
    ensures Topological(g, order) && Elements(order) <= g.Keys
  {
  }

  /** `ImplementationPlan.validate_tasks`: a plan is accepted exactly when its task
      IDs are unique, its dependencies are known and no task depends on itself
      through any chain; acceptance comes with an order to do the tasks in. */
  method ValidateTasks(tasks: seq<PlanTask>) returns (verdict: PlanVerdict, ghost order: seq<TaskId>)
    ensures verdict.DuplicateIds? <==> !Distinct(Ids(tasks))
    ensures verdict.UnknownDependency? ==> !Closed(GraphOf(tasks))
    ensures verdict.SelfDependency? || verdict.CyclicDependencies? ==> !Acyclic(GraphOf(tasks))
    ensures verdict.Accepted? <==> Distinct(Ids(tasks)) && Closed(GraphOf(tasks)) && Acyclic(GraphOf(tasks))
    ensures verdict.Accepted? ==> Topological(GraphOf(tasks), order) && Elements(order) == Elements(Ids(tasks))
  {
    hide Acyclic, Topological, Closed, GraphOf, Ids;
    order := [];
    var ids := Ids(tasks);
    if !Distinct(ids) { return DuplicateIds, []; }
    var g := GraphOf(tasks);
    verdict := CheckDependencies(tasks, g);
    if !verdict.Accepted? { return verdict, []; }
    var ok;
    ok, order := SearchAll(ids, g);
    if !ok { return CyclicDependencies, []; }
    assert Elements(order) == Elements(ids);
    TopologicalIsAcyclic(g, order);
  }
}
