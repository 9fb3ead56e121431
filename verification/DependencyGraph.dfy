/**
 The delivery graph: goals, their dependencies, and the three-colour depth-first search
 that reports a blocker for every dependency that closes a cycle.
 */
module DependencyGraph {

  /** The dependencies each known goal declares; a dependency may name an unknown goal. */
  type Graph = map<string, seq<string>>

  predicate Edge(g: Graph, a: string, b: string) {
    a in g && b in g && b in g[a]
  }

  predicate Path(g: Graph, p: seq<string>) {
    (forall i | 0 <= i < |p| :: p[i] in g) && forall i | 0 <= i < |p| - 1 :: Edge(g, p[i], p[i + 1])
  }

  predicate IsCycle(g: Graph, p: seq<string>) {
    |p| >= 2 && p[0] == p[|p| - 1] && Path(g, p)
  }

  ghost predicate OnCycle(g: Graph, id: string) {
    exists p :: IsCycle(g, p) && p[0] == id
  }

  ghost predicate Cyclic(g: Graph) {
    exists p :: IsCycle(g, p)
  }

  /** Every known dependency comes before the goal that needs it. */
  ghost predicate Topological(g: Graph, order: seq<string>) {
    forall i, d | 0 <= i < |order| && Edge(g, order[i], d) :: d in order[..i]
  }

  function FirstIndex(order: seq<string>, id: string): (n: nat)
    requires id in order
    ensures n < |order| && order[n] == id && id !in order[..n]
  {
    if order[0] == id then 0 else
      assert order == [order[0]] + order[1..];
      var n := FirstIndex(order[1..], id);
      assert order[..n + 1] == [order[0]] + order[1..][..n];
      n + 1
  }

  lemma EdgeGoesBack(g: Graph, order: seq<string>, a: string, b: string)
    requires Topological(g, order) && a in order && Edge(g, a, b)
    ensures b in order && FirstIndex(order, b) < FirstIndex(order, a)
  {
    var i := FirstIndex(order, a);
    assert b in order[..i];
  }

  lemma {:induction false} PathGoesBack(g: Graph, order: seq<string>, p: seq<string>)
    requires Topological(g, order) && Path(g, p) && p != [] && p[0] in order
    ensures p[|p| - 1] in order && FirstIndex(order, p[|p| - 1]) + |p| - 1 <= FirstIndex(order, p[0])
  {
    if |p| > 1 {
      assert Edge(g, p[0], p[1]);
      EdgeGoesBack(g, order, p[0], p[1]);
      assert forall i | 0 <= i < |p[1..]| - 1 :: Edge(g, p[1..][i], p[1..][i + 1]) by {
        forall i | 0 <= i < |p[1..]| - 1
          ensures Edge(g, p[1..][i], p[1..][i + 1])
        {
          assert Edge(g, p[i + 1], p[i + 2]);
        }
      }
      PathGoesBack(g, order, p[1..]);
    }
  }

  /** A graph whose goals all have a place in a topological order has no cycle. */
  lemma OrderedMeansAcyclic(g: Graph, order: seq<string>)
    requires Topological(g, order) && forall id | id in g :: id in order
    ensures !Cyclic(g)
  {
    forall p | IsCycle(g, p)
      ensures false
    {
      PathGoesBack(g, order, p);
    }
  }

  function Blocker(id: string): string {
    "dependency cycle detected at " + id
  }

  datatype Colour = Visiting | Visited

  class Detector {
    const goals: Graph
    var state: map<string, Colour>   // goals without an entry are unvisited
    var blockers: seq<string>
    ghost var order: seq<string>     // finished goals, in the order in which they were finished

    constructor (goals: Graph)
      ensures this.goals == goals && Inv([]) && blockers == [] && state == map[]
    {
      this.goals := goals;
      state := map[];
      blockers := [];
      order := [];
    }

    /** `stack` is the chain of goals being visited, each depending on the next. */
    ghost predicate Inv(stack: seq<string>)
      reads this
    {
      && state.Keys <= goals.Keys
      && Path(goals, stack)
      && (forall id :: id in state && state[id].Visiting? <==> id in stack)
      && (forall b | b in blockers :: exists id :: b == Blocker(id) && OnCycle(goals, id))
      && (blockers == [] ==> Topological(goals, order) && forall id | id in state && state[id].Visited? :: id in order)
    }

    method Visit(id: string, ghost stack: seq<string>)
      requires Inv(stack) && id in goals
      requires stack != [] ==> Edge(goals, stack[|stack| - 1], id)
      modifies this
      ensures Inv(stack) && id in state
      ensures old(state).Keys <= state.Keys && old(blockers) <= blockers && old(order) <= order
      ensures blockers == [] ==> id in order
      decreases goals.Keys - state.Keys
    {
      if id in state {
        if state[id].Visiting? {
          ClosesCycle(goals, stack, id);
          blockers := blockers + [Blocker(id)];
        }
        return;
      }
      state := state[id := Visiting];
      ghost var chain := stack + [id];
      assert id in goals.Keys - old(state).Keys;
      var dependencies := goals[id];
      for i := 0 to |dependencies|
        invariant Inv(chain) && id in state
        invariant old(state).Keys <= state.Keys && old(blockers) <= blockers && old(order) <= order
        invariant blockers == [] ==> forall j | 0 <= j < i && dependencies[j] in goals :: dependencies[j] in order
      {
        if dependencies[i] in goals {
          assert chain[|chain| - 1] == id && Edge(goals, id, dependencies[i]);
          Visit(dependencies[i], chain);
        }
      }
      state := state[id := Visited];
      order := order + [id];
      if blockers == [] {
        FinishedInOrder(goals, order[..|order| - 1], id);
      }
    }
  }

  lemma ClosesCycle(g: Graph, stack: seq<string>, id: string)
    requires Path(g, stack) && id in stack && Edge(g, stack[|stack| - 1], id)
    ensures OnCycle(g, id)
  {
    var j :| 0 <= j < |stack| && stack[j] == id;
    var p := stack[j..] + [id];
    forall i | 0 <= i < |p| - 1
      ensures Edge(g, p[i], p[i + 1])
    {
      if i + 1 < |p| - 1 {
        assert Edge(g, stack[j + i], stack[j + i + 1]);
      }
    }
    assert IsCycle(g, p) && p[0] == id;
  }

  lemma FinishedInOrder(g: Graph, order: seq<string>, id: string)
    requires Topological(g, order) && forall d | Edge(g, id, d) :: d in order
    ensures Topological(g, order + [id])
  {
    var o := order + [id];
    forall i, d | 0 <= i < |o| && Edge(g, o[i], d)
      ensures d in o[..i]
    {
      assert o[..i] == order[..i];
    }
  }

  /**
   A blocker is reported if and only if the graph restricted to known goals has a cycle, whatever the
   order in which the goals are visited, and each blocker names a goal on a cycle.
   */
  method DependencyCycles(goals: Graph) returns (blockers: seq<string>, ghost order: seq<string>)
    ensures blockers != [] <==> Cyclic(goals)
    ensures forall b | b in blockers :: exists id :: b == Blocker(id) && OnCycle(goals, id)
    ensures blockers == [] ==> Topological(goals, order) && forall id | id in goals :: id in order
  {
    var detector := new Detector(goals);
    var rest := goals.Keys;
    while rest != {}
      invariant rest <= goals.Keys
      invariant detector.goals == goals && detector.Inv([])
      invariant detector.blockers == [] ==> forall id | id in goals && id !in rest :: id in detector.order
      decreases rest
    {
      var id :| id in rest;
      detector.Visit(id, []);
      rest := rest - {id};
    }
    blockers, order := detector.blockers, detector.order;
    if blockers == [] {
      OrderedMeansAcyclic(goals, order);
    } else {
      assert blockers[0] in blockers;
    }
  }
}
