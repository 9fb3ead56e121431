/**
 Delivery statuses over the dependency graph: which transitions are approved, what every
 sequence of approved transitions keeps, and which roadmaps can be delivered at all.
 */
module DeliveryStatus {
  import opened DependencyGraph

  datatype Status = NotStarted | InProgress | Blocked | Delivered | Unrecognised(text: string)

  datatype Goal = Goal(dependsOn: seq<string>, status: Status)

  type Roadmap = map<string, Goal>

  datatype Verdict = Approved | InvalidTarget | NoSuchGoal | NotAllowed | Unmet(dependencies: seq<string>)

  datatype Step = Step(id: string, target: Status)

  function GraphOf(r: Roadmap): Graph {
    map id | id in r :: r[id].dependsOn
  }

  predicate ValidStatus(s: Status) {
    !s.Unrecognised?
  }

  predicate AllowedTransition(current: Status, target: Status) {
    match current
    case NotStarted => target.InProgress? || target.Blocked?
    case Blocked => target.NotStarted? || target.InProgress?
    case InProgress => target.Blocked? || target.Delivered?
    case Delivered => false
    case Unrecognised(_) => false
  }

  predicate IsDelivered(r: Roadmap, id: string) {
    id in r && r[id].status.Delivered?
  }

  function UnmetAmong(r: Roadmap, dependencies: seq<string>): (unmet: seq<string>)
    ensures unmet == [] <==> forall d | d in dependencies :: IsDelivered(r, d)
    ensures forall d :: d in unmet <==> d in dependencies && !IsDelivered(r, d)
  {
    if dependencies == [] then []
    else
      var rest := UnmetAmong(r, dependencies[1..]);
      assert dependencies == [dependencies[0]] + dependencies[1..];
      if IsDelivered(r, dependencies[0]) then rest else [dependencies[0]] + rest
  }

  function CanTransition(r: Roadmap, id: string, target: Status): Verdict {
    if !ValidStatus(target) then InvalidTarget
    else if id !in r then NoSuchGoal
    else if r[id].status == target then Approved
    else if !AllowedTransition(r[id].status, target) then NotAllowed
    else if !target.Delivered? then Approved
    else
      var unmet := UnmetAmong(r, r[id].dependsOn);
      if unmet == [] then Approved else Unmet(unmet)
  }

  /** The moves a goal may make, one by one; staying in a recognised status is always allowed. */
  const MOVES := {
    (NotStarted, InProgress), (NotStarted, Blocked),
    (Blocked, NotStarted), (Blocked, InProgress),
    (InProgress, Blocked), (InProgress, Delivered)}

  /** A transition is approved exactly if it is one of these moves, and a delivery has nothing undelivered before it. */
  lemma ApprovedExactly(r: Roadmap, id: string, target: Status)
    ensures CanTransition(r, id, target).Approved? <==>
      && id in r && !target.Unrecognised?
      && (r[id].status == target || (r[id].status, target) in MOVES)
      && (target.Delivered? && !r[id].status.Delivered? ==> forall d | d in r[id].dependsOn :: IsDelivered(r, d))
    ensures CanTransition(r, id, target).Unmet? ==>
      && r[id].status.InProgress? && target.Delivered?
      && forall d :: d in CanTransition(r, id, target).dependencies <==> d in r[id].dependsOn && !IsDelivered(r, d)
    ensures CanTransition(r, id, target).NoSuchGoal? <==> id !in r && !target.Unrecognised?
    ensures CanTransition(r, id, target).InvalidTarget? <==> target.Unrecognised?
  {
  }

  /** Every dependency of a delivered goal exists and is delivered. */
  ghost predicate DeliveredClosed(r: Roadmap) {
    forall id, d | IsDelivered(r, id) && d in r[id].dependsOn :: IsDelivered(r, d)
  }

  /** The status validator: no blockers exactly when the delivered goals are closed under dependency. */
  method ValidateStatuses(goals: Roadmap) returns (blockers: seq<(string, string)>)
    ensures blockers == [] <==> DeliveredClosed(goals)
    ensures forall b | b in blockers ::
              IsDelivered(goals, b.0) && b.1 in goals[b.0].dependsOn && !IsDelivered(goals, b.1)
  {
    blockers := [];
    var rest := goals.Keys;
    while rest != {}
      invariant rest <= goals.Keys
      invariant forall b | b in blockers ::
                  IsDelivered(goals, b.0) && b.1 in goals[b.0].dependsOn && !IsDelivered(goals, b.1)
      invariant blockers == [] ==>
                  forall id, d | IsDelivered(goals, id) && id !in rest &&
                  d in goals[id].dependsOn :: IsDelivered(goals, d)
      decreases rest
    {
      var id :| id in rest;
      if goals[id].status.Delivered? {
        var unmet := UnmetAmong(goals, goals[id].dependsOn);
        blockers := blockers + seq(|unmet|, i requires 0 <= i < |unmet| => (id, unmet[i]));
      }
      rest := rest - {id};
    }
    if blockers != [] {
      assert blockers[0] in blockers;
    }
  }

  // ---------------------------------------------------------------------------
  // Runs of approved transitions

  function Apply(r: Roadmap, step: Step): Roadmap
    requires step.id in r
  {
    r[step.id := r[step.id].(status := step.target)]
  }

  predicate AllApproved(r: Roadmap, steps: seq<Step>)
    decreases |steps|
  {
    steps == [] || (CanTransition(r, steps[0].id, steps[0].target).Approved? &&
                    AllApproved(Apply(r, steps[0]), steps[1..]))
  }

  function Run(r: Roadmap, steps: seq<Step>): Roadmap
    requires AllApproved(r, steps)
    decreases |steps|
  {
    if steps == [] then r else Run(Apply(r, steps[0]), steps[1..])
  }

  lemma StepKeeps(r: Roadmap, step: Step)
    requires DeliveredClosed(r) && CanTransition(r, step.id, step.target).Approved?
    ensures DeliveredClosed(Apply(r, step))
    ensures forall id | IsDelivered(r, id) :: IsDelivered(Apply(r, step), id)
    ensures GraphOf(Apply(r, step)) == GraphOf(r)
  {
    var t := Apply(r, step);
    assert forall id | IsDelivered(r, id) :: IsDelivered(t, id);
    forall id, d | IsDelivered(t, id) && d in t[id].dependsOn
      ensures IsDelivered(t, d)
    {
      if IsDelivered(r, id) {
        assert IsDelivered(r, d);
      } else {
        assert id == step.id && UnmetAmong(r, r[id].dependsOn) == [];
        assert IsDelivered(r, d);
      }
    }
  }

  /** The delivered goals stay closed under dependency, and delivered is never left. */
  lemma {:induction false} RunKeepsDelivered(r: Roadmap, steps: seq<Step>)
    requires DeliveredClosed(r) && AllApproved(r, steps)
    ensures DeliveredClosed(Run(r, steps))
    ensures forall id | IsDelivered(r, id) :: IsDelivered(Run(r, steps), id)
    ensures GraphOf(Run(r, steps)) == GraphOf(r)
    decreases |steps|
  {
    if steps != [] {
      StepKeeps(r, steps[0]);
      RunKeepsDelivered(Apply(r, steps[0]), steps[1..]);
    }
  }

  /** Closure under direct dependencies is closure under transitive ones. */
  lemma {:induction false} ClosedUnderPaths(r: Roadmap, p: seq<string>)
    requires DeliveredClosed(r) && Path(GraphOf(r), p) && p != [] && IsDelivered(r, p[0])
    ensures IsDelivered(r, p[|p| - 1])
  {
    if |p| > 1 {
      assert Edge(GraphOf(r), p[0], p[1]);
      var q := p[1..];
      forall i | 0 <= i < |q| - 1
        ensures Edge(GraphOf(r), q[i], q[i + 1])
      {
        assert Edge(GraphOf(r), p[i + 1], p[i + 2]);
      }
      ClosedUnderPaths(r, q);
    }
  }

  /**
   When an approved transition delivers a goal, everything the goal transitively depends on has been
   delivered before: the order of deliveries is a topological order of the graph.
   */
  lemma DeliveriesAreTopological(start: Roadmap, before: seq<Step>, step: Step, p: seq<string>)
    requires DeliveredClosed(start) && AllApproved(start, before)
    requires CanTransition(Run(start, before), step.id, step.target).Approved?
    requires step.target.Delivered? && !IsDelivered(Run(start, before), step.id)
    requires Path(GraphOf(start), p) && |p| >= 2 && p[0] == step.id
    ensures IsDelivered(Run(start, before), p[|p| - 1])
  {
    RunKeepsDelivered(start, before);
    var r := Run(start, before);
    var g := GraphOf(r);
    assert Edge(g, p[0], p[1]);
    assert IsDelivered(r, p[1]);
    var q := p[1..];
    forall i | 0 <= i < |q| - 1
      ensures Edge(g, q[i], q[i + 1])
    {
      assert Edge(g, p[i + 1], p[i + 2]);
    }
    ClosedUnderPaths(r, q);
  }

  /** The goal depends on itself or on an unknown goal, or its status is not recognised. */
  ghost predicate Undeliverable(r: Roadmap, id: string) {
    && id in r
    && (OnCycle(GraphOf(r), id) || !ValidStatus(r[id].status) || exists d :: d in r[id].dependsOn && d !in r)
  }

  /** Such a goal is never delivered unless it already was. */
  lemma {:induction false} NeverDelivered(r: Roadmap, steps: seq<Step>, id: string)
    requires DeliveredClosed(r) && AllApproved(r, steps) && Undeliverable(r, id) && !IsDelivered(r, id)
    ensures !IsDelivered(Run(r, steps), id)
    decreases |steps|
  {
    if steps != [] {
      var step := steps[0];
      StepKeeps(r, step);
      if step == Step(id, Delivered) {
        if OnCycle(GraphOf(r), id) {
          var p :| IsCycle(GraphOf(r), p) && p[0] == id;
          DeliveriesAreTopological(r, [], step, p);
        }
        assert false;
      }
      NeverDelivered(Apply(r, step), steps[1..], id);
    }
  }

  // ---------------------------------------------------------------------------
  // Roadmaps that can be delivered

  /** Approved transitions that take one goal from any recognised status to delivered. */
  function Finish(id: string, status: Status): seq<Step> {
    match status
    case Delivered => []
    case InProgress => [Step(id, Delivered)]
    case _ => [Step(id, InProgress), Step(id, Delivered)]
  }

  lemma {:induction false} RunAppend(r: Roadmap, a: seq<Step>, b: seq<Step>)
    requires AllApproved(r, a) && AllApproved(Run(r, a), b)
    ensures AllApproved(r, a + b) && Run(r, a + b) == Run(Run(r, a), b)
    decreases |a|
  {
    if a == [] {
      assert a + b == b;
    } else {
      assert (a + b)[1..] == a[1..] + b;
      RunAppend(Apply(r, a[0]), a[1..], b);
    }
  }

  lemma FinishApproved(r: Roadmap, id: string)
    requires id in r && ValidStatus(r[id].status)
    requires forall d | d in r[id].dependsOn :: IsDelivered(r, d)
    ensures AllApproved(r, Finish(id, r[id].status))
    ensures Run(r, Finish(id, r[id].status)) == r[id := r[id].(status := Delivered)]
  {
    var steps := Finish(id, r[id].status);
    if |steps| == 0 {
      assert r == r[id := r[id].(status := Delivered)];
    } else if |steps| == 2 {
      var r1 := Apply(r, steps[0]);
      assert forall d | d in r1[id].dependsOn :: IsDelivered(r1, d);
      assert UnmetAmong(r1, r1[id].dependsOn) == [];
      assert steps[1..] == [steps[1]] && steps[1..][1..] == [];
      assert AllApproved(r1, steps[1..]);
      var r2 := Apply(r1, steps[1]);
      assert Run(r1, steps[1..]) == Run(r2, steps[1..][1..]) == r2;
      assert r2 == r[id := r[id].(status := Delivered)];
    } else if |steps| == 1 {
      assert UnmetAmong(r, r[id].dependsOn) == [];
      assert steps[1..] == [];
    }
  }

  /** The dependencies of the goals that are not delivered yet. */
  function Pending(r: Roadmap): Graph {
    map id | id in r && !r[id].status.Delivered? :: r[id].dependsOn
  }

  /** What can still be delivered: every pending goal has a recognised status and known dependencies. */
  ghost predicate Prepared(r: Roadmap) {
    forall id | id in Pending(r) :: ValidStatus(r[id].status) && forall d | d in r[id].dependsOn :: d in r
  }

  /** `s` is `r` with these goals delivered besides. */
  ghost predicate Advanced(r: Roadmap, s: Roadmap, delivered: seq<string>) {
    && s.Keys == r.Keys
    && (forall id | id in r :: s[id].dependsOn == r[id].dependsOn)
    && (forall id | id in Pending(r) :: ValidStatus(s[id].status))
    && forall id | id in delivered || IsDelivered(r, id) :: IsDelivered(s, id)
  }

  lemma {:induction false} AdvancedNext(r: Roadmap, s: Roadmap, order: seq<string>, n: nat)
    requires n < |order| && order[n] in Pending(r) && Advanced(r, s, order[..n])
    ensures Advanced(r, s[order[n] := s[order[n]].(status := Delivered)], order[..n + 1])
  {
    assert order[..n + 1] == order[..n] + [order[n]];
  }

  lemma {:induction false} DeliverNext(r: Roadmap, s: Roadmap, order: seq<string>, n: nat) returns (steps: seq<Step>)
    requires n < |order| && order[n] in Pending(r) && Topological(Pending(r), order) && Prepared(r)
    requires Advanced(r, s, order[..n])
    ensures AllApproved(s, steps) && Advanced(r, Run(s, steps), order[..n + 1])
  {
    var id := order[n];
    forall d | d in s[id].dependsOn
      ensures IsDelivered(s, d)
    {
      if !IsDelivered(r, d) {
        assert Edge(Pending(r), order[n], d);
      }
    }
    FinishApproved(s, id);
    steps := Finish(id, s[id].status);
    AdvancedNext(r, s, order, n);
  }

  /** Delivers the pending goals of a topological order one after the other. */
  lemma {:induction false} DeliverInOrder(r: Roadmap, order: seq<string>, n: nat) returns (steps: seq<Step>)
    requires n <= |order| && Topological(Pending(r), order) && Prepared(r)
    requires forall id | id in order :: id in Pending(r)
    ensures AllApproved(r, steps) && Advanced(r, Run(r, steps), order[..n])
  {
    if n == 0 {
      steps := [];
    } else {
      var before := DeliverInOrder(r, order, n - 1);
      var next := DeliverNext(r, Run(r, before), order, n - 1);
      RunAppend(r, before, next);
      steps := before + next;
    }
  }

  ghost predicate Deliverable(r: Roadmap) {
    exists steps :: AllApproved(r, steps) && forall id | id in r :: IsDelivered(Run(r, steps), id)
  }

  /** Only a delivered goal may be one that could not be delivered any more. */
  ghost predicate Unobstructed(r: Roadmap) {
    forall id | id in r && !IsDelivered(r, id) :: !Undeliverable(r, id)
  }

  /**
   A roadmap whose delivered goals are closed under dependency can be delivered completely by approved
   transitions if and only if none of the others lies on a cycle, has an unknown dependency or has a
   status that is not recognised. The cycle detector on the goals still pending decides it.
   */
  method DecideDeliverable(r: Roadmap) returns (ok: bool)
    requires DeliveredClosed(r)
    ensures ok <==> Unobstructed(r)
    ensures ok <==> Deliverable(r)
  {
    var cycles;
    ghost var order;
    cycles, order := DependencyCycles(Pending(r));
    var known := forall id | id in Pending(r) :: ValidStatus(r[id].status) && forall d | d in r[id].dependsOn :: d in r;
    ok := cycles == [] && known;
    CyclesArePending(r);
    if ok {
      OrderWithin(r, order);
    } else {
      NotDeliverable(r);
    }
  }

  /** A cycle through a goal that is not delivered has no delivered goal on it. */
  lemma {:induction false} PendingCycle(r: Roadmap, p: seq<string>)
    requires DeliveredClosed(r) && IsCycle(GraphOf(r), p) && !IsDelivered(r, p[0])
    ensures IsCycle(Pending(r), p)
  {
    forall i | 0 <= i < |p|
      ensures p[i] in Pending(r)
    {
      if IsDelivered(r, p[i]) {
        var q := p[i..];
        forall k | 0 <= k < |q| - 1
          ensures Edge(GraphOf(r), q[k], q[k + 1])
        {
          assert Edge(GraphOf(r), p[i + k], p[i + k + 1]);
        }
        ClosedUnderPaths(r, q);
      }
    }
    forall i | 0 <= i < |p| - 1
      ensures Edge(Pending(r), p[i], p[i + 1])
    {
      assert Edge(GraphOf(r), p[i], p[i + 1]);
    }
  }

  lemma {:induction false} CycleOfPending(r: Roadmap, p: seq<string>)
    requires IsCycle(Pending(r), p)
    ensures IsCycle(GraphOf(r), p) && !IsDelivered(r, p[0])
  {
    forall i | 0 <= i < |p| - 1
      ensures Edge(GraphOf(r), p[i], p[i + 1])
    {
      assert Edge(Pending(r), p[i], p[i + 1]);
    }
  }

  lemma {:induction false} CyclesArePending(r: Roadmap)
    requires DeliveredClosed(r)
    ensures Cyclic(Pending(r)) <==> exists id :: id in r && !IsDelivered(r, id) && OnCycle(GraphOf(r), id)
  {
    if p :| IsCycle(Pending(r), p) {
      CycleOfPending(r, p);
      assert OnCycle(GraphOf(r), p[0]);
    }
    if id :| id in r && !IsDelivered(r, id) && OnCycle(GraphOf(r), id) {
      var p :| IsCycle(GraphOf(r), p) && p[0] == id;
      PendingCycle(r, p);
    }
  }

  lemma NotDeliverable(r: Roadmap)
    requires DeliveredClosed(r) && !Unobstructed(r)
    ensures !Deliverable(r)
  {
    var id :| id in r && !IsDelivered(r, id) && Undeliverable(r, id);
    forall steps | AllApproved(r, steps)
      ensures !IsDelivered(Run(r, steps), id)
    {
      NeverDelivered(r, steps, id);
    }
  }

  lemma OrderWithin(r: Roadmap, order: seq<string>)
    requires Topological(Pending(r), order) && forall id | id in Pending(r) :: id in order
    requires Prepared(r)
    ensures Deliverable(r)
  {
    var known := Known(Pending(r), order);
    KnownIsTopological(Pending(r), order);
    var steps := DeliverInOrder(r, known, |known|);
    assert known[..|known|] == known;
    forall id | id in r
      ensures IsDelivered(Run(r, steps), id)
    {
      assert id in Pending(r) || IsDelivered(r, id);
    }
  }

  /** The order without names that are not goals. */
  function Known(g: Graph, order: seq<string>): (k: seq<string>)
    ensures forall id :: id in k <==> id in order && id in g
  {
    if order == [] then []
    else
      var front := Known(g, order[..|order| - 1]);
      assert order == order[..|order| - 1] + [order[|order| - 1]];
      if order[|order| - 1] in g then front + [order[|order| - 1]] else front
  }

  lemma {:induction false} KnownIsTopological(g: Graph, order: seq<string>)
    requires Topological(g, order)
    ensures Topological(g, Known(g, order))
  {
    if order != [] {
      var front := order[..|order| - 1];
      var id := order[|order| - 1];
      forall i, d | 0 <= i < |front| && Edge(g, front[i], d)
        ensures d in front[..i]
      {
        assert order[..i] == front[..i] && Edge(g, order[i], d);
      }
      KnownIsTopological(g, front);
      if id in g {
        forall d | Edge(g, id, d)
          ensures d in Known(g, front)
        {
          assert Edge(g, order[|order| - 1], d);
        }
        FinishedInOrder(g, Known(g, front), id);
      }
    }
  }
}
