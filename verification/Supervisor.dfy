/**
 The supervised run: a temporary policy and a wrapped child token are created with the
 root credential, the apply run is executed with them, and both are removed again.
 */
module Supervisor {
  import opened Options
  import opened OpenBaoWorld
  import opened OpenBaoClient
  import opened ApplyContract
  import opened ApplyOrders
  import opened ApplyEvidence
  import opened ApplyAccount
  import ApplyEngine

  predicate TemporaryPolicyCreated(c: Contract, r: Option<Object>) {
    ExactManagementPolicy(c, r) && r.value.version == 1
  }

  /** The temporary policy is there, as this run wrote it. */
  predicate Issued(c: Contract, s: Store, modified: string) {
    TemporaryPolicyCreated(c, Get(s, AclPolicy(c.managementPolicy))) &&
    s[AclPolicy(c.managementPolicy)].modified == modified
  }

  /** What a change of the store alone leaves true: time passes, but tokens and the Lease only evolve. */
  ghost predicate Passes(w: World, v: World) {
    WF(v) && (w.foreign ==> v.foreign) && TokensEvolve(w, v) && LeaseEvolves(w, v)
  }

  lemma PassesTransitive(u: World, v: World, w: World)
    requires Passes(u, v) && Passes(v, w)
    ensures Passes(u, w)
  {
    assert w.lease[..|u.lease|] == w.lease[..|v.lease|][..|u.lease|];
    forall k | |u.lease| <= k < |w.lease| && Stale(u) && !u.guard.running
      ensures !w.lease[k].mine
    {
      if k < |v.lease| {
        assert w.lease[k] == w.lease[..|v.lease|][k] == v.lease[k];
      }
    }
  }

  /** A clear Lease and dead tokens stay so. */
  lemma ClearPasses(start: World, w: World, v: World)
    requires LeaseClear(start, w) && TokensDead(w) && WF(w) && |start.lease| <= |w.lease| && Passes(w, v)
    ensures LeaseClear(start, v) && TokensDead(v)
  {
    forall k | |start.lease| <= k < |w.lease|
      ensures v.lease[k] == w.lease[k]
    {
      assert v.lease[..|w.lease|][k] == w.lease[k];
    }
    if ReadBackEmpty(w) {
      var rv := w.leaseSeen.value.rv;
      assert v.lease[..|w.lease|][rv] == w.lease[rv];
    }
  }

  /**
   What a supervisor may ask the server to change: it creates the delegation where nothing was shown, and
   removes it only if what was shown is exact and was last modified when `seal`, its first readback, was.
   */
  predicate Delegating(c: Contract, seal: Option<Object>, o: Order) {
    && o.path == AclPolicy(c.managementPolicy)
    && match o
       case ToPut(p, body, v) => body == c.delegationBody && ShowsNothing(v, p)
       case ToRemove(p, v) =>
         && TemporaryPolicyCreated(c, seal)
         && p in v.shown && v.shown[p].Got? && TemporaryPolicyCreated(c, v.shown[p].found)
         && v.shown[p].found.value.modified == seal.value.modified
  }

  /** All requests sent since `before` are the supervisor's own. */
  ghost predicate Delegates(c: Contract, seal: Option<Object>, before: set<Order>, orders: set<Order>) {
    before <= orders && forall o | o in orders && o !in before :: Delegating(c, seal, o)
  }

  /** The policy is removed only if it is still the one this run created; success means that it was read back absent. */
  method CleanupTemporaryPolicy(conn: Connection, c: Contract, modified: string, ghost seal: Option<Object>,
                                ghost s: Option<Store>)
    returns (clean: bool)
    requires WF(conn.w) && TemporaryPolicyCreated(c, seal) && seal.value.modified == modified
    requires s.Some? && !conn.w.foreign ==> conn.w.inflight == [] && conn.w.store == s.value
    modifies conn`w, conn`view, conn`seen
    ensures Passes(old(conn.w), conn.w) && old(conn.seen) <= conn.seen
    ensures Delegates(c, seal, old(conn.w.orders), conn.w.orders)
    ensures clean ==> Shown(None, AclPolicy(c.managementPolicy), None) in conn.seen
    ensures s.Some? && clean && !conn.w.foreign ==>
              conn.w.inflight == [] && conn.w.store == s.value - {AclPolicy(c.managementPolicy)}
    ensures conn.cooperative && !old(conn.w.foreign) && s.Some? && Issued(c, s.value, modified) ==>
              clean && !conn.w.foreign
  {
    var p := AclPolicy(c.managementPolicy);
    var current := conn.Read(None, p);
    ghost var before := conn.w;
    if current.Unreadable? || !TemporaryPolicyCreated(c, current.found) || current.found.value.modified != modified {
      return false;
    }
    clean := RemoveAndProve(conn, p, s);
    PassesTransitive(old(conn.w), before, conn.w);
  }

  /** Removes a policy and reads it back. */
  method RemoveAndProve(conn: Connection, p: Path, ghost s: Option<Store>) returns (clean: bool)
    requires WF(conn.w) && p.AclPolicy?
    requires s.Some? && !conn.w.foreign ==> conn.w.inflight == [] && conn.w.store == s.value && p in s.value
    modifies conn`w, conn`view, conn`seen
    ensures Passes(old(conn.w), conn.w) && old(conn.seen) <= conn.seen
    ensures conn.w.orders == old(conn.w.orders) + {ToRemove(p, old(conn.view))}
    ensures clean ==> Shown(None, p, None) in conn.seen
    ensures s.Some? && clean && !conn.w.foreign ==> conn.w.inflight == [] && conn.w.store == s.value - {p}
    ensures conn.cooperative ==> clean && conn.w.foreign == old(conn.w.foreign)
  {
    ghost var mid := conn.Delete(p);
    ghost var sent := conn.w;
    var after := conn.Read(None, p);
    PassesTransitive(old(conn.w), sent, conn.w);
    clean := after.Got? && after.found.None?;
    if s.Some? && clean && !conn.w.foreign {
      RemovalReadBack(old(conn.w), mid, sent, conn.w, p);
      assert Without(s.value, p) == s.value - {p};
    }
  }

  method RevokeAccessorAndProve(conn: Connection, t: Token) returns (gone: bool)
    requires WF(conn.w)
    modifies conn`w
    ensures Evolves(old(conn.w), conn.w)
    ensures gone ==> t !in conn.w.live
    ensures conn.cooperative ==> gone
  {
    var present := conn.AccessorPresent(t);
    if present.None? {
      return false;
    }
    ghost var first := conn.w;
    if present.value {
      var revoked := conn.RevokeAccessor(t);
      EvolvesTransitive(old(conn.w), first, conn.w);
    }
    ghost var second := conn.w;
    present := conn.AccessorPresent(t);
    EvolvesTransitive(old(conn.w), second, conn.w);
    gone := present.Some? && !present.value;
  }

  /** Removes the temporary policy and both tokens; success means that all three were proved gone. */
  method CleanupSupervisorAuthority(conn: Connection, c: Contract, modified: string, wrapper: Token, child: Token,
                                    ghost seal: Option<Object>, ghost s: Option<Store>)
    returns (clean: bool)
    requires WF(conn.w) && wrapper in conn.w.known && child in conn.w.known
    requires TemporaryPolicyCreated(c, seal) && seal.value.modified == modified
    requires s.Some? && !conn.w.foreign ==> conn.w.inflight == [] && conn.w.store == s.value
    modifies conn`w, conn`view, conn`seen
    ensures Passes(old(conn.w), conn.w) && old(conn.seen) <= conn.seen
    ensures Delegates(c, seal, old(conn.w.orders), conn.w.orders)
    ensures clean ==> wrapper !in conn.w.live && child !in conn.w.live
    ensures clean ==> Shown(None, AclPolicy(c.managementPolicy), None) in conn.seen
    ensures s.Some? && clean && !conn.w.foreign ==>
              conn.w.inflight == [] && conn.w.store == s.value - {AclPolicy(c.managementPolicy)}
    ensures conn.cooperative && !old(conn.w.foreign) && s.Some? && Issued(c, s.value, modified) ==> clean
  {
    var policyClean := CleanupTemporaryPolicy(conn, c, modified, seal, s);
    ghost var first := conn.w;
    var wrapperClean := RevokeAccessorAndProve(conn, wrapper);
    ghost var second := conn.w;
    PassesTransitive(old(conn.w), first, second);
    var childClean := RevokeAccessorAndProve(conn, child);
    PassesTransitive(old(conn.w), second, conn.w);
    clean := policyClean && wrapperClean && childClean;
  }

  // ---------------------------------------------------------------------------
  // The supervised run

  datatype SupervisorGate =
    | SupervisedOpenBaoActive
    | InitialRootProfile
    | TemporaryManagementPolicy
    | WrappedManagementDelegation
    | Applying(gate: Gate)
    | SupervisorAuthorityCleanup

  const SUPERVISOR_GATES :=
    [SupervisedOpenBaoActive, InitialRootProfile, TemporaryManagementPolicy, WrappedManagementDelegation]

  datatype SupervisedReport = SupervisedReport(
    status: Status, mutationPerformed: bool, rollbackAttempted: bool, failedGate: Stop, completed: seq<SupervisorGate>)

  /** How a supervised run reports an apply run whose temporary authority was cleaned up. */
  function Supervised(status: Status): Status {
    if status.BlockedPreflight? then RolledBack else status
  }

  function Applied(gates: seq<Gate>): seq<SupervisorGate> {
    seq(|gates|, i requires 0 <= i < |gates| => Applying(gates[i]))
  }

  /**
   What a supervised run owes its caller. `issued` are the wrapping and child tokens it minted and
   `created` says whether the temporary policy ever existed.
   */
  ghost predicate SupervisedPromise(c: Contract, start: World, w: World, status: Status, issued: set<Token>,
                                    created: bool) {
    && WF(w)
    && (!status.PartialManualInterventionRequired? ==> TokensDead(w) && LeaseClear(start, w) && issued !! w.live)
    && (!status.PartialManualInterventionRequired? && !w.foreign ==> w.inflight == [])
    && (status.RolledBack? || status.BlockedPreflight? ==> !w.foreign ==> w.store == start.store)
    && (status.Applied? && !w.foreign ==>
          Complete(c, w.store) && Extends(start.store, w.store) && AclPolicy(c.managementPolicy) !in w.store)
    && (status.BlockedPreflight? <==> !created && !status.PartialManualInterventionRequired?)
  }

  /** The gate that stops a supervised run before its apply run, after it has passed this many of its own. */
  predicate StopsEarly(g: Stop, passed: nat) {
    match passed
    case 0 => g == AtOpenBaoHealth
    case 1 => g == AtInitialRootProfile
    case 2 => g == AtManagementPolicyContract || g == AtTemporaryPolicyPrestate || g == AtTemporaryPolicyCreate
    case 3 => g == AtWrappedDelegationCreate || g == AtSupervisorCleanup
    case 4 => g == AtSupervisedRequest || g == AtSupervisorCleanup
    case _ => false
  }

  /** The report of a supervised run that did not come to its apply run. */
  predicate EarlyReport(r: SupervisedReport) {
    && r.completed <= SUPERVISOR_GATES && StopsEarly(r.failedGate, |r.completed|) && !r.status.Applied?
    && (r.status.BlockedPreflight? <==> !r.mutationPerformed)
    && (r.rollbackAttempted ==> r.mutationPerformed)
    && (r.status.RolledBack? ==> r.failedGate == AtWrappedDelegationCreate && r.rollbackAttempted)
  }

  /** The report of a supervised run, as its apply run's report and the cleanup determine it. */
  function FinalReport(applied: Report, cleaned: bool): SupervisedReport {
    if cleaned then
      SupervisedReport(Supervised(applied.status), true, true, applied.failedGate,
                       Applied(applied.completed) + [SupervisorAuthorityCleanup])
    else
      SupervisedReport(PartialManualInterventionRequired, true, true, AtSupervisorCleanup, Applied(applied.completed))
  }

  /** What an apply run said and did under supervision. */
  datatype Inner = Inner(report: Report, trace: Trace, cleaned: bool)

  /** What the report of a supervised run says. */
  ghost predicate SupervisedTold(c: Contract, r: SupervisedReport, inner: Option<Inner>, seen: set<Note>) {
    match inner
    case None => EarlyReport(r)
    case Some(run) =>
      && r == FinalReport(run.report, run.cleaned)
      && Backed(c, run.report.completed, run.trace.token, seen)
      && (run.cleaned ==> Shown(None, AclPolicy(c.managementPolicy), None) in seen)
  }

  /** Every request of a supervised run is the supervisor's own, or a proper one of its apply run. */
  ghost predicate SupervisedObeyed(c: Contract, seal: Option<Object>, inner: Option<Inner>, before: set<Order>,
                                   orders: set<Order>) {
    && before <= orders
    && forall o | o in orders && o !in before ::
         Delegating(c, seal, o) || (inner.Some? && Proper(c, inner.value.trace.own, o))
  }

  lemma IdleIsSettled(start: World, w: World)
    requires Idle(start, w)
    ensures Settled(w)
  {
  }

  lemma IdleKeepsSupervisedPromise(c: Contract, start: World, w: World)
    requires Idle(start, w)
    ensures SupervisedPromise(c, start, w, BlockedPreflight, {}, false)
  {
  }

  datatype Delegation = NotDelegated(report: SupervisedReport) | Delegated(modified: string)

  function Blocked(gate: Stop, passed: nat): SupervisedReport
    requires passed <= 4
  {
    SupervisedReport(BlockedPreflight, false, false, gate, SUPERVISOR_GATES[..passed])
  }

  /** Health, the root profile, and the temporary policy with its readback. */
  method CreateDelegation(conn: Connection, c: Contract)
    returns (d: Delegation, ghost created: bool, ghost based: World, ghost seal: Option<Object>)
    requires Settled(conn.w) && (conn.cooperative ==> !conn.w.foreign)
    modifies conn`w, conn`view, conn`seen
    ensures old(conn.seen) <= conn.seen && Delegates(c, seal, old(conn.w.orders), conn.w.orders)
    ensures seal.Some? ==> Shown(None, AclPolicy(c.managementPolicy), seal) in conn.seen
    ensures d.NotDelegated? ==>
              SupervisedPromise(c, old(conn.w), conn.w, d.report.status, {}, created) && EarlyReport(d.report)
    ensures d.Delegated? ==> created && Idle(based, conn.w) && based.lease == old(conn.w.lease)
    ensures d.Delegated? ==> TemporaryPolicyCreated(c, seal) && seal.value.modified == d.modified
    ensures d.Delegated? && !conn.w.foreign ==>
              && AclPolicy(c.managementPolicy) !in old(conn.w.store)
              && based.store - {AclPolicy(c.managementPolicy)} == old(conn.w.store)
              && Issued(c, based.store, d.modified)
    ensures conn.cooperative ==> !conn.w.foreign
    ensures conn.cooperative ==>
              if !c.delegationBuilds then d == NotDelegated(Blocked(AtManagementPolicyContract, 2))
              else if AclPolicy(c.managementPolicy) in old(conn.w.store) then
                d == NotDelegated(Blocked(AtTemporaryPolicyPrestate, 2))
              else if AclPolicy(c.managementPolicy) in conn.rejects then
                d == NotDelegated(Blocked(AtTemporaryPolicyCreate, 2))
              else d.Delegated? && conn.w.lease == old(conn.w.lease)
  {
    ghost var start := conn.w;
    based, created, seal := start, false, None;
    var healthy := conn.Probe(Health);
    IdleEvolves(start, start, conn.w);
    IdleKeepsSupervisedPromise(c, start, conn.w);
    if !healthy {
      return NotDelegated(Blocked(AtOpenBaoHealth, 0)), false, start, None;
    }
    ghost var w1 := conn.w;
    var root := conn.Probe(RootProfile);
    IdleEvolves(start, w1, conn.w);
    IdleKeepsSupervisedPromise(c, start, conn.w);
    if !root {
      return NotDelegated(Blocked(AtInitialRootProfile, 1)), false, start, None;
    }
    if !c.delegationBuilds {
      return NotDelegated(Blocked(AtManagementPolicyContract, 2)), false, start, None;
    }
    ghost var w2 := conn.w;
    var pre := conn.Read(None, AclPolicy(c.managementPolicy));
    IdleEvolves(start, w2, conn.w);
    IdleKeepsSupervisedPromise(c, start, conn.w);
    if pre.Unreadable? || pre.found.Some? {
      return NotDelegated(Blocked(AtTemporaryPolicyPrestate, 2)), false, start, None;
    }
    d, created, based, seal := WriteDelegation(conn, c, start);
  }

  method WriteDelegation(conn: Connection, c: Contract, ghost start: World)
    returns (d: Delegation, ghost created: bool, ghost based: World, ghost seal: Option<Object>)
    requires Idle(start, conn.w)
    requires !conn.w.foreign ==> AclPolicy(c.managementPolicy) !in start.store
    requires ShowsNothing(conn.view, AclPolicy(c.managementPolicy))
    requires conn.cooperative ==> !conn.w.foreign
    modifies conn`w, conn`view, conn`seen
    ensures old(conn.seen) <= conn.seen && Delegates(c, seal, old(conn.w.orders), conn.w.orders)
    ensures seal.Some? ==> Shown(None, AclPolicy(c.managementPolicy), seal) in conn.seen
    ensures d.NotDelegated? ==>
              SupervisedPromise(c, start, conn.w, d.report.status, {}, created) && EarlyReport(d.report)
    ensures d.Delegated? ==> created && Idle(based, conn.w) && based.lease == start.lease
    ensures d.Delegated? ==> TemporaryPolicyCreated(c, seal) && seal.value.modified == d.modified
    ensures d.Delegated? && !conn.w.foreign ==>
              && AclPolicy(c.managementPolicy) !in start.store
              && based.store - {AclPolicy(c.managementPolicy)} == start.store
              && Issued(c, based.store, d.modified)
    ensures conn.cooperative ==> !conn.w.foreign
    ensures conn.cooperative ==>
              if AclPolicy(c.managementPolicy) in conn.rejects then
                d == NotDelegated(Blocked(AtTemporaryPolicyCreate, 2))
              else d.Delegated? && conn.w.lease == old(conn.w.lease)
  {
    var p := AclPolicy(c.managementPolicy);
    var written, policy;
    written, policy, based := SendDelegation(conn, c, start);
    created := !written.DefinitelyRejected();
    seal := if policy.Got? then policy.found else None;
    if written.DefinitelyRejected() && policy.Got? && policy.found.None? {
      IdleKeepsSupervisedPromise(c, based, conn.w);
      return NotDelegated(Blocked(AtTemporaryPolicyCreate, 2)), created, based, seal;
    }
    var made := policy.Got? && TemporaryPolicyCreated(c, policy.found);
    if !written.Ok? || !made {
      GiveUpPolicy(conn, c, policy, seal);
      return NotDelegated(SupervisedReport(PartialManualInterventionRequired, true, made, AtTemporaryPolicyCreate,
                                           SUPERVISOR_GATES[..2])), created, based, seal;
    }
    assert p !in start.store ==> based.store - {p} == start.store;
    d := Delegated(policy.found.value.modified);
  }

  /** Writes the temporary policy and reads it back. */
  method SendDelegation(conn: Connection, c: Contract, ghost start: World)
    returns (written: WriteReply, policy: ReadReply, ghost based: World)
    requires Idle(start, conn.w)
    requires ShowsNothing(conn.view, AclPolicy(c.managementPolicy))
    modifies conn`w, conn`view, conn`seen
    ensures old(conn.seen) <= conn.seen && Delegates(c, None, old(conn.w.orders), conn.w.orders) && WF(conn.w)
    ensures policy.Got? ==>
              Shown(None, AclPolicy(c.managementPolicy), policy.found) in conn.seen &&
              policy.found == Get(conn.w.store, AclPolicy(c.managementPolicy))
    ensures old(conn.w.foreign) ==> conn.w.foreign
    ensures based.lease == start.lease && (!written.Ambiguous? ==> Idle(based, conn.w))
    ensures based.store ==
              if written.Ok? then start.store[AclPolicy(c.managementPolicy) := written.obj] else start.store
    ensures conn.cooperative ==>
              policy.Got? && conn.w.lease == old(conn.w.lease) && conn.w.foreign == old(conn.w.foreign)
    ensures conn.cooperative ==>
              if AclPolicy(c.managementPolicy) in conn.rejects ||
                 AclPolicy(c.managementPolicy) in old(conn.w.store) then written == Rejected
              else written.Ok? && TemporaryPolicyCreated(c, Some(written.obj))
  {
    var p := AclPolicy(c.managementPolicy);
    ghost var order := ToPut(p, c.delegationBody, conn.view);
    ghost var mid;
    written, mid := conn.Write(p, c.delegationBody);
    based := Rebased(start, mid, p, order, written);
    ghost var sent := conn.w;
    policy := conn.Read(None, p);
    if !written.Ambiguous? {
      IdleAfterWrite(start, old(conn.w), mid, sent, conn.w, p, order, written);
    }
  }

  /** The outcome of the write is unclear: the policy is removed if it can be told to be this run's. */
  method GiveUpPolicy(conn: Connection, c: Contract, policy: ReadReply, ghost seal: Option<Object>)
    requires WF(conn.w) && seal == if policy.Got? then policy.found else None
    modifies conn`w, conn`view, conn`seen
    ensures WF(conn.w) && old(conn.seen) <= conn.seen && Delegates(c, seal, old(conn.w.orders), conn.w.orders)
  {
    if policy.Got? && TemporaryPolicyCreated(c, policy.found) {
      var _ := CleanupTemporaryPolicy(conn, c, policy.found.value.modified, seal, None);
    }
  }

  /** The start a run has after the policy was written or rejected. */
  ghost function Rebased(start: World, mid: World, p: Path, o: Order, written: WriteReply): World {
    var tried := Asked(start.(attempts := mid.attempts), p, o);
    if written.Ok? then tried.(store := start.store[p := written.obj]) else tried
  }

  lemma IdleAfterWrite(start: World, w0: World, mid: World, w1: World, w2: World, p: Path, o: Order,
                       written: WriteReply)
    requires Idle(start, w0) && Evolves(w0, mid) && Evolves(w1, w2) && WF(w1)
    requires written.Ok? ==> w1 == Asked(mid, p, o).(store := mid.store[p := written.obj])
    requires !written.Ok? ==> w1 == Asked(mid, p, o)
    ensures Idle(Rebased(start, mid, p, o, written), w2)
  {
    IdleEvolves(start, w0, mid);
    IdleEvolves(Rebased(start, mid, p, o, written), w1, w2);
  }

  /**
   The apply run under temporary authority, and the removal of that authority. Whoever else is writing, the
   temporary policy is only removed if it is the one this run created. The report tells of a mutation and an
   attempted rollback as soon as the policy may exist, and of the cleanup exactly if it was proved.
   */
  method ExecuteSupervised(conn: Connection, c: Contract, assembles: bool)
    returns (r: SupervisedReport, ghost issued: set<Token>, ghost created: bool, ghost seal: Option<Object>,
             ghost inner: Option<Inner>)
    requires Settled(conn.w) && (conn.cooperative ==> !conn.w.foreign)
    requires c.managementPolicy != c.policyName
    modifies conn
    ensures SupervisedPromise(c, old(conn.w), conn.w, r.status, issued, created)
    ensures SupervisedTold(c, r, inner, conn.seen)
    ensures SupervisedObeyed(c, seal, inner, old(conn.w.orders), conn.w.orders)
    ensures seal.Some? ==> Shown(None, AclPolicy(c.managementPolicy), seal) in conn.seen
    ensures r.status.Applied? ==>
              inner.Some? && inner.value.report.completed == GATES &&
              Authorized(c, old(conn.signins), conn.signins, conn.seen)
    ensures conn.cooperative ==>
              SupervisedEnds(r, SupervisedVerdict(c, old(conn.w), conn.facts, conn.rejects, assembles))
  {
    ghost var start := conn.w;
    ghost var based;
    issued, inner := {}, None;
    var d;
    d, created, based, seal := CreateDelegation(conn, c);
    if d.NotDelegated? {
      r := d.report;
      return;
    }
    r, issued, inner := RunDelegated(conn, c, assembles, d.modified, seal, start, based);
  }

  /** Issues the wrapped token and goes on to the apply run. */
  method RunDelegated(conn: Connection, c: Contract, assembles: bool, modified: string, ghost seal: Option<Object>,
                      ghost start: World, ghost based: World)
    returns (r: SupervisedReport, ghost issued: set<Token>, ghost inner: Option<Inner>)
    requires Idle(based, conn.w) && based.lease == start.lease != [] && c.managementPolicy != c.policyName
    requires TemporaryPolicyCreated(c, seal) && seal.value.modified == modified
    requires conn.cooperative ==> !conn.w.foreign && conn.w.lease == start.lease && c.delegationBuilds
    requires conn.cooperative ==> AclPolicy(c.managementPolicy) !in conn.rejects
    requires !conn.w.foreign ==> Lent(c, start.store, based.store, modified)
    modifies conn
    ensures old(conn.seen) <= conn.seen
    ensures SupervisedPromise(c, start, conn.w, r.status, issued, true)
    ensures SupervisedTold(c, r, inner, conn.seen)
    ensures SupervisedObeyed(c, seal, inner, old(conn.w.orders), conn.w.orders)
    ensures r.status.Applied? ==>
              inner.Some? && inner.value.report.completed == GATES &&
              Authorized(c, old(conn.signins), conn.signins, conn.seen)
    ensures conn.cooperative ==> SupervisedEnds(r, SupervisedVerdict(c, start, conn.facts, conn.rejects, assembles))
  {
    issued, inner := {}, None;
    ghost var w1 := conn.w;
    ghost var mid;
    var wrapped;
    wrapped, mid := conn.CreateWrappedToken();
    IdleEvolves(based, w1, mid);
    if !wrapped.Wrapped? {
      r := AbandonDelegation(conn, c, modified, wrapped.WrapRejected?, seal, start, based);
      return;
    }
    issued := {wrapped.wrapper, wrapped.child};
    if !assembles {
      var cleaned := CleanupSupervisorAuthority(conn, c, modified, wrapped.wrapper, wrapped.child, seal,
                                                if conn.cooperative then Some(conn.w.store) else None);
      var gate := if cleaned then AtSupervisedRequest else AtSupervisorCleanup;
      r := SupervisedReport(PartialManualInterventionRequired, true, true, gate, SUPERVISOR_GATES);
      return;
    }
    ghost var run;
    r, run := ExecuteDelegated(conn, c, modified, wrapped.wrapper, wrapped.child, seal, start, based);
    inner := Some(run);
  }

  /** The store of a run whose delegation was just created, and which is otherwise as it was. */
  ghost predicate Lent(c: Contract, s: Store, t: Store, modified: string) {
    && AclPolicy(c.managementPolicy) !in s && t - {AclPolicy(c.managementPolicy)} == s
    && Issued(c, t, modified)
  }

  /** How a supervised run must end on a connection that loses nothing, for every start. */
  function SupervisedVerdict(c: Contract, start: World, facts: TokenFacts, rejects: set<Path>, assembles: bool): Ending
    requires start.lease != []
  {
    if !c.delegationBuilds then Nothing(AtManagementPolicyContract, 2)
    else if AclPolicy(c.managementPolicy) in start.store then Nothing(AtTemporaryPolicyPrestate, 2)
    else if AclPolicy(c.managementPolicy) in rejects then Nothing(AtTemporaryPolicyCreate, 2)
    else if !assembles then Ending(PartialManualInterventionRequired, true, true, AtSupervisedRequest, 4)
    else
      var e := Verdict(c, Delegate(c, start), facts, rejects);
      Ending(Supervised(e.status), true, true, e.gate, e.passed + 1)
  }

  predicate SupervisedEnds(r: SupervisedReport, e: Ending) {
    && r.status == e.status && r.mutationPerformed == e.mutated && r.rollbackAttempted == e.rolledBack
    && r.failedGate == e.gate && |r.completed| == e.passed
  }

  /** The same world, with the delegation in place. */
  function Delegate(c: Contract, w: World): World {
    w.(store := w.store[AclPolicy(c.managementPolicy) := Object(c.delegationBody, "", "", 1, "modified", false)])
  }

  /** The temporary policy makes no difference to what the run it was created for is to do. */
  lemma RefusalsIgnorePolicy(c: Contract, s: Store, t: Store, rejects: set<Path>)
    requires c.managementPolicy != c.policyName
    requires s - {AclPolicy(c.managementPolicy)} == t - {AclPolicy(c.managementPolicy)}
    ensures Refusals(c, s, rejects) == Refusals(c, t, rejects)
  {
    var p := AclPolicy(c.managementPolicy);
    forall q | q != p
      ensures Get(s, q) == Get(t, q)
    {
      assert q in s - {p} <==> q in s;
      assert q in t - {p} <==> q in t;
      assert q in s ==> (s - {p})[q] == s[q];
      assert q in t ==> (t - {p})[q] == t[q];
    }
    SameRoles(s, t, p);
    assert Snapshot(c, s) == Snapshot(c, t);
  }

  lemma SameRoles(s: Store, t: Store, p: Path)
    requires !p.RoleAt? && forall q | q != p :: Get(s, q) == Get(t, q)
    ensures RoleNames(s) == RoleNames(t)
  {
    forall q: Path | q.RoleAt?
      ensures q in s <==> q in t
    {
      assert Get(s, q) == Get(t, q);
    }
  }

  lemma VerdictIgnoresIdentity(c: Contract, start: World, before: World, facts: TokenFacts, rejects: set<Path>,
                               modified: string)
    requires c.managementPolicy != c.policyName && start.lease == before.lease != []
    requires Lent(c, start.store, before.store, modified)
    ensures Verdict(c, before, facts, rejects) == Verdict(c, Delegate(c, start), facts, rejects)
  {
    var p := AclPolicy(c.managementPolicy);
    assert Delegate(c, start).store - {p} == start.store;
    RefusalsIgnorePolicy(c, before.store, Delegate(c, start).store, rejects);
  }

  method AbandonDelegation(conn: Connection, c: Contract, modified: string, rejected: bool, ghost seal: Option<Object>,
                           ghost start: World, ghost based: World)
    returns (r: SupervisedReport)
    requires rejected ==> Idle(based, conn.w)
    requires WF(conn.w) && based.lease == start.lease
    requires TemporaryPolicyCreated(c, seal) && seal.value.modified == modified
    requires rejected && !conn.w.foreign ==> based.store - {AclPolicy(c.managementPolicy)} == start.store
    modifies conn`w, conn`view, conn`seen
    ensures old(conn.seen) <= conn.seen && Delegates(c, seal, old(conn.w.orders), conn.w.orders)
    ensures SupervisedPromise(c, start, conn.w, r.status, {}, true) && EarlyReport(r)
  {
    ghost var w := conn.w;
    var cleaned := CleanupTemporaryPolicy(conn, c, modified, seal, if rejected then Some(based.store) else None);
    if cleaned && rejected {
      ClearPasses(start, w, conn.w);
      return SupervisedReport(RolledBack, true, true, AtWrappedDelegationCreate, SUPERVISOR_GATES[..3]);
    }
    var gate := if cleaned then AtWrappedDelegationCreate else AtSupervisorCleanup;
    r := SupervisedReport(PartialManualInterventionRequired, true, true, gate, SUPERVISOR_GATES[..3]);
  }

  method ExecuteDelegated(conn: Connection, c: Contract, modified: string, wrapper: Token, child: Token,
                          ghost seal: Option<Object>, ghost start: World, ghost based: World)
    returns (r: SupervisedReport, ghost run: Inner)
    requires Idle(based, conn.w) && based.lease == start.lease != [] && c.managementPolicy != c.policyName
    requires wrapper in conn.w.known && child in conn.w.known
    requires TemporaryPolicyCreated(c, seal) && seal.value.modified == modified
    requires conn.cooperative ==> !conn.w.foreign && conn.w.lease == start.lease
    requires !conn.w.foreign ==> Lent(c, start.store, based.store, modified)
    modifies conn
    ensures old(conn.seen) <= conn.seen
    ensures SupervisedPromise(c, start, conn.w, r.status, {wrapper, child}, true)
    ensures SupervisedTold(c, r, Some(run), conn.seen)
    ensures SupervisedObeyed(c, seal, Some(run), old(conn.w.orders), conn.w.orders)
    ensures r.status.Applied? ==>
              run.report.completed == GATES && Authorized(c, old(conn.signins), conn.signins, conn.seen)
    ensures conn.cooperative ==>
              var e := Verdict(c, Delegate(c, start), conn.facts, conn.rejects);
              SupervisedEnds(r, Ending(Supervised(e.status), true, true, e.gate, e.passed + 1))
  {
    IdleIsSettled(based, conn.w);
    ghost var before := conn.w;
    ghost var trace;
    var applied;
    applied, trace := ApplyEngine.Execute(conn, c);
    ghost var between, seen := conn.w, conn.seen;
    var cleaned := CleanupSupervisorAuthority(conn, c, modified, wrapper, child, seal,
      if applied.status.PartialManualInterventionRequired? && !conn.cooperative then None else Some(between.store));
    run := Inner(applied, trace, cleaned);
    BackedGrows(c, applied.completed, trace.token, seen, conn.seen);
    if cleaned && !applied.status.PartialManualInterventionRequired? {
      SupervisedClean(c, start, based, before, between, conn.w, applied.status, {wrapper, child});
    }
    if applied.status.Applied? {
      AuthorizedGrows(c, old(conn.signins), conn.signins, seen, conn.seen);
    }
    if conn.cooperative {
      assert Issued(c, between.store, modified);
      VerdictIgnoresIdentity(c, start, before, conn.facts, conn.rejects, modified);
    }
    r := FinalReport(applied, cleaned);
  }

  /** An apply run that ended without manual inspection, and whose authority is gone, keeps the whole promise. */
  lemma SupervisedClean(c: Contract, start: World, based: World, before: World, between: World, w: World,
                        status: Status, issued: set<Token>)
    requires Idle(based, before) && based.lease == start.lease && c.managementPolicy != c.policyName
    requires Promise(c, before, between, status) && !status.PartialManualInterventionRequired?
    requires Passes(between, w) && issued !! w.live
    requires !before.foreign ==> AclPolicy(c.managementPolicy) !in start.store
    requires !before.foreign ==> based.store - {AclPolicy(c.managementPolicy)} == start.store
    requires !w.foreign ==> w.inflight == [] && w.store == between.store - {AclPolicy(c.managementPolicy)}
    ensures SupervisedPromise(c, start, w, Supervised(status), issued, true)
  {
    ClearSince(start, based, before, between);
    ClearPasses(start, between, w);
    if status.Applied? && !w.foreign {
      CompleteWithout(c, between.store, c.managementPolicy);
    }
  }

  /** A Lease that a run cleared is also clear since the earlier moment from which nothing was written. */
  lemma ClearSince(start: World, based: World, before: World, w: World)
    requires Idle(based, before) && based.lease == start.lease && before.lease <= w.lease && LeaseClear(before, w)
    ensures LeaseClear(start, w)
  {
    forall k | |start.lease| <= k < |before.lease|
      ensures !w.lease[k].mine
    {
      assert w.lease[k] == before.lease[k];
    }
  }

  /** Removing the temporary policy keeps a completed contract complete. */
  lemma CompleteWithout(c: Contract, s: Store, name: string)
    requires Complete(c, s) && name != c.policyName
    ensures Complete(c, s - {AclPolicy(name)})
  {
    var t := s - {AclPolicy(name)};
    forall q: Path | q.RoleAt?
      ensures q in t <==> q in s
    {
    }
    assert RoleNames(t) == RoleNames(s);
  }
}
