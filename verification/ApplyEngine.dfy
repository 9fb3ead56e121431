/**
 The apply run itself: one exclusive Lease, one unwrapped management token, a captured
 pre-state, six guarded creations, a live authorization proof, and the exits that end
 the run as applied, rolled back, blocked or handed over for manual inspection.
 */
module ApplyEngine {
  import opened Options
  import opened OpenBaoWorld
  import opened OpenBaoClient
  import opened ApplyContract
  import opened ApplyOrders
  import opened ApplyEvidence
  import opened ApplyChecks
  import opened ApplyAccount

  /** How one guarded creation went. */
  datatype Installed = Installed(obj: Object) | Refused | Unclear | Drifted | Misversioned

  class Executor {
    const conn: Connection
    const c: Contract
    var mutations: MutationState
    var completed: seq<Gate>
    var token: Token
    ghost var a: Account
    ghost var unproven: bool  // the last revocation of the management token was not proved

    constructor (conn: Connection, c: Contract)
      requires Settled(conn.w)
      ensures this.conn == conn && this.c == c
      ensures mutations == NO_MUTATIONS && completed == [] && !unproven
      ensures a == Account(conn.w, conn.w.store, {}, {}, map[], false, false, false, false)
    {
      this.conn := conn;
      this.c := c;
      mutations := NO_MUTATIONS;
      completed := [];
      unproven := false;
      token := Token(0, false);
      a := Account(conn.w, conn.w.store, {}, {}, map[], false, false, false, false);
    }

    /** The same run, over another connection. */
    constructor Continue(e: Executor, conn: Connection)
      ensures this.conn == conn && this.c == e.c
      ensures mutations == e.mutations && completed == e.completed && token == e.token
      ensures a == e.a && unproven == e.unproven
    {
      this.conn := conn;
      c := e.c;
      mutations := e.mutations;
      completed := e.completed;
      token := e.token;
      a := e.a;
      unproven := e.unproven;
    }

    /** The state between two steps of a run that is going well. */
    ghost predicate Poised(st: PreState)
      reads this, conn
    {
      Ready(c, conn.cooperative, conn.w, a, mutations, token, st)
    }

    /** Each gate that was passed has its evidence, and each creation on record was acknowledged and shown. */
    ghost predicate Grounded()
      reads this, conn
    {
      Backed(c, completed, token, conn.seen) && Earned(a.own, token, conn.seen)
    }

    /** What a report says agrees with what the run did. */
    ghost predicate Tells(r: Report)
      reads this, conn
    {
      && Told(a.start, conn.w, a.created, unproven, r)
      && Orderly(c, a.start.orders, conn.w.orders, a.own, a.removing, a.late)
      && (a.removing ==> r.rollbackAttempted)
      && r.completed == completed && StopsAt(r.failedGate, |completed|)
      && (conn.cooperative ==> Kept(conn.w, a))
    }

    /** A report that ends the run before it has applied anything. */
    ghost predicate Stopped(r: Report)
      reads this, conn
    {
      Halted(c, a.start, conn.w, r.status) && Tells(r)
    }

    /** On a connection that loses nothing, this is how the run had to end. */
    ghost predicate Destined(r: Report)
      reads this, conn
    {
      conn.cooperative ==> Ends(r, Refusals(c, a.start.store, conn.rejects))
    }

    /** A gate that may stop the run here. */
    predicate Stops(g: Stop)
      reads this
    {
      g != Clear && !Muting(g) && StopsAt(g, |completed|) && 3 <= |completed| <= 12
    }

    // -------------------------------------------------------------------------
    // Calls made while the guard is held

    /** A new object, as the server first stores it. */
    predicate Fresh(obj: Object, body: string) {
      && obj.body == body && obj.uuid != "" && obj.accessor != "" && obj.version == 1 && obj.modified != ""
      && !obj.deleted
    }

    method Ask(q: Question, ghost keep: set<Token>) returns (ok: bool)
      requires Inv(c, conn.cooperative, conn.w, a, keep)
      modifies conn`w, conn`seen
      ensures old(conn.seen) <= conn.seen && (ok ==> Affirmed(q) in conn.seen)
      ensures Inv(c, conn.cooperative, conn.w, a, keep) && (old(conn.w.foreign) ==> conn.w.foreign)
      ensures conn.cooperative ==> ok && conn.w == old(conn.w)
    {
      ok := conn.Probe(q);
      InvFollows(c, conn.cooperative, old(conn.w), conn.w, a, keep);
    }

    /** A write, and what its reply makes of the account. */
    method Send(p: Path) returns (written: WriteReply)
      requires Inv(c, conn.cooperative, conn.w, a, {token}) && !a.uncertain && !a.removing
      requires Trusted(conn.w, a) ==> p !in a.cur
      requires conn.w.foreign || !Complete(c, a.start.store)
      requires p in c.Parts() && Guarded(c, a.own, p, conn.view) && (Late(p) ==> a.late)
      modifies this`a, conn`w, conn`seen
      ensures old(conn.seen) <= conn.seen && (written.Ok? ==> Acknowledged(p, written.obj) in conn.seen)
      ensures Inv(c, conn.cooperative, conn.w, a, {token}) && (old(conn.w.foreign) ==> conn.w.foreign)
      ensures a == Tried(old(a), p, written)
      ensures |a.start.attempts| < |conn.w.attempts|
      ensures conn.cooperative && (p in conn.rejects || !Accepts(old(a.cur), p)) ==> written.Rejected?
      ensures conn.cooperative && p !in conn.rejects && Accepts(old(a.cur), p) ==>
                written.Ok? && Fresh(written.obj, Desired(c, p))
    {
      ghost var mid;
      ghost var order := ToPut(p, Desired(c, p), conn.view);
      written, mid := conn.Write(p, Desired(c, p));
      InvSent(c, conn.cooperative, old(conn.w), mid, conn.w, a, {token}, written, order);
      a := Tried(a, p, written);
    }

    /** A write and its readback. The readback is truthful; only the write's own reply says whether it took effect. */
    method Create(p: Path) returns (written: WriteReply, readback: ReadReply)
      requires Inv(c, conn.cooperative, conn.w, a, {token}) && !a.uncertain && !a.removing
      requires Trusted(conn.w, a) ==> p !in a.cur
      requires conn.w.foreign || !Complete(c, a.start.store)
      requires p in c.Parts() && Guarded(c, a.own, p, conn.view) && (Late(p) ==> a.late)
      modifies this`a, conn`w, conn`view, conn`seen
      ensures old(conn.seen) <= conn.seen
      ensures Inv(c, conn.cooperative, conn.w, a, {token}) && (old(conn.w.foreign) ==> conn.w.foreign)
      ensures a == Tried(old(a), p, written) && SameRun(old(a), a) && a.own == old(a.own) && !a.removing
      ensures written.Ok? ==> Acknowledged(p, written.obj) in conn.seen
      ensures readback.Got? ==> Shown(Some(token), p, readback.found) in conn.seen
      ensures |a.start.attempts| < |conn.w.attempts|
      ensures readback.Got? && Trusted(conn.w, a) ==> readback.found == Get(a.cur, p)
      ensures conn.cooperative ==> readback.Got?
      ensures conn.cooperative && (p in conn.rejects || !Accepts(old(a.cur), p)) ==> written.Rejected?
      ensures conn.cooperative && p !in conn.rejects && Accepts(old(a.cur), p) ==>
                written.Ok? && Fresh(written.obj, Desired(c, p))
    {
      written := Send(p);
      ghost var sent := conn.w;
      readback := conn.Read(Some(token), p);
      InvFollows(c, conn.cooperative, sent, conn.w, a, {token});
    }

    /** A removal and its readback; `gone` means that the object was read back absent. */
    method Remove(p: Path) returns (gone: bool)
      requires Inv(c, conn.cooperative, conn.w, a, {token}) && !a.uncertain
      requires Trusted(conn.w, a) ==> p in a.made && forall q | q in a.cur && Below(p, q) :: q in a.made
      requires conn.w.foreign || !Complete(c, a.start.store)
      requires Removable(c, a.own, p, conn.view) && (Late(p) ==> a.late)
      modifies this`a, conn`w, conn`view, conn`seen
      ensures old(conn.seen) <= conn.seen && conn.w.orders == old(conn.w.orders) + {ToRemove(p, old(conn.view))}
      ensures Inv(c, conn.cooperative, conn.w, a, {token}) && (old(conn.w.foreign) ==> conn.w.foreign)
      ensures a == if gone then Removed(old(a), p) else old(a).(removing := true, uncertain := true)
      ensures conn.cooperative ==> gone
      ensures conn.w.attempts == old(conn.w.attempts) + [p]
      ensures SameSecretMount(old(conn.view), conn.view) || p == KvMount
    {
      ghost var order := ToRemove(p, conn.view);
      ghost var mid := conn.Delete(p);
      ghost var sent := conn.w;
      var after := conn.Read(Some(token), p);
      gone := after == Got(None);
      InvRemoved(c, conn.cooperative, old(conn.w), mid, sent, conn.w, a, {token}, order, gone);
      a := if gone then Removed(a, p) else a.(removing := true, uncertain := true);
    }

    /** The parent context may be cancelled at any moment. */
    method Cancelled() returns (b: bool)
      ensures conn.cooperative ==> !b
    {
      b := *;
      b := b && !conn.cooperative;
    }

    /** Revokes the management token, unless the Lease is lost. */
    method RevokeManagement() returns (proven: bool)
      requires Inv(c, conn.cooperative, conn.w, a, {token})
      modifies this`unproven, conn`w, conn`seen
      ensures old(conn.seen) <= conn.seen
      ensures unproven == !proven
      ensures proven ==> token !in conn.w.live && Denied(token) in conn.seen
      ensures Inv(c, conn.cooperative, conn.w, a, if proven then {} else {token})
      ensures conn.w.attempts == old(conn.w.attempts) && (old(conn.w.foreign) ==> conn.w.foreign)
      ensures conn.cooperative ==> proven
    {
      proven := RevokeAndProve(conn, token, conn.w.guard.lost);
      InvRevoked(c, conn.cooperative, old(conn.w), conn.w, a, {token}, token, proven);
      assert {token} - {token} == {};
      unproven := !proven;
    }

    method Login(who: Identity, ghost keep: set<Token>) returns (r: LoginReply)
      requires Inv(c, conn.cooperative, conn.w, a, keep)
      modifies this`a, conn`w, conn`signins
      ensures conn.signins == old(conn.signins) + [Signin(who, r)]
      ensures a == old(a) || a == old(a).(leaky := true)
      ensures r.LoggedIn? && r.token.Some? ==>
                Inv(c, conn.cooperative, conn.w, a, keep + {r.token.value}) && a.leaky == old(a.leaky)
      ensures !(r.LoggedIn? && r.token.Some?) ==> Inv(c, conn.cooperative, conn.w, a, keep)
      ensures r.LoginRejected? || r.LoginForbidden? ==> a.leaky == old(a.leaky)
      ensures old(conn.w.foreign) ==> conn.w.foreign
      ensures conn.cooperative && who.Stranger? ==> r == LoginForbidden && conn.w == old(conn.w)
      ensures conn.cooperative && who.Workload? ==> r.LoggedIn? && r.token.Some? && r.token.value !in keep
    {
      ghost var mid;
      r, mid := conn.Login(who);
      InvEvolves(c, conn.cooperative, old(conn.w), mid, a, keep);
      if r.LoginAmbiguous? || r == LoggedIn(None) {
        a := a.(leaky := true);
      }
    }

    /** Stops the renewal goroutine and waits for it. */
    method StopRenewing(ghost keep: set<Token>)
      requires Inv(c, conn.cooperative, conn.w, a, keep)
      modifies conn`w
      ensures Core(c, conn.cooperative, conn.w, a, keep) && !conn.w.guard.running && conn.w.guard.rv < |conn.w.lease|
      ensures !conn.w.guard.lost ==> Stale(conn.w)
      ensures old(conn.w.guard.lost) ==> conn.w.guard.lost
      ensures conn.w.attempts == old(conn.w.attempts) && (old(conn.w.foreign) ==> conn.w.foreign)
      ensures conn.cooperative ==> conn.w == old(conn.w).(guard := old(conn.w.guard).(running := false))
    {
      conn.Elapse();
      InvFollows(c, conn.cooperative, old(conn.w), conn.w, a, keep);
      conn.w := conn.w.(guard := conn.w.guard.(running := false));
    }

    method Abandon(ghost keep: set<Token>)
      requires Inv(c, conn.cooperative, conn.w, a, keep)
      modifies conn`w
      ensures Core(c, conn.cooperative, conn.w, a, keep)
      ensures old(conn.w.guard.lost) ==> conn.w.guard.lost
      ensures conn.w.attempts == old(conn.w.attempts) && (old(conn.w.foreign) ==> conn.w.foreign)
    {
      StopRenewing(keep);
    }

    /** Success means that the Lease was swapped to an empty holder and read back at exactly that version. */
    method Release(ghost keep: set<Token>) returns (ok: bool)
      requires Inv(c, conn.cooperative, conn.w, a, keep)
      modifies conn`w, conn`seen
      ensures old(conn.seen) <= conn.seen
      ensures Core(c, conn.cooperative, conn.w, a, keep)
      ensures ok ==> LeaseClear(a.start, conn.w) && LeaseWritten("") in conn.seen && LeaseShown("") in conn.seen
      ensures old(conn.w.foreign) ==> conn.w.foreign
      ensures conn.cooperative ==> ok
      ensures conn.w.attempts == old(conn.w.attempts)
    {
      StopRenewing(keep);
      var rv := conn.w.guard.rv;
      if conn.w.guard.lost || conn.w.lease[rv].holder != c.holder {
        return false;
      }
      ok := SwapHolderOut(rv, keep);
    }

    method SwapHolderOut(rv: nat, ghost keep: set<Token>) returns (ok: bool)
      requires Core(c, conn.cooperative, conn.w, a, keep) && Stale(conn.w) && !conn.w.guard.running &&
               rv < |conn.w.lease|
      requires conn.cooperative ==> rv + 1 == |conn.w.lease|
      modifies conn`w, conn`seen
      ensures old(conn.seen) <= conn.seen
      ensures Core(c, conn.cooperative, conn.w, a, keep)
      ensures ok ==> LeaseClear(a.start, conn.w) && LeaseWritten("") in conn.seen && LeaseShown("") in conn.seen
      ensures old(conn.w.foreign) ==> conn.w.foreign
      ensures conn.cooperative ==> ok
      ensures conn.w.attempts == old(conn.w.attempts)
    {
      var r;
      ghost var mid;
      r, mid := conn.UpdateLease(rv, "");
      InvEvolves(c, conn.cooperative, old(conn.w), mid, a, keep);
      if !r.Updated? {
        return false;
      }
      ok := ConfirmRelease(r.rv, keep, mid);
    }

    /** The Lease is read back once more, at exactly the version that emptied it. */
    method ConfirmRelease(rv: nat, ghost keep: set<Token>, ghost mid: World) returns (ok: bool)
      requires Core(c, conn.cooperative, conn.w, a, keep) && WF(mid) && Stale(mid) && !mid.guard.running
      requires rv == |mid.lease| && conn.w == Append(mid, "", true)
      modifies conn`w, conn`seen
      ensures old(conn.seen) <= conn.seen
      ensures Core(c, conn.cooperative, conn.w, a, keep)
      ensures ok ==> LeaseClear(a.start, conn.w) && LeaseShown("") in conn.seen
      ensures old(conn.w.foreign) ==> conn.w.foreign
      ensures conn.cooperative ==> ok
      ensures conn.w.attempts == old(conn.w.attempts)
    {
      ghost var swapped, after := conn.w, conn.w;
      var post;
      post, after := conn.GetLease();
      InvEvolves(c, conn.cooperative, swapped, after, a, keep);
      if post.None? || post.value.rv != rv || post.value.holder != "" {
        return false;
      }
      ReleaseClears(a.start, mid, swapped, after, conn.w);
      ok := true;
    }

    // -------------------------------------------------------------------------
    // Exits

    function FixedReport(status: Status, mutated: bool, rollback: bool, failedGate: Stop): Report
      reads this
    {
      Report(status, mutated, rollback, failedGate, completed)
    }

    method ReleaseBlocked(failedGate: Stop) returns (r: Report)
      requires Inv(c, conn.cooperative, conn.w, a, {}) && !a.uncertain && !a.removing && !a.leaky &&
               a.made == a.created == {}
      requires Stops(failedGate)
      modifies conn`w, conn`seen
      ensures old(conn.seen) <= conn.seen
      ensures Stopped(r)
      ensures conn.cooperative ==> r == FixedReport(BlockedPreflight, false, false, failedGate)
      ensures conn.w.attempts == old(conn.w.attempts)
    {
      var released := Release({});
      if !released {
        return FixedReport(PartialManualInterventionRequired, false, false, AtLeaseRelease);
      }
      assert TokensDead(conn.w);
      if Trusted(conn.w, a) {
        NothingMade(a);
      }
      r := FixedReport(BlockedPreflight, false, false, failedGate);
    }

    method BlockAfterManagement(failedGate: Stop) returns (r: Report)
      requires Inv(c, conn.cooperative, conn.w, a, {token}) && !a.uncertain && !a.removing && !a.leaky
      requires Ledger(c, conn.w, a, mutations) && a.created == a.made <= {KvMount}
      requires Stops(failedGate) && 4 <= |completed| && (a.made != {} ==> |completed| == 8)
      modifies this`unproven, conn`w, conn`view, conn`seen
      ensures old(conn.seen) <= conn.seen
      ensures Stopped(r)
      ensures KvMount in a.made && r.failedGate != AtKvV2MountOwnership ==> (!r.mutationPerformed <==> unproven)
      ensures conn.cooperative ==>
                r == if KvMount in a.made then FixedReport(PartialManualInterventionRequired, true, false, failedGate)
                     else FixedReport(BlockedPreflight, false, false, failedGate)
      ensures conn.w.attempts == old(conn.w.attempts)
    {
      if !mutations.kvMountCreated {
        r := BlockUnchanged(failedGate);
        return;
      }
      var owned := KvMountStillOwned(conn, c, token, mutations);
      InvFollows(c, conn.cooperative, old(conn.w), conn.w, a, {token});
      if !owned {
        Abandon({token});
        return FixedReport(PartialManualInterventionRequired, true, false, AtKvV2MountOwnership);
      }
      r := BlockWithSecretMount(failedGate);
    }

    /** The secret mount was created, and is not removed. */
    method BlockWithSecretMount(failedGate: Stop) returns (r: Report)
      requires Inv(c, conn.cooperative, conn.w, a, {token}) && !a.uncertain && !a.removing && !a.leaky
      requires a.created == a.made == {KvMount} && Stops(failedGate) && |completed| == 8
      modifies this`unproven, conn`w, conn`seen
      ensures old(conn.seen) <= conn.seen
      ensures Stopped(r) && (!r.mutationPerformed <==> unproven)
      ensures conn.cooperative ==> r == FixedReport(PartialManualInterventionRequired, true, false, failedGate)
      ensures conn.w.attempts == old(conn.w.attempts)
    {
      var revoked := RevokeManagement();
      if !revoked {
        Abandon({token});
        return FixedReport(PartialManualInterventionRequired, false, false, AtManagementTokenRevoke);
      }
      var released := Release({});
      r := FixedReport(PartialManualInterventionRequired, true, false, if released then failedGate else AtLeaseRelease);
    }

    method BlockUnchanged(failedGate: Stop) returns (r: Report)
      requires Inv(c, conn.cooperative, conn.w, a, {token}) && !a.uncertain && !a.removing && !a.leaky &&
               a.made == a.created == {}
      requires Stops(failedGate) && 4 <= |completed|
      modifies this`unproven, conn`w, conn`seen
      ensures old(conn.seen) <= conn.seen
      ensures Stopped(r)
      ensures conn.cooperative ==> r == FixedReport(BlockedPreflight, false, false, failedGate)
      ensures conn.w.attempts == old(conn.w.attempts)
    {
      var revoked := RevokeManagement();
      if !revoked {
        Abandon({token});
        return FixedReport(PartialManualInterventionRequired, false, false, AtManagementTokenRevoke);
      }
      r := ReleaseBlocked(failedGate);
    }

    method HoldForManualInspection(failedGate: Stop, mutationPossible: bool) returns (r: Report)
      requires Inv(c, conn.cooperative, conn.w, a, {token}) && !a.removing && Stops(failedGate)
      requires if mutationPossible then |a.start.attempts| < |conn.w.attempts|
               else a.created == {} && !mutations.mutated
      modifies this`mutations, this`unproven, conn`w, conn`seen
      ensures old(conn.seen) <= conn.seen
      ensures Stopped(r)
      ensures r == FixedReport(PartialManualInterventionRequired, mutationPossible || mutations.mutated, false,
                               failedGate)
      ensures conn.w.attempts == old(conn.w.attempts)
    {
      if mutationPossible {
        mutations := mutations.(mutated := true);
      }
      var revoked := false;
      if !conn.w.guard.lost {
        revoked := RevokeManagement();
      }
      Abandon(if revoked then {} else {token});
      r := FixedReport(PartialManualInterventionRequired, mutations.mutated, false, failedGate);
    }

    /**
     Removes what this run created, newest first. A removal is only asked for after the object was shown to be
     exact and to be the one this run created, whoever else was writing.
     */
    method Rollback() returns (done: bool)
      requires Inv(c, conn.cooperative, conn.w, a, {token}) && !a.uncertain && !a.removing &&
               Ledger(c, conn.w, a, mutations)
      modifies this`a, conn`w, conn`view, conn`seen
      ensures old(conn.seen) <= conn.seen
      ensures Obeyed(c, old(conn.w.orders), conn.w.orders, a.own) && Recorded(c, a.own, mutations)
      ensures SameRun(old(a), a) && a.created == old(a.created) && a.own == old(a.own)
      ensures Inv(c, conn.cooperative, conn.w, a, {token}) && (old(conn.w.foreign) ==> conn.w.foreign)
      ensures done ==> !a.uncertain && a.made == old(a.made) * {KvMount}
      ensures conn.cooperative && Seed !in old(a.made) ==> done
      ensures Trailing(old(conn.w.attempts), conn.w.attempts, Trail(c, mutations), done)
      ensures old(conn.w.guard.lost) ==> conn.w.attempts == old(conn.w.attempts)
    {
      done := MayRollBack();
      if done {
        done := RollbackCreations();
      }
      ObeyedSince(c, a.start.orders, old(conn.w.orders), conn.w.orders, a.own);
    }

    /** The Lease is still held, the seed was not created, and a created secret mount is still this run's own. */
    method MayRollBack() returns (ok: bool)
      requires Inv(c, conn.cooperative, conn.w, a, {token}) && Ledger(c, conn.w, a, mutations)
      modifies conn`w, conn`view, conn`seen
      ensures old(conn.seen) <= conn.seen && conn.w.orders == old(conn.w.orders)
      ensures Inv(c, conn.cooperative, conn.w, a, {token}) && Ledger(c, conn.w, a, mutations)
      ensures old(conn.w.foreign) ==> conn.w.foreign
      ensures ok ==> Seed !in a.made
      ensures conn.cooperative ==> conn.w == old(conn.w) && (ok <==> Seed !in a.made)
      ensures conn.w.attempts == old(conn.w.attempts)
      ensures old(conn.w.guard.lost) ==> !ok
      ensures ok ==> SecretMountShown(c, a.own, conn.view)
    {
      if conn.w.guard.lost || mutations.seedCreated {
        return false;
      }
      ok := KvMountStillOwned(conn, c, token, mutations);
      InvFollows(c, conn.cooperative, old(conn.w), conn.w, a, {token});
    }

    /** The objects go before the mount; the secret mount is kept. */
    method RollbackCreations() returns (done: bool)
      requires Inv(c, conn.cooperative, conn.w, a, {token}) && !a.uncertain && Ledger(c, conn.w, a, mutations)
      requires Seed !in a.made
      requires SecretMountShown(c, a.own, conn.view)
      modifies this`a, conn`w, conn`view, conn`seen
      ensures old(conn.seen) <= conn.seen && old(conn.w.orders) <= conn.w.orders
      ensures a == old(a).(cur := a.cur, made := a.made, removing := a.removing, uncertain := a.uncertain)
      ensures Inv(c, conn.cooperative, conn.w, a, {token}) && (old(conn.w.foreign) ==> conn.w.foreign)
      ensures done ==> !a.uncertain && a.made == old(a.made) * {KvMount}
      ensures conn.cooperative ==> done
      ensures Trailing(old(conn.w.attempts), conn.w.attempts, Trail(c, mutations), done)
    {
      Dismantled(c, a.made);
      done := RollbackObjects();
      ghost var mid, first := conn.w.attempts, done;
      if done {
        done := RollbackMount();
      }
      TrailingFurther(old(conn.w.attempts), mid, conn.w.attempts, ObjectTrail(c, mutations),
                      if mutations.mountCreated then [AuthMount] else [], first, done);
    }

    /** The role goes before the policy. */
    method RollbackObjects() returns (done: bool)
      requires Inv(c, conn.cooperative, conn.w, a, {token}) && !a.uncertain && Ledger(c, conn.w, a, mutations)
      requires SecretMountShown(c, a.own, conn.view)
      modifies this`a, conn`w, conn`view, conn`seen
      ensures old(conn.seen) <= conn.seen && old(conn.w.orders) <= conn.w.orders
      ensures a == old(a).(cur := a.cur, made := a.made, removing := a.removing, uncertain := a.uncertain)
      ensures Inv(c, conn.cooperative, conn.w, a, {token}) && (old(conn.w.foreign) ==> conn.w.foreign)
      ensures done ==> !a.uncertain && Owned(c, conn.w, a, mutations) && a.made == old(a.made) - {c.Role(), c.Policy()}
      ensures conn.cooperative ==> done
      ensures Trailing(old(conn.w.attempts), conn.w.attempts, ObjectTrail(c, mutations), done)
      ensures SecretMountShown(c, a.own, conn.view)
    {
      done := RollbackRole();
      ghost var mid, first := conn.w.attempts, done;
      if done {
        done := RollbackPolicy();
      }
      TrailingFurther(old(conn.w.attempts), mid, conn.w.attempts, if mutations.roleCreated then [c.Role()] else [],
                      if mutations.policyCreated then [c.Policy()] else [], first, done);
    }

    /** Removes a role or a policy that was shown to be the run's own. */
    method Discard(p: Path) returns (done: bool)
      requires Inv(c, conn.cooperative, conn.w, a, {token}) && !a.uncertain && Owned(c, conn.w, a, mutations)
      requires (p.RoleAt? || p.AclPolicy?) && p in a.made && a.late
      requires Removable(c, a.own, p, conn.view) && SecretMountShown(c, a.own, conn.view)
      modifies this`a, conn`w, conn`view, conn`seen
      ensures old(conn.seen) <= conn.seen && old(conn.w.orders) <= conn.w.orders
      ensures a == old(a).(cur := a.cur, made := a.made, removing := a.removing, uncertain := a.uncertain)
      ensures Inv(c, conn.cooperative, conn.w, a, {token}) && (old(conn.w.foreign) ==> conn.w.foreign)
      ensures done ==> !a.uncertain && Owned(c, conn.w, a, mutations) && a.made == old(a.made) - {p}
      ensures conn.w.attempts == old(conn.w.attempts) + [p] && SecretMountShown(c, a.own, conn.view)
      ensures conn.cooperative ==> done
    {
      PreStateIsAllOrNothing(c, a.start.store);
      done := Remove(p);
      OwnedRemoved(c, old(conn.w), conn.w, old(a), mutations, p);
    }

    method RoleStillMine() returns (b: bool)
      requires Inv(c, conn.cooperative, conn.w, a, {token}) && !a.uncertain && Owned(c, conn.w, a, mutations)
      requires Recorded(c, a.own, mutations) && mutations.roleCreated && c.Role() in a.made
      requires SecretMountShown(c, a.own, conn.view)
      modifies conn`w, conn`view, conn`seen
      ensures old(conn.seen) <= conn.seen && conn.w.orders == old(conn.w.orders)
      ensures Inv(c, conn.cooperative, conn.w, a, {token}) && (old(conn.w.foreign) ==> conn.w.foreign)
      ensures b ==> Removable(c, a.own, c.Role(), conn.view)
      ensures conn.cooperative ==> b
      ensures conn.w.attempts == old(conn.w.attempts)
      ensures SecretMountShown(c, a.own, conn.view)
    {
      b := RoleRemovable(conn, c, token);
      InvFollows(c, conn.cooperative, old(conn.w), conn.w, a, {token});
    }

    method RollbackRole() returns (done: bool)
      requires Inv(c, conn.cooperative, conn.w, a, {token}) && !a.uncertain && Owned(c, conn.w, a, mutations)
      requires Recorded(c, a.own, mutations) && (mutations.roleCreated <==> c.Role() in a.made)
      requires mutations.roleCreated ==> a.late
      requires SecretMountShown(c, a.own, conn.view)
      modifies this`a, conn`w, conn`view, conn`seen
      ensures old(conn.seen) <= conn.seen && old(conn.w.orders) <= conn.w.orders
      ensures a == old(a).(cur := a.cur, made := a.made, removing := a.removing, uncertain := a.uncertain)
      ensures Inv(c, conn.cooperative, conn.w, a, {token}) && (old(conn.w.foreign) ==> conn.w.foreign)
      ensures done ==> !a.uncertain && Owned(c, conn.w, a, mutations) && a.made == old(a.made) - {c.Role()}
      ensures conn.cooperative ==> done
      ensures Trailing(old(conn.w.attempts), conn.w.attempts, if mutations.roleCreated then [c.Role()] else [], done)
      ensures old(conn.w.guard.lost) ==> conn.w.attempts == old(conn.w.attempts)
      ensures SecretMountShown(c, a.own, conn.view)
    {
      if !mutations.roleCreated {
        return true;
      }
      if conn.w.guard.lost {
        return false;
      }
      done := RoleStillMine();
      if done {
        done := Discard(c.Role());
      }
    }

    method PolicyStillMine() returns (b: bool)
      requires Inv(c, conn.cooperative, conn.w, a, {token}) && !a.uncertain && Owned(c, conn.w, a, mutations)
      requires Recorded(c, a.own, mutations) && mutations.policyCreated && c.Policy() in a.made
      requires SecretMountShown(c, a.own, conn.view)
      modifies conn`w, conn`view, conn`seen
      ensures old(conn.seen) <= conn.seen && conn.w.orders == old(conn.w.orders)
      ensures Inv(c, conn.cooperative, conn.w, a, {token}) && (old(conn.w.foreign) ==> conn.w.foreign)
      ensures b ==> Removable(c, a.own, c.Policy(), conn.view)
      ensures conn.cooperative ==> b
      ensures conn.w.attempts == old(conn.w.attempts)
      ensures SecretMountShown(c, a.own, conn.view)
    {
      b := PolicyRemovable(conn, c, token, mutations);
      InvFollows(c, conn.cooperative, old(conn.w), conn.w, a, {token});
    }

    method RollbackPolicy() returns (done: bool)
      requires Inv(c, conn.cooperative, conn.w, a, {token}) && !a.uncertain && Owned(c, conn.w, a, mutations)
      requires Recorded(c, a.own, mutations) && (mutations.policyCreated <==> c.Policy() in a.made)
      requires mutations.policyCreated ==> a.late
      requires SecretMountShown(c, a.own, conn.view)
      modifies this`a, conn`w, conn`view, conn`seen
      ensures old(conn.seen) <= conn.seen && old(conn.w.orders) <= conn.w.orders
      ensures a == old(a).(cur := a.cur, made := a.made, removing := a.removing, uncertain := a.uncertain)
      ensures Inv(c, conn.cooperative, conn.w, a, {token}) && (old(conn.w.foreign) ==> conn.w.foreign)
      ensures done ==> !a.uncertain && Owned(c, conn.w, a, mutations) && a.made == old(a.made) - {c.Policy()}
      ensures conn.cooperative ==> done
      ensures Trailing(old(conn.w.attempts), conn.w.attempts,
                       if mutations.policyCreated then [c.Policy()] else [], done)
      ensures old(conn.w.guard.lost) ==> conn.w.attempts == old(conn.w.attempts)
      ensures SecretMountShown(c, a.own, conn.view)
    {
      if !mutations.policyCreated {
        return true;
      }
      if conn.w.guard.lost {
        return false;
      }
      done := PolicyStillMine();
      if done {
        done := Discard(c.Policy());
      }
    }

    method MountStillMine() returns (b: bool)
      requires Inv(c, conn.cooperative, conn.w, a, {token}) && !a.uncertain && Owned(c, conn.w, a, mutations)
      requires Recorded(c, a.own, mutations) && mutations.mountCreated && AuthMount in a.made
      requires a.made <= {KvMount, AuthMount, AuthConfig}
      requires SecretMountShown(c, a.own, conn.view)
      modifies conn`w, conn`view, conn`seen
      ensures old(conn.seen) <= conn.seen && conn.w.orders == old(conn.w.orders)
      ensures Inv(c, conn.cooperative, conn.w, a, {token}) && (old(conn.w.foreign) ==> conn.w.foreign)
      ensures b ==> Removable(c, a.own, AuthMount, conn.view)
      ensures b && Trusted(conn.w, a) ==> forall q | q in a.cur && Below(AuthMount, q) :: q in a.made
      ensures conn.cooperative ==> b
      ensures conn.w.attempts == old(conn.w.attempts)
    {
      if Trusted(conn.w, a) {
        AuthMountMine(c, a);
      }
      b := MountRemovable(conn, c, token, mutations);
      InvFollows(c, conn.cooperative, old(conn.w), conn.w, a, {token});
      if b && Trusted(conn.w, a) {
        BelowAuthIsMine(c, a);
      }
    }

    method RollbackMount() returns (done: bool)
      requires Inv(c, conn.cooperative, conn.w, a, {token}) && !a.uncertain && Owned(c, conn.w, a, mutations)
      requires Recorded(c, a.own, mutations) && (mutations.mountCreated <==> AuthMount in a.made)
      requires a.made <= {KvMount, AuthMount, AuthConfig} && (AuthConfig in a.made ==> AuthMount in a.made)
      requires SecretMountShown(c, a.own, conn.view)
      modifies this`a, conn`w, conn`view, conn`seen
      ensures old(conn.seen) <= conn.seen && old(conn.w.orders) <= conn.w.orders
      ensures a == old(a).(cur := a.cur, made := a.made, removing := a.removing, uncertain := a.uncertain)
      ensures Inv(c, conn.cooperative, conn.w, a, {token}) && (old(conn.w.foreign) ==> conn.w.foreign)
      ensures done ==> !a.uncertain && a.made == old(a.made) * {KvMount}
      ensures conn.cooperative ==> done
      ensures Trailing(old(conn.w.attempts), conn.w.attempts, if mutations.mountCreated then [AuthMount] else [], done)
      ensures old(conn.w.guard.lost) ==> conn.w.attempts == old(conn.w.attempts)
    {
      if !mutations.mountCreated {
        MountDismantled(a.made);
        return true;
      }
      if conn.w.guard.lost {
        return false;
      }
      done := MountStillMine();
      if done {
        PreStateIsAllOrNothing(c, a.start.store);
        done := Remove(AuthMount);
        MountDismantled(old(a.made));
      }
    }

    method FailAfterMutationWithCleanup(failedGate: Stop, cleanupUncertain: bool) returns (r: Report)
      requires Inv(c, conn.cooperative, conn.w, a, {token}) && !a.uncertain && !a.removing &&
               Ledger(c, conn.w, a, mutations)
      requires cleanupUncertain || !a.leaky
      requires a.created == a.made && Mounted(a) && Stops(failedGate) && 7 <= |completed|
      modifies this`mutations, this`a, this`unproven, conn`w, conn`view, conn`seen
      ensures old(conn.seen) <= conn.seen
      ensures SameRun(old(a), a) && a.own == old(a.own)
      ensures Stopped(r)
      ensures conn.cooperative && !cleanupUncertain && Seed !in old(a.made) ==>
                r == if old(a.made) == {} then FixedReport(BlockedPreflight, false, false, failedGate)
                     else FixedReport(Undone(KvMount in old(a.made), failedGate, 0).status, true, true, failedGate)
      ensures old(conn.w.guard.lost) ==> conn.w.attempts == old(conn.w.attempts)
    {
      if !mutations.mutated {
        if cleanupUncertain {
          r := HoldForManualInspection(failedGate, false);
          return;
        }
        r := BlockUnchanged(failedGate);
        return;
      }
      // The seed has no compare-and-delete, so once it exists nothing is removed automatically.
      if mutations.seedCreated {
        r := HoldForManualInspection(failedGate, true);
        return;
      }
      if conn.w.guard.lost {
        Abandon({token});
        return FixedReport(PartialManualInterventionRequired, mutations.mutated, false, AtExclusiveLeaseLost);
      }
      r := UndoMutations(failedGate, cleanupUncertain);
    }

    method UndoMutations(failedGate: Stop, cleanupUncertain: bool) returns (r: Report)
      requires Inv(c, conn.cooperative, conn.w, a, {token}) && !a.uncertain && !a.removing &&
               Ledger(c, conn.w, a, mutations)
      requires cleanupUncertain || !a.leaky
      requires a.created == a.made && Mounted(a) && Stops(failedGate) && mutations.mutated && Seed !in a.made
      modifies this`a, this`unproven, conn`w, conn`view, conn`seen
      ensures old(conn.seen) <= conn.seen
      ensures SameRun(old(a), a) && a.own == old(a.own)
      ensures Stopped(r)
      ensures conn.cooperative && !cleanupUncertain ==>
                r == FixedReport(Undone(KvMount in old(a.made), failedGate, 0).status, true, true, failedGate)
    {
      var rolledBack := Rollback();
      var managementRevoked := RevokeManagement();
      if !rolledBack || !managementRevoked || cleanupUncertain {
        Abandon(if managementRevoked then {} else {token});
        return FixedReport(PartialManualInterventionRequired, true, true, failedGate);
      }
      r := ReleaseUndone(failedGate);
    }

    /** Releases the Lease once everything but a created secret mount is gone. */
    method ReleaseUndone(failedGate: Stop) returns (r: Report)
      requires Inv(c, conn.cooperative, conn.w, a, {}) && !a.uncertain && !a.leaky && a.created != {}
      requires a.made == if mutations.kvMountCreated then {KvMount} else {}
      requires mutations.kvMountCreated ==> a.created != {KvMount}
      requires Stops(failedGate)
      modifies conn`w, conn`seen
      ensures old(conn.seen) <= conn.seen
      ensures Stopped(r)
      ensures conn.cooperative ==>
                r == FixedReport(Undone(mutations.kvMountCreated, failedGate, 0).status, true, true, failedGate)
    {
      var released := Release({});
      if !released {
        return FixedReport(PartialManualInterventionRequired, true, true, AtLeaseRelease);
      }
      if mutations.kvMountCreated {
        return FixedReport(PartialManualInterventionRequired, true, true, failedGate);
      }
      if Trusted(conn.w, a) {
        NothingMade(a);
      }
      r := FixedReport(RolledBack, true, true, failedGate);
    }

    // -------------------------------------------------------------------------
    // The creations

    /** One guarded creation: the write, its readback and the exactness check. */
    method Install(p: Path) returns (res: Installed)
      requires Inv(c, conn.cooperative, conn.w, a, {token}) && !a.uncertain && !a.removing
      requires Trusted(conn.w, a) ==> p !in a.cur
      requires conn.w.foreign || !Complete(c, a.start.store)
      requires p in c.Parts() && Guarded(c, a.own, p, conn.view) && (Late(p) <==> a.late) && p != Seed
      modifies this`a, conn`w, conn`view, conn`seen
      ensures old(conn.seen) <= conn.seen
      ensures Inv(c, conn.cooperative, conn.w, a, {token}) && (old(conn.w.foreign) ==> conn.w.foreign)
      ensures res.Installed? ==>
                a == old(a).(cur := a.cur, made := old(a.made) + {p}, created := old(a.created) + {p},
                             own := old(a.own)[p := res.obj])
      ensures res.Installed? ==> Exact(c, p, Some(res.obj)) && Credited(p, res.obj, token, conn.seen)
      ensures res.Installed? && Trusted(conn.w, a) ==> a.cur == old(a.cur)[p := res.obj]
      ensures res.Refused? ==> a == old(a)
      ensures !res.Installed? ==> SameRun(old(a), a) && a.own == old(a.own) && !a.removing
      ensures res.Misversioned? ==> p.AclPolicy?
      ensures |a.start.attempts| < |conn.w.attempts|
      ensures conn.cooperative ==>
                if p in conn.rejects ||
                   !Accepts(old(a.cur), p) then res.Refused? else res.Installed?
    {
      var written, readback := Create(p);
      if readback.Got? && readback.found.None? && written.DefinitelyRejected() {
        return Refused;
      }
      if readback.Unreadable? || readback.found.None? || !written.Ok? {
        return Unclear;
      }
      if !Exact(c, p, readback.found) {
        return Drifted;
      }
      // A policy that was just created must have version 1.
      if p.AclPolicy? && readback.found.value.version != 1 {
        return Misversioned;
      }
      InvRecorded(c, conn.cooperative, conn.w, a, {token}, p, readback.found.value);
      a := a.(own := a.own[p := readback.found.value]);
      res := Installed(readback.found.value);
    }

    /** Records a creation, so that the exits know what they may have to undo. */
    method Book(p: Path, obj: Object, ghost before: World, ghost was: Account, ghost st: PreState)
      requires Ready(c, conn.cooperative, before, was, mutations, token, st) && p in c.Parts()
      requires (p == AuthConfig ==> AuthMount in was.made) && (Late(p) ==> was.late)
      requires Inv(c, conn.cooperative, conn.w, a, {token}) && (before.foreign ==> conn.w.foreign)
      requires a == was.(cur := a.cur, made := was.made + {p}, created := was.created + {p}, own := was.own[p := obj])
      requires Trusted(conn.w, a) ==> Exact(c, p, Some(obj)) && a.cur == was.cur[p := obj] && Pristine(c, a.start.store)
      requires Credited(p, obj, token, conn.seen)
      modifies this`mutations
      ensures mutations == Booked(c, old(mutations), p, obj) && Grew(was.own, a.own, token, conn.seen)
      ensures Poised(st)
    {
      GrewByOne(was.own, p, obj, token, conn.seen);
      TiedBooked(c, was, a, mutations, p, obj);
      OwnedBooked(c, before, conn.w, was, a, mutations, p, obj);
      RecordedBooked(c, was.own, mutations, p, obj);
      mutations := Booked(c, mutations, p, obj);
    }

    /** Creates a part and books it. */
    method Place(p: Path, ghost st: PreState) returns (res: Installed)
      requires Poised(st) && p in c.Parts() && (p == AuthConfig ==> AuthMount in a.made)
      requires Trusted(conn.w, a) ==> p !in a.cur && Pristine(c, a.start.store)
      requires conn.w.foreign || !Complete(c, a.start.store)
      requires Guarded(c, a.own, p, conn.view) && (Late(p) <==> a.late) && p != Seed
      modifies this`mutations, this`a, conn`w, conn`view, conn`seen
      ensures old(conn.seen) <= conn.seen && Grew(old(a.own), a.own, token, conn.seen)
      ensures SameRun(old(a), a) && |a.start.attempts| < |conn.w.attempts|
      ensures Inv(c, conn.cooperative, conn.w, a, {token}) && (old(conn.w.foreign) ==> conn.w.foreign) && !a.removing
      ensures res.Installed? || res.Refused? ==> Poised(st)
      ensures res.Installed? ==>
                a == old(a).(cur := a.cur, made := old(a.made) + {p}, created := old(a.created) + {p}, own := a.own)
      ensures res.Installed? ==> Exact(c, p, Some(res.obj)) && ExactlyShown(c, token, p, conn.seen)
      ensures res.Installed? && Trusted(conn.w, a) ==> a.cur == old(a.cur)[p := res.obj]
      ensures res.Misversioned? ==> p.AclPolicy?
      ensures res.Refused? ==> a == old(a) && mutations == old(mutations)
      ensures conn.cooperative ==>
                if p in conn.rejects ||
                   !Accepts(old(a.cur), p) then res.Refused? else res.Installed?
    {
      res := Install(p);
      if res.Installed? {
        Book(p, res.obj, old(conn.w), old(a), st);
      }
    }

    /** Ends the run after a mount that was refused, is unclear, or did not read back as written. */
    method AbortMount(res: Installed, p: Path) returns (r: Report)
      requires Inv(c, conn.cooperative, conn.w, a, {token}) && |a.start.attempts| < |conn.w.attempts|
      requires !res.Installed? && !res.Misversioned?
      requires !a.removing && (p == KvMount || p == AuthMount) && |completed| == PassedBefore(p)
      requires res.Refused? ==>
                 && !a.uncertain && !a.leaky && Ledger(c, conn.w, a, mutations)
                 && a.created == a.made <= {KvMount} && (a.made != {} ==> p == AuthMount)
      requires conn.cooperative ==>
                 && res.Refused?
                 && Refusals(c, a.start.store, conn.rejects) ==
                      if KvMount in a.made then
                        Ending(PartialManualInterventionRequired, true, false, RejectedAt(p), |completed|)
                      else Nothing(RejectedAt(p), |completed|)
      modifies this`mutations, this`unproven, conn`w, conn`view, conn`seen
      ensures old(conn.seen) <= conn.seen
      ensures Stopped(r) && Destined(r)
    {
      CreationStops(p);
      if !res.Refused? {
        r := HoldForManualInspection(if res.Unclear? then AmbiguousAt(p) else DriftedAt(p), true);
        return;
      }
      r := BlockAfterManagement(RejectedAt(p));
    }

    /** Ends the run because the pre-state has changed before a mount was created. */
    method BlockChanged(ghost st: PreState) returns (r: Report)
      requires !conn.cooperative && Poised(st) && a.made <= {KvMount}
      requires |completed| == 7 || |completed| == 8
      requires a.made != {} ==> |completed| == 8
      modifies this`unproven, conn`w, conn`view, conn`seen
      ensures old(conn.seen) <= conn.seen
      ensures Stopped(r)
      ensures old(conn.w.guard.lost) ==> conn.w.attempts == old(conn.w.attempts)
    {
      r := BlockAfterManagement(AtPrewritePrestateChanged);
    }

    /** Ends the run because a check before a creation below the auth mount did not find what it should. */
    method FailPrewrite(p: Path, ghost st: PreState) returns (r: Report)
      requires !conn.cooperative && Poised(st) && Mounted(a) && !p.KvMount? && !p.AuthMount?
      requires |completed| == PassedBefore(p)
      modifies this`mutations, this`a, this`unproven, conn`w, conn`view, conn`seen
      ensures old(conn.seen) <= conn.seen
      ensures SameRun(old(a), a) && a.own == old(a.own)
      ensures Stopped(r)
      ensures old(conn.w.guard.lost) ==> conn.w.attempts == old(conn.w.attempts)
    {
      CreationStops(p);
      r := FailAfterMutationWithCleanup(PrewriteAt(p), false);
    }

    method EnsureKvMount(st: PreState) returns (stop: Option<Report>)
      requires Poised(st) && a.made == {} && !a.late && |completed| == 7
      modifies this`mutations, this`a, this`unproven, conn`w, conn`view, conn`seen
      ensures old(conn.seen) <= conn.seen && Grew(old(a.own), a.own, token, conn.seen)
      ensures SameRun(old(a), a)
      ensures stop.Some? ==> Stopped(stop.value) && Destined(stop.value)
      ensures stop.None? ==>
                Poised(st) && !a.late && a.made <= {KvMount} &&
                (Trusted(conn.w, a) ==> ExactKvV2Mount(c, Get(a.cur, KvMount)))
      ensures stop.None? ==> if st.kvMount.Some? then a.made == {} else ExactlyShown(c, token, KvMount, conn.seen)
      ensures stop.None? && conn.cooperative ==> Granted(a.start.store, conn.rejects, {KvMount})
      ensures old(conn.w.guard.lost) ==> conn.w.attempts == old(conn.w.attempts)
    {
      PreStateIsAllOrNothing(c, a.start.store);
      if Trusted(conn.w, a) {
        NothingMade(a);
      }
      if st.kvMount.Some? {
        return None;
      }
      if conn.w.guard.lost {
        Abandon({token});
        return Some(FixedReport(PartialManualInterventionRequired, false, false, AtExclusiveLeaseLost));
      }
      var again := CapturePreState(conn, c, token);
      ReadyFollows(c, conn.cooperative, old(conn.w), conn.w, a, mutations, token, st);
      if again.None? || again.value != st {
        var r := BlockChanged(st);
        return Some(r);
      }
      EmptyViewed(c, a.own, st, conn.view);
      stop := CreateKvMount(st);
    }

    method CreateKvMount(st: PreState) returns (stop: Option<Report>)
      requires Poised(st) && a.made == {} && !a.late && |completed| == 7
      requires Trusted(conn.w, a) ==> KvMount !in a.cur && Pristine(c, a.start.store)
      requires KvMount !in a.start.store || conn.w.foreign
      requires Guarded(c, a.own, KvMount, conn.view)
      modifies this`mutations, this`a, this`unproven, conn`w, conn`view, conn`seen
      ensures old(conn.seen) <= conn.seen && Grew(old(a.own), a.own, token, conn.seen)
      ensures SameRun(old(a), a)
      ensures stop.Some? ==> Stopped(stop.value) && Destined(stop.value)
      ensures stop.None? ==>
                Poised(st) && !a.late && a.made <= {KvMount} &&
                (Trusted(conn.w, a) ==> ExactKvV2Mount(c, Get(a.cur, KvMount)))
      ensures stop.None? ==> ExactlyShown(c, token, KvMount, conn.seen)
      ensures stop.None? && conn.cooperative ==> Granted(a.start.store, conn.rejects, {KvMount})
    {
      if conn.cooperative {
        OutcomeOfMountRefusal(c, a.start.store, conn.rejects);
      }
      var mount := Place(KvMount, st);
      if !mount.Installed? {
        var r := AbortMount(mount, KvMount);
        return Some(r);
      }
      stop := None;
    }

    method EnsureAuthMount(st: PreState) returns (stop: Option<Report>)
      requires Poised(st) && !a.late && a.made <= {KvMount} && |completed| == 8
      requires Trusted(conn.w, a) ==> ExactKvV2Mount(c, Get(a.cur, KvMount))
      requires st.kvMount.Some? ==> a.made == {}
      requires conn.cooperative ==> Granted(a.start.store, conn.rejects, {KvMount})
      modifies this`mutations, this`a, this`unproven, conn`w, conn`view, conn`seen
      ensures old(conn.seen) <= conn.seen && Grew(old(a.own), a.own, token, conn.seen)
      ensures SameRun(old(a), a)
      ensures stop.Some? ==> Stopped(stop.value) && Destined(stop.value)
      ensures st.mount.None? && old(conn.w.guard.lost) ==>
                && stop.Some? && stop.value.failedGate == AtExclusiveLeaseLost && !stop.value.mutationPerformed
                && a == old(a)
      ensures stop.None? ==>
                Poised(st) && Mounted(a) &&
                a.made <= {KvMount, AuthMount, AuthConfig} && (Trusted(conn.w, a) ==> MountsReady(c, a.cur))
      ensures stop.None? && st.mount.None? ==>
                ExactlyShown(c, token, AuthMount, conn.seen) && ExactlyShown(c, token, AuthConfig, conn.seen)
      ensures stop.None? && conn.cooperative ==> Granted(a.start.store, conn.rejects, {KvMount, AuthMount, AuthConfig})
      ensures old(conn.w.guard.lost) ==> conn.w.attempts == old(conn.w.attempts)
    {
      PreStateIsAllOrNothing(c, a.start.store);
      if st.mount.Some? {
        if Trusted(conn.w, a) {
          CompleteMeansUntouched(c, a);
        }
        return None;
      }
      if conn.w.guard.lost {
        Abandon({token});
        return Some(FixedReport(PartialManualInterventionRequired, false, false, AtExclusiveLeaseLost));
      }
      if Trusted(conn.w, a) {
        StillPristine(c, a);
      }
      var absent := MountPrestateStillAbsent(conn, c, token);
      ReadyFollows(c, conn.cooperative, old(conn.w), conn.w, a, mutations, token, st);
      if !absent {
        var r := BlockChanged(st);
        return Some(r);
      }
      stop := CreateAuthMount(st);
    }

    method CreateAuthMount(st: PreState) returns (stop: Option<Report>)
      requires Poised(st) && !a.late && a.made <= {KvMount} && |completed| == 8
      requires Trusted(conn.w, a) ==>
                 Pristine(c, a.start.store) && AuthMount !in a.cur && ExactKvV2Mount(c, Get(a.cur, KvMount))
      requires Guarded(c, a.own, AuthMount, conn.view)
      requires conn.w.foreign || !Complete(c, a.start.store)
      requires conn.cooperative ==> Granted(a.start.store, conn.rejects, {KvMount})
      modifies this`mutations, this`a, this`unproven, conn`w, conn`view, conn`seen
      ensures old(conn.seen) <= conn.seen && Grew(old(a.own), a.own, token, conn.seen)
      ensures SameRun(old(a), a)
      ensures stop.Some? ==> Stopped(stop.value) && Destined(stop.value)
      ensures stop.None? ==>
                Poised(st) && Mounted(a) &&
                a.made <= {KvMount, AuthMount, AuthConfig} && (Trusted(conn.w, a) ==> MountsReady(c, a.cur))
      ensures stop.None? ==>
                ExactlyShown(c, token, AuthMount, conn.seen) && ExactlyShown(c, token, AuthConfig, conn.seen)
      ensures stop.None? && conn.cooperative ==> Granted(a.start.store, conn.rejects, {KvMount, AuthMount, AuthConfig})
    {
      if Trusted(conn.w, a) {
        KvAccounted(a);
      }
      if conn.cooperative {
        OutcomeOfMountRefusal(c, a.start.store, conn.rejects);
      }
      var mount := Place(AuthMount, st);
      if !mount.Installed? {
        var r := AbortMount(mount, AuthMount);
        return Some(r);
      }
      ghost var own, seen := a.own, conn.seen;
      stop := ConfigureAuthMount(st);
      GrewTwice(old(a.own), own, a.own, token, seen, conn.seen);
    }

    /** Ends the run after a creation below the mounts that was refused, is unclear, or did not read back as written. */
    method AbortLate(res: Installed, p: Path) returns (r: Report)
      requires Inv(c, conn.cooperative, conn.w, a, {token}) && !res.Installed? && |a.start.attempts| < |conn.w.attempts|
      requires !a.removing && |completed| == PassedBefore(p) && (res.Misversioned? ==> p.AclPolicy?)
      requires res.Refused? ==>
                 && !a.uncertain && !a.leaky && Ledger(c, conn.w, a, mutations)
                 && a.created == a.made && Mounted(a) && Seed !in a.made
      requires conn.cooperative ==>
                 && res.Refused? && a.made != {}
                 && Refusals(c, a.start.store, conn.rejects) ==
                      Undone(KvMount in a.made, RejectedAt(p), PassedBefore(p))
      modifies this`mutations, this`a, this`unproven, conn`w, conn`view, conn`seen
      ensures old(conn.seen) <= conn.seen
      ensures SameRun(old(a), a) && a.own == old(a.own)
      ensures Stopped(r) && Destined(r)
    {
      CreationStops(p);
      if !res.Refused? {
        r := HoldForManualInspection(if res.Unclear? then AmbiguousAt(p) else if res.Drifted? then DriftedAt(p)
                                     else AtPolicyVersionReadback, true);
        return;
      }
      r := FailAfterMutationWithCleanup(RejectedAt(p), false);
    }

    method ConfigureAuthMount(st: PreState) returns (stop: Option<Report>)
      requires Poised(st) && !a.late && AuthMount in a.made && a.made <= {KvMount, AuthMount} && |completed| == 8
      requires Trusted(conn.w, a) ==> ExactKvV2Mount(c, Get(a.cur, KvMount))
      requires conn.w.foreign || !Complete(c, a.start.store)
      requires conn.cooperative ==> Granted(a.start.store, conn.rejects, {KvMount, AuthMount})
      modifies this`mutations, this`a, this`unproven, conn`w, conn`view, conn`seen
      ensures old(conn.seen) <= conn.seen && Grew(old(a.own), a.own, token, conn.seen)
      ensures SameRun(old(a), a)
      ensures stop.Some? ==> Stopped(stop.value) && Destined(stop.value)
      ensures stop.None? ==>
                Poised(st) && Mounted(a) &&
                a.made <= {KvMount, AuthMount, AuthConfig} && (Trusted(conn.w, a) ==> MountsReady(c, a.cur))
      ensures stop.None? ==> ExactlyShown(c, token, AuthConfig, conn.seen)
      ensures stop.None? && conn.cooperative ==> Granted(a.start.store, conn.rejects, {KvMount, AuthMount, AuthConfig})
    {
      if Trusted(conn.w, a) {
        AuthMountMine(c, a);
      }
      var clean := ConfigStillAbsent(conn, token);
      ReadyFollows(c, conn.cooperative, old(conn.w), conn.w, a, mutations, token, st);
      if !clean {
        var r := FailPrewrite(AuthConfig, st);
        return Some(r);
      }
      stop := CreateConfig(st);
    }

    method CreateConfig(st: PreState) returns (stop: Option<Report>)
      requires Poised(st) && !a.late && AuthMount in a.made && a.made <= {KvMount, AuthMount} && |completed| == 8
      requires Trusted(conn.w, a) ==> ExactKvV2Mount(c, Get(a.cur, KvMount)) && AuthConfig !in a.cur
      requires conn.w.foreign || !Complete(c, a.start.store)
      requires Guarded(c, a.own, AuthConfig, conn.view)
      requires conn.cooperative ==> Granted(a.start.store, conn.rejects, {KvMount, AuthMount})
      modifies this`mutations, this`a, this`unproven, conn`w, conn`view, conn`seen
      ensures old(conn.seen) <= conn.seen && Grew(old(a.own), a.own, token, conn.seen)
      ensures SameRun(old(a), a)
      ensures stop.Some? ==> Stopped(stop.value) && Destined(stop.value)
      ensures stop.None? ==>
                Poised(st) && Mounted(a) &&
                a.made <= {KvMount, AuthMount, AuthConfig} && (Trusted(conn.w, a) ==> MountsReady(c, a.cur))
      ensures stop.None? ==> ExactlyShown(c, token, AuthConfig, conn.seen)
      ensures stop.None? && conn.cooperative ==> Granted(a.start.store, conn.rejects, {KvMount, AuthMount, AuthConfig})
    {
      var config := Place(AuthConfig, st);
      if !config.Installed? {
        if conn.cooperative {
          KvAccounted(a);
          OutcomeOfLateRefusal(c, a.start.store, conn.rejects, AuthConfig, {KvMount, AuthMount});
        }
        var r := AbortLate(config, AuthConfig);
        return Some(r);
      }
      if Trusted(conn.w, a) {
        AuthMountMine(c, a);
      }
      stop := None;
    }

    /** The checks repeated before a write below the two mounts. */
    method StillAbsent(p: Path, st: PreState) returns (b: bool)
      requires Poised(st) && Late(p) && (Trusted(conn.w, a) ==> MountsReady(c, a.cur) && p !in a.cur)
      modifies conn`w, conn`view, conn`seen
      ensures old(conn.seen) <= conn.seen
      ensures Poised(st) && (old(conn.w.foreign) ==> conn.w.foreign)
      ensures b ==> Guarded(c, a.own, p, conn.view)
      ensures conn.cooperative ==> b
      ensures conn.w.attempts == old(conn.w.attempts) && (old(conn.w.guard.lost) ==> !b && conn.w.guard.lost)
    {
      b := PrewriteReadback(conn, c, token, mutations, p, None);
      ReadyFollows(c, conn.cooperative, old(conn.w), conn.w, a, mutations, token, st);
    }

    method EnsurePolicy(st: PreState) returns (stop: Option<Report>)
      requires Poised(st) && Mounted(a) && a.late && a.made <= {KvMount, AuthMount, AuthConfig} && |completed| == 9
      requires Trusted(conn.w, a) ==> MountsReady(c, a.cur)
      requires conn.cooperative ==> Granted(a.start.store, conn.rejects, {KvMount, AuthMount, AuthConfig})
      modifies this`mutations, this`a, this`unproven, conn`w, conn`view, conn`seen
      ensures old(conn.seen) <= conn.seen && Grew(old(a.own), a.own, token, conn.seen)
      ensures SameRun(old(a), a)
      ensures stop.Some? ==> Stopped(stop.value) && Destined(stop.value)
      ensures stop.None? ==>
                Poised(st) && Mounted(a) && a.late && a.made <= {KvMount, AuthMount, AuthConfig, c.Policy()}
      ensures stop.None? && Trusted(conn.w, a) ==> MountsReady(c, a.cur) && ExactPolicy(c, Get(a.cur, c.Policy()))
      ensures stop.None? && st.policy.None? ==> ExactlyShown(c, token, c.Policy(), conn.seen)
      ensures stop.None? && conn.cooperative ==>
                Granted(a.start.store, conn.rejects, {KvMount, AuthMount, AuthConfig, c.Policy()})
      ensures old(conn.w.guard.lost) ==> conn.w.attempts == old(conn.w.attempts)
    {
      PreStateIsAllOrNothing(c, a.start.store);
      if st.policy.Some? {
        if Trusted(conn.w, a) {
          CompleteMeansUntouched(c, a);
        }
        return None;
      }
      if Trusted(conn.w, a) {
        Untouched(a, c.Policy());
      }
      var intact := StillAbsent(c.Policy(), st);
      if !intact {
        var r := FailPrewrite(c.Policy(), st);
        return Some(r);
      }
      stop := CreatePolicy(st);
    }

    method CreatePolicy(st: PreState) returns (stop: Option<Report>)
      requires Poised(st) && Mounted(a) && a.late && a.made <= {KvMount, AuthMount, AuthConfig} && |completed| == 9
      requires Trusted(conn.w, a) ==> MountsReady(c, a.cur) && c.Policy() !in a.cur && Pristine(c, a.start.store)
      requires conn.w.foreign || !Complete(c, a.start.store)
      requires Guarded(c, a.own, c.Policy(), conn.view)
      requires conn.cooperative ==> Granted(a.start.store, conn.rejects, {KvMount, AuthMount, AuthConfig})
      modifies this`mutations, this`a, this`unproven, conn`w, conn`view, conn`seen
      ensures old(conn.seen) <= conn.seen && Grew(old(a.own), a.own, token, conn.seen)
      ensures SameRun(old(a), a)
      ensures stop.Some? ==> Stopped(stop.value) && Destined(stop.value)
      ensures stop.None? ==>
                Poised(st) && Mounted(a) && a.late && a.made <= {KvMount, AuthMount, AuthConfig, c.Policy()}
      ensures stop.None? && Trusted(conn.w, a) ==> MountsReady(c, a.cur) && ExactPolicy(c, Get(a.cur, c.Policy()))
      ensures stop.None? ==> ExactlyShown(c, token, c.Policy(), conn.seen)
      ensures stop.None? && conn.cooperative ==>
                Granted(a.start.store, conn.rejects, {KvMount, AuthMount, AuthConfig, c.Policy()})
    {
      var policy := Place(c.Policy(), st);
      if !policy.Installed? {
        if conn.cooperative {
          MountsAccounted(c, a);
          OutcomeOfLateRefusal(c, a.start.store, conn.rejects, c.Policy(), {KvMount, AuthMount, AuthConfig});
        }
        var r := AbortLate(policy, c.Policy());
        return Some(r);
      }
      MountsReadyPut(c, old(a.cur), c.Policy(), policy.obj);
      stop := None;
    }

    method EnsureRole(st: PreState) returns (stop: Option<Report>)
      requires Poised(st) && Mounted(a) && a.late && a.made <= {KvMount, AuthMount, AuthConfig, c.Policy()}
      requires |completed| == 10
      requires Trusted(conn.w, a) ==> MountsReady(c, a.cur) && ExactPolicy(c, Get(a.cur, c.Policy()))
      requires conn.cooperative ==> Granted(a.start.store, conn.rejects, {KvMount, AuthMount, AuthConfig, c.Policy()})
      modifies this`mutations, this`a, this`unproven, conn`w, conn`view, conn`seen
      ensures old(conn.seen) <= conn.seen && Grew(old(a.own), a.own, token, conn.seen)
      ensures SameRun(old(a), a)
      ensures stop.Some? ==> Stopped(stop.value) && Destined(stop.value)
      ensures stop.None? ==> Poised(st) && Mounted(a) && a.late && a.made <= c.Parts() - {Seed}
      ensures stop.None? && Trusted(conn.w, a) ==>
                MountsReady(c, a.cur) && ExactPolicy(c, Get(a.cur, c.Policy())) && ExactRole(c, Get(a.cur, c.Role()))
      ensures stop.None? && st.role.None? ==> ExactlyShown(c, token, c.Role(), conn.seen)
      ensures stop.None? && conn.cooperative ==> Granted(a.start.store, conn.rejects, c.Parts() - {Seed})
      ensures old(conn.w.guard.lost) ==> conn.w.attempts == old(conn.w.attempts)
    {
      PreStateIsAllOrNothing(c, a.start.store);
      if st.role.Some? {
        if Trusted(conn.w, a) {
          CompleteMeansUntouched(c, a);
        }
        return None;
      }
      if Trusted(conn.w, a) {
        Untouched(a, c.Role());
      }
      var intact := StillAbsent(c.Role(), st);
      if !intact {
        var r := FailPrewrite(c.Role(), st);
        return Some(r);
      }
      stop := CreateRole(st);
    }

    method CreateRole(st: PreState) returns (stop: Option<Report>)
      requires Poised(st) && Mounted(a) && a.late && a.made <= {KvMount, AuthMount, AuthConfig, c.Policy()}
      requires |completed| == 10
      requires Trusted(conn.w, a) ==>
                 MountsReady(c, a.cur) && ExactPolicy(c, Get(a.cur, c.Policy())) && c.Role() !in a.cur &&
                 Pristine(c, a.start.store)
      requires conn.w.foreign || !Complete(c, a.start.store)
      requires Guarded(c, a.own, c.Role(), conn.view)
      requires conn.cooperative ==> Granted(a.start.store, conn.rejects, {KvMount, AuthMount, AuthConfig, c.Policy()})
      modifies this`mutations, this`a, this`unproven, conn`w, conn`view, conn`seen
      ensures old(conn.seen) <= conn.seen && Grew(old(a.own), a.own, token, conn.seen)
      ensures SameRun(old(a), a)
      ensures stop.Some? ==> Stopped(stop.value) && Destined(stop.value)
      ensures stop.None? ==> Poised(st) && Mounted(a) && a.late && a.made <= c.Parts() - {Seed}
      ensures stop.None? && Trusted(conn.w, a) ==>
                MountsReady(c, a.cur) && ExactPolicy(c, Get(a.cur, c.Policy())) && ExactRole(c, Get(a.cur, c.Role()))
      ensures stop.None? ==> ExactlyShown(c, token, c.Role(), conn.seen)
      ensures stop.None? && conn.cooperative ==> Granted(a.start.store, conn.rejects, c.Parts() - {Seed})
    {
      var role := Place(c.Role(), st);
      if !role.Installed? {
        if conn.cooperative {
          MountsAccounted(c, a);
          OutcomeOfLateRefusal(c, a.start.store, conn.rejects, c.Role(), {KvMount, AuthMount, AuthConfig, c.Policy()});
        }
        var r := AbortLate(role, c.Role());
        return Some(r);
      }
      MountsReadyPut(c, old(a.cur), c.Role(), role.obj);
      stop := None;
    }

    /** The seed was shown, as metadata and as data, and is exact. */
    ghost predicate SeedShown()
      reads this, conn
    {
      Evidence(c, KvV2SeedReady, token, conn.seen)
    }

    method EnsureSeed(st: PreState) returns (stop: Option<Report>)
      requires Poised(st) && Mounted(a) && a.late && a.made <= c.Parts() - {Seed} && |completed| == 11
      requires Trusted(conn.w, a) ==>
                 MountsReady(c, a.cur) && ExactPolicy(c, Get(a.cur, c.Policy())) && ExactRole(c, Get(a.cur, c.Role()))
      requires conn.cooperative ==> Granted(a.start.store, conn.rejects, c.Parts() - {Seed})
      modifies this`mutations, this`a, this`unproven, conn`w, conn`view, conn`seen
      ensures old(conn.seen) <= conn.seen && Grew(old(a.own), a.own, token, conn.seen)
      ensures SameRun(old(a), a)
      ensures stop.Some? ==> Stopped(stop.value) && Destined(stop.value)
      ensures stop.None? ==> Poised(st) && Mounted(a) && (Trusted(conn.w, a) ==> Complete(c, a.cur))
      ensures stop.None? && st.metadata.None? ==> SeedShown()
      ensures stop.None? && conn.cooperative ==> Granted(a.start.store, conn.rejects, c.Parts())
      ensures old(conn.w.guard.lost) ==> conn.w.attempts == old(conn.w.attempts)
    {
      PreStateIsAllOrNothing(c, a.start.store);
      if st.metadata.Some? {
        if Trusted(conn.w, a) {
          CompleteMeansUntouched(c, a);
        }
        return None;
      }
      if Trusted(conn.w, a) {
        Untouched(a, Seed);
      }
      var intact := StillAbsent(Seed, st);
      if !intact {
        var r := FailPrewrite(Seed, st);
        return Some(r);
      }
      stop := CreateSeed(st);
    }

    method CreateSeed(st: PreState) returns (stop: Option<Report>)
      requires Poised(st) && Mounted(a) && a.late && a.made <= c.Parts() - {Seed} && |completed| == 11
      requires Trusted(conn.w, a) ==>
                 && MountsReady(c, a.cur)
                 && ExactPolicy(c, Get(a.cur, c.Policy())) && ExactRole(c, Get(a.cur, c.Role()))
                 && Seed !in a.cur && Pristine(c, a.start.store)
      requires conn.w.foreign || !Complete(c, a.start.store)
      requires Guarded(c, a.own, Seed, conn.view)
      requires conn.cooperative ==> Granted(a.start.store, conn.rejects, c.Parts() - {Seed})
      modifies this`mutations, this`a, this`unproven, conn`w, conn`view, conn`seen
      ensures old(conn.seen) <= conn.seen && Grew(old(a.own), a.own, token, conn.seen)
      ensures SameRun(old(a), a)
      ensures stop.Some? ==> Stopped(stop.value) && Destined(stop.value)
      ensures stop.None? ==> Poised(st) && Mounted(a) && (Trusted(conn.w, a) ==> Complete(c, a.cur))
      ensures stop.None? ==> SeedShown()
      ensures stop.None? && conn.cooperative ==> Granted(a.start.store, conn.rejects, c.Parts())
    {
      var seed := PlaceSeed(st);
      if !seed.Installed? {
        if conn.cooperative {
          MountsAccounted(c, a);
          OutcomeOfLateRefusal(c, a.start.store, conn.rejects, Seed, c.Parts() - {Seed});
        }
        var r := AbortLate(seed, Seed);
        return Some(r);
      }
      MountsReadyPut(c, old(a.cur), Seed, seed.obj);
      stop := None;
    }

    /** Creates the seed and books it. */
    method PlaceSeed(ghost st: PreState) returns (res: Installed)
      requires Poised(st) && a.late
      requires Trusted(conn.w, a) ==> Seed !in a.cur && Pristine(c, a.start.store)
      requires conn.w.foreign || !Complete(c, a.start.store)
      requires Guarded(c, a.own, Seed, conn.view)
      modifies this`mutations, this`a, conn`w, conn`view, conn`seen
      ensures old(conn.seen) <= conn.seen && Grew(old(a.own), a.own, token, conn.seen)
      ensures SameRun(old(a), a) && |a.start.attempts| < |conn.w.attempts|
      ensures Inv(c, conn.cooperative, conn.w, a, {token}) && (old(conn.w.foreign) ==> conn.w.foreign) && !a.removing
      ensures res.Installed? || res.Refused? ==> Poised(st)
      ensures res.Installed? ==>
                a == old(a).(cur := a.cur, made := old(a.made) + {Seed}, created := old(a.created) + {Seed},
                             own := a.own)
      ensures res.Installed? ==> SeedShown()
      ensures res.Installed? && Trusted(conn.w, a) ==>
                Exact(c, Seed, Some(res.obj)) && a.cur == old(a.cur)[Seed := res.obj]
      ensures !res.Misversioned?
      ensures res.Refused? ==> a == old(a) && mutations == old(mutations)
      ensures conn.cooperative ==>
                if Seed in conn.rejects || !Accepts(old(a.cur), Seed) then res.Refused? else res.Installed?
    {
      res := InstallSeed();
      if res.Installed? {
        Book(Seed, res.obj, old(conn.w), old(a), st);
      }
    }

    /** The seed is read back twice, as metadata and as data, and compared with the write's own reply. */
    method InstallSeed() returns (res: Installed)
      requires Inv(c, conn.cooperative, conn.w, a, {token}) && !a.uncertain && !a.removing
      requires Trusted(conn.w, a) ==> Seed !in a.cur
      requires conn.w.foreign || !Complete(c, a.start.store)
      requires Guarded(c, a.own, Seed, conn.view) && a.late
      modifies this`a, conn`w, conn`view, conn`seen
      ensures old(conn.seen) <= conn.seen
      ensures Inv(c, conn.cooperative, conn.w, a, {token}) && (old(conn.w.foreign) ==> conn.w.foreign)
      ensures res.Installed? ==>
                a == old(a).(cur := a.cur, made := old(a.made) + {Seed}, created := old(a.created) + {Seed},
                             own := old(a.own)[Seed := res.obj])
      ensures res.Installed? ==> Credited(Seed, res.obj, token, conn.seen) && SeedShown()
      ensures res.Installed? && Trusted(conn.w, a) ==>
                Exact(c, Seed, Some(res.obj)) && a.cur == old(a.cur)[Seed := res.obj]
      ensures res.Refused? ==> a == old(a)
      ensures !res.Installed? ==> SameRun(old(a), a) && a.own == old(a.own) && !a.removing
      ensures !res.Misversioned?
      ensures |a.start.attempts| < |conn.w.attempts|
      ensures conn.cooperative ==>
                if Seed in conn.rejects || !Accepts(old(a.cur), Seed) then res.Refused? else res.Installed?
    {
      var written, metadata := Create(Seed);
      if metadata.Got? && metadata.found.None? && written.DefinitelyRejected() {
        return Refused;
      }
      if metadata.Unreadable? || metadata.found.None? || !written.Ok? {
        return Unclear;
      }
      var exact := ConfirmSeed(written.obj, metadata.found.value);
      if !exact {
        return Drifted;
      }
      a := a.(own := a.own[Seed := metadata.found.value]);
      res := Installed(metadata.found.value);
    }

    method ConfirmSeed(written: Object, metadata: Object) returns (exact: bool)
      requires Inv(c, conn.cooperative, conn.w, a, {token}) && !a.uncertain && !a.removing && a.late
      requires Shown(Some(token), Seed, Some(metadata)) in conn.seen
      requires Trusted(conn.w, a) ==> Get(a.cur, Seed) == Some(metadata)
      modifies conn`w, conn`view, conn`seen
      ensures old(conn.seen) <= conn.seen && (exact ==> SeedShown())
      ensures Inv(c, conn.cooperative, conn.w, a, {token}) && (old(conn.w.foreign) ==> conn.w.foreign)
      ensures Inv(c, conn.cooperative, conn.w, a.(own := a.own[Seed := metadata]), {token})
      ensures conn.w.attempts == old(conn.w.attempts)
      ensures exact ==> ExactSeedWrite(written, metadata.modified)
      ensures exact && Trusted(conn.w, a) ==> Exact(c, Seed, Some(metadata))
      ensures conn.cooperative && written == metadata && Fresh(written, c.seedBody) ==> exact
    {
      var data := conn.Read(Some(token), Seed);
      InvFollows(c, conn.cooperative, old(conn.w), conn.w, a, {token});
      InvRecorded(c, conn.cooperative, conn.w, a, {token}, Seed, metadata);
      exact := && data.Got? && ExactSeed(c, Some(metadata), SeedData(data.found))
               && ExactSeedWrite(written, metadata.modified);
    }

    // -------------------------------------------------------------------------
    // The live authorization proof

    /** What makes a clear gate: one granted login of the workload, and three of strangers, all forbidden. */
    ghost predicate ProvenSince(before: seq<Signin>, workload: Token)
      reads this, conn
    {
      && conn.signins == before + ProofOfLogins(workload)
      && WorkloadShown(c, workload, conn.seen) && StrangersIssued(conn.seen)
    }

    /** `cleanupSafe` means that every token minted for the proof is dead, or was never minted. */
    method VerifyWorkloadAuthorization() returns (gate: Stop, cleanupSafe: bool, ghost workload: Token)
      requires Inv(c, conn.cooperative, conn.w, a, {token}) && !a.leaky && (Trusted(conn.w, a) ==> Complete(c, a.cur))
      modifies this`a, conn`w, conn`view, conn`seen, conn`signins
      ensures old(conn.seen) <= conn.seen
      ensures Inv(c, conn.cooperative, conn.w, a, {token}) && (old(conn.w.foreign) ==> conn.w.foreign)
      ensures a == old(a) || a == old(a).(leaky := true)
      ensures cleanupSafe ==> a == old(a)
      ensures gate == Clear ==> cleanupSafe && ProvenSince(old(conn.signins), workload)
      ensures gate != Clear ==> WorkloadGate(gate)
      ensures conn.cooperative ==> gate == Clear
    {
      workload := token;
      var same := Ask(SameServiceAccount, {token});
      if !same {
        return AtPositiveServiceAccountChanged, true, workload;
      }
      var issued := Ask(TokenIssued(Workload), {token});
      if !issued {
        return AtPositiveTokenrequest, true, workload;
      }
      gate, cleanupSafe, workload := SignWorkloadIn();
    }

    method SignWorkloadIn() returns (gate: Stop, cleanupSafe: bool, ghost workload: Token)
      requires Inv(c, conn.cooperative, conn.w, a, {token}) && !a.leaky && (Trusted(conn.w, a) ==> Complete(c, a.cur))
      modifies this`a, conn`w, conn`view, conn`seen, conn`signins
      ensures old(conn.seen) <= conn.seen
      ensures Inv(c, conn.cooperative, conn.w, a, {token}) && (old(conn.w.foreign) ==> conn.w.foreign)
      ensures a == old(a) || a == old(a).(leaky := true)
      ensures cleanupSafe ==> a == old(a)
      ensures gate == Clear ==>
                cleanupSafe && Exercised(workload) && Denied(workload) in conn.seen &&
                conn.signins == old(conn.signins) + ProofOfLogins(workload)
      ensures gate != Clear ==> WorkloadGate(gate)
      ensures conn.cooperative ==> gate == Clear
    {
      workload := token;
      var login := Login(Workload, {token});
      if login.LoggedIn? && login.token.Some? {
        workload := login.token.value;
        ghost var before := conn.signins;
        gate, cleanupSafe := ProveWorkload(login.token.value);
        DenialsComplete(workload);
        assert before + Denials(3) == old(conn.signins) + ([Signin(Workload, LoggedIn(Some(workload)))] + Denials(3));
      } else {
        gate, cleanupSafe := AtPositiveLogin, login.LoginRejected? || login.LoginForbidden?;
      }
    }

    /** The workload token is revoked on the way out, whatever it proved. */
    method ProveWorkload(workload: Token) returns (gate: Stop, cleanupSafe: bool)
      requires Inv(c, conn.cooperative, conn.w, a, {token, workload}) && !a.leaky &&
               (Trusted(conn.w, a) ==> Complete(c, a.cur))
      requires conn.cooperative ==> workload != token
      modifies this`a, conn`w, conn`view, conn`seen, conn`signins
      ensures old(conn.seen) <= conn.seen
      ensures Inv(c, conn.cooperative, conn.w, a, {token}) && (old(conn.w.foreign) ==> conn.w.foreign)
      ensures a == old(a) || a == old(a).(leaky := true)
      ensures cleanupSafe ==> a == old(a)
      ensures gate == Clear ==>
                cleanupSafe && Exercised(workload) && Denied(workload) in conn.seen &&
                conn.signins == old(conn.signins) + Denials(3)
      ensures gate != Clear ==> WorkloadGate(gate)
      ensures conn.cooperative ==> gate == Clear
    {
      var cleared;
      gate, cleanupSafe, cleared := ExerciseWorkload(workload);
      if !cleared {
        var proven := RevokeOnTheWayOut(workload);
        if !proven {
          cleanupSafe := false;
          a := a.(leaky := true);
        }
      }
    }

    method RevokeOnTheWayOut(workload: Token) returns (proven: bool)
      requires Inv(c, conn.cooperative, conn.w, a, {token, workload}) && !conn.cooperative
      modifies conn`w, conn`seen
      ensures old(conn.seen) <= conn.seen && (old(conn.w.foreign) ==> conn.w.foreign)
      ensures proven ==> Inv(c, false, conn.w, a, {token})
      ensures Inv(c, false, conn.w, a.(leaky := true), {token})
    {
      proven := RevokeAndProve(conn, workload, false);
      InvRevoked(c, false, old(conn.w), conn.w, a, {token, workload}, workload, proven);
    }

    /** The workload reads its seed and nothing else, and no stranger is left out. */
    ghost predicate Exercised(workload: Token)
      reads this, conn
    {
      && {Affirmed(ExactLogin(workload)), Affirmed(WorkloadCapabilities(workload)),
          Affirmed(SiblingDenied(workload)), Affirmed(MetadataDenied(workload))} <= conn.seen
      && (exists o :: Shown(Some(workload), Seed, o) in conn.seen && ExactSeedData(c, SeedData(o)))
      && StrangersIssued(conn.seen)
    }

    method ExerciseWorkload(workload: Token) returns (gate: Stop, cleanupSafe: bool, cleared: bool)
      requires Inv(c, conn.cooperative, conn.w, a, {token, workload}) && !a.leaky &&
               (Trusted(conn.w, a) ==> Complete(c, a.cur))
      requires conn.cooperative ==> workload != token
      modifies this`a, conn`w, conn`view, conn`seen, conn`signins
      ensures old(conn.seen) <= conn.seen
      ensures old(conn.w.foreign) ==> conn.w.foreign
      ensures Inv(c, conn.cooperative, conn.w, a, if cleared then {token} else {token, workload})
      ensures a == old(a) || a == old(a).(leaky := true)
      ensures cleanupSafe ==> a == old(a)
      ensures gate == Clear ==>
                cleanupSafe && cleared && Exercised(workload) && Denied(workload) in conn.seen &&
                conn.signins == old(conn.signins) + Denials(3)
      ensures gate != Clear ==> WorkloadGate(gate)
      ensures conn.cooperative ==> gate == Clear
    {
      cleared := false;
      gate := ProbeWorkload(conn, c, workload);
      InvFollows(c, conn.cooperative, old(conn.w), conn.w, a, {token, workload});
      if gate != Clear {
        return gate, true, false;
      }
      gate, cleanupSafe := DenyNegativeIdentities(workload);
      if gate != Clear {
        return gate, cleanupSafe, false;
      }
      cleared := ClearWorkload(workload);
      if !cleared {
        return AtWorkloadTokenRevoke, false, false;
      }
    }

    method ClearWorkload(workload: Token) returns (cleared: bool)
      requires Inv(c, conn.cooperative, conn.w, a, {token, workload}) && (conn.cooperative ==> workload != token)
      modifies conn`w, conn`seen
      ensures old(conn.seen) <= conn.seen && (old(conn.w.foreign) ==> conn.w.foreign)
      ensures cleared ==> Denied(workload) in conn.seen
      ensures Inv(c, conn.cooperative, conn.w, a, if cleared then {token} else {token, workload})
      ensures conn.cooperative ==> cleared
    {
      var cancelled := Cancelled();
      cleared := RevokeAndProve(conn, workload, cancelled);
      InvRevoked(c, conn.cooperative, old(conn.w), conn.w, a, {token, workload}, workload, cleared);
      assert conn.cooperative ==> {token, workload} - {workload} == {token};
    }

    /**
     Three logins that must be forbidden; a token issued by mistake is revoked and proved dead, and the gate
     is closed all the same.
     */
    method DenyNegativeIdentities(workload: Token) returns (gate: Stop, cleanupSafe: bool)
      requires Inv(c, conn.cooperative, conn.w, a, {token, workload}) && !a.leaky
      modifies this`a, conn`w, conn`seen, conn`signins
      ensures old(conn.seen) <= conn.seen
      ensures Inv(c, conn.cooperative, conn.w, a, {token, workload}) && (old(conn.w.foreign) ==> conn.w.foreign)
      ensures a == old(a) || a == old(a).(leaky := true)
      ensures cleanupSafe ==> a == old(a)
      ensures gate == Clear ==>
                cleanupSafe && StrangersIssued(conn.seen) && conn.signins == old(conn.signins) + Denials(3)
      ensures gate == Clear || gate == AtNegativeTokenrequest || gate == AtNegativeLoginDenial
      ensures conn.cooperative ==> gate == Clear
    {
      for i := 0 to 3
        invariant Inv(c, conn.cooperative, conn.w, a, {token, workload}) && (old(conn.w.foreign) ==> conn.w.foreign)
        invariant a == old(a) && old(conn.seen) <= conn.seen
        invariant conn.signins == old(conn.signins) + Denials(i)
        invariant forall k: nat | k < i :: Affirmed(TokenIssued(Stranger(k))) in conn.seen
      {
        gate, cleanupSafe := DenyStranger(i, workload);
        if gate != Clear {
          return;
        }
      }
      gate, cleanupSafe := Clear, true;
    }

    method DenyStranger(i: nat, workload: Token) returns (gate: Stop, cleanupSafe: bool)
      requires Inv(c, conn.cooperative, conn.w, a, {token, workload}) && !a.leaky
      modifies this`a, conn`w, conn`seen, conn`signins
      ensures old(conn.seen) <= conn.seen
      ensures Inv(c, conn.cooperative, conn.w, a, {token, workload}) && (old(conn.w.foreign) ==> conn.w.foreign)
      ensures a == old(a) || a == old(a).(leaky := true)
      ensures cleanupSafe ==> a == old(a)
      ensures gate == Clear ==>
                && cleanupSafe && Affirmed(TokenIssued(Stranger(i))) in conn.seen
                && conn.signins == old(conn.signins) + [Signin(Stranger(i), LoginForbidden)]
      ensures gate == Clear || gate == AtNegativeTokenrequest || gate == AtNegativeLoginDenial
      ensures conn.cooperative ==> gate == Clear
    {
      var issued := Ask(TokenIssued(Stranger(i)), {token, workload});
      if !issued {
        return AtNegativeTokenrequest, true;
      }
      var login := Login(Stranger(i), {token, workload});
      if login.LoginForbidden? {
        return Clear, true;
      }
      if login.LoginRejected? || login.LoginAmbiguous? || login.token.None? {
        return AtNegativeLoginDenial, login.LoginRejected?;
      }
      var proven := RevokeStranger(login.token.value, workload);
      if !proven {
        a := a.(leaky := true);
      }
      return AtNegativeLoginDenial, proven;
    }

    method RevokeStranger(stranger: Token, workload: Token) returns (proven: bool)
      requires Inv(c, conn.cooperative, conn.w, a, {token, workload} + {stranger}) && !conn.cooperative
      modifies conn`w, conn`seen
      ensures old(conn.seen) <= conn.seen && (old(conn.w.foreign) ==> conn.w.foreign)
      ensures proven ==> Inv(c, false, conn.w, a, {token, workload})
      ensures Inv(c, false, conn.w, a.(leaky := true), {token, workload})
    {
      proven := RevokeAndProve(conn, stranger, false);
      InvRevoked(c, false, old(conn.w), conn.w, a, {token, workload} + {stranger}, stranger, proven);
    }

    // -------------------------------------------------------------------------
    // The run

    ghost predicate NothingYet()
      reads this, conn
    {
      && Idle(a.start, conn.w)
      && a == Account(a.start, a.start.store, {}, {}, map[], false, false, false, false)
      && mutations == NO_MUTATIONS
      && a.start.lease != []
      && (conn.cooperative ==> conn.w == a.start && !a.start.foreign)
    }

    /** The run is under way and has created nothing. */
    ghost predicate Clean()
      reads this
    {
      && a == Account(a.start, a.start.store, {}, {}, map[], false, false, false, false)
      && mutations == NO_MUTATIONS && a.start.lease != []
    }

    /** On a connection that loses nothing, this is how the run had to end, whatever it started from. */
    ghost predicate Fated(r: Report)
      reads this, conn
    {
      conn.cooperative ==> a.start.lease != [] && Ends(r, Verdict(c, a.start, conn.facts, conn.rejects))
    }

    /** One more gate is passed. */
    method Pass(g: Gate)
      requires |completed| < |GATES| && g == GATES[|completed|]
      requires Grounded() && Evidence(c, g, token, conn.seen)
      modifies this`completed
      ensures completed == old(completed) + [g] && Grounded()
    {
      BackedOneMore(c, completed, token, conn.seen);
      completed := completed + [g];
    }

    /** Health, the Kubernetes boundary and the Lease. */
    method Begin() returns (stop: Option<Report>)
      requires NothingYet() && completed == []
      modifies this`completed, conn`w, conn`seen
      ensures old(conn.seen) <= conn.seen && Grounded()
      ensures stop.Some? ==> Stopped(stop.value) && Fated(stop.value)
      ensures stop.None? ==> Inv(c, conn.cooperative, conn.w, a, {}) && |completed| == 3
      ensures conn.cooperative ==> (stop.None? <==> a.start.lease[|a.start.lease| - 1].holder == "")
    {
      stop := CheckBoundary();
      if stop.Some? {
        return;
      }
      stop := PassLease();
    }

    method PassLease() returns (stop: Option<Report>)
      requires NothingYet() && Grounded() && |completed| == 2
      modifies this`completed, conn`w, conn`seen
      ensures old(conn.seen) <= conn.seen && Grounded()
      ensures stop.Some? ==> Stopped(stop.value) && Fated(stop.value)
      ensures stop.None? ==> Inv(c, conn.cooperative, conn.w, a, {}) && |completed| == 3
      ensures conn.cooperative ==> (stop.None? <==> a.start.lease[|a.start.lease| - 1].holder == "")
    {
      var attempted, acquired := AcquireLease();
      GroundGrows(c, completed, a.own, a.own, token, old(conn.seen), conn.seen);
      if !acquired {
        return Some(if attempted then FixedReport(PartialManualInterventionRequired, false, false,
                                                  AtExclusiveLeaseAcquireAmbiguous)
                    else FixedReport(BlockedPreflight, false, false, AtExclusiveLease));
      }
      Pass(ExclusiveLeaseAcquired);
      stop := None;
    }

    method CheckBoundary() returns (stop: Option<Report>)
      requires NothingYet() && completed == []
      modifies this`completed, conn`w, conn`seen
      ensures old(conn.seen) <= conn.seen && Grounded()
      ensures stop.Some? ==> Stopped(stop.value)
      ensures stop.None? ==> NothingYet() && |completed| == 2
      ensures conn.cooperative ==> stop.None?
    {
      var healthy := conn.Probe(Health);
      IdleFollows(a.start, old(conn.w), conn.w);
      IdleKeepsPromise(c, a.start, conn.w);
      if !healthy {
        return Some(FixedReport(BlockedPreflight, false, false, AtOpenBaoHealth));
      }
      Pass(OpenBaoActiveUnsealed);
      stop := CheckExecutor();
    }

    method CheckExecutor() returns (stop: Option<Report>)
      requires NothingYet() && Grounded() && |completed| == 1
      modifies this`completed, conn`w, conn`seen
      ensures old(conn.seen) <= conn.seen && Grounded()
      ensures stop.Some? ==> Stopped(stop.value)
      ensures stop.None? ==> NothingYet() && |completed| == 2
      ensures conn.cooperative ==> stop.None?
    {
      var boundary := conn.Probe(Boundary);
      GroundGrows(c, completed, a.own, a.own, token, old(conn.seen), conn.seen);
      IdleFollows(a.start, old(conn.w), conn.w);
      IdleKeepsPromise(c, a.start, conn.w);
      if !boundary {
        return Some(FixedReport(BlockedPreflight, false, false, AtKubernetesExecutorBoundary));
      }
      Pass(KubernetesExecutorBoundary);
      stop := None;
    }

    /** Takes the Lease only when its holder is empty, by a compare-and-swap on the version that was read. */
    method AcquireLease() returns (attempted: bool, acquired: bool)
      requires NothingYet()
      modifies conn`w, conn`seen
      ensures old(conn.seen) <= conn.seen
      ensures acquired ==> LeaseShown("") in conn.seen && LeaseWritten(c.holder) in conn.seen
      ensures acquired ==> Inv(c, conn.cooperative, conn.w, a, {})
      ensures !acquired && !attempted ==> Idle(a.start, conn.w)
      ensures WF(conn.w) && conn.w.attempts == a.start.attempts && conn.w.orders == a.start.orders
      ensures a.start.foreign ==> conn.w.foreign
      ensures conn.w.inflight == [] && (!conn.w.foreign ==> conn.w.store == a.start.store)
      ensures a.start.known <= conn.w.known && a.start.lease <= conn.w.lease
      ensures conn.cooperative ==> !conn.w.foreign && attempted == acquired
      ensures conn.cooperative ==> (acquired <==> a.start.lease[|a.start.lease| - 1].holder == "")
    {
      ghost var mid;
      var current;
      current, mid := conn.GetLease();
      IdleEvolves(a.start, old(conn.w), mid);
      if current.None? || current.value.holder != "" {
        return false, false;
      }
      ghost var seen := conn.w;
      var updated;
      updated, mid := conn.UpdateLease(current.value.rv, c.holder);
      IdleEvolves(a.start, seen, mid);
      if !updated.Updated? {
        return !updated.UpdateRejected?, false;
      }
      conn.w := conn.w.(guard := Guard(true, false, updated.rv));
      return true, true;
    }

    /** Unwraps the management token and proves that it has exactly the delegated authority. */
    method TakeManagementToken() returns (stop: Option<Report>)
      requires Inv(c, conn.cooperative, conn.w, a, {}) && Clean() && Grounded() && |completed| == 3
      requires conn.cooperative ==> a.start.lease[|a.start.lease| - 1].holder == ""
      modifies this`completed, this`token, this`unproven, conn`w, conn`view, conn`seen
      ensures old(conn.seen) <= conn.seen && Grounded()
      ensures stop.Some? ==> Stopped(stop.value) && Fated(stop.value)
      ensures stop.None? ==> Inv(c, conn.cooperative, conn.w, a, {token}) && |completed| == 5
      ensures stop.None? && conn.cooperative ==> Admitted(c, a.start, conn.facts)
      ensures conn.cooperative && Admitted(c, a.start, conn.facts) ==> stop.None?
    {
      stop := UnwrapToken();
      if stop.None? {
        stop := ProveLeastPrivilege();
      }
    }

    method UnwrapToken() returns (stop: Option<Report>)
      requires Inv(c, conn.cooperative, conn.w, a, {}) && Clean() && Grounded() && |completed| == 3
      modifies this`completed, this`token, conn`w, conn`seen
      ensures old(conn.seen) <= conn.seen && Grounded()
      ensures stop.Some? ==> Stopped(stop.value)
      ensures stop.None? ==> Inv(c, conn.cooperative, conn.w, a, {token}) && |completed| == 4
      ensures conn.cooperative ==> stop.None?
    {
      var unwrapped := ReceiveToken();
      GroundGrows(c, completed, a.own, a.own, token, old(conn.seen), conn.seen);
      if unwrapped.UnwrapRejected? {
        ghost var seen := conn.seen;
        var r := ReleaseBlocked(AtManagementTokenUnwrap);
        GroundGrows(c, completed, a.own, a.own, token, seen, conn.seen);
        return Some(r);
      }
      if unwrapped.UnwrapAmbiguous? {
        Abandon({});
        return Some(FixedReport(PartialManualInterventionRequired, false, false, AtManagementTokenUnwrapAmbiguous));
      }
      BackedBeforeToken(c, completed, token, unwrapped.token, conn.seen);
      token := unwrapped.token;
      Pass(ManagementTokenUnwrapped);
      stop := None;
    }

    method ReceiveToken() returns (r: UnwrapReply)
      requires Inv(c, conn.cooperative, conn.w, a, {})
      modifies conn`w, conn`seen
      ensures old(conn.seen) <= conn.seen && (r.Unwrapped? ==> TokenUnwrapped(r.token) in conn.seen)
      ensures Inv(c, conn.cooperative, conn.w, a, if r.Unwrapped? then {r.token} else {})
      ensures old(conn.w.foreign) ==> conn.w.foreign
      ensures conn.cooperative ==> r.Unwrapped?
    {
      ghost var mid;
      r, mid := conn.Unwrap();
      InvEvolves(c, conn.cooperative, old(conn.w), mid, a, {});
    }

    method ProveLeastPrivilege() returns (stop: Option<Report>)
      requires Inv(c, conn.cooperative, conn.w, a, {token}) && Clean() && Grounded() && |completed| == 4
      requires conn.cooperative ==> a.start.lease[|a.start.lease| - 1].holder == ""
      modifies this`completed, this`unproven, conn`w, conn`view, conn`seen
      ensures old(conn.seen) <= conn.seen && Grounded()
      ensures stop.Some? ==> Stopped(stop.value) && Fated(stop.value)
      ensures stop.None? ==> Inv(c, conn.cooperative, conn.w, a, {token}) && |completed| == 5
      ensures stop.None? && conn.cooperative ==> Admitted(c, a.start, conn.facts)
      ensures conn.cooperative && Admitted(c, a.start, conn.facts) ==> stop.None?
    {
      var facts := conn.LookupSelf(token);
      InvFollows(c, conn.cooperative, old(conn.w), conn.w, a, {token});
      GroundGrows(c, completed, a.own, a.own, token, old(conn.seen), conn.seen);
      if facts.None? {
        Abandon({token});
        return Some(FixedReport(PartialManualInterventionRequired, false, false, AtManagementTokenProfileUnknown));
      }
      if !ValidManagementToken(facts.value, c.managementPolicy) || facts.value.accessor != c.managementAccessor {
        var r := RefuseProfile(ProvenNonRoot(facts.value));
        return Some(r);
      }
      stop := ProveDelegation(facts.value);
    }

    /** A token of another profile is revoked, unless it may be a root token. */
    method RefuseProfile(nonRoot: bool) returns (r: Report)
      requires Inv(c, conn.cooperative, conn.w, a, {token}) && Clean() && Grounded() && |completed| == 4
      modifies this`unproven, conn`w, conn`view, conn`seen
      ensures old(conn.seen) <= conn.seen && Grounded()
      ensures Stopped(r)
      ensures conn.cooperative ==>
                r == FixedReport(if nonRoot then BlockedPreflight else PartialManualInterventionRequired, false, false,
                                 AtManagementTokenProfile)
    {
      if nonRoot {
        r := BlockClean(AtManagementTokenProfile);
        return;
      }
      Abandon({token});
      r := FixedReport(PartialManualInterventionRequired, false, false, AtManagementTokenProfile);
    }

    /** Blocks a run that has created nothing. */
    method BlockClean(failedGate: Stop) returns (r: Report)
      requires Inv(c, conn.cooperative, conn.w, a, {token}) && Clean() && Grounded() && Stops(failedGate)
      requires 4 <= |completed|
      modifies this`unproven, conn`w, conn`view, conn`seen
      ensures old(conn.seen) <= conn.seen && Grounded()
      ensures Stopped(r)
      ensures conn.cooperative ==> r == FixedReport(BlockedPreflight, false, false, failedGate)
    {
      r := BlockAfterManagement(failedGate);
      GroundGrows(c, completed, a.own, a.own, token, old(conn.seen), conn.seen);
    }

    method ProveDelegation(facts: TokenFacts) returns (stop: Option<Report>)
      requires Inv(c, conn.cooperative, conn.w, a, {token}) && Clean() && Grounded() && |completed| == 4
      requires Facts(token, facts) in conn.seen && facts.accessor == c.managementAccessor
      requires ValidManagementToken(facts, c.managementPolicy)
      requires conn.cooperative ==> a.start.lease[|a.start.lease| - 1].holder == "" && facts == conn.facts
      modifies this`completed, this`unproven, conn`w, conn`view, conn`seen
      ensures old(conn.seen) <= conn.seen && Grounded()
      ensures stop.Some? ==> Stopped(stop.value) && Fated(stop.value)
      ensures stop.None? ==> Inv(c, conn.cooperative, conn.w, a, {token}) && |completed| == 5
      ensures stop.None? && conn.cooperative ==> Admitted(c, a.start, conn.facts)
      ensures conn.cooperative && Admitted(c, a.start, conn.facts) ==> stop.None?
    {
      if !c.delegationBuilds {
        var r := BlockClean(AtManagementPolicyContract);
        return Some(r);
      }
      var gate := CheckDelegation();
      GroundGrows(c, completed, a.own, a.own, token, old(conn.seen), conn.seen);
      if gate != Clear {
        var r := BlockClean(gate);
        return Some(r);
      }
      Pass(ManagementTokenLeastPrivilege);
      stop := None;
    }

    /** The token can do what it must, and its policy reads back as the delegation. */
    method CheckDelegation() returns (gate: Stop)
      requires Inv(c, conn.cooperative, conn.w, a, {token}) && Clean()
      modifies conn`w, conn`view, conn`seen
      ensures old(conn.seen) <= conn.seen
      ensures Inv(c, conn.cooperative, conn.w, a, {token})
      ensures gate == Clear || gate == AtManagementTokenCapabilities || gate == AtManagementPolicyReadback
      ensures gate == Clear ==>
                && Affirmed(ManagementCapabilities(token)) in conn.seen
                && exists o :: Shown(Some(token), AclPolicy(c.managementPolicy), Some(o)) in conn.seen &&
                               o.body == c.delegationBody
      ensures conn.cooperative ==>
                gate == if ExactManagementPolicy(c, Get(a.start.store, AclPolicy(c.managementPolicy))) then Clear
                        else AtManagementPolicyReadback
    {
      var capable := Ask(ManagementCapabilities(token), {token});
      if !capable {
        return AtManagementTokenCapabilities;
      }
      ghost var before := conn.w;
      var policy := conn.Read(Some(token), AclPolicy(c.managementPolicy));
      InvFollows(c, conn.cooperative, before, conn.w, a, {token});
      gate := if policy.Got? && ExactManagementPolicy(c, policy.found) then Clear else AtManagementPolicyReadback;
    }

    /** Captures the pre-state and decides whether anything may be written. */
    method CheckPreState() returns (stop: Option<Report>, st: PreState)
      requires Inv(c, conn.cooperative, conn.w, a, {token}) && Clean() && Grounded() && |completed| == 5
      requires conn.cooperative ==> Admitted(c, a.start, conn.facts)
      modifies this`completed, this`unproven, conn`w, conn`view, conn`seen
      ensures old(conn.seen) <= conn.seen && Grounded()
      ensures stop.Some? ==> Stopped(stop.value) && Fated(stop.value)
      ensures stop.None? ==> Poised(st) && Captured(c, token, st, conn.seen) && |completed| == 7
      ensures stop.None? && conn.cooperative ==> WellPrepared(c, a.start, conn.facts)
      ensures conn.cooperative && WellPrepared(c, a.start, conn.facts) && Pristine(c, a.start.store) ==> stop.None?
    {
      st := PreState(None, None, {}, None, None, None, None, None);
      if !c.planBuilds {
        var r := BlockClean(AtPlannerContract);
        return Some(r), st;
      }
      var captured := CapturePreState(conn, c, token);
      InvFollows(c, conn.cooperative, old(conn.w), conn.w, a, {token});
      GroundGrows(c, completed, a.own, a.own, token, old(conn.seen), conn.seen);
      if captured.None? {
        var r := BlockClean(AtCompletePrestate);
        return Some(r), st;
      }
      st := captured.value;
      stop := AdmitPreState(st);
    }

    method AdmitPreState(st: PreState) returns (stop: Option<Report>)
      requires Inv(c, conn.cooperative, conn.w, a, {token}) && Clean() && Grounded() && |completed| == 5
      requires Captured(c, token, st, conn.seen) && (Trusted(conn.w, a) ==> st == Snapshot(c, a.start.store))
      requires conn.cooperative ==> WellPrepared(c, a.start, conn.facts)
      modifies this`completed, this`unproven, conn`w, conn`view, conn`seen
      ensures old(conn.seen) <= conn.seen && Grounded()
      ensures stop.Some? ==> Stopped(stop.value) && Fated(stop.value)
      ensures stop.None? ==> Poised(st) && Captured(c, token, st, conn.seen) && |completed| == 7
      ensures conn.cooperative && Pristine(c, a.start.store) ==> stop.None?
    {
      Pass(CompletePrestateCaptured);
      stop := AllowMutation(st);
    }

    method AllowMutation(st: PreState) returns (stop: Option<Report>)
      requires Inv(c, conn.cooperative, conn.w, a, {token}) && Clean() && Grounded() && |completed| == 6
      requires Captured(c, token, st, conn.seen) && (Trusted(conn.w, a) ==> st == Snapshot(c, a.start.store))
      requires conn.cooperative ==> WellPrepared(c, a.start, conn.facts)
      modifies this`completed, this`unproven, conn`w, conn`view, conn`seen
      ensures old(conn.seen) <= conn.seen && Grounded()
      ensures stop.Some? ==> Stopped(stop.value) && Fated(stop.value)
      ensures stop.None? ==> Poised(st) && Captured(c, token, st, conn.seen) && |completed| == 7
      ensures conn.cooperative && Pristine(c, a.start.store) ==> stop.None?
    {
      PreStateIsAllOrNothing(c, a.start.store);
      var gate := ValidatePreState(c, st);
      if gate != Clear {
        var r := BlockPreState(gate, st);
        return Some(r);
      }
      Pass(PrestateAllowsMutation);
      stop := None;
    }

    method BlockPreState(gate: Stop, ghost st: PreState) returns (r: Report)
      requires Inv(c, conn.cooperative, conn.w, a, {token}) && Clean() && Grounded() && |completed| == 6
      requires gate == ValidatePreState(c, st) != Clear
      modifies this`unproven, conn`w, conn`view, conn`seen
      ensures old(conn.seen) <= conn.seen && Grounded()
      ensures Stopped(r)
      ensures conn.cooperative ==> r == FixedReport(BlockedPreflight, false, false, gate)
    {
      PreStateStops(c, st);
      r := BlockClean(gate);
    }

    /** Passes the gate of a part that was there already or has been created, unless the run stops here. */
    method Advance(g: Gate, st: PreState, go: bool, ghost own: Own, ghost seen: set<Note>)
      requires Backed(c, completed, token, seen) && Earned(own, token, seen) && Captured(c, token, st, seen)
      requires seen <= conn.seen && Grew(own, a.own, token, conn.seen) && ValidatePreState(c, st) == Clear
      requires 7 <= |completed| < 12 && g == GATES[|completed|]
      requires go && Missing(g, st) ==> Evidence(c, g, token, conn.seen)
      modifies this`completed
      ensures Grounded() && Captured(c, token, st, conn.seen)
      ensures completed == if go then old(completed) + [g] else old(completed)
    {
      GroundGrows(c, completed, own, a.own, token, seen, conn.seen);
      CapturedGrows(c, token, st, seen, conn.seen);
      if go {
        CapturedExactly(c, token, st, conn.seen);
        Pass(g);
      }
    }

    /** The secret mount is there, or is created. */
    method PassKvMount(st: PreState) returns (stop: Option<Report>)
      requires Poised(st) && a.made == {} && !a.late
      requires Grounded() && Captured(c, token, st, conn.seen) && |completed| == 7
      modifies this`completed, this`mutations, this`a, this`unproven, conn`w, conn`view, conn`seen
      ensures old(conn.seen) <= conn.seen && Grounded() && Captured(c, token, st, conn.seen)
      ensures SameRun(old(a), a)
      ensures stop.Some? ==> Stopped(stop.value) && Destined(stop.value)
      ensures stop.None? ==> |completed| == 8
      ensures stop.None? ==> Poised(st) && !a.late && a.made <= {KvMount} && (st.kvMount.Some? ==> a.made == {})
      ensures stop.None? && Trusted(conn.w, a) ==> ExactKvV2Mount(c, Get(a.cur, KvMount))
      ensures stop.None? && conn.cooperative ==> Granted(a.start.store, conn.rejects, {KvMount})
    {
      stop := EnsureKvMount(st);
      Advance(KvV2MountReady, st, stop.None?, old(a.own), old(conn.seen));
    }

    /** The auth mount and its configuration are there, or are created. */
    method PassAuthMount(st: PreState) returns (stop: Option<Report>)
      requires Poised(st) && !a.late && a.made <= {KvMount} && (st.kvMount.Some? ==> a.made == {})
      requires Trusted(conn.w, a) ==> ExactKvV2Mount(c, Get(a.cur, KvMount))
      requires conn.cooperative ==> Granted(a.start.store, conn.rejects, {KvMount})
      requires Grounded() && Captured(c, token, st, conn.seen) && |completed| == 8
      modifies this`completed, this`mutations, this`a, this`unproven, conn`w, conn`view, conn`seen
      ensures old(conn.seen) <= conn.seen && Grounded() && Captured(c, token, st, conn.seen)
      ensures SameRun(old(a), a)
      ensures stop.Some? ==> Stopped(stop.value) && Destined(stop.value)
      ensures stop.None? ==> |completed| == 9
      ensures stop.None? ==> Poised(st) && Mounted(a) && a.made <= {KvMount, AuthMount, AuthConfig}
      ensures stop.None? && Trusted(conn.w, a) ==> MountsReady(c, a.cur)
      ensures stop.None? && conn.cooperative ==> Granted(a.start.store, conn.rejects, {KvMount, AuthMount, AuthConfig})
    {
      stop := EnsureAuthMount(st);
      Advance(DedicatedAuthMountReady, st, stop.None?, old(a.own), old(conn.seen));
    }

    /** The policy is there, or is created. */
    method PassPolicy(st: PreState) returns (stop: Option<Report>)
      requires Poised(st) && Mounted(a) && a.late && a.made <= {KvMount, AuthMount, AuthConfig}
      requires Trusted(conn.w, a) ==> MountsReady(c, a.cur)
      requires conn.cooperative ==> Granted(a.start.store, conn.rejects, {KvMount, AuthMount, AuthConfig})
      requires Grounded() && Captured(c, token, st, conn.seen) && |completed| == 9
      modifies this`completed, this`mutations, this`a, this`unproven, conn`w, conn`view, conn`seen
      ensures old(conn.seen) <= conn.seen && Grounded() && Captured(c, token, st, conn.seen)
      ensures SameRun(old(a), a)
      ensures stop.Some? ==> Stopped(stop.value) && Destined(stop.value)
      ensures stop.None? ==> |completed| == 10
      ensures stop.None? ==>
                Poised(st) && Mounted(a) && a.late && a.made <= {KvMount, AuthMount, AuthConfig, c.Policy()}
      ensures stop.None? && Trusted(conn.w, a) ==> MountsReady(c, a.cur) && ExactPolicy(c, Get(a.cur, c.Policy()))
      ensures stop.None? && conn.cooperative ==>
                Granted(a.start.store, conn.rejects, {KvMount, AuthMount, AuthConfig, c.Policy()})
    {
      stop := EnsurePolicy(st);
      Advance(AclPolicyReady, st, stop.None?, old(a.own), old(conn.seen));
    }

    /** The role is there, or is created. */
    method PassRole(st: PreState) returns (stop: Option<Report>)
      requires Poised(st) && Mounted(a) && a.late && a.made <= {KvMount, AuthMount, AuthConfig, c.Policy()}
      requires Trusted(conn.w, a) ==> MountsReady(c, a.cur) && ExactPolicy(c, Get(a.cur, c.Policy()))
      requires conn.cooperative ==> Granted(a.start.store, conn.rejects, {KvMount, AuthMount, AuthConfig, c.Policy()})
      requires Grounded() && Captured(c, token, st, conn.seen) && |completed| == 10
      modifies this`completed, this`mutations, this`a, this`unproven, conn`w, conn`view, conn`seen
      ensures old(conn.seen) <= conn.seen && Grounded() && Captured(c, token, st, conn.seen)
      ensures SameRun(old(a), a)
      ensures stop.Some? ==> Stopped(stop.value) && Destined(stop.value)
      ensures stop.None? ==> |completed| == 11
      ensures stop.None? ==> Poised(st) && Mounted(a) && a.late && a.made <= c.Parts() - {Seed}
      ensures stop.None? && Trusted(conn.w, a) ==>
                MountsReady(c, a.cur) && ExactPolicy(c, Get(a.cur, c.Policy())) && ExactRole(c, Get(a.cur, c.Role()))
      ensures stop.None? && conn.cooperative ==> Granted(a.start.store, conn.rejects, c.Parts() - {Seed})
    {
      stop := EnsureRole(st);
      Advance(WorkloadRoleReady, st, stop.None?, old(a.own), old(conn.seen));
    }

    /** The seed is there, or is created. */
    method PassSeed(st: PreState) returns (stop: Option<Report>)
      requires Poised(st) && Mounted(a) && a.late && a.made <= c.Parts() - {Seed}
      requires Trusted(conn.w, a) ==>
                 MountsReady(c, a.cur) && ExactPolicy(c, Get(a.cur, c.Policy())) && ExactRole(c, Get(a.cur, c.Role()))
      requires conn.cooperative ==> Granted(a.start.store, conn.rejects, c.Parts() - {Seed})
      requires Grounded() && Captured(c, token, st, conn.seen) && |completed| == 11
      modifies this`completed, this`mutations, this`a, this`unproven, conn`w, conn`view, conn`seen
      ensures old(conn.seen) <= conn.seen && Grounded() && Captured(c, token, st, conn.seen)
      ensures SameRun(old(a), a)
      ensures stop.Some? ==> Stopped(stop.value) && Destined(stop.value)
      ensures stop.None? ==> |completed| == 12
      ensures stop.None? ==> Poised(st) && Mounted(a) && (Trusted(conn.w, a) ==> Complete(c, a.cur))
      ensures stop.None? && conn.cooperative ==> Granted(a.start.store, conn.rejects, c.Parts())
    {
      stop := EnsureSeed(st);
      Advance(KvV2SeedReady, st, stop.None?, old(a.own), old(conn.seen));
    }

    /** The authorization proof, the revocation of the management token and the release of the Lease. */
    method Finish(st: PreState) returns (r: Report)
      requires Poised(st) && Mounted(a) && (Trusted(conn.w, a) ==> Complete(c, a.cur))
      requires Grounded() && |completed| == 12
      modifies this`completed, this`mutations, this`a, this`unproven, conn`w, conn`view, conn`seen, conn`signins
      ensures old(conn.seen) <= conn.seen && Grounded() && 12 <= |completed|
      ensures a.start == old(a.start)
      ensures Promise(c, a.start, conn.w, r.status) && Tells(r)
      ensures r.status.Applied? ==> Authorized(c, old(conn.signins), conn.signins, conn.seen)
      ensures conn.cooperative ==> Ends(r, Ending(Applied, old(a.made) != {}, false, Clear, 15))
    {
      var gate, cleanupSafe := PassAuthorization();
      if gate != Clear {
        r := FailAuthorization(gate, cleanupSafe);
        return;
      }
      ghost var seen := conn.seen;
      r := Conclude();
      AuthorizedGrows(c, old(conn.signins), conn.signins, seen, conn.seen);
    }

    method PassAuthorization() returns (gate: Stop, cleanupSafe: bool)
      requires Inv(c, conn.cooperative, conn.w, a, {token}) && !a.leaky && (Trusted(conn.w, a) ==> Complete(c, a.cur))
      requires Grounded() && |completed| == 12
      modifies this`completed, this`a, conn`w, conn`view, conn`seen, conn`signins
      ensures old(conn.seen) <= conn.seen && Grounded()
      ensures Inv(c, conn.cooperative, conn.w, a, {token}) && (old(conn.w.foreign) ==> conn.w.foreign)
      ensures a == old(a) || a == old(a).(leaky := true)
      ensures cleanupSafe ==> a == old(a)
      ensures gate == Clear ==>
                cleanupSafe && Authorized(c, old(conn.signins), conn.signins, conn.seen) && |completed| == 13
      ensures gate != Clear ==> WorkloadGate(gate) && |completed| == 12
      ensures conn.cooperative ==> gate == Clear
    {
      ghost var workload;
      gate, cleanupSafe, workload := VerifyWorkloadAuthorization();
      GroundGrows(c, completed, a.own, a.own, token, old(conn.seen), conn.seen);
      if gate == Clear {
        Pass(WorkloadLiveAuthorizationProven);
      }
    }

    method FailAuthorization(gate: Stop, cleanupSafe: bool) returns (r: Report)
      requires Inv(c, conn.cooperative, conn.w, a, {token}) && !a.uncertain && !a.removing &&
               Ledger(c, conn.w, a, mutations)
      requires (cleanupSafe ==> !a.leaky) && a.created == a.made && Mounted(a)
      requires !conn.cooperative && WorkloadGate(gate) && Grounded() && |completed| == 12
      modifies this`mutations, this`a, this`unproven, conn`w, conn`view, conn`seen
      ensures old(conn.seen) <= conn.seen && Grounded()
      ensures a.start == old(a.start) && Stopped(r)
    {
      r := FailAfterMutationWithCleanup(gate, !cleanupSafe);
      GroundGrows(c, completed, old(a.own), a.own, token, old(conn.seen), conn.seen);
    }

    method Conclude() returns (r: Report)
      requires Inv(c, conn.cooperative, conn.w, a, {token}) && !a.uncertain && !a.removing && !a.leaky
      requires Trusted(conn.w, a) ==> Complete(c, a.cur)
      requires a.created == a.made && Mounted(a) && (mutations.mutated <==> a.made != {})
      requires Grounded() && |completed| == 13
      modifies this`completed, this`unproven, conn`w, conn`seen
      ensures old(conn.seen) <= conn.seen && Grounded() && 13 <= |completed|
      ensures Promise(c, a.start, conn.w, r.status) && Tells(r)
      ensures conn.cooperative ==> Ends(r, Ending(Applied, a.made != {}, false, Clear, 15))
    {
      var revoked := PassRevocation();
      if !revoked {
        Abandon({token});
        return FixedReport(PartialManualInterventionRequired, mutations.mutated, false, AtManagementTokenRevoke);
      }
      var released := PassRelease();
      if !released {
        return FixedReport(PartialManualInterventionRequired, mutations.mutated, false, AtLeaseRelease);
      }
      if Trusted(conn.w, a) {
        ShapeExtends(a);
      }
      r := FixedReport(Applied, mutations.mutated, false, Clear);
    }

    method PassRevocation() returns (revoked: bool)
      requires Inv(c, conn.cooperative, conn.w, a, {token}) && Grounded() && |completed| == 13
      modifies this`completed, this`unproven, conn`w, conn`seen
      ensures old(conn.seen) <= conn.seen && Grounded() && |completed| == if revoked then 14 else 13
      ensures Inv(c, conn.cooperative, conn.w, a, if revoked then {} else {token}) && unproven == !revoked
      ensures conn.w.attempts == old(conn.w.attempts) && (old(conn.w.foreign) ==> conn.w.foreign)
      ensures conn.cooperative ==> revoked
    {
      revoked := RevokeManagement();
      GroundGrows(c, completed, a.own, a.own, token, old(conn.seen), conn.seen);
      if revoked {
        Pass(ManagementTokenRevoked);
      }
    }

    method PassRelease() returns (released: bool)
      requires Inv(c, conn.cooperative, conn.w, a, {}) && Grounded() && |completed| == 14
      modifies this`completed, conn`w, conn`seen
      ensures old(conn.seen) <= conn.seen && Grounded() && |completed| == if released then 15 else 14
      ensures Core(c, conn.cooperative, conn.w, a, {}) && (old(conn.w.foreign) ==> conn.w.foreign)
      ensures released ==> LeaseClear(a.start, conn.w)
      ensures conn.cooperative ==> released
    {
      released := Release({});
      GroundGrows(c, completed, a.own, a.own, token, old(conn.seen), conn.seen);
      if released {
        Pass(ExclusiveLeaseReleased);
      }
    }

    /** Everything before the first write. */
    method Prepare() returns (stop: Option<Report>, st: PreState)
      requires NothingYet() && completed == []
      modifies this`completed, this`token, this`unproven, conn`w, conn`view, conn`seen
      ensures old(conn.seen) <= conn.seen && Grounded()
      ensures stop.Some? ==> Stopped(stop.value) && Fated(stop.value)
      ensures stop.None? ==> Poised(st) && Captured(c, token, st, conn.seen) && Clean() && |completed| == 7
      ensures stop.None? && conn.cooperative ==> WellPrepared(c, a.start, conn.facts)
      ensures conn.cooperative && WellPrepared(c, a.start, conn.facts) && Pristine(c, a.start.store) ==> stop.None?
    {
      st := PreState(None, None, {}, None, None, None, None, None);
      stop := Begin();
      if stop.Some? {
        return;
      }
      stop := TakeManagementToken();
      if stop.Some? {
        return;
      }
      stop, st := CheckPreState();
    }

    method InstallMounts(st: PreState) returns (stop: Option<Report>)
      requires Poised(st) && a.made == {} && !a.late && |completed| == 7
      requires Grounded() && Captured(c, token, st, conn.seen)
      modifies this`completed, this`mutations, this`a, this`unproven, conn`w, conn`view, conn`seen
      ensures old(conn.seen) <= conn.seen && Grounded() && Captured(c, token, st, conn.seen)
      ensures SameRun(old(a), a)
      ensures stop.Some? ==> Stopped(stop.value) && Destined(stop.value)
      ensures stop.None? ==>
                Poised(st) && Mounted(a) && a.made <= {KvMount, AuthMount, AuthConfig} && |completed| == 9
      ensures stop.None? && Trusted(conn.w, a) ==> MountsReady(c, a.cur)
      ensures stop.None? && conn.cooperative ==> Granted(a.start.store, conn.rejects, {KvMount, AuthMount, AuthConfig})
    {
      stop := PassKvMount(st);
      if stop.None? {
        stop := PassAuthMount(st);
      }
    }

    method InstallObjects(st: PreState) returns (stop: Option<Report>)
      requires Poised(st) && Mounted(a) && a.made <= {KvMount, AuthMount, AuthConfig}
      requires Grounded() && Captured(c, token, st, conn.seen) && |completed| == 9
      requires Trusted(conn.w, a) ==> MountsReady(c, a.cur)
      requires conn.cooperative ==> Granted(a.start.store, conn.rejects, {KvMount, AuthMount, AuthConfig})
      modifies this`completed, this`mutations, this`a, this`unproven, conn`w, conn`view, conn`seen
      ensures old(conn.seen) <= conn.seen && Grounded()
      ensures SameRun(old(a), a)
      ensures stop.Some? ==> Stopped(stop.value) && Destined(stop.value)
      ensures stop.None? ==>
                Poised(st) && Mounted(a) && (Trusted(conn.w, a) ==> Complete(c, a.cur)) && |completed| == 12
      ensures stop.None? && conn.cooperative ==> Granted(a.start.store, conn.rejects, c.Parts())
    {
      a := a.(late := true);
      stop := PassPolicy(st);
      if stop.Some? {
        return;
      }
      stop := PassRole(st);
      if stop.Some? {
        return;
      }
      stop := PassSeed(st);
    }

    method InstallAll(st: PreState) returns (stop: Option<Report>)
      requires Poised(st) && a.made == {} && !a.late && |completed| == 7
      requires Grounded() && Captured(c, token, st, conn.seen)
      modifies this`completed, this`mutations, this`a, this`unproven, conn`w, conn`view, conn`seen
      ensures old(conn.seen) <= conn.seen && Grounded()
      ensures SameRun(old(a), a)
      ensures stop.Some? ==> Stopped(stop.value) && Destined(stop.value)
      ensures stop.None? ==>
                Poised(st) && Mounted(a) && (Trusted(conn.w, a) ==> Complete(c, a.cur)) && |completed| == 12
      ensures stop.None? && conn.cooperative ==> Granted(a.start.store, conn.rejects, c.Parts())
    {
      stop := InstallMounts(st);
      if stop.None? {
        stop := InstallObjects(st);
      }
    }

    method Run() returns (r: Report)
      requires NothingYet() && completed == []
      modifies this`completed, this`token, this`mutations, this`a, this`unproven, conn
      ensures old(conn.seen) <= conn.seen && Grounded()
      ensures a.start == old(a.start)
      ensures Promise(c, a.start, conn.w, r.status) && Tells(r)
      ensures r.status.Applied? ==> Authorized(c, old(conn.signins), conn.signins, conn.seen)
      ensures |completed| < 12 ==> conn.signins == old(conn.signins)
      ensures Fated(r)
    {
      var stop, st := Prepare();
      if stop.Some? {
        return stop.value;
      }
      stop := InstallAll(st);
      if stop.Some? {
        return stop.value;
      }
      if conn.cooperative {
        Finished(c, a, conn.rejects);
      }
      r := Finish(st);
    }
  }

  /** When nothing was refused the run is to end applied, and to tell of what it created. */
  lemma Finished(c: Contract, a: Account, rejects: set<Path>)
    requires Shape(a) && a.made <= c.Parts() && Complete(c, a.cur) && Granted(a.start.store, rejects, c.Parts())
    requires Pristine(c, a.start.store) || Complete(c, a.start.store)
    ensures Refusals(c, a.start.store, rejects) == Ending(Applied, a.made != {}, false, Clear, 15)
  {
    OutcomeWhenGranted(c, a.start.store, rejects);
    PreStateIsAllOrNothing(c, a.start.store);
    if Complete(c, a.start.store) {
      CompleteMeansUntouched(c, a);
    } else if a.made == {} {
      NothingMade(a);
    }
  }

  /**
   One apply run, for every reply the clients may give and everything other people may do meanwhile.
   A run that ends applied, rolled back or blocked has left no token alive and no Lease held; one that
   ends rolled back or blocked has left the store exactly as it found it; one that ends applied has
   completed the contract without touching anything else; and a run on a completed contract writes nothing.

   Whoever else is writing, every creation and every removal it asked for followed its checks: what is
   removed was shown to be exact and to be what this run created. Each gate it reports has its evidence,
   and it reports being applied only after the workload was let in once and all three strangers were
   turned away. On a connection that loses nothing its whole report is determined by the start.
   */
  method Execute(conn: Connection, c: Contract) returns (r: Report, ghost t: Trace)
    requires Settled(conn.w) && (conn.cooperative ==> !conn.w.foreign)
    modifies conn
    ensures Promise(c, old(conn.w), conn.w, r.status)
    ensures Told(old(conn.w), conn.w, t.created, t.unproven, r)
    ensures Obeyed(c, old(conn.w.orders), conn.w.orders, t.own)
    ensures !r.rollbackAttempted ==> forall o | o in conn.w.orders && o.ToRemove? :: o in old(conn.w.orders)
    ensures Backed(c, r.completed, t.token, conn.seen) && Earned(t.own, t.token, conn.seen)
    ensures old(conn.seen) <= conn.seen
    ensures StopsAt(r.failedGate, |r.completed|)
    ensures r.status.Applied? ==> r.completed == GATES && Authorized(c, old(conn.signins), conn.signins, conn.seen)
    ensures |r.completed| < 12 ==> conn.signins == old(conn.signins)
    ensures conn.cooperative ==> Ends(r, Verdict(c, old(conn.w), conn.facts, conn.rejects))
    ensures conn.cooperative ==> !conn.w.foreign && conn.w.inflight == [] && Extends(old(conn.w.store), conn.w.store)
  {
    var executor := new Executor(conn, c);
    r := executor.Run();
    t := Trace(executor.a.created, executor.a.own, executor.token, executor.unproven);
    if conn.cooperative {
      ShapeExtends(executor.a);
    }
  }

  // ---------------------------------------------------------------------------
  // A creation that is not reported

  const TEAM := Contract("role", "policy", "management", "accessor", "executor",
                         "kv", "auth", "config", "acl", "bound", "seed", "delegation", true, true)

  const TEAM_FACTS := TokenFacts(["management"], "accessor", true)

  const TEAM_EMPTY := World(map[AclPolicy("management") := Object("delegation", "", "", 1, "modified", false)],
                            false, [], [], {}, {}, {}, {}, 0, [LeaseVersion("", false)], [], None,
                            Guard(false, false, 0))

  lemma TeamIsPrepared()
    ensures Settled(TEAM_EMPTY) && WellPrepared(TEAM, TEAM_EMPTY, TEAM_FACTS)
    ensures Pristine(TEAM, TEAM_EMPTY.store) && KvMount !in TEAM_EMPTY.store
    ensures Outcome(TEAM, TEAM_EMPTY.store, {}) == Applied
  {
  }

  /** A run stays ready when its Lease guard gives up. */
  lemma ReadyWithoutLease(c: Contract, w: World, a: Account, m: MutationState, token: Token, st: PreState)
    requires Ready(c, true, w, a, m, token, st)
    ensures Ready(c, false, Step(w, RenewFail(false)), a, m, token, st) && Step(w, RenewFail(false)).guard.lost
  {
  }

  /** Runs up to the secret mount, which is created, when nothing stands in the way. */
  method CreateSecretMount(conn: Connection, c: Contract) returns (e: Executor, st: PreState)
    requires conn.cooperative && !conn.w.foreign && Settled(conn.w) && WellPrepared(c, conn.w, conn.facts)
    requires Pristine(c, conn.w.store) && KvMount !in conn.w.store && Outcome(c, conn.w.store, conn.rejects) == Applied
    modifies conn
    ensures e.conn == conn && e.c == c && e.a.start == old(conn.w)
    ensures Ready(c, true, conn.w, e.a, e.mutations, e.token, st) && !e.a.late && |e.completed| == 8
    ensures e.a.created == {KvMount} && ExactKvV2Mount(c, Get(e.a.cur, KvMount))
    ensures st == Snapshot(c, old(conn.w.store))
  {
    e := new Executor(conn, c);
    var stop;
    stop, st := e.Prepare();
    stop := e.PassKvMount(st);
    KvAccounted(e.a);
  }

  /** Losing the Lease between the two mounts ends a run whose report does not tell of the secret mount. */
  method LoseLease(e: Executor, facts: TokenFacts, st: PreState)
    returns (r: Report, ghost created: set<Path>, ghost last: World)
    requires Ready(e.c, true, e.conn.w, e.a, e.mutations, e.token, st) && st.mount.None? && st.kvMount.None?
    requires !e.a.late && |e.completed| == 8
    requires e.a.created == {KvMount} && ExactKvV2Mount(e.c, Get(e.a.cur, KvMount))
    ensures created == {KvMount} && !r.mutationPerformed && r.failedGate == AtExclusiveLeaseLost
    ensures Halted(e.c, e.a.start, last, r.status) && Told(e.a.start, last, created, e.unproven, r)
  {
    ReadyWithoutLease(e.c, e.conn.w, e.a, e.mutations, e.token, st);
    var conn := new Connection(Step(e.conn.w, RenewFail(false)), false, {}, facts);
    var rest := new Executor.Continue(e, conn);
    var stop := rest.EnsureAuthMount(st);
    r, created, last := stop.value, rest.a.created, conn.w;
  }

  /**
   The renewal fails between the two mounts: the run has created the secret mount, which is there when the
   Lease is lost, and its report says that nothing was mutated.
   */
  method SecretMountUnreported() returns (r: Report, ghost created: set<Path>, ghost lost: World, ghost last: World)
    ensures KvMount !in TEAM_EMPTY.store && KvMount in lost.store && !lost.foreign
    ensures created == {KvMount} && !r.mutationPerformed && r.failedGate == AtExclusiveLeaseLost
    ensures Halted(TEAM, TEAM_EMPTY, last, r.status) && Told(TEAM_EMPTY, last, created, false, r)
  {
    TeamIsPrepared();
    var conn := new Connection(TEAM_EMPTY, true, {}, TEAM_FACTS);
    var executor, st := CreateSecretMount(conn, TEAM);
    lost := conn.w;
    r, created, last := LoseLease(executor, TEAM_FACTS, st);
  }

  /** A run that did not end for manual inspection has left nothing behind that could disturb a later one. */
  lemma SettledAgain(c: Contract, start: World, w: World, status: Status)
    requires Promise(c, start, w, status) && !status.PartialManualInterventionRequired?
    ensures Settled(w) <==> w.inflight == []
    ensures status.Applied? || !w.foreign ==> Settled(w)
  {
  }

  /**
   Running again, over a new connection and whatever the replies are, once the first run has ended without
   manual inspection: the second run keeps its own promise, it sends no write after an applied run, and
   after a blocked or rolled back run it starts from the store the first run started from.
   */
  method ExecuteAgain(conn: Connection, c: Contract)
    returns (first: Report, second: Report, ghost between: World, ghost last: World)
    requires Settled(conn.w) && (conn.cooperative ==> !conn.w.foreign)
    modifies conn
    ensures Promise(c, old(conn.w), between, first.status)
    ensures !first.status.PartialManualInterventionRequired? && between.inflight == [] ==>
              Promise(c, between, last, second.status)
    ensures first.status.Applied? && !last.foreign ==>
      Complete(c, between.store) && last.attempts == between.attempts && last.store == between.store
    ensures first.status.RolledBack? || first.status.BlockedPreflight? ==>
      !between.foreign ==> between.store == old(conn.w.store) && Promise(c, between, last, second.status)
  {
    ghost var t;
    first, t := Execute(conn, c);
    between := conn.w;
    second, last := first, between;
    if !first.status.PartialManualInterventionRequired? && conn.w.inflight == [] {
      SettledAgain(c, old(conn.w), between, first.status);
      var next := new Connection(conn.w, false, {}, conn.facts);
      second, t := Execute(next, c);
      last := next.w;
    }
  }
}
