/**
 The executor's account of its own run, used only to reason about it, and the invariants
 that tie the account to the world, to the bookkeeping and to the captured pre-state.
 */
module ApplyAccount {
  import opened Options
  import opened OpenBaoWorld
  import opened OpenBaoClient
  import opened ApplyContract
  import opened ApplyOrders

  datatype Account = Account(
    start: World,      // the world in which the run began
    cur: Store,        // what the store must contain if nobody else wrote to it
    made: set<Path>,   // what this run has created and not removed again
    created: set<Path>,  // every path whose write was acknowledged or left open
    own: Own,          // what the acknowledged creations were read back as
    late: bool,        // the parts below the two mounts may be written
    removing: bool,    // the run has begun to remove what it created
    uncertain: bool,   // a write or removal has an unknown outcome
    leaky: bool)       // a token minted for this run may be alive and out of reach

  ghost predicate Trusted(w: World, a: Account) {
    !w.foreign && !a.uncertain
  }

  ghost predicate Shape(a: Account) {
    a.made !! a.start.store.Keys && a.made <= a.cur.Keys && a.made <= a.created && a.cur - a.made == a.start.store
  }

  /** The store is what it was at the start, with what the run has created and nothing under way. */
  ghost predicate Kept(w: World, a: Account) {
    !w.foreign && w.inflight == [] && w.store == a.cur && Shape(a)
  }

  ghost predicate SameRun(a: Account, b: Account) {
    a.start == b.start && a.leaky == b.leaky
  }

  /** The account after `p` and everything below it has been read back absent. */
  ghost function Removed(a: Account, p: Path): Account {
    a.(cur := Without(a.cur, p), made := a.made - (set q | q in a.made && Below(p, q)), removing := true)
  }

  /** The account after a write of `p` was answered. */
  ghost function Tried(a: Account, p: Path, r: WriteReply): Account {
    match r
    case Ok(obj) => a.(cur := a.cur[p := obj], made := a.made + {p}, created := a.created + {p})
    case Ambiguous => a.(uncertain := true, created := a.created + {p})
    case _ => a
  }

  /** Tokens outside `keep` are dead, and the store holds what the run left in it. */
  ghost predicate Core(c: Contract, cooperative: bool, w: World, a: Account, keep: set<Token>) {
    && WF(w)
    && (a.start.foreign ==> w.foreign)
    && a.start.known <= w.known
    && a.start.lease <= w.lease
    && (!a.leaky ==> w.mints == 0 && forall t | t in w.handed && t in w.live :: t in keep)
    && (Trusted(w, a) ==> w.store == a.cur && w.inflight == [] && Shape(a))
    && (!a.uncertain && !a.removing ==> w.inflight == [])
    && (Complete(c, a.start.store) && !w.foreign ==>
          w.attempts == a.start.attempts && w.store == a.start.store && w.inflight == [])
    && (a.created == {} && !w.foreign ==> w.store == a.start.store && w.inflight == [])
    && |a.start.attempts| <= |w.attempts|
    && (a.created != {} ==> |a.start.attempts| < |w.attempts|)
    && Orderly(c, a.start.orders, w.orders, a.own, a.removing, a.late)
    && (cooperative ==> Trusted(w, a) && !a.leaky && forall t | t in keep :: t in w.live && t.mayLookup)
  }

  /** The guard holds the Lease, or knows that it may have lost it. */
  ghost predicate Held(c: Contract, cooperative: bool, w: World) {
    && WF(w)
    && w.guard.running
    && (!w.guard.lost ==> Stale(w))
    && (cooperative ==> !w.guard.lost && w.guard.rv + 1 == |w.lease| && w.lease[w.guard.rv].holder == c.holder)
  }

  ghost predicate Inv(c: Contract, cooperative: bool, w: World, a: Account, keep: set<Token>) {
    Core(c, cooperative, w, a, keep) && Held(c, cooperative, w)
  }

  /** The bookkeeping that the exits decide on agrees with what was really created. */
  ghost predicate Tied(c: Contract, a: Account, m: MutationState) {
    && (m.kvMountCreated <==> KvMount in a.made)
    && (m.mountCreated <==> AuthMount in a.made)
    && (m.policyCreated <==> c.Policy() in a.made)
    && (m.roleCreated <==> c.Role() in a.made)
    && (m.seedCreated <==> Seed in a.made)
    && (m.mutated <==> a.made != {})
    && (AuthConfig in a.made ==> AuthMount in a.made)
    && (c.Policy() in a.made || c.Role() in a.made ==> a.late)
    && a.made <= c.Parts()
  }

  ghost predicate Identified(s: Store, p: Path, uuid: string, accessor: string) {
    p in s && s[p].uuid == uuid && s[p].accessor == accessor
  }

  /** What the run created is exact and still carries the identity that was read back. */
  ghost predicate Owned(c: Contract, w: World, a: Account, m: MutationState) {
    Trusted(w, a) ==>
      && (forall p | p in a.made :: Exact(c, p, Get(a.cur, p)))
      && (KvMount in a.made ==> Identified(a.cur, KvMount, m.kvMountUUID, m.kvMountAccessor))
      && (AuthMount in a.made ==> Identified(a.cur, AuthMount, m.mountUUID, m.mountAccessor))
      && (c.Policy() in a.made ==>
            a.cur[c.Policy()].version == m.policyVersion && a.cur[c.Policy()].modified == m.policyModified)
      && (a.made != {} ==> Pristine(c, a.start.store))
  }

  /** The bookkeeping holds the identity that each creation was read back with. */
  ghost predicate Recorded(c: Contract, own: Own, m: MutationState) {
    && (m.kvMountCreated <==> KvMount in own)
    && (KvMount in own ==> own[KvMount].uuid == m.kvMountUUID && own[KvMount].accessor == m.kvMountAccessor)
    && (m.mountCreated <==> AuthMount in own)
    && (AuthMount in own ==> own[AuthMount].uuid == m.mountUUID && own[AuthMount].accessor == m.mountAccessor)
    && (m.policyCreated <==> c.Policy() in own)
    && (c.Policy() in own ==>
          own[c.Policy()].version == m.policyVersion && own[c.Policy()].modified == m.policyModified)
    && (m.roleCreated <==> c.Role() in own)
  }

  ghost predicate Ledger(c: Contract, w: World, a: Account, m: MutationState) {
    Tied(c, a, m) && Owned(c, w, a, m) && Recorded(c, a.own, m)
  }

  /** The state between two steps of a run that is going well. */
  ghost predicate Ready(c: Contract, cooperative: bool, w: World, a: Account, m: MutationState, token: Token,
                        st: PreState) {
    && Inv(c, cooperative, w, a, {token})
    && !a.uncertain && !a.removing && !a.leaky
    && Ledger(c, w, a, m) && a.created == a.made
    && ValidatePreState(c, st) == Clear
    && (Trusted(w, a) ==>
          st == Snapshot(c, a.start.store) && (Pristine(c, a.start.store) || Complete(c, a.start.store)))
  }

  /** The secret mount is no longer the only thing the run has created. */
  ghost predicate Mounted(a: Account) {
    KvMount in a.made ==> AuthMount in a.made
  }

  ghost predicate MountsReady(c: Contract, s: Store) {
    && ExactKvV2Mount(c, Get(s, KvMount))
    && ExactMount(c, Get(s, AuthMount))
    && ExactConfig(c, Get(s, AuthConfig))
    && NoForeignRoles(c, RoleNames(s))
  }

  /** A run that found nothing installed and has created the auth mount. */
  ghost predicate LateStart(c: Contract, a: Account) {
    Pristine(c, a.start.store) && (KvMount in a.made <==> KvMount !in a.start.store) && a.made != {}
  }

  /** Outside activity keeps everything the executor relies on. */
  lemma InvEvolves(c: Contract, cooperative: bool, w: World, v: World, a: Account, keep: set<Token>)
    requires Core(c, cooperative, w, a, keep) && Evolves(w, v) && (cooperative ==> v == w)
    ensures Core(c, cooperative, v, a, keep)
    ensures Held(c, cooperative, w) ==> Held(c, cooperative, v)
    ensures w.foreign ==> v.foreign
  {
  }

  /** The same for any outside activity; and if nobody wrote meanwhile, the store is what the account says. */
  lemma InvFollows(c: Contract, cooperative: bool, w: World, v: World, a: Account, keep: set<Token>)
    requires Core(c, cooperative, w, a, keep) && Reaches(w, v) && (cooperative ==> v == w)
    ensures Core(c, cooperative, v, a, keep)
    ensures Held(c, cooperative, w) ==> Held(c, cooperative, v)
    ensures w.foreign ==> v.foreign
    ensures v.attempts == w.attempts && v.orders == w.orders && (w.guard.lost ==> v.guard.lost)
    ensures Trusted(v, a) ==> w.inflight == [] && w.store == a.cur
  {
    ReachesEvolves(w, v);
    InvEvolves(c, cooperative, w, v, a, keep);
  }

  /** Revoking a token takes it out of those that are owed, if it was proved dead. */
  lemma InvRevoked(c: Contract, cooperative: bool, w: World, v: World, a: Account, keep: set<Token>, t: Token,
                   proven: bool)
    requires Inv(c, cooperative, w, a, keep) && Reaches(w, v) && (proven ==> t !in v.live)
    requires cooperative ==> v == if proven then w.(live := w.live - {t}) else w
    ensures Inv(c, cooperative, v, a, if proven then keep - {t} else keep) && (w.foreign ==> v.foreign)
    ensures v.attempts == w.attempts
  {
    ReachesEvolves(w, v);
  }

  /** What a write and its reply make of the account. */
  lemma InvTried(c: Contract, cooperative: bool, mid: World, w: World, a: Account, keep: set<Token>, r: WriteReply,
                 o: Order)
    requires Inv(c, cooperative, mid, a, keep) && !a.uncertain && !a.removing && WF(w)
    requires o.ToPut? && Proper(c, a.own, o) && (Late(o.path) ==> a.late)
    requires Trusted(mid, a) ==> o.path !in a.cur
    requires mid.foreign || !Complete(c, a.start.store)
    requires r.Ok? ==> w == Asked(mid, o.path, o).(store := mid.store[o.path := r.obj])
    requires r.DefinitelyRejected() ==> w == Asked(mid, o.path, o)
    requires r.Ambiguous? ==> w.(store := mid.store, inflight := mid.inflight) == Asked(mid, o.path, o)
    requires cooperative ==> !r.Ambiguous?
    ensures Inv(c, cooperative, w, Tried(a, o.path, r), keep) && (mid.foreign ==> w.foreign)
    ensures |a.start.attempts| < |w.attempts|
  {
    OrderlyPut(c, a.start.orders, mid.orders, a.own, a.removing, a.late, o);
    if Trusted(mid, a) {
      ShapeTried(a, o.path, r);
    }
  }

  lemma ShapeTried(a: Account, p: Path, r: WriteReply)
    requires Shape(a) && p !in a.cur
    ensures !r.Ambiguous? ==> Shape(Tried(a, p, r))
  {
    if r.Ok? {
      assert Tried(a, p, r).cur - Tried(a, p, r).made == a.cur - a.made;
      assert p !in a.start.store by {
        assert p in a.start.store ==> p in a.cur - a.made;
      }
    }
  }

  /** The same, after whatever happened before the server acted. */
  lemma InvSent(c: Contract, cooperative: bool, before: World, mid: World, w: World, a: Account, keep: set<Token>,
                r: WriteReply, o: Order)
    requires Inv(c, cooperative, before, a, keep) && !a.uncertain && !a.removing && WF(w)
    requires Evolves(before, mid) && (cooperative ==> mid == before)
    requires o.ToPut? && Proper(c, a.own, o) && (Late(o.path) ==> a.late)
    requires Trusted(before, a) ==> o.path !in a.cur
    requires before.foreign || !Complete(c, a.start.store)
    requires r.Ok? ==> w == Asked(mid, o.path, o).(store := mid.store[o.path := r.obj])
    requires r.DefinitelyRejected() ==> w == Asked(mid, o.path, o)
    requires r.Ambiguous? ==> w.(store := mid.store, inflight := mid.inflight) == Asked(mid, o.path, o)
    requires cooperative ==> !r.Ambiguous?
    ensures Inv(c, cooperative, w, Tried(a, o.path, r), keep) && (before.foreign ==> w.foreign)
    ensures |Tried(a, o.path, r).start.attempts| < |w.attempts|
  {
    InvEvolves(c, cooperative, before, mid, a, keep);
    InvTried(c, cooperative, mid, w, a, keep, r, o);
  }

  /** A creation goes on record with what it was read back as. */
  lemma InvRecorded(c: Contract, cooperative: bool, w: World, a: Account, keep: set<Token>, p: Path, obj: Object)
    requires Inv(c, cooperative, w, a, keep) && !a.removing && (p == KvMount || p == AuthMount ==> !a.late)
    ensures Inv(c, cooperative, w, a.(own := a.own[p := obj]), keep)
  {
    OrderlyBooked(c, a.start.orders, w.orders, a.own, a.late, p, obj);
  }

  /** What a removal and its readback make of the account. */
  lemma InvRemoved(c: Contract, cooperative: bool, before: World, mid: World, sent: World, w: World, a: Account,
                   keep: set<Token>, o: Order, gone: bool)
    requires Inv(c, cooperative, before, a, keep) && !a.uncertain
    requires Evolves(before, mid) && Evolves(sent, w) && WF(sent) && WF(w)
    requires o.ToRemove? && Proper(c, a.own, o) && (Late(o.path) ==> a.late)
    requires Trusted(before, a) ==> o.path in a.made && forall q | q in a.cur && Below(o.path, q) :: q in a.made
    requires before.foreign || !Complete(c, a.start.store)
    requires sent.(store := mid.store, inflight := mid.inflight) == Asked(mid, o.path, o)
    requires if sent.inflight == mid.inflight then sent.store == mid.store || sent.store == Without(mid.store, o.path)
             else sent.inflight == mid.inflight + [Remove(o.path)] && sent.store == mid.store
    requires cooperative ==>
               mid == before && sent == Asked(mid, o.path, o).(store := Without(mid.store, o.path)) && w == sent
    requires gone ==> o.path !in w.store
    requires cooperative ==> gone
    ensures Inv(c, cooperative, w, if gone then Removed(a, o.path) else a.(removing := true, uncertain := true), keep)
    ensures before.foreign ==> w.foreign
  {
    assert Orderly(c, a.start.orders, mid.orders, a.own, true, a.late);
    OrderlyRemove(c, a.start.orders, mid.orders, a.own, a.late, o);
    if gone && !w.foreign {
      RemovalReadBack(before, mid, sent, w, o.path);
      WithoutCreated(a.cur, a.made, o.path);
    }
  }

  /** A run that is going well is not disturbed by outside activity. */
  lemma ReadyFollows(c: Contract, cooperative: bool, w: World, v: World, a: Account, m: MutationState, token: Token,
                     st: PreState)
    requires Ready(c, cooperative, w, a, m, token, st) && Reaches(w, v) && (cooperative ==> v == w)
    ensures Ready(c, cooperative, v, a, m, token, st)
    ensures w.foreign ==> v.foreign
    ensures v.attempts == w.attempts && (w.guard.lost ==> v.guard.lost)
    ensures Trusted(v, a) ==> w.inflight == [] && w.store == a.cur
  {
    InvFollows(c, cooperative, w, v, a, {token});
  }

  /** Below an auth mount that this run created, with no role yet, there is only its own configuration. */
  lemma AuthMountMine(c: Contract, a: Account)
    requires Shape(a) && Pristine(c, a.start.store) && a.made <= {KvMount, AuthMount, AuthConfig}
    ensures RoleNames(a.cur) == {} && (AuthConfig in a.cur ==> AuthConfig in a.made)
  {
    assert a.made <= c.Parts() - {c.Role()};
    RolesUntouched(c, a);
    if AuthConfig !in a.made {
      Untouched(a, AuthConfig);
    }
  }

  /** What is left after a removal that took nothing else along is still exact and still the run's own. */
  lemma OwnedRemoved(c: Contract, w: World, v: World, a: Account, m: MutationState, p: Path)
    requires Owned(c, w, a, m) && (w.foreign ==> v.foreign) && (Trusted(w, a) ==> Shape(a))
    requires (p.RoleAt? || p.AclPolicy?) && p in a.made
    ensures Owned(c, v, Removed(a, p), m) && Removed(a, p).made == a.made - {p}
  {
    var b := Removed(a, p);
    if Trusted(v, b) {
      forall q | q in b.made
        ensures q in a.made && Get(b.cur, q) == Get(a.cur, q)
      {
      }
    }
  }

  /** What remains, step by step, of everything but a created secret mount. */
  lemma Dismantled(c: Contract, made: set<Path>)
    requires made <= c.Parts() && Seed !in made
    ensures made - {c.Role(), c.Policy()} <= {KvMount, AuthMount, AuthConfig}
    ensures (made - {c.Role(), c.Policy()}) * {KvMount} == made * {KvMount}
  {
  }

  lemma MountDismantled(made: set<Path>)
    requires made <= {KvMount, AuthMount, AuthConfig} && (AuthConfig in made ==> AuthMount in made)
    ensures made - (set q | q in made && Below(AuthMount, q)) == made * {KvMount}
    ensures AuthMount !in made ==> made == made * {KvMount}
  {
  }

  lemma NothingMade(a: Account)
    requires Shape(a) && a.made == {}
    ensures a.cur == a.start.store
  {
    assert a.cur - a.made == a.cur;
  }

  lemma ShapeExtends(a: Account)
    requires Shape(a)
    ensures Extends(a.start.store, a.cur)
  {
    forall p | p in a.start.store
      ensures p in a.cur && a.cur[p] == a.start.store[p]
    {
      assert p in a.cur - a.made;
    }
  }

  lemma Untouched(a: Account, p: Path)
    requires Shape(a) && p !in a.made
    ensures Get(a.cur, p) == Get(a.start.store, p)
  {
    assert p in a.cur - a.made <==> p in a.cur;
  }

  lemma RolesUntouched(c: Contract, a: Account)
    requires Shape(a) && a.made <= c.Parts() - {c.Role()}
    ensures RoleNames(a.cur) == RoleNames(a.start.store)
  {
    forall q: Path | q.RoleAt?
      ensures q in a.cur <==> q in a.start.store
    {
      Untouched(a, q);
    }
  }

  lemma CompleteMeansUntouched(c: Contract, a: Account)
    requires Shape(a) && Complete(c, a.start.store) && a.made <= c.Parts()
    ensures a.made == {} && a.cur == a.start.store
  {
    assert c.Parts() <= a.start.store.Keys;
    assert a.made == {};
    NothingMade(a);
  }

  /** An exact secret mount that the run finds is either its own or was there before. */
  lemma KvAccounted(a: Account)
    requires Shape(a) && KvMount in a.cur
    ensures KvMount in a.made <==> KvMount !in a.start.store
  {
    if KvMount !in a.made {
      Untouched(a, KvMount);
    }
  }

  /** A run that found nothing installed has created the auth mount it finds. */
  lemma MountsAccounted(c: Contract, a: Account)
    requires Shape(a) && MountsReady(c, a.cur) && Pristine(c, a.start.store)
    ensures AuthMount in a.made && (KvMount in a.made <==> KvMount !in a.start.store)
  {
    KvAccounted(a);
    if AuthMount !in a.made {
      Untouched(a, AuthMount);
    }
  }

  lemma StillPristine(c: Contract, a: Account)
    requires Shape(a) && a.made <= {KvMount} && Pristine(c, a.start.store) && ExactKvV2Mount(c, Get(a.cur, KvMount))
    ensures Pristine(c, a.cur) && c.Role() !in a.cur
  {
    RolesUntouched(c, a);
    NoRolesMeansNone(a.cur);
    Untouched(a, AuthMount);
    Untouched(a, AuthConfig);
    Untouched(a, c.Policy());
    Untouched(a, Seed);
  }

  /** A release that won its compare-and-swap and was read back at that version leaves the Lease clear for good. */
  lemma ReleaseClears(start: World, mid: World, swapped: World, after: World, w: World)
    requires WF(mid) && Stale(mid) && !mid.guard.running && swapped == Append(mid, "", true)
    requires Evolves(swapped, after)
    requires w == after.(leaseSeen := Some(LeaseUpdate(|mid.lease|, "")))
    ensures LeaseClear(start, w)
  {
    LastOwnAppend(mid.lease, LeaseVersion("", true));
    assert after.lease[|mid.lease|] == after.lease[..|swapped.lease|][|mid.lease|] == swapped.lease[|mid.lease|];
  }

  /** With no role left, everything that would go with the auth mount was created by this run. */
  lemma BelowAuthIsMine(c: Contract, a: Account)
    requires Shape(a) && Pristine(c, a.start.store) && RoleNames(a.cur) == {}
    ensures forall q | q in a.cur && Below(AuthMount, q) :: q in a.made
  {
    NoRolesMeansNone(a.cur);
    if AuthMount !in a.made { Untouched(a, AuthMount); }
    if AuthConfig !in a.made { Untouched(a, AuthConfig); }
  }

  lemma RoleNamesPut(s: Store, p: Path, o: Object)
    ensures RoleNames(s[p := o]) == if p.RoleAt? then RoleNames(s) + {p.name} else RoleNames(s)
  {
    var t := s[p := o];
    forall q: Path | q.RoleAt? && q in t
      ensures q in s || q == p
    {
    }
    if p.RoleAt? {
      assert p in t;
    }
    forall q | q in s && q.RoleAt?
      ensures q in t
    {
    }
  }

  /** A creation below the mounts leaves the mounts as they were. */
  lemma MountsReadyPut(c: Contract, s: Store, p: Path, o: Object)
    requires p in {c.Policy(), c.Role(), Seed}
    ensures MountsReady(c, s) ==> MountsReady(c, s[p := o])
  {
    RoleNamesPut(s, p, o);
  }

  lemma TiedBooked(c: Contract, a: Account, b: Account, m: MutationState, p: Path, o: Object)
    requires Tied(c, a, m) && p in c.Parts() && b.made == a.made + {p} && (p == AuthConfig ==> AuthMount in a.made)
    requires b.late == a.late && (Late(p) ==> a.late)
    ensures Tied(c, b, Booked(c, m, p, o))
  {
    assert forall q :: q in b.made <==> q in a.made || q == p;
    var n := Booked(c, m, p, o);
    assert n.mutated && p in b.made;
    assert p == KvMount || p == AuthMount || p == AuthConfig || p == c.Policy() || p == c.Role() || p == Seed;
  }

  lemma RecordedBooked(c: Contract, own: Own, m: MutationState, p: Path, o: Object)
    requires Recorded(c, own, m) && p in c.Parts()
    ensures Recorded(c, own[p := o], Booked(c, m, p, o))
  {
  }

  lemma OwnedBooked(c: Contract, w: World, v: World, a: Account, b: Account, m: MutationState, p: Path, o: Object)
    requires Owned(c, w, a, m) && (w.foreign ==> v.foreign) && (Trusted(w, a) ==> a.made <= a.cur.Keys)
    requires b == a.(cur := b.cur, made := a.made + {p}, created := b.created, own := b.own)
    requires Trusted(v, b) ==> Exact(c, p, Some(o)) && b.cur == a.cur[p := o] && Pristine(c, a.start.store)
    ensures Owned(c, v, b, Booked(c, m, p, o))
  {
    if Trusted(v, b) {
      assert Trusted(w, a);
      forall q | q in b.made
        ensures Exact(c, q, Get(b.cur, q))
      {
        if q != p {
          assert Exact(c, q, Get(a.cur, q));
        }
      }
    }
  }

  // ---------------------------------------------------------------------------
  // Before the Lease is taken

  /** The run has changed nothing yet and holds nothing. */
  ghost predicate Idle(start: World, w: World) {
    && WF(w)
    && TokensDead(w)
    && w.inflight == []
    && (start.foreign ==> w.foreign)
    && (!w.foreign ==> w.store == start.store)
    && w.attempts == start.attempts && w.orders == start.orders
    && !w.guard.running && Stale(w) && LastOwn(w.lease) == ""
    && start.known <= w.known
    && start.lease <= w.lease
    && forall k | |start.lease| <= k < |w.lease| :: !w.lease[k].mine
  }

  lemma IdleEvolves(start: World, w: World, v: World)
    requires Idle(start, w) && Evolves(w, v)
    ensures Idle(start, v)
  {
    forall k | |start.lease| <= k < |v.lease|
      ensures !v.lease[k].mine
    {
      if k < |w.lease| {
        assert v.lease[k] == v.lease[..|w.lease|][k] == w.lease[k];
      }
    }
  }

  lemma IdleKeepsPromise(c: Contract, start: World, w: World)
    requires Idle(start, w)
    ensures Promise(c, start, w, BlockedPreflight)
  {
  }

  lemma IdleFollows(start: World, w: World, v: World)
    requires Idle(start, w) && Reaches(w, v)
    ensures Idle(start, v)
  {
    ReachesEvolves(w, v);
    IdleEvolves(start, w, v);
  }
}
