/**
 The remote side of an apply run: the OpenBao store, the tokens it has minted and the
 Kubernetes Lease, together with everything that may happen to them while the executor
 is waiting for a reply (late deliveries, foreign writers, expiries, lease renewals).
 */
module OpenBaoWorld {
  import opened Options

  /** The server-side objects the contract speaks about. */
  datatype Path =
    | KvMount
    | AuthMount
    | AuthConfig
    | RoleAt(name: string)
    | AclPolicy(name: string)
    | Seed

  /** Contents plus the identity fields that the executor compares. */
  datatype Object = Object(body: string, uuid: string, accessor: string, version: int, modified: string, deleted: bool)

  type Store = map<Path, Object>

  function Get(s: Store, p: Path): Option<Object> {
    if p in s then Some(s[p]) else None
  }

  function RoleNames(s: Store): set<string> {
    set p | p in s && p.RoleAt? :: p.name
  }

  /** What disappears together with `p`: disabling a mount drops everything mounted below it. */
  predicate Below(p: Path, q: Path) {
    p == q || (p.AuthMount? && (q.AuthConfig? || q.RoleAt?)) || (p.KvMount? && q.Seed?)
  }

  /** Mounts, policies (`cas` -1) and the seed (`cas` 0) are create-only; configuration and roles need their mount. */
  predicate Accepts(s: Store, p: Path) {
    match p
    case KvMount => p !in s
    case AuthMount => p !in s
    case AclPolicy(_) => p !in s
    case Seed => KvMount in s && p !in s
    case AuthConfig => AuthMount in s
    case RoleAt(_) => AuthMount in s
  }

  datatype Mutation = Put(path: Path, obj: Object) | Remove(path: Path)

  function Without(s: Store, p: Path): Store {
    if p in s then map q | q in s && !Below(p, q) :: s[q] else s
  }

  function Commit(s: Store, m: Mutation): Store {
    match m
    case Put(p, o) => if Accepts(s, p) then s[p := o] else s
    case Remove(p) => Without(s, p)
  }

  datatype ReadReply = Got(found: Option<Object>) | Unreadable

  datatype ListReply = Listed(names: set<string>) | Unlistable

  /** What the latest read of each path and the latest listing of the roles showed. */
  datatype View = View(shown: map<Path, ReadReply>, roles: ListReply)

  /** A request to change the store, with what had been shown when it was sent. */
  datatype Order = ToPut(path: Path, body: string, view: View) | ToRemove(path: Path, view: View)

  /** `mayLookup` is whether the token's own policy lets it call lookup-self. */
  datatype Token = Token(id: nat, mayLookup: bool)

  /** One committed version of the Lease; the resourceVersion is its position in the history. */
  datatype LeaseVersion = LeaseVersion(holder: string, mine: bool)

  datatype LeaseUpdate = LeaseUpdate(rv: nat, holder: string)

  /** The executor's lease guard, which its renewal goroutine also updates. */
  datatype Guard = Guard(running: bool, lost: bool, rv: nat)

  datatype World = World(
    store: Store,
    foreign: bool,                 // somebody other than this executor has written to the store
    inflight: seq<Mutation>,       // requests whose reply was lost and which may still commit
    attempts: seq<Path>,           // paths this executor has asked to write or to remove
    orders: set<Order>,            // the same requests, with what had been shown before
    known: set<Token>,             // every token ever minted
    live: set<Token>,              // tokens that are accepted
    handed: set<Token>,            // tokens handed to, or minted for, an apply run
    mints: nat,                    // logins whose reply was lost and which may still mint
    lease: seq<LeaseVersion>,
    leaseInflight: seq<LeaseUpdate>,
    leaseSeen: Option<LeaseUpdate>,  // the last Lease that was read back
    guard: Guard)

  ghost predicate WF(w: World) {
    && |w.lease| > 0
    && (w.guard.running ==> w.guard.rv < |w.lease|)
    && (forall u | u in w.leaseInflight :: u.rv < |w.lease|)
    && w.live <= w.known
    && w.handed <= w.known
  }

  /** No lease update in flight can still win its compare-and-swap. */
  ghost predicate Stale(w: World) {
    forall u | u in w.leaseInflight :: u.rv + 1 < |w.lease|
  }

  /** The holder written by the executor's own latest lease version; empty when it never wrote one. */
  function LastOwn(l: seq<LeaseVersion>): string {
    if l == [] then ""
    else if l[|l| - 1].mine then l[|l| - 1].holder
    else LastOwn(l[..|l| - 1])
  }

  // ---------------------------------------------------------------------------
  // What may happen between two actions of the executor

  datatype Event =
    | Deliver(i: nat)
    | Vanish(i: nat)
    | ForeignWrite(s: Store)
    | Expire(t: Token)
    | MintLate(t: Token)
    | DeliverLease(i: nat)
    | OtherLease(holder: string)
    | RenewOk
    | RenewFail(sent: bool)

  function Drop<T>(s: seq<T>, i: nat): seq<T>
    requires i < |s|
  {
    s[..i] + s[i + 1..]
  }

  function Append(w: World, holder: string, mine: bool): World {
    w.(lease := w.lease + [LeaseVersion(holder, mine)])
  }

  function Asked(w: World, p: Path, o: Order): World {
    w.(attempts := w.attempts + [p], orders := w.orders + {o})
  }

  function Mint(w: World, t: Token): World {
    w.(known := w.known + {t}, live := w.live + {t}, handed := w.handed + {t})
  }

  function Step(w: World, e: Event): World {
    match e
    case Deliver(i) =>
      if i < |w.inflight| then w.(store := Commit(w.store, w.inflight[i]), inflight := Drop(w.inflight, i)) else w
    case Vanish(i) =>
      if i < |w.inflight| then w.(inflight := Drop(w.inflight, i)) else w
    case ForeignWrite(s) => w.(store := s, foreign := true)
    case Expire(t) => w.(live := w.live - {t})
    case MintLate(t) =>
      if w.mints > 0 && t !in w.known then Mint(w, t).(mints := w.mints - 1) else w
    case DeliverLease(i) =>
      if i < |w.leaseInflight| then
        var u := w.leaseInflight[i];
        var v := w.(leaseInflight := Drop(w.leaseInflight, i));
        if u.rv + 1 == |w.lease| then Append(v, u.holder, true) else v
      else w
    case OtherLease(h) => Append(w, h, false)
    case RenewOk =>
      if w.guard.running && !w.guard.lost && w.guard.rv + 1 == |w.lease| then
        Append(w, w.lease[w.guard.rv].holder, true).(guard := w.guard.(rv := |w.lease|))
      else w
    case RenewFail(sent) =>
      if w.guard.running && !w.guard.lost then
        var v := w.(guard := w.guard.(lost := true));
        if sent && w.guard.rv < |w.lease| then
          v.(leaseInflight := w.leaseInflight + [LeaseUpdate(w.guard.rv, w.lease[w.guard.rv].holder)])
        else v
      else w
  }

  // ---------------------------------------------------------------------------
  // What every such event leaves alone

  /** A lone removal in flight is still on its way, was dropped, or took effect and cannot act again. */
  ghost predicate RemovalEvolves(w: World, v: World, p: Path) {
    if v.inflight == [] then v.store == w.store || v.store == Without(w.store, p)
    else v.inflight == w.inflight && v.store == w.store
  }

  ghost predicate StoreEvolves(w: World, v: World) {
    && (w.foreign ==> v.foreign)
    && v.attempts == w.attempts && v.orders == w.orders
    && (w.inflight == [] ==> v.inflight == [])
    && (!v.foreign && w.inflight == [] ==> v.store == w.store)
    && (!v.foreign ==> forall p | w.inflight == [Remove(p)] :: RemovalEvolves(w, v, p))
  }

  ghost predicate TokensEvolve(w: World, v: World) {
    && w.known <= v.known
    && w.handed <= v.handed
    && v.mints <= w.mints
    && (forall t | t in w.known && t !in w.live :: t !in v.live)
    && (w.mints == 0 ==> v.handed == w.handed && v.live <= w.live)
  }

  ghost predicate LeaseEvolves(w: World, v: World) {
    && |w.lease| <= |v.lease|
    && v.lease[..|w.lease|] == w.lease
    && v.leaseSeen == w.leaseSeen
    && v.guard.running == w.guard.running
    && (w.guard.lost ==> v.guard.lost)
    && (Stale(w) && !v.guard.lost ==> Stale(v))
    && (Stale(w) && !w.guard.running ==>
          Stale(v) && LastOwn(v.lease) == LastOwn(w.lease) && forall k | |w.lease| <= k < |v.lease| :: !v.lease[k].mine)
  }

  /** The guarantees the executor may rely on across any span of other people's activity. */
  ghost predicate Evolves(w: World, v: World) {
    WF(v) && StoreEvolves(w, v) && TokensEvolve(w, v) && LeaseEvolves(w, v)
  }

  lemma StepStore(w: World, e: Event)
    ensures StoreEvolves(w, Step(w, e))
  {
  }

  lemma LastOwnAppend(l: seq<LeaseVersion>, x: LeaseVersion)
    ensures LastOwn(l + [x]) == if x.mine then x.holder else LastOwn(l)
  {
    assert (l + [x])[..|l|] == l;
  }

  lemma StepLease(w: World, e: Event)
    requires WF(w)
    ensures WF(Step(w, e)) && LeaseEvolves(w, Step(w, e))
  {
    if e.OtherLease? {
      LastOwnAppend(w.lease, LeaseVersion(e.holder, false));
    }
  }

  lemma StepEvolves(w: World, e: Event)
    requires WF(w)
    ensures Evolves(w, Step(w, e))
  {
    StepStore(w, e);
    StepLease(w, e);
  }

  lemma StoreTransitive(u: World, v: World, w: World)
    requires StoreEvolves(u, v) && StoreEvolves(v, w)
    ensures StoreEvolves(u, w)
  {
    forall p | u.inflight == [Remove(p)] && !w.foreign
      ensures RemovalEvolves(u, w, p)
    {
      assert RemovalEvolves(u, v, p);
    }
  }

  lemma EvolvesTransitive(u: World, v: World, w: World)
    requires Evolves(u, v) && Evolves(v, w)
    ensures Evolves(u, w)
  {
    StoreTransitive(u, v, w);
    assert w.lease[..|u.lease|] == w.lease[..|v.lease|][..|u.lease|];
    forall k | |u.lease| <= k < |w.lease| && Stale(u) && !u.guard.running
      ensures !w.lease[k].mine
    {
      if k < |v.lease| {
        assert w.lease[k] == w.lease[..|v.lease|][k] == v.lease[k];
      }
    }
  }

  lemma EvolvesReflexive(w: World)
    requires WF(w)
    ensures Evolves(w, w)
  {
  }

  function Fold<S, E>(f: (S, E) -> S, s: S, es: seq<E>): S {
    if es == [] then s else f(Fold(f, s, es[..|es| - 1]), es[|es| - 1])
  }

  lemma {:induction false} FoldAppend<S, E>(f: (S, E) -> S, s: S, a: seq<E>, b: seq<E>)
    ensures Fold(f, s, a + b) == Fold(f, Fold(f, s, a), b)
  {
    if b == [] {
      assert a + b == a;
    } else {
      var n := |b| - 1;
      assert (a + b)[..|a| + n] == a + b[..n];
      FoldAppend(f, s, a, b[..n]);
    }
  }

  /** The world after these events. */
  function After(w: World, es: seq<Event>): World {
    Fold(Step, w, es)
  }

  /** Some outside activity leads from one world to the other. */
  ghost predicate Reaches(w: World, v: World) {
    exists es: seq<Event> :: v == After(w, es)
  }

  lemma ReachesItself(w: World)
    ensures Reaches(w, w)
  {
    assert After(w, []) == w;
  }

  lemma {:induction false} ReachesStep(w: World, v: World, e: Event)
    requires Reaches(w, v)
    ensures Reaches(w, Step(v, e))
  {
    var es :| v == After(w, es);
    assert (es + [e])[..|es|] == es;
    assert After(w, es + [e]) == Step(v, e);
  }

  lemma {:induction false} ReachesTransitive(u: World, v: World, w: World)
    requires Reaches(u, v) && Reaches(v, w)
    ensures Reaches(u, w)
  {
    var a :| v == After(u, a);
    var b :| w == After(v, b);
    FoldAppend(Step, u, a, b);
    assert w == After(u, a + b);
  }

  lemma {:induction false} AfterEvolves(w: World, es: seq<Event>)
    requires WF(w)
    ensures Evolves(w, After(w, es)) && WF(After(w, es))
  {
    if es == [] {
      EvolvesReflexive(w);
    } else {
      var v := After(w, es[..|es| - 1]);
      AfterEvolves(w, es[..|es| - 1]);
      StepEvolves(v, es[|es| - 1]);
      EvolvesTransitive(w, v, Step(v, es[|es| - 1]));
    }
  }

  /** Whatever outside activity leads to keeps what every event keeps. */
  lemma ReachesEvolves(w: World, v: World)
    requires WF(w) && Reaches(w, v)
    ensures Evolves(w, v) && WF(v)
  {
    var es :| v == After(w, es);
    AfterEvolves(w, es);
  }

  /**
   Once `p` is read back absent, a removal whose reply may have been lost has taken effect, and
   nothing is left in flight.
   */
  lemma RemovalReadBack(before: World, mid: World, sent: World, after: World, p: Path)
    requires StoreEvolves(before, mid) && StoreEvolves(sent, after)
    requires sent.foreign == mid.foreign
    requires if sent.inflight == mid.inflight then sent.store == mid.store || sent.store == Without(mid.store, p)
             else sent.inflight == mid.inflight + [Remove(p)] && sent.store == mid.store
    requires before.inflight == [] && p in before.store && !after.foreign && p !in after.store
    ensures after.store == Without(before.store, p) && after.inflight == []
  {
    if sent.inflight != [] {
      assert sent.inflight == [Remove(p)] && RemovalEvolves(sent, after, p);
    }
  }

  /** Removing created objects keeps the store the sum of its original contents and what was created. */
  lemma WithoutCreated(s: Store, made: set<Path>, p: Path)
    requires forall q | q in s && Below(p, q) :: q in made
    requires made <= s.Keys && p in s
    ensures var rest := made - (set q | q in made && Below(p, q));
            rest <= Without(s, p).Keys && Without(s, p) - rest == s - made
  {
  }
}
