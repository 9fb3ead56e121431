/**
 When a run may ask the server to change something: what its latest reads must have shown
 before a creation, and before the removal of something it created, whoever else is writing.
 */
module ApplyOrders {
  import opened Options
  import opened OpenBaoWorld
  import opened ApplyContract

  /** What the run's acknowledged creations were read back as. */
  type Own = map<Path, Object>

  predicate ShowsNothing(v: View, p: Path) {
    p in v.shown && v.shown[p] == Got(None)
  }

  predicate ShowsExact(c: Contract, v: View, p: Path) {
    p in v.shown && v.shown[p].Got? && Exact(c, p, v.shown[p].found)
  }

  /** If the run created `p`, what was shown there has the uuid and the accessor that were read back then. */
  predicate ShowsOwn(own: Own, v: View, p: Path) {
    p in own ==>
      && p in v.shown && v.shown[p].Got? && v.shown[p].found.Some?
      && v.shown[p].found.value.uuid == own[p].uuid && v.shown[p].found.value.accessor == own[p].accessor
  }

  /** Both mounts are exact, and those the run created are still the same objects. */
  predicate MountsShown(c: Contract, own: Own, v: View) {
    && ShowsExact(c, v, KvMount) && ShowsExact(c, v, AuthMount) && ShowsExact(c, v, AuthConfig)
    && v.roles.Listed? && NoForeignRoles(c, v.roles.names)
    && ShowsOwn(own, v, KvMount) && ShowsOwn(own, v, AuthMount)
  }

  /** Nothing of the contract is there, the secret mount aside. */
  predicate EmptyShown(c: Contract, v: View) {
    && ShowsNothing(v, AuthMount) && ShowsNothing(v, AuthConfig) && v.roles == Listed({})
    && ShowsNothing(v, c.Policy()) && ShowsNothing(v, c.Role()) && ShowsNothing(v, Seed)
  }

  /** The checks made right before each creation. */
  predicate Guarded(c: Contract, own: Own, p: Path, v: View) {
    match p
    case KvMount => ShowsNothing(v, KvMount) && EmptyShown(c, v)
    case AuthMount => ShowsExact(c, v, KvMount) && EmptyShown(c, v)
    case AuthConfig => ShowsNothing(v, AuthConfig) && v.roles == Listed({})
    case _ => ShowsNothing(v, p) && MountsShown(c, own, v)
  }

  /** A secret mount that the run created was shown to be exact and the same object. */
  predicate SecretMountShown(c: Contract, own: Own, v: View) {
    KvMount in own ==> ShowsExact(c, v, KvMount) && ShowsOwn(own, v, KvMount)
  }

  /** The checks made right before each removal: the object is exact, and it is the one that the run created. */
  predicate Removable(c: Contract, own: Own, p: Path, v: View) {
    && p in own && ShowsExact(c, v, p) && SecretMountShown(c, own, v)
    && match p
       case RoleAt(_) => p == c.Role()
       case AclPolicy(_) =>
         && p == c.Policy()
         && v.shown[p].found.value.version == own[p].version
         && v.shown[p].found.value.modified == own[p].modified
       case AuthMount =>
         && ShowsOwn(own, v, AuthMount)
         && (ShowsNothing(v, AuthConfig) || ShowsExact(c, v, AuthConfig)) && v.roles == Listed({})
       case _ => false
  }

  /** A creation asks for exactly what the contract plans, and both kinds of request follow their checks. */
  predicate Proper(c: Contract, own: Own, o: Order) {
    match o
    case ToPut(p, body, v) => p in c.Parts() && body == Desired(c, p) && Guarded(c, own, p, v)
    case ToRemove(p, v) => Removable(c, own, p, v)
  }

  /** Every request sent since `before` was proper. */
  ghost predicate Obeyed(c: Contract, before: set<Order>, orders: set<Order>, own: Own) {
    before <= orders && forall o | o in orders && o !in before :: Proper(c, own, o)
  }

  /** The parts below the two mounts. */
  predicate Late(p: Path) {
    p.AclPolicy? || p.RoleAt? || p.Seed?
  }

  /** As long as nothing is being removed only creations were asked for, and none of the late ones before its time. */
  ghost predicate Orderly(c: Contract, before: set<Order>, orders: set<Order>, own: Own, removing: bool, late: bool) {
    && Obeyed(c, before, orders, own)
    && (!removing ==> forall o | o in orders && o !in before :: o.ToPut?)
    && (!late ==> forall o | o in orders && o !in before :: !Late(o.path))
  }

  lemma OrderlyPut(c: Contract, before: set<Order>, orders: set<Order>, own: Own, removing: bool, late: bool, o: Order)
    requires Orderly(c, before, orders, own, removing, late) && Proper(c, own, o) && o.ToPut? && (Late(o.path) ==> late)
    ensures Orderly(c, before, orders + {o}, own, removing, late)
  {
  }

  lemma OrderlyRemove(c: Contract, before: set<Order>, orders: set<Order>, own: Own, late: bool, o: Order)
    requires Orderly(c, before, orders, own, true, late) && Proper(c, own, o) && (Late(o.path) ==> late)
    ensures Orderly(c, before, orders + {o}, own, true, late)
  {
  }

  /** The requests sent since some later moment were proper, too. */
  lemma ObeyedSince(c: Contract, before: set<Order>, since: set<Order>, orders: set<Order>, own: Own)
    requires Obeyed(c, before, orders, own) && before <= since <= orders
    ensures Obeyed(c, since, orders, own)
  {
  }

  /** What was proper stays so when one more creation is booked; the mounts are booked before anything late is sent. */
  lemma OrderlyBooked(c: Contract, before: set<Order>, orders: set<Order>, own: Own, late: bool, p: Path, obj: Object)
    requires Orderly(c, before, orders, own, false, late) && (p == KvMount || p == AuthMount ==> !late)
    ensures Orderly(c, before, orders, own[p := obj], false, late)
  {
    forall o | o in orders && o !in before
      ensures Proper(c, own[p := obj], o)
    {
      assert Proper(c, own, o) && o.ToPut?;
    }
  }

  /** A captured pre-state, as the latest reads showed it. */
  predicate Viewed(c: Contract, st: PreState, v: View) {
    && AuthMount in v.shown && v.shown[AuthMount] == Got(st.mount)
    && AuthConfig in v.shown && v.shown[AuthConfig] == Got(st.config)
    && v.roles == Listed(st.roles)
    && KvMount in v.shown && v.shown[KvMount] == Got(st.kvMount)
    && c.Policy() in v.shown && v.shown[c.Policy()] == Got(st.policy)
    && c.Role() in v.shown && v.shown[c.Role()] == Got(st.role)
    && (st.metadata.None? ==> ShowsNothing(v, Seed))
  }

  /** Without the secret mount a pre-state that passes is empty. */
  lemma EmptyViewed(c: Contract, own: Own, st: PreState, v: View)
    requires Viewed(c, st, v) && ValidatePreState(c, st) == Clear && st.kvMount.None?
    ensures Guarded(c, own, KvMount, v)
  {
  }

  /** What a rollback removes, newest first; a created secret mount is kept. */
  function Trail(c: Contract, m: MutationState): seq<Path> {
    ObjectTrail(c, m) + (if m.mountCreated then [AuthMount] else [])
  }

  function ObjectTrail(c: Contract, m: MutationState): seq<Path> {
    (if m.roleCreated then [c.Role()] else []) + (if m.policyCreated then [c.Policy()] else [])
  }

  /** The requests since `before` follow the trail, and `done` means to its end. */
  predicate Trailing(before: seq<Path>, after: seq<Path>, trail: seq<Path>, done: bool) {
    before <= after <= before + trail && (done ==> after == before + trail)
  }

  lemma TrailingFurther(before: seq<Path>, mid: seq<Path>, after: seq<Path>, trail: seq<Path>, rest: seq<Path>,
                        first: bool, done: bool)
    requires Trailing(before, mid, trail, first)
    requires if first then Trailing(mid, after, rest, done) else after == mid && !done
    ensures Trailing(before, after, trail + rest, done)
  {
    assert before + trail + rest == before + (trail + rest);
  }
}
