/**
 What must have been shown for a gate to count as passed, and at which gates a run may stop
 after it has passed a given number of them.
 */
module ApplyEvidence {
  import opened Options
  import opened OpenBaoWorld
  import opened OpenBaoClient
  import opened ApplyContract
  import opened ApplyOrders

  ghost predicate ExactlyShown(c: Contract, t: Token, p: Path, seen: set<Note>) {
    exists o :: Shown(Some(t), p, Some(o)) in seen && Exact(c, p, Some(o))
  }

  /** A pre-state, as the reads of the management token showed it. */
  ghost predicate Captured(c: Contract, t: Token, st: PreState, seen: set<Note>) {
    ReadsCaptured(c, t, st, seen) && SeedCaptured(t, st.metadata, st.seed, seen)
  }

  ghost predicate ReadsCaptured(c: Contract, t: Token, st: PreState, seen: set<Note>) {
    && Shown(Some(t), AuthMount, st.mount) in seen && Shown(Some(t), AuthConfig, st.config) in seen
    && RolesShown(st.roles) in seen && Shown(Some(t), KvMount, st.kvMount) in seen
    && Shown(Some(t), c.Policy(), st.policy) in seen && Shown(Some(t), c.Role(), st.role) in seen
    && Shown(Some(t), Seed, st.metadata) in seen
  }

  /** The data of the seed is read only if there is metadata. */
  ghost predicate SeedCaptured(t: Token, metadata: Option<Object>, seed: Option<Object>, seen: set<Note>) {
    if metadata.None? then seed.None? else exists d :: Shown(Some(t), Seed, d) in seen && seed == SeedData(d)
  }

  /**
   The workload was let in, could read exactly its seed, was denied its neighbour's data and the metadata,
   and has lost its token again.
   */
  ghost predicate WorkloadShown(c: Contract, t: Token, seen: set<Note>) {
    && {Affirmed(SameServiceAccount), Affirmed(TokenIssued(Workload)), Affirmed(ExactLogin(t)),
        Affirmed(WorkloadCapabilities(t)), Affirmed(SiblingDenied(t)), Affirmed(MetadataDenied(t))} <= seen
    && (exists o :: Shown(Some(t), Seed, o) in seen && ExactSeedData(c, SeedData(o)))
    && Denied(t) in seen
  }

  ghost predicate StrangersIssued(seen: set<Note>) {
    {Affirmed(TokenIssued(Stranger(0))), Affirmed(TokenIssued(Stranger(1))), Affirmed(TokenIssued(Stranger(2)))} <= seen
  }

  /** The workload's login was granted, and all three strangers were forbidden, in this order and nobody else. */
  function ProofOfLogins(t: Token): seq<Signin> {
    [Signin(Workload, LoggedIn(Some(t))), Signin(Stranger(0), LoginForbidden), Signin(Stranger(1), LoginForbidden),
     Signin(Stranger(2), LoginForbidden)]
  }

  /** The first `n` strangers, each forbidden. */
  function Denials(n: nat): seq<Signin> {
    if n == 0 then [] else Denials(n - 1) + [Signin(Stranger(n - 1), LoginForbidden)]
  }

  lemma DenialsComplete(t: Token)
    ensures [Signin(Workload, LoggedIn(Some(t)))] + Denials(3) == ProofOfLogins(t)
  {
    assert Denials(0) == [];
    assert Denials(1) == [Signin(Stranger(0), LoginForbidden)];
    assert Denials(2) == [Signin(Stranger(0), LoginForbidden), Signin(Stranger(1), LoginForbidden)];
  }

  /** What a gate rests on; `t` is the management token. */
  ghost predicate Evidence(c: Contract, g: Gate, t: Token, seen: set<Note>) {
    match g
    case OpenBaoActiveUnsealed => Affirmed(Health) in seen
    case KubernetesExecutorBoundary => Affirmed(Boundary) in seen
    case ExclusiveLeaseAcquired => LeaseShown("") in seen && LeaseWritten(c.holder) in seen
    case ManagementTokenUnwrapped => TokenUnwrapped(t) in seen
    case ManagementTokenLeastPrivilege =>
      && (exists f :: Facts(t, f) in seen &&
            f.policies == [c.managementPolicy] && f.bounded && f.accessor == c.managementAccessor != "")
      && Affirmed(ManagementCapabilities(t)) in seen
      && (exists o :: Shown(Some(t), AclPolicy(c.managementPolicy), Some(o)) in seen && o.body == c.delegationBody)
    case CompletePrestateCaptured => exists st :: Captured(c, t, st, seen)
    case PrestateAllowsMutation => exists st :: Captured(c, t, st, seen) && ValidatePreState(c, st) == Clear
    case KvV2MountReady => ExactlyShown(c, t, KvMount, seen)
    case DedicatedAuthMountReady => ExactlyShown(c, t, AuthMount, seen) && ExactlyShown(c, t, AuthConfig, seen)
    case AclPolicyReady => ExactlyShown(c, t, c.Policy(), seen)
    case WorkloadRoleReady => ExactlyShown(c, t, c.Role(), seen)
    case KvV2SeedReady =>
      exists m, d :: Shown(Some(t), Seed, m) in seen && Shown(Some(t), Seed, d) in seen && ExactSeed(c, m, SeedData(d))
    case WorkloadLiveAuthorizationProven => StrangersIssued(seen) && exists w :: WorkloadShown(c, w, seen)
    case ManagementTokenRevoked => Denied(t) in seen
    case ExclusiveLeaseReleased => LeaseWritten("") in seen && LeaseShown("") in seen
  }

  /** The gates that were passed, in order, each with its evidence. */
  ghost predicate Backed(c: Contract, gates: seq<Gate>, t: Token, seen: set<Note>) {
    gates <= GATES && forall k | 0 <= k < |gates| :: Evidence(c, GATES[k], t, seen)
  }

  lemma EvidenceGrows(c: Contract, g: Gate, t: Token, seen: set<Note>, more: set<Note>)
    requires Evidence(c, g, t, seen) && seen <= more
    ensures Evidence(c, g, t, more)
  {
    match g
    case CompletePrestateCaptured =>
      var st :| Captured(c, t, st, seen);
      CapturedGrows(c, t, st, seen, more);
    case PrestateAllowsMutation =>
      var st :| Captured(c, t, st, seen) && ValidatePreState(c, st) == Clear;
      CapturedGrows(c, t, st, seen, more);
    case WorkloadLiveAuthorizationProven =>
      var w :| WorkloadShown(c, w, seen);
      assert WorkloadShown(c, w, more);
    case _ =>
  }

  lemma CapturedGrows(c: Contract, t: Token, st: PreState, seen: set<Note>, more: set<Note>)
    requires Captured(c, t, st, seen) && seen <= more
    ensures Captured(c, t, st, more)
  {
  }

  lemma BackedGrows(c: Contract, gates: seq<Gate>, t: Token, seen: set<Note>, more: set<Note>)
    requires Backed(c, gates, t, seen) && seen <= more
    ensures Backed(c, gates, t, more)
  {
    forall k | 0 <= k < |gates|
      ensures Evidence(c, GATES[k], t, more)
    {
      EvidenceGrows(c, GATES[k], t, seen, more);
    }
  }

  lemma BackedOneMore(c: Contract, gates: seq<Gate>, t: Token, seen: set<Note>)
    requires Backed(c, gates, t, seen) && |gates| < |GATES| && Evidence(c, GATES[|gates|], t, seen)
    ensures Backed(c, gates + [GATES[|gates|]], t, seen)
  {
  }

  /** The first three gates do not depend on the management token. */
  lemma BackedBeforeToken(c: Contract, gates: seq<Gate>, t: Token, u: Token, seen: set<Note>)
    requires Backed(c, gates, t, seen) && |gates| <= 3
    ensures Backed(c, gates, u, seen)
  {
    forall k | 0 <= k < |gates|
      ensures Evidence(c, GATES[k], u, seen)
    {
      assert Evidence(c, GATES[k], t, seen);
    }
  }

  /**
   A creation was acknowledged and read back as `obj`; a policy is at its first version, and a seed's metadata
   agrees with the reply to the write.
   */
  ghost predicate Credited(p: Path, obj: Object, t: Token, seen: set<Note>) {
    && Shown(Some(t), p, Some(obj)) in seen
    && (exists o :: Acknowledged(p, o) in seen && (p.Seed? ==> ExactSeedWrite(o, obj.modified)))
    && (p.AclPolicy? ==> obj.version == 1)
  }

  /** The run's own creations were acknowledged, and shown to it as they are on record. */
  ghost predicate Earned(own: Own, t: Token, seen: set<Note>) {
    forall p | p in own :: Credited(p, own[p], t, seen)
  }

  /** What was added to the record was acknowledged and shown. */
  ghost predicate Grew(own: Own, more: Own, t: Token, seen: set<Note>) {
    forall p | p in more :: (p in own && own[p] == more[p]) || Credited(p, more[p], t, seen)
  }

  lemma CreditedGrows(p: Path, obj: Object, t: Token, seen: set<Note>, later: set<Note>)
    requires Credited(p, obj, t, seen) && seen <= later
    ensures Credited(p, obj, t, later)
  {
  }

  lemma GrewByOne(own: Own, p: Path, obj: Object, t: Token, seen: set<Note>)
    requires Credited(p, obj, t, seen)
    ensures Grew(own, own[p := obj], t, seen)
  {
  }

  lemma GrewTwice(own: Own, more: Own, most: Own, t: Token, seen: set<Note>, later: set<Note>)
    requires Grew(own, more, t, seen) && Grew(more, most, t, later) && seen <= later
    ensures Grew(own, most, t, later)
  {
    forall p | p in most && Credited(p, most[p], t, seen)
      ensures Credited(p, most[p], t, later)
    {
      CreditedGrows(p, most[p], t, seen, later);
    }
  }

  lemma EarnedGrows(own: Own, more: Own, t: Token, seen: set<Note>, later: set<Note>)
    requires Earned(own, t, seen) && Grew(own, more, t, later) && seen <= later
    ensures Earned(more, t, later)
  {
    forall p | p in more && Credited(p, more[p], t, seen)
      ensures Credited(p, more[p], t, later)
    {
      CreditedGrows(p, more[p], t, seen, later);
    }
  }

  /** What was grounded stays so, and takes in what was added to the record. */
  lemma GroundGrows(c: Contract, gates: seq<Gate>, own: Own, more: Own, t: Token, seen: set<Note>, later: set<Note>)
    requires Backed(c, gates, t, seen) && Earned(own, t, seen) && Grew(own, more, t, later) && seen <= later
    ensures Backed(c, gates, t, later) && Earned(more, t, later)
  {
    BackedGrows(c, gates, t, seen, later);
    EarnedGrows(own, more, t, seen, later);
  }

  /** The part that a gate is about was not there before. */
  predicate Missing(g: Gate, st: PreState) {
    match g
    case KvV2MountReady => st.kvMount.None?
    case DedicatedAuthMountReady => st.mount.None?
    case AclPolicyReady => st.policy.None?
    case WorkloadRoleReady => st.role.None?
    case KvV2SeedReady => st.metadata.None?
    case _ => true
  }

  /** What a pre-state that passes has shown already. */
  lemma CapturedExactly(c: Contract, t: Token, st: PreState, seen: set<Note>)
    requires Captured(c, t, st, seen) && ValidatePreState(c, st) == Clear
    ensures st.kvMount.Some? ==> Evidence(c, KvV2MountReady, t, seen)
    ensures st.mount.Some? ==> Evidence(c, DedicatedAuthMountReady, t, seen)
    ensures st.policy.Some? ==> Evidence(c, AclPolicyReady, t, seen)
    ensures st.role.Some? ==> Evidence(c, WorkloadRoleReady, t, seen)
    ensures st.metadata.Some? ==> Evidence(c, KvV2SeedReady, t, seen)
  {
    if st.mount.Some? {
      assert Shown(Some(t), AuthMount, Some(st.mount.value)) in seen;
      assert Shown(Some(t), AuthConfig, Some(st.config.value)) in seen;
      assert Shown(Some(t), c.Policy(), Some(st.policy.value)) in seen;
      assert Shown(Some(t), c.Role(), Some(st.role.value)) in seen;
    }
    if st.kvMount.Some? {
      assert Shown(Some(t), KvMount, Some(st.kvMount.value)) in seen;
    }
  }

  /** A gate of the live authorization proof. */
  predicate WorkloadGate(g: Stop) {
    AtPositiveServiceAccountChanged.id <= g.id <= AtWorkloadTokenRevoke.id
  }

  /** A run that has passed this many gates, and no more, may name this one as the one that stopped it. */
  predicate StopsAt(g: Stop, passed: nat) {
    if g == Clear then passed == 15
    else if g == AtOpenBaoHealth then passed == 0
    else if g == AtKubernetesExecutorBoundary then passed == 1
    else if g == AtExclusiveLease || g == AtExclusiveLeaseAcquireAmbiguous then passed == 2
    else if g == AtManagementTokenUnwrap || g == AtManagementTokenUnwrapAmbiguous then passed == 3
    else if AtManagementTokenProfileUnknown.id <= g.id <= AtManagementPolicyReadback.id then passed == 4
    else if g == AtPlannerContract || g == AtCompletePrestate then passed == 5
    else if AtKvV2MountPrestate.id <= g.id <= AtExistingSeedIncompleteOrDrifted.id then passed == 6
    else if g == AtPrewritePrestateChanged then passed == 7 || passed == 8
    else if AtKvV2MountCreateRejected.id <= g.id <= AtKvV2MountCreateDrifted.id then passed == 7
    else if g == AtKvV2MountOwnership then passed == 8
    else if AtAuthMountCreateRejected.id <= g.id <= AtAuthConfigCreateDrifted.id then passed == 8
    else if AtPolicyPrewriteReadback.id <= g.id <= AtPolicyVersionReadback.id then passed == 9
    else if AtRolePrewriteReadback.id <= g.id <= AtRoleCreateDrifted.id then passed == 10
    else if AtSeedPrewriteReadback.id <= g.id <= AtSeedCreateDrifted.id then passed == 11
    else if WorkloadGate(g) then passed == 12
    else if g == AtExclusiveLeaseLost then 7 <= passed <= 12
    else if g == AtManagementTokenRevoke then 4 <= passed <= 13
    else g == AtLeaseRelease && 3 <= passed <= 14
  }

  /** Where a run may stop on account of a creation. */
  lemma CreationStops(p: Path)
    ensures StopsAt(RejectedAt(p), PassedBefore(p)) && RejectedAt(p) != Clear && !Muting(RejectedAt(p))
    ensures StopsAt(AmbiguousAt(p), PassedBefore(p)) && AmbiguousAt(p) != Clear && !Muting(AmbiguousAt(p))
    ensures StopsAt(DriftedAt(p), PassedBefore(p)) && DriftedAt(p) != Clear && !Muting(DriftedAt(p))
    ensures !p.KvMount? && !p.AuthMount? ==>
              StopsAt(PrewriteAt(p), PassedBefore(p)) && PrewriteAt(p) != Clear && !Muting(PrewriteAt(p))
    ensures p.AclPolicy? ==> StopsAt(AtPolicyVersionReadback, PassedBefore(p))
  {
    match p
    case _ =>
  }

  /** Where a run may stop on account of the pre-state. */
  lemma PreStateStops(c: Contract, st: PreState)
    ensures var g := ValidatePreState(c, st); g != Clear ==> StopsAt(g, 6) && !Muting(g)
  {
  }

  /** The record of a run that its report does not hold. */
  datatype Trace = Trace(created: set<Path>, own: Own, token: Token, unproven: bool)

  /** The workload was let in once and every stranger was turned away, since `before`. */
  ghost predicate Authorized(c: Contract, before: seq<Signin>, signins: seq<Signin>, seen: set<Note>) {
    exists t :: WorkloadShown(c, t, seen) && signins == before + ProofOfLogins(t)
  }

  lemma AuthorizedGrows(c: Contract, before: seq<Signin>, signins: seq<Signin>, seen: set<Note>, later: set<Note>)
    requires Authorized(c, before, signins, seen) && seen <= later
    ensures Authorized(c, before, signins, later)
  {
    var t :| WorkloadShown(c, t, seen) && signins == before + ProofOfLogins(t);
    assert WorkloadShown(c, t, later);
  }
}
