/**
 The contract an apply run installs, the exactness checks on what it reads back, and the
 pre-state rule that decides whether the run may write at all.
 */
module ApplyContract {
  import opened Options
  import opened OpenBaoWorld
  import opened OpenBaoClient

  datatype Status = Applied | RolledBack | BlockedPreflight | PartialManualInterventionRequired

  datatype Gate =
    | OpenBaoActiveUnsealed
    | KubernetesExecutorBoundary
    | ExclusiveLeaseAcquired
    | ManagementTokenUnwrapped
    | ManagementTokenLeastPrivilege
    | CompletePrestateCaptured
    | PrestateAllowsMutation
    | KvV2MountReady
    | DedicatedAuthMountReady
    | AclPolicyReady
    | WorkloadRoleReady
    | KvV2SeedReady
    | WorkloadLiveAuthorizationProven
    | ManagementTokenRevoked
    | ExclusiveLeaseReleased

  /** The gates of a run, in the order in which it passes them. */
  const GATES := [
    OpenBaoActiveUnsealed, KubernetesExecutorBoundary, ExclusiveLeaseAcquired, ManagementTokenUnwrapped,
    ManagementTokenLeastPrivilege, CompletePrestateCaptured, PrestateAllowsMutation, KvV2MountReady,
    DedicatedAuthMountReady, AclPolicyReady, WorkloadRoleReady, KvV2SeedReady, WorkloadLiveAuthorizationProven,
    ManagementTokenRevoked, ExclusiveLeaseReleased]

  /** The gate a run stopped at; `Clear` when it did not. */
  datatype Stop = Stop(id: nat)

  const Clear := Stop(0)
  const AtOpenBaoHealth := Stop(1)
  const AtKubernetesExecutorBoundary := Stop(2)
  const AtExclusiveLease := Stop(3)
  const AtExclusiveLeaseAcquireAmbiguous := Stop(4)
  const AtExclusiveLeaseLost := Stop(5)
  const AtLeaseRelease := Stop(6)
  const AtManagementTokenUnwrap := Stop(7)
  const AtManagementTokenUnwrapAmbiguous := Stop(8)
  const AtManagementTokenProfileUnknown := Stop(9)
  const AtManagementTokenProfile := Stop(10)
  const AtManagementPolicyContract := Stop(11)
  const AtManagementTokenCapabilities := Stop(12)
  const AtManagementPolicyReadback := Stop(13)
  const AtManagementTokenRevoke := Stop(14)
  const AtPlannerContract := Stop(15)
  const AtCompletePrestate := Stop(16)
  const AtKvV2MountPrestate := Stop(17)
  const AtOrphanedPrestate := Stop(18)
  const AtAuthMountLifecycle := Stop(19)
  const AtExistingStateIncompleteOrDrifted := Stop(20)
  const AtExistingSeedIncompleteOrDrifted := Stop(21)
  const AtPrewritePrestateChanged := Stop(22)
  const AtKvV2MountOwnership := Stop(23)
  const AtKvV2MountCreateRejected := Stop(24)
  const AtKvV2MountCreateAmbiguous := Stop(25)
  const AtKvV2MountCreateDrifted := Stop(26)
  const AtAuthMountCreateRejected := Stop(27)
  const AtAuthMountCreateAmbiguous := Stop(28)
  const AtAuthMountCreateDrifted := Stop(29)
  const AtAuthConfigPrewriteReadback := Stop(30)
  const AtAuthConfigCreateRejected := Stop(31)
  const AtAuthConfigCreateAmbiguous := Stop(32)
  const AtAuthConfigCreateDrifted := Stop(33)
  const AtPolicyPrewriteReadback := Stop(34)
  const AtPolicyCreateRejected := Stop(35)
  const AtPolicyCreateAmbiguous := Stop(36)
  const AtPolicyCreateDrifted := Stop(37)
  const AtPolicyVersionReadback := Stop(38)
  const AtRolePrewriteReadback := Stop(39)
  const AtRoleCreateRejected := Stop(40)
  const AtRoleCreateAmbiguous := Stop(41)
  const AtRoleCreateDrifted := Stop(42)
  const AtSeedPrewriteReadback := Stop(43)
  const AtSeedCreateRejected := Stop(44)
  const AtSeedCreateAmbiguous := Stop(45)
  const AtSeedCreateDrifted := Stop(46)
  const AtPositiveServiceAccountChanged := Stop(47)
  const AtPositiveTokenrequest := Stop(48)
  const AtPositiveLogin := Stop(49)
  const AtAllowedDataRead := Stop(50)
  const AtWorkloadCapabilityBoundary := Stop(51)
  const AtSiblingPathDenial := Stop(52)
  const AtMetadataDenial := Stop(53)
  const AtNegativeTokenrequest := Stop(54)
  const AtNegativeLoginDenial := Stop(55)
  const AtWorkloadTokenRevoke := Stop(56)
  const AtInitialRootProfile := Stop(57)
  const AtTemporaryPolicyPrestate := Stop(58)
  const AtTemporaryPolicyCreate := Stop(59)
  const AtWrappedDelegationCreate := Stop(60)
  const AtSupervisorCleanup := Stop(61)
  const AtSupervisedRequest := Stop(62)

  datatype Report = Report(status: Status, mutationPerformed: bool, rollbackAttempted: bool, failedGate: Stop,
                           completed: seq<Gate>)

  /**
   Names and desired contents; the two flags say whether the delegation and the plan can be built
   from the request.
   */
  datatype Contract = Contract(
    roleName: string, policyName: string, managementPolicy: string, managementAccessor: string, holder: string,
    kvBody: string, authBody: string, configBody: string, policyBody: string, roleBody: string, seedBody: string,
    delegationBody: string, delegationBuilds: bool, planBuilds: bool)
  {
    function Role(): Path { RoleAt(roleName) }
    function Policy(): Path { AclPolicy(policyName) }
    function Parts(): set<Path> { {KvMount, AuthMount, AuthConfig, Policy(), Role(), Seed} }
  }

  datatype MutationState = MutationState(
    kvMountCreated: bool, kvMountUUID: string, kvMountAccessor: string,
    mountCreated: bool, mountUUID: string, mountAccessor: string,
    policyCreated: bool, policyVersion: int, policyModified: string,
    roleCreated: bool, seedCreated: bool, seedCreatedAt: string, mutated: bool)

  const NO_MUTATIONS := MutationState(false, "", "", false, "", "", false, 0, "", false, false, "", false)

  /** The bookkeeping after `obj` was created at `p` and read back. */
  function Booked(c: Contract, m: MutationState, p: Path, obj: Object): MutationState {
    var n := m.(mutated := true);
    if p == KvMount then n.(kvMountCreated := true, kvMountUUID := obj.uuid, kvMountAccessor := obj.accessor)
    else if p == AuthMount then n.(mountCreated := true, mountUUID := obj.uuid, mountAccessor := obj.accessor)
    else if p == c.Policy() then n.(policyCreated := true, policyVersion := obj.version, policyModified := obj.modified)
    else if p == c.Role() then n.(roleCreated := true)
    else if p == Seed then n.(seedCreated := true, seedCreatedAt := obj.modified)
    else n
  }

  datatype PreState = PreState(
    mount: Option<Object>, config: Option<Object>, roles: set<string>, kvMount: Option<Object>,
    policy: Option<Object>, role: Option<Object>, metadata: Option<Object>, seed: Option<Object>)

  predicate ExactMount(c: Contract, r: Option<Object>) {
    r.Some? && r.value.body == c.authBody && r.value.uuid != "" && r.value.accessor != ""
  }

  predicate ExactKvV2Mount(c: Contract, r: Option<Object>) {
    r.Some? && r.value.body == c.kvBody && r.value.uuid != "" && r.value.accessor != ""
  }

  predicate ExactConfig(c: Contract, r: Option<Object>) {
    r.Some? && r.value.body == c.configBody
  }

  predicate ExactPolicy(c: Contract, r: Option<Object>) {
    r.Some? && r.value.body == c.policyBody && r.value.modified != "" && r.value.version >= 1
  }

  predicate ExactManagementPolicy(c: Contract, r: Option<Object>) {
    r.Some? && r.value.body == c.delegationBody && r.value.modified != "" && r.value.version >= 1
  }

  predicate ExactRole(c: Contract, r: Option<Object>) {
    r.Some? && r.value.body == c.roleBody
  }

  /** The data endpoint shows a seed unless its current version was deleted. */
  function SeedData(metadata: Option<Object>): Option<Object> {
    if metadata.Some? && !metadata.value.deleted then metadata else None
  }

  predicate ExactSeedData(c: Contract, seed: Option<Object>) {
    seed.Some? && seed.value.body == c.seedBody && seed.value.version >= 1 && !seed.value.deleted
  }

  predicate ExactSeed(c: Contract, metadata: Option<Object>, seed: Option<Object>) {
    && metadata.Some?
    && ExactSeedData(c, seed)
    && metadata.value.version == seed.value.version
    && metadata.value.modified == seed.value.modified != ""
  }

  /** The exactness check that belongs to a path. */
  predicate Exact(c: Contract, p: Path, r: Option<Object>) {
    match p
    case KvMount => ExactKvV2Mount(c, r)
    case AuthMount => ExactMount(c, r)
    case AuthConfig => ExactConfig(c, r)
    case RoleAt(_) => ExactRole(c, r)
    case AclPolicy(_) => ExactPolicy(c, r)
    case Seed => ExactSeed(c, r, SeedData(r))
  }

  /** What reads back as exact holds what the plan asked the server to store. */
  lemma ExactMeansDesired(c: Contract, p: Path, r: Option<Object>)
    requires Exact(c, p, r)
    ensures r.Some? && r.value.body == Desired(c, p)
    ensures p == Seed ==> !r.value.deleted
  {
  }

  /** What the plan asks the server to store at a path. */
  function Desired(c: Contract, p: Path): string {
    match p
    case KvMount => c.kvBody
    case AuthMount => c.authBody
    case AuthConfig => c.configBody
    case RoleAt(_) => c.roleBody
    case AclPolicy(_) => c.policyBody
    case Seed => c.seedBody
  }

  predicate ExactSeedWrite(written: Object, createdAt: string) {
    written.version == 1 && written.modified == createdAt != "" && !written.deleted
  }

  predicate NoForeignRoles(c: Contract, roles: set<string>) {
    roles <= {c.roleName}
  }

  predicate ValidManagementToken(f: TokenFacts, policy: string) {
    f.bounded && f.accessor != "" && f.policies == [policy]
  }

  predicate ProvenNonRoot(f: TokenFacts) {
    "root" !in f.policies
  }

  /** What a fault-free capture of the pre-state sees. */
  function Snapshot(c: Contract, s: Store): PreState {
    PreState(Get(s, AuthMount), Get(s, AuthConfig), RoleNames(s), Get(s, KvMount),
             Get(s, c.Policy()), Get(s, c.Role()), Get(s, Seed), SeedData(Get(s, Seed)))
  }

  /** `Clear`, or the gate that stops the run. */
  function ValidatePreState(c: Contract, st: PreState): Stop {
    if st.kvMount.Some? && !ExactKvV2Mount(c, st.kvMount) then AtKvV2MountPrestate
    else if st.kvMount.None? && (st.metadata.Some? || st.seed.Some?) then AtKvV2MountPrestate
    else if st.mount.None? then
      if st.config.Some? || st.roles != {} || st.role.Some? || st.policy.Some? || st.metadata.Some? ||
         st.seed.Some? then
        AtOrphanedPrestate
      else Clear
    else if !ExactMount(c, st.mount) || !ExactConfig(c, st.config) ||
            !NoForeignRoles(c, st.roles) then AtAuthMountLifecycle
    else if !ExactPolicy(c, st.policy) || !ExactRole(c, st.role) then AtExistingStateIncompleteOrDrifted
    else if st.metadata.None? || st.seed.None? then AtExistingSeedIncompleteOrDrifted
    else if !ExactSeed(c, st.metadata, st.seed) then AtExistingSeedIncompleteOrDrifted
    else Clear
  }

  /** Everything the contract asks for is present and exact. */
  predicate Complete(c: Contract, s: Store) {
    && ExactKvV2Mount(c, Get(s, KvMount))
    && ExactMount(c, Get(s, AuthMount))
    && ExactConfig(c, Get(s, AuthConfig))
    && NoForeignRoles(c, RoleNames(s))
    && ExactPolicy(c, Get(s, c.Policy()))
    && ExactRole(c, Get(s, c.Role()))
    && ExactSeed(c, Get(s, Seed), SeedData(Get(s, Seed)))
  }

  /**
   A completed contract: each part is there with the contents the plan asks for, and no role but the
   contract's own may log in.
   */
  lemma CompleteMeansDesired(c: Contract, s: Store)
    requires Complete(c, s)
    ensures forall p | p in c.Parts() :: p in s && s[p].body == Desired(c, p)
    ensures forall n | RoleAt(n) in s :: n == c.roleName
    ensures !s[Seed].deleted
  {
    forall n | RoleAt(n) in s
      ensures n in RoleNames(s)
    {
      assert RoleAt(n).name == n;
    }
  }

  /** Nothing the contract asks for is present, except possibly an exact secret mount. */
  predicate Pristine(c: Contract, s: Store) {
    && (KvMount in s ==> ExactKvV2Mount(c, Get(s, KvMount)))
    && AuthMount !in s && AuthConfig !in s && RoleNames(s) == {} && c.Policy() !in s && Seed !in s
  }

  lemma NoRolesMeansNone(s: Store)
    ensures RoleNames(s) == {} <==> forall n :: RoleAt(n) !in s
  {
    forall n | RoleAt(n) in s
      ensures n in RoleNames(s)
    {
      assert RoleAt(n).name == n;
    }
  }

  /** Where the auth mount was found, the secret mount was found too. */
  lemma MountsFoundTogether(c: Contract, st: PreState)
    requires ValidatePreState(c, st) == Clear && st.mount.Some?
    ensures st.kvMount.Some? && st.policy.Some? && st.role.Some? && st.metadata.Some?
  {
  }

  /** The pre-state rule admits exactly the empty and the finished installation, and nothing in between. */
  lemma PreStateIsAllOrNothing(c: Contract, s: Store)
    ensures ValidatePreState(c, Snapshot(c, s)) == Clear <==> Pristine(c, s) || Complete(c, s)
    ensures Pristine(c, s) ==> c.Role() !in s && !Complete(c, s)
    ensures ValidatePreState(c, Snapshot(c, s)) == Clear && KvMount !in s ==> Pristine(c, s)
    ensures ValidatePreState(c, Snapshot(c, s)) == Clear ==> (AuthMount in s <==> Complete(c, s))
  {
    NoRolesMeansNone(s);
  }

  /** How a run ends: what its report says, and how many gates it has passed. */
  datatype Ending = Ending(status: Status, mutated: bool, rolledBack: bool, gate: Stop, passed: nat)

  predicate Ends(r: Report, e: Ending) {
    && r.status == e.status && r.mutationPerformed == e.mutated && r.rollbackAttempted == e.rolledBack
    && r.failedGate == e.gate && |r.completed| == e.passed
  }

  /** Nothing was changed. */
  function Nothing(gate: Stop, passed: nat): Ending {
    Ending(BlockedPreflight, false, false, gate, passed)
  }

  /** Everything created is removed again, except a secret mount, which is never removed. */
  function Undone(kvMade: bool, gate: Stop, passed: nat): Ending {
    Ending(if kvMade then PartialManualInterventionRequired else RolledBack, true, true, gate, passed)
  }

  /**
   How a run must end when nothing but the server's own refusals stands in its way: the first refused part
   decides.
   */
  function Refusals(c: Contract, s: Store, rejects: set<Path>): Ending {
    var kvMade := KvMount !in s;
    if Complete(c, s) then Ending(Applied, false, false, Clear, 15)
    else if !Pristine(c, s) then Nothing(ValidatePreState(c, Snapshot(c, s)), 6)
    else if kvMade && KvMount in rejects then Nothing(AtKvV2MountCreateRejected, 7)
    else if AuthMount in rejects then
      if kvMade then Ending(PartialManualInterventionRequired, true, false, AtAuthMountCreateRejected, 8)
      else Nothing(AtAuthMountCreateRejected, 8)
    else if AuthConfig in rejects then Undone(kvMade, AtAuthConfigCreateRejected, 8)
    else if c.Policy() in rejects then Undone(kvMade, AtPolicyCreateRejected, 9)
    else if c.Role() in rejects then Undone(kvMade, AtRoleCreateRejected, 10)
    else if Seed in rejects then Undone(kvMade, AtSeedCreateRejected, 11)
    else Ending(Applied, true, false, Clear, 15)
  }

  function Outcome(c: Contract, s: Store, rejects: set<Path>): Status {
    Refusals(c, s, rejects).status
  }

  /** How a run must end on a connection that loses nothing, for every start. */
  function Verdict(c: Contract, start: World, facts: TokenFacts, rejects: set<Path>): Ending
    requires start.lease != []
  {
    if start.lease[|start.lease| - 1].holder != "" then Nothing(AtExclusiveLease, 2)
    else if !ValidManagementToken(facts, c.managementPolicy) || facts.accessor != c.managementAccessor then
      if ProvenNonRoot(facts) then Nothing(AtManagementTokenProfile, 4)
      else Ending(PartialManualInterventionRequired, false, false, AtManagementTokenProfile, 4)
    else if !c.delegationBuilds then Nothing(AtManagementPolicyContract, 4)
    else if !ExactManagementPolicy(c, Get(start.store, AclPolicy(c.managementPolicy))) then
      Nothing(AtManagementPolicyReadback, 4)
    else if !c.planBuilds then Nothing(AtPlannerContract, 5)
    else Refusals(c, start.store, rejects)
  }

  /** The Lease is free, and the management token has exactly the delegated authority. */
  predicate Admitted(c: Contract, start: World, facts: TokenFacts) {
    && |start.lease| > 0
    && start.lease[|start.lease| - 1].holder == ""
    && ValidManagementToken(facts, c.managementPolicy)
    && facts.accessor == c.managementAccessor
    && c.delegationBuilds
    && ExactManagementPolicy(c, Get(start.store, AclPolicy(c.managementPolicy)))
  }

  /** Everything outside the server's refusals is as the contract expects it. */
  predicate WellPrepared(c: Contract, start: World, facts: TokenFacts) {
    Admitted(c, start, facts) && c.planBuilds
  }

  /** Each of these parts is there already or will not be refused. */
  ghost predicate Granted(s: Store, rejects: set<Path>, parts: set<Path>) {
    forall p | p in parts :: p in s || p !in rejects
  }

  lemma OutcomeWhenGranted(c: Contract, s: Store, rejects: set<Path>)
    requires Pristine(c, s) || Complete(c, s)
    requires Granted(s, rejects, c.Parts())
    ensures Refusals(c, s, rejects) == Ending(Applied, Pristine(c, s), false, Clear, 15)
  {
    PreStateIsAllOrNothing(c, s);
    if Pristine(c, s) {
      assert forall p | p in c.Parts() && p != KvMount :: p !in rejects;
      assert KvMount in c.Parts();
    }
  }

  /** A refused mount is the first thing the server refuses. */
  lemma OutcomeOfMountRefusal(c: Contract, s: Store, rejects: set<Path>)
    requires Pristine(c, s)
    ensures KvMount !in s && KvMount in rejects ==> Refusals(c, s, rejects) == Nothing(AtKvV2MountCreateRejected, 7)
    ensures AuthMount in rejects && Granted(s, rejects, {KvMount}) ==>
              Refusals(c, s, rejects) ==
              if KvMount in s then Nothing(AtAuthMountCreateRejected, 8)
              else Ending(PartialManualInterventionRequired, true, false, AtAuthMountCreateRejected, 8)
  {
    PreStateIsAllOrNothing(c, s);
    assert KvMount in {KvMount};
  }

  /** The gate at which the refusal of a part stops the run. */
  function RejectedAt(p: Path): Stop {
    match p
    case KvMount => AtKvV2MountCreateRejected
    case AuthMount => AtAuthMountCreateRejected
    case AuthConfig => AtAuthConfigCreateRejected
    case AclPolicy(_) => AtPolicyCreateRejected
    case RoleAt(_) => AtRoleCreateRejected
    case Seed => AtSeedCreateRejected
  }

  /** The gate for a creation whose outcome is not known. */
  function AmbiguousAt(p: Path): Stop {
    match p
    case KvMount => AtKvV2MountCreateAmbiguous
    case AuthMount => AtAuthMountCreateAmbiguous
    case AuthConfig => AtAuthConfigCreateAmbiguous
    case AclPolicy(_) => AtPolicyCreateAmbiguous
    case RoleAt(_) => AtRoleCreateAmbiguous
    case Seed => AtSeedCreateAmbiguous
  }

  /** The gate for a creation that did not read back as written. */
  function DriftedAt(p: Path): Stop {
    match p
    case KvMount => AtKvV2MountCreateDrifted
    case AuthMount => AtAuthMountCreateDrifted
    case AuthConfig => AtAuthConfigCreateDrifted
    case AclPolicy(_) => AtPolicyCreateDrifted
    case RoleAt(_) => AtRoleCreateDrifted
    case Seed => AtSeedCreateDrifted
  }

  /** The gate for a check before a creation below the auth mount that does not find what it should. */
  function PrewriteAt(p: Path): Stop
    requires !p.KvMount? && !p.AuthMount?
  {
    match p
    case AuthConfig => AtAuthConfigPrewriteReadback
    case AclPolicy(_) => AtPolicyPrewriteReadback
    case RoleAt(_) => AtRolePrewriteReadback
    case Seed => AtSeedPrewriteReadback
  }

  /** The number of gates a run has passed when it comes to a part. */
  function PassedBefore(p: Path): nat {
    match p
    case KvMount => 7
    case AuthMount => 8
    case AuthConfig => 8
    case AclPolicy(_) => 9
    case RoleAt(_) => 10
    case Seed => 11
  }

  /** A refusal after both mounts can be undone, unless the run also had to create the secret mount. */
  lemma OutcomeOfLateRefusal(c: Contract, s: Store, rejects: set<Path>, p: Path, granted: set<Path>)
    requires Pristine(c, s) && p in rejects && Granted(s, rejects, granted)
    requires
      || (p == AuthConfig && granted == {KvMount, AuthMount})
      || (p == c.Policy() && granted == {KvMount, AuthMount, AuthConfig})
      || (p == c.Role() && granted == {KvMount, AuthMount, AuthConfig, c.Policy()})
      || (p == Seed && granted == c.Parts() - {Seed})
    ensures Refusals(c, s, rejects) == Undone(KvMount !in s, RejectedAt(p), PassedBefore(p))
  {
    PreStateIsAllOrNothing(c, s);
    assert forall q | q in granted && q != KvMount :: q !in s && q !in rejects;
    assert KvMount in granted && AuthMount in granted;
  }

  /** `t` keeps every entry of `s`. */
  ghost predicate Extends(s: Store, t: Store) {
    s.Keys <= t.Keys && forall p | p in s :: t[p] == s[p]
  }

  // ---------------------------------------------------------------------------
  // What a finished run owes its caller

  ghost predicate TokensDead(w: World) {
    w.mints == 0 && w.handed !! w.live
  }

  /** The last Lease read back was a version this executor wrote with an empty holder. */
  ghost predicate ReadBackEmpty(w: World) {
    && w.leaseSeen.Some?
    && w.leaseSeen.value.holder == ""
    && w.leaseSeen.value.rv < |w.lease|
    && w.lease[w.leaseSeen.value.rv] == LeaseVersion("", true)
  }

  ghost predicate LeaseClear(start: World, w: World) {
    && !w.guard.running
    && Stale(w)
    && LastOwn(w.lease) == ""
    && ((forall k | |start.lease| <= k < |w.lease| :: !w.lease[k].mine) || ReadBackEmpty(w))
  }

  /** A world in which no earlier run has left anything behind. */
  ghost predicate Settled(w: World) {
    WF(w) && w.inflight == [] && TokensDead(w) && !w.guard.running && Stale(w) && LastOwn(w.lease) == ""
  }

  /** The promise of one run of `Execute` that began in `start` and ended in `w`. */
  ghost predicate Promise(c: Contract, start: World, w: World, status: Status) {
    && WF(w)
    && (!status.PartialManualInterventionRequired? ==> TokensDead(w) && LeaseClear(start, w))
    && (status.RolledBack? || status.BlockedPreflight? ==> !w.foreign ==> w.store == start.store && w.inflight == [])
    && (status.Applied? ==> w.inflight == [] && (!w.foreign ==> Complete(c, w.store) && Extends(start.store, w.store)))
    && (start.foreign ==> w.foreign)
    && start.known <= w.known
    && start.lease <= w.lease
    && (Complete(c, start.store) && !w.foreign ==>
          w.attempts == start.attempts && w.store == start.store && w.inflight == [])
  }

  /** The two gates at which a run may end without saying that it created the secret mount. */
  predicate Muting(g: Stop) {
    g == AtManagementTokenRevoke || g == AtExclusiveLeaseLost
  }

  /**
   The secret mount is all the run created, and revoking the token failed or the Lease was lost
   before the auth mount.
   */
  predicate Unreported(created: set<Path>, g: Stop) {
    created == {KvMount} && Muting(g)
  }

  /**
   What a report says about mutations, for a run whose writes at `created` were acknowledged or left open:
   it tells of them unless the run ended unreported, it never tells of a mutation when no write was sent,
   and a run that created nothing has left the store as it found it. Rolling back is only claimed for what was
   reported, and being applied only without a failed gate. The two gates speak the truth: at the
   one the guard has lost the Lease, at the other the management token is `unproven`, that is, its last
   revocation was attempted and not proved.
   */
  ghost predicate Told(start: World, w: World, created: set<Path>, unproven: bool, r: Report) {
    && (created != {} ==> (r.mutationPerformed <==> !Unreported(created, r.failedGate)))
    && (created != {} || r.mutationPerformed ==> |start.attempts| < |w.attempts|)
    && (r.rollbackAttempted ==> r.mutationPerformed)
    && (r.status.RolledBack? ==> r.rollbackAttempted)
    && (r.status.Applied? <==> r.failedGate == Clear)
    && (created == {} && !w.foreign ==> w.store == start.store && w.inflight == [])
    && (Unreported(created, r.failedGate) && !w.foreign ==> KvMount in w.store && KvMount !in start.store)
    && (r.failedGate == AtExclusiveLeaseLost ==> w.guard.lost)
    && (r.failedGate == AtManagementTokenRevoke ==> unproven)
  }

  /** A run that stopped before the end keeps the same promise, and does not claim to have applied anything. */
  ghost predicate Halted(c: Contract, start: World, w: World, status: Status) {
    Promise(c, start, w, status) && !status.Applied?
  }
}
