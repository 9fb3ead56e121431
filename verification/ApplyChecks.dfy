/**
 The executor's inspections of the server. They change nothing there; each of them says what
 was shown, and what that means if nobody else was writing.
 */
module ApplyChecks {
  import opened Options
  import opened OpenBaoWorld
  import opened OpenBaoClient
  import opened ApplyContract
  import opened ApplyOrders
  import opened ApplyEvidence

  /** Nobody has changed the store meanwhile. */
  ghost predicate Still(w: World, v: World) {
    !v.foreign && w.inflight == []
  }

  /** One more inspection after some others. */
  ghost predicate Follows(conn: Connection, start: World)
    reads conn
  {
    && WF(conn.w) && Reaches(start, conn.w) && (start.foreign ==> conn.w.foreign)
    && (conn.cooperative ==> conn.w == start)
    && (Still(start, conn.w) ==> conn.w.store == start.store)
  }

  lemma FollowsFurther(conn: Connection, start: World, mid: World)
    requires WF(start) && Reaches(start, mid) && Reaches(mid, conn.w) && (conn.cooperative ==> conn.w == mid == start)
    ensures Follows(conn, start) && (mid.foreign ==> conn.w.foreign)
  {
    ReachesEvolves(start, mid);
    ReachesTransitive(start, mid, conn.w);
    ReachesEvolves(start, conn.w);
    ReachesEvolves(mid, conn.w);
  }

  method Look(conn: Connection, t: Token, p: Path, ghost start: World) returns (r: ReadReply)
    requires WF(start) && Follows(conn, start)
    modifies conn`w, conn`view, conn`seen
    ensures Follows(conn, start) && (old(conn.w.foreign) ==> conn.w.foreign)
    ensures conn.view == old(conn.view).(shown := old(conn.view.shown)[p := r])
    ensures old(conn.seen) <= conn.seen && (r.Got? ==> Shown(Some(t), p, r.found) in conn.seen)
    ensures r.Got? ==> r.found == Get(conn.w.store, p)
    ensures conn.cooperative ==> r.Got?
  {
    r := conn.Read(Some(t), p);
    FollowsFurther(conn, start, old(conn.w));
  }

  /** Reads these paths one after the other. */
  method LookAll(conn: Connection, t: Token, ps: seq<Path>, ghost start: World) returns (rs: seq<ReadReply>)
    requires WF(start) && Follows(conn, start) && forall i, j | 0 <= i < j < |ps| :: ps[i] != ps[j]
    modifies conn`w, conn`view, conn`seen
    ensures Follows(conn, start) && (old(conn.w.foreign) ==> conn.w.foreign) && old(conn.seen) <= conn.seen
    ensures |rs| == |ps| && conn.view.roles == old(conn.view.roles)
    ensures forall i | 0 <= i < |ps| :: ps[i] in conn.view.shown && conn.view.shown[ps[i]] == rs[i]
    ensures forall q | q in old(conn.view.shown) && q !in ps ::
              q in conn.view.shown && conn.view.shown[q] == old(conn.view.shown)[q]
    ensures forall i | 0 <= i < |ps| && rs[i].Got? :: Shown(Some(t), ps[i], rs[i].found) in conn.seen
    ensures conn.cooperative || Still(start, conn.w) ==>
              forall i | 0 <= i < |ps| && rs[i].Got? :: rs[i].found == Get(start.store, ps[i])
    ensures conn.cooperative ==> forall i | 0 <= i < |ps| :: rs[i].Got?
  {
    rs := [];
    for n := 0 to |ps|
      invariant Follows(conn, start) && (old(conn.w.foreign) ==> conn.w.foreign) && old(conn.seen) <= conn.seen
      invariant |rs| == n && conn.view.roles == old(conn.view.roles)
      invariant forall i | 0 <= i < n :: ps[i] in conn.view.shown && conn.view.shown[ps[i]] == rs[i]
      invariant forall q | q in old(conn.view.shown) && q !in ps ::
                  q in conn.view.shown && conn.view.shown[q] == old(conn.view.shown)[q]
      invariant forall i | 0 <= i < n && rs[i].Got? :: Shown(Some(t), ps[i], rs[i].found) in conn.seen
      invariant conn.cooperative || Still(start, conn.w) ==>
                  forall i | 0 <= i < n && rs[i].Got? :: rs[i].found == Get(start.store, ps[i])
      invariant conn.cooperative ==> forall i | 0 <= i < n :: rs[i].Got?
    {
      var r := Look(conn, t, ps[n], start);
      rs := rs + [r];
    }
  }

  method LookAtRoles(conn: Connection, ghost start: World) returns (r: ListReply)
    requires WF(start) && Follows(conn, start)
    modifies conn`w, conn`view, conn`seen
    ensures Follows(conn, start) && (old(conn.w.foreign) ==> conn.w.foreign)
    ensures conn.view == old(conn.view).(roles := r)
    ensures old(conn.seen) <= conn.seen && (r.Listed? ==> RolesShown(r.names) in conn.seen)
    ensures r.Listed? && (conn.cooperative || Still(start, conn.w)) ==> r.names == RoleNames(start.store)
    ensures conn.cooperative ==> r.Listed?
  {
    r := conn.ListRoles();
    FollowsFurther(conn, start, old(conn.w));
  }

  /** Asks one question after the other, up to the first that is not affirmed; `n` counts those that were. */
  method AskAll(conn: Connection, qs: seq<Question>, ghost start: World) returns (n: nat)
    requires WF(start) && Follows(conn, start)
    modifies conn`w, conn`seen
    ensures Follows(conn, start) && (old(conn.w.foreign) ==> conn.w.foreign) && old(conn.seen) <= conn.seen
    ensures n <= |qs| && forall i | 0 <= i < n :: Affirmed(qs[i]) in conn.seen
    ensures conn.cooperative ==> n == |qs|
  {
    n := 0;
    while n < |qs|
      invariant Follows(conn, start) && (old(conn.w.foreign) ==> conn.w.foreign) && old(conn.seen) <= conn.seen
      invariant n <= |qs| && forall i | 0 <= i < n :: Affirmed(qs[i]) in conn.seen
    {
      ghost var before := conn.w;
      var ok := conn.Probe(qs[n]);
      FollowsFurther(conn, start, before);
      if !ok {
        return;
      }
      n := n + 1;
    }
  }

  method CapturePreState(conn: Connection, c: Contract, t: Token) returns (st: Option<PreState>)
    requires WF(conn.w)
    modifies conn`w, conn`view, conn`seen
    ensures Follows(conn, old(conn.w)) && old(conn.seen) <= conn.seen
    ensures st.Some? ==> Viewed(c, st.value, conn.view) && Captured(c, t, st.value, conn.seen)
    ensures st.Some? && Still(old(conn.w), conn.w) ==> st.value == Snapshot(c, old(conn.w.store))
    ensures conn.cooperative ==> st.Some? && st.value == Snapshot(c, old(conn.w.store))
  {
    ghost var start := conn.w;
    ReachesItself(start);
    st := CaptureReads(conn, c, t, start);
    if st.None? {
      return;
    }
    var seed := CaptureSeed(conn, t, st.value.metadata, start);
    st := if seed.Some? then Some(st.value.(seed := seed.value)) else None;
  }

  method CaptureReads(conn: Connection, c: Contract, t: Token, ghost start: World) returns (st: Option<PreState>)
    requires WF(start) && Follows(conn, start)
    modifies conn`w, conn`view, conn`seen
    ensures Follows(conn, start) && (old(conn.w.foreign) ==> conn.w.foreign) && old(conn.seen) <= conn.seen
    ensures st.Some? ==> Viewed(c, st.value, conn.view) && ReadsCaptured(c, t, st.value, conn.seen)
    ensures st.Some? && (conn.cooperative || Still(start, conn.w)) ==>
              st.value == Snapshot(c, start.store).(seed := None)
    ensures conn.cooperative ==> st.Some?
  {
    var above := LookAll(conn, t, [AuthMount, AuthConfig], start);
    var roles := LookAtRoles(conn, start);
    var rest := LookAll(conn, t, [KvMount, c.Policy(), c.Role(), Seed], start);
    if above[0].Unreadable? || above[1].Unreadable? || roles.Unlistable? || rest[0].Unreadable? ||
       rest[1].Unreadable? || rest[2].Unreadable? || rest[3].Unreadable? {
      return None;
    }
    st := Some(PreState(above[0].found, above[1].found, roles.names, rest[0].found, rest[1].found, rest[2].found,
                        rest[3].found, None));
  }

  method CaptureSeed(conn: Connection, t: Token, metadata: Option<Object>, ghost start: World)
    returns (seed: Option<Option<Object>>)
    requires WF(start) && Follows(conn, start)
    modifies conn`w, conn`view, conn`seen
    ensures Follows(conn, start) && (old(conn.w.foreign) ==> conn.w.foreign) && old(conn.seen) <= conn.seen
    ensures metadata.None? ==> conn.view == old(conn.view)
    ensures conn.view.roles == old(conn.view.roles)
    ensures forall q | q in old(conn.view.shown) && q != Seed ::
              q in conn.view.shown && conn.view.shown[q] == old(conn.view.shown)[q]
    ensures seed.Some? ==> SeedCaptured(t, metadata, seed.value, conn.seen)
    ensures seed.Some? && (conn.cooperative || Still(start, conn.w)) && metadata == Get(start.store, Seed) ==>
              seed.value == SeedData(metadata)
    ensures conn.cooperative ==> seed.Some?
  {
    if metadata.None? {
      return Some(None);
    }
    var data := Look(conn, t, Seed, start);
    seed := if data.Got? then Some(SeedData(data.found)) else None;
  }

  /** Nothing of the contract is there, the secret mount aside. */
  predicate NothingThere(c: Contract, s: Store) {
    && AuthMount !in s && AuthConfig !in s && RoleNames(s) == {}
    && c.Policy() !in s && c.Role() !in s && Seed !in s
  }

  /** Nothing but an exact secret mount is there. */
  method MountPrestateStillAbsent(conn: Connection, c: Contract, t: Token) returns (b: bool)
    requires WF(conn.w)
    modifies conn`w, conn`view, conn`seen
    ensures Follows(conn, old(conn.w)) && old(conn.seen) <= conn.seen
    ensures b ==> ExactKvV2Mount(c, Get(conn.w.store, KvMount)) && forall own :: Guarded(c, own, AuthMount, conn.view)
    ensures b ==> ExactlyShown(c, t, KvMount, conn.seen)
    ensures b && Still(old(conn.w), conn.w) ==>
              NothingThere(c, old(conn.w.store)) && ExactKvV2Mount(c, Get(old(conn.w.store), KvMount))
    ensures conn.cooperative && NothingThere(c, conn.w.store) && ExactKvV2Mount(c, Get(conn.w.store, KvMount)) ==> b
  {
    ghost var start := conn.w;
    ReachesItself(start);
    b := NothingInstalled(conn, c, t, start);
    if !b {
      return;
    }
    var kvMount := Look(conn, t, KvMount, start);
    b := kvMount.Got? && ExactKvV2Mount(c, kvMount.found);
  }

  method NothingInstalled(conn: Connection, c: Contract, t: Token, ghost start: World) returns (b: bool)
    requires WF(start) && Follows(conn, start)
    modifies conn`w, conn`view, conn`seen
    ensures Follows(conn, start) && old(conn.seen) <= conn.seen
    ensures b ==> EmptyShown(c, conn.view)
    ensures b && Still(start, conn.w) ==> NothingThere(c, start.store)
    ensures conn.cooperative && NothingThere(c, start.store) ==> b
  {
    var above := LookAll(conn, t, [AuthMount, AuthConfig], start);
    var roles := LookAtRoles(conn, start);
    var below := LookAll(conn, t, [c.Policy(), c.Role(), Seed], start);
    b := && above[0] == Got(None) && above[1] == Got(None) && roles == Listed({})
         && below[0] == Got(None) && below[1] == Got(None) && below[2] == Got(None);
  }

  /** A secret mount that this run created is exact and has the uuid and accessor it was read back with. */
  predicate KvMountOwned(c: Contract, s: Store, m: MutationState) {
    m.kvMountCreated ==>
      && ExactKvV2Mount(c, Get(s, KvMount))
      && s[KvMount].uuid == m.kvMountUUID && s[KvMount].accessor == m.kvMountAccessor
  }

  /** The secret mount on the server, whoever else has written to it, is exact and the one this run created. */
  method KvMountStillOwned(conn: Connection, c: Contract, t: Token, m: MutationState) returns (b: bool)
    requires WF(conn.w)
    modifies conn`w, conn`view, conn`seen
    ensures Follows(conn, old(conn.w)) && old(conn.seen) <= conn.seen
    ensures b ==> KvMountOwned(c, conn.w.store, m)
    ensures b && m.kvMountCreated ==>
              && ShowsExact(c, conn.view, KvMount)
              && conn.view.shown[KvMount].found.value.uuid == m.kvMountUUID
              && conn.view.shown[KvMount].found.value.accessor == m.kvMountAccessor
    ensures conn.cooperative ==> (KvMountOwned(c, conn.w.store, m) ==> b)
  {
    ghost var start := conn.w;
    ReachesItself(start);
    if !m.kvMountCreated {
      return true;
    }
    var mount := Look(conn, t, KvMount, start);
    b := && mount.Got?
         && ExactKvV2Mount(c, mount.found)
         && mount.found.value.uuid == m.kvMountUUID
         && mount.found.value.accessor == m.kvMountAccessor;
  }

  /** What both mounts must look like before something is written below them. */
  ghost predicate MountsOwned(c: Contract, s: Store, m: MutationState) {
    && ExactKvV2Mount(c, Get(s, KvMount)) && ExactMount(c, Get(s, AuthMount)) && ExactConfig(c, Get(s, AuthConfig))
    && NoForeignRoles(c, RoleNames(s))
    && (m.mountCreated ==> s[AuthMount].uuid == m.mountUUID && s[AuthMount].accessor == m.mountAccessor)
    && (m.kvMountCreated ==> s[KvMount].uuid == m.kvMountUUID && s[KvMount].accessor == m.kvMountAccessor)
  }

  /** The same of what the latest reads showed. */
  ghost predicate MountsOwnedShown(c: Contract, v: View, m: MutationState) {
    && ShowsExact(c, v, KvMount) && ShowsExact(c, v, AuthMount) && ShowsExact(c, v, AuthConfig)
    && v.roles.Listed? && NoForeignRoles(c, v.roles.names)
    && (m.mountCreated ==> v.shown[AuthMount].found.value.uuid == m.mountUUID &&
                           v.shown[AuthMount].found.value.accessor == m.mountAccessor)
    && (m.kvMountCreated ==> v.shown[KvMount].found.value.uuid == m.kvMountUUID &&
                             v.shown[KvMount].found.value.accessor == m.kvMountAccessor)
  }

  /** Both mounts are exact, and the ones this run created are still the same objects, whoever else has written. */
  method AuthMountStillOwned(conn: Connection, c: Contract, t: Token, m: MutationState) returns (b: bool)
    requires WF(conn.w)
    modifies conn`w, conn`view, conn`seen
    ensures Follows(conn, old(conn.w)) && old(conn.seen) <= conn.seen
    ensures b ==> MountsOwnedShown(c, conn.view, m)
    ensures b && Still(old(conn.w), conn.w) ==> MountsOwned(c, old(conn.w.store), m)
    ensures conn.cooperative ==> (MountsOwned(c, old(conn.w.store), m) ==> b)
  {
    ghost var start := conn.w;
    ReachesItself(start);
    var above := LookAll(conn, t, [AuthMount, AuthConfig], start);
    var mount, config := above[0], above[1];
    var roles := LookAtRoles(conn, start);
    var kvMount := Look(conn, t, KvMount, start);
    if mount.Unreadable? || config.Unreadable? || roles.Unlistable? || kvMount.Unreadable? ||
       !ExactMount(c, mount.found) || !ExactConfig(c, config.found) || !NoForeignRoles(c, roles.names) ||
       !ExactKvV2Mount(c, kvMount.found) {
      return false;
    }
    if m.mountCreated && (mount.found.value.uuid != m.mountUUID || mount.found.value.accessor != m.mountAccessor) {
      return false;
    }
    if m.kvMountCreated &&
       (kvMount.found.value.uuid != m.kvMountUUID || kvMount.found.value.accessor != m.kvMountAccessor) {
      return false;
    }
    b := true;
  }

  /** The checks repeated before a write below the two mounts. */
  method PrewriteReadback(conn: Connection, c: Contract, t: Token, m: MutationState, p: Path, prior: Option<Object>)
    returns (b: bool)
    requires WF(conn.w) && Late(p)
    modifies conn`w, conn`view, conn`seen
    ensures Follows(conn, old(conn.w)) && old(conn.seen) <= conn.seen
    ensures b ==> MountsOwnedShown(c, conn.view, m) && p in conn.view.shown && conn.view.shown[p] == Got(prior)
    ensures b && Still(old(conn.w), conn.w) ==>
              MountsOwned(c, old(conn.w.store), m) && Get(old(conn.w.store), p) == prior
    ensures old(conn.w.guard.lost) ==> !b
    ensures conn.cooperative && !conn.w.guard.lost ==>
              MountsOwned(c, conn.w.store, m) && Get(conn.w.store, p) == prior ==> b
  {
    ghost var start := conn.w;
    ReachesItself(start);
    if conn.w.guard.lost {
      return false;
    }
    b := AuthMountStillOwned(conn, c, t, m);
    if b {
      var current := Look(conn, t, p, start);
      b := current == Got(prior);
    }
  }

  method ConfigStillAbsent(conn: Connection, t: Token) returns (b: bool)
    requires WF(conn.w)
    modifies conn`w, conn`view, conn`seen
    ensures Follows(conn, old(conn.w)) && old(conn.seen) <= conn.seen
    ensures b ==> ShowsNothing(conn.view, AuthConfig) && conn.view.roles == Listed({})
    ensures b && Still(old(conn.w), conn.w) ==> AuthConfig !in old(conn.w.store) && RoleNames(old(conn.w.store)) == {}
    ensures conn.cooperative && AuthConfig !in old(conn.w.store) && RoleNames(old(conn.w.store)) == {} ==> b
  {
    ghost var start := conn.w;
    ReachesItself(start);
    var config := Look(conn, t, AuthConfig, start);
    var roles := LookAtRoles(conn, start);
    b := config == Got(None) && roles == Listed({});
  }

  // ---------------------------------------------------------------------------
  // Before a removal

  /** What was shown of the secret mount is still what was shown last. */
  ghost predicate SameSecretMount(v: View, w: View) {
    KvMount in v.shown ==> KvMount in w.shown && w.shown[KvMount] == v.shown[KvMount]
  }

  method RoleRemovable(conn: Connection, c: Contract, t: Token) returns (b: bool)
    requires WF(conn.w)
    modifies conn`w, conn`view, conn`seen
    ensures Follows(conn, old(conn.w)) && old(conn.seen) <= conn.seen
    ensures SameSecretMount(old(conn.view), conn.view)
    ensures b ==> ShowsExact(c, conn.view, c.Role())
    ensures b && Still(old(conn.w), conn.w) ==> ExactRole(c, Get(old(conn.w.store), c.Role()))
    ensures conn.cooperative ==> (ExactRole(c, Get(conn.w.store, c.Role())) ==> b)
  {
    ghost var start := conn.w;
    ReachesItself(start);
    var role := Look(conn, t, c.Role(), start);
    b := role.Got? && ExactRole(c, role.found);
  }

  predicate PolicyOwned(c: Contract, s: Store, m: MutationState) {
    && ExactPolicy(c, Get(s, c.Policy()))
    && s[c.Policy()].version == m.policyVersion && s[c.Policy()].modified == m.policyModified
  }

  method PolicyRemovable(conn: Connection, c: Contract, t: Token, m: MutationState) returns (b: bool)
    requires WF(conn.w)
    modifies conn`w, conn`view, conn`seen
    ensures Follows(conn, old(conn.w)) && old(conn.seen) <= conn.seen
    ensures SameSecretMount(old(conn.view), conn.view)
    ensures b ==>
              && ShowsExact(c, conn.view, c.Policy())
              && conn.view.shown[c.Policy()].found.value.version == m.policyVersion
              && conn.view.shown[c.Policy()].found.value.modified == m.policyModified
    ensures conn.cooperative ==> (PolicyOwned(c, conn.w.store, m) ==> b)
  {
    ghost var start := conn.w;
    ReachesItself(start);
    var policy := Look(conn, t, c.Policy(), start);
    b := && policy.Got? && ExactPolicy(c, policy.found)
         && policy.found.value.version == m.policyVersion && policy.found.value.modified == m.policyModified;
  }

  /** The auth mount is the one this run created, with nothing below it but its own configuration. */
  predicate MountOwned(c: Contract, s: Store, m: MutationState) {
    && ExactMount(c, Get(s, AuthMount))
    && s[AuthMount].uuid == m.mountUUID && s[AuthMount].accessor == m.mountAccessor
    && (AuthConfig in s ==> ExactConfig(c, Get(s, AuthConfig))) && RoleNames(s) == {}
  }

  method MountRemovable(conn: Connection, c: Contract, t: Token, m: MutationState) returns (b: bool)
    requires WF(conn.w)
    modifies conn`w, conn`view, conn`seen
    ensures Follows(conn, old(conn.w)) && old(conn.seen) <= conn.seen
    ensures SameSecretMount(old(conn.view), conn.view)
    ensures b ==>
              && ShowsExact(c, conn.view, AuthMount)
              && conn.view.shown[AuthMount].found.value.uuid == m.mountUUID
              && conn.view.shown[AuthMount].found.value.accessor == m.mountAccessor
              && (ShowsNothing(conn.view, AuthConfig) || ShowsExact(c, conn.view, AuthConfig))
              && conn.view.roles == Listed({})
    ensures b && Still(old(conn.w), conn.w) ==> RoleNames(old(conn.w.store)) == {}
    ensures conn.cooperative ==> (MountOwned(c, conn.w.store, m) ==> b)
  {
    ghost var start := conn.w;
    ReachesItself(start);
    var above := LookAll(conn, t, [AuthMount, AuthConfig], start);
    var mount, config := above[0], above[1];
    var roles := LookAtRoles(conn, start);
    b := && mount.Got? && config.Got? && roles.Listed? && ExactMount(c, mount.found)
         && mount.found.value.uuid == m.mountUUID && mount.found.value.accessor == m.mountAccessor
         && (config.found.None? || ExactConfig(c, config.found)) && roles.names == {};
  }

  // ---------------------------------------------------------------------------
  // Tokens

  /**
   Self-revocation, proved by a later denial. The lookup comes first because a denial only
   means that the token is dead if the same token was allowed to look itself up before.
   */
  method RevokeAndProve(conn: Connection, t: Token, cancelled: bool) returns (proven: bool)
    requires WF(conn.w)
    modifies conn`w, conn`seen
    ensures WF(conn.w) && Reaches(old(conn.w), conn.w) && old(conn.seen) <= conn.seen
    ensures proven ==> t !in conn.w.live && Denied(t) in conn.seen
    ensures conn.cooperative ==>
              conn.w == if proven then old(conn.w).(live := old(conn.w.live) - {t}) else old(conn.w)
    ensures conn.cooperative && !cancelled && t in old(conn.w.live) && t.mayLookup ==> proven
  {
    ghost var start := conn.w;
    ReachesItself(start);
    if cancelled {
      return false;
    }
    var facts := conn.LookupSelf(t);
    ghost var first := conn.w;
    if facts.None? {
      return false;
    }
    conn.RevokeSelf(t);
    ghost var second := conn.w;
    ReachesTransitive(start, first, second);
    proven := conn.ExpectForbidden(t);
    ReachesTransitive(start, second, conn.w);
    assert proven ==> t !in conn.w.live by {
      ReachesEvolves(first, second);
      ReachesEvolves(second, conn.w);
    }
  }

  /** What the workload token may read, and what it must not; `Clear`, or the gate that failed. */
  method ProbeWorkload(conn: Connection, c: Contract, workload: Token) returns (gate: Stop)
    requires WF(conn.w)
    modifies conn`w, conn`view, conn`seen
    ensures Follows(conn, old(conn.w)) && old(conn.seen) <= conn.seen
    ensures gate == Clear || WorkloadGate(gate)
    ensures gate == Clear ==>
              && {Affirmed(ExactLogin(workload)), Affirmed(WorkloadCapabilities(workload)),
                  Affirmed(SiblingDenied(workload)), Affirmed(MetadataDenied(workload))} <= conn.seen
              && exists o :: Shown(Some(workload), Seed, o) in conn.seen && ExactSeedData(c, SeedData(o))
    ensures conn.cooperative && ExactSeedData(c, SeedData(Get(conn.w.store, Seed))) ==> gate == Clear
  {
    ghost var start := conn.w;
    ReachesItself(start);
    var q := [ExactLogin(workload)];
    var n := AskAll(conn, q, start);
    if n == 0 {
      return AtPositiveLogin;
    }
    assert Affirmed(q[0]) in conn.seen;
    var seed := Look(conn, workload, Seed, start);
    if seed.Unreadable? || !ExactSeedData(c, SeedData(seed.found)) {
      return AtAllowedDataRead;
    }
    var qs := [WorkloadCapabilities(workload), SiblingDenied(workload), MetadataDenied(workload)];
    n := AskAll(conn, qs, start);
    gate := if n == 0 then AtWorkloadCapabilityBoundary else if n == 1 then AtSiblingPathDenial
            else if n == 2 then AtMetadataDenial else Clear;
    assert n == 3 ==> qs[0] == WorkloadCapabilities(workload) && Affirmed(qs[0]) in conn.seen &&
                      Affirmed(qs[1]) in conn.seen && Affirmed(qs[2]) in conn.seen;
  }
}
