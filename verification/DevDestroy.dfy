/**
 Journalled destruction of a development installation: every target's identity and the
 destroying phase are on disk before its DELETE is sent, the Namespace goes last, and
 zero residue is only reported after everything was seen absent.
 */
module DevDestroy {
  import opened Options
  import opened Cluster

  datatype OwnedObject = OwnedObject(ref: Ref, uid: string)

  datatype OwnedVolume = OwnedVolume(pv: Ref, pvUid: string, claimUid: string, handle: string, backend: Ref,
                                     backendUid: string)

  datatype Phase = Prepared | Creating | Ready | Destroying

  datatype Journal = Journal(phase: Phase, objects: seq<OwnedObject>, derived: seq<OwnedObject>,
                             volumes: seq<OwnedVolume>)

  /**
   What the engine did or saw: an object that was absent, a DELETE with the journal on disk when it was sent, the
   inventory of the namespace, a PersistentVolume that a claim is bound to, the PersistentVolumes of the cluster,
   and the Longhorn volumes of a name.
   */
  datatype Entry =
    | Absent(ref: Ref)
    | Sent(ref: Ref, uid: string, disk: Journal)
    | Inventoried(items: seq<Live>)
    | Saw(ref: Ref, live: Live)
    | Volumes(items: seq<Live>)
    | Backends(name: string, items: seq<Live>)

  /**
   What a run answers for: the journal it must not forget, the DELETEs that earlier runs have sent, and the
   journal that was on disk when the destroying phase had been saved, once it was, with the log up to then.
   */
  datatype Origin = Origin(journal: Journal, issued: seq<(Ref, string)>, saved: Option<Journal>, before: seq<Entry>)

  datatype Report = Report(ok: bool, zeroOwnedResidue: bool)

  const MAX_VOLUMES := 4
  const MAX_DERIVED := 256

  /** Everything except the Namespace and the PriorityClass goes before the Namespace. */
  predicate GoesFirst(ref: Ref) {
    !ref.kind.Namespace? && !ref.kind.PriorityClass?
  }

  predicate GoesLast(ref: Ref) {
    ref.kind.PriorityClass?
  }

  /** The ownership check on an object that was read; the UID is compared when the journal knows one. */
  predicate ReadOwned(live: Live, owned: OwnedObject, marks: Marks) {
    live.self == owned.ref && live.uid != "" && (owned.uid != "" ==> live.uid == owned.uid) && live.marks == marks
  }

  /** How the journal finds the entry of an object: by everything but its kind. */
  predicate SameSlot(a: Ref, b: Ref) {
    a.apiVersion == b.apiVersion && a.resource == b.resource && a.name == b.name && a.namespace == b.namespace
  }

  function OwnedBy(l: Live): OwnedObject {
    OwnedObject(l.self, l.uid)
  }

  /** Where the PersistentVolume of a bound claim is. */
  function VolumeOf(l: Live): Ref {
    Ref("v1", PersistentVolume, "persistentvolumes", "", l.volumeName)
  }

  predicate Bound(l: Live) {
    l.self.kind.PersistentVolumeClaim? && l.volumeName != ""
  }

  predicate IsClaim(o: OwnedObject, namespace: string) {
    o.ref.kind.PersistentVolumeClaim? && o.ref.namespace == namespace
  }

  // ---------------------------------------------------------------------------
  // What the log must show

  /** The identity and the phase were on disk before the DELETE was sent. */
  ghost predicate Journalled(e: Entry) {
    e.Sent? ==> e.disk.phase.Destroying? && OwnedObject(e.ref, e.uid) in e.disk.objects
  }

  /** Nothing was deleted since. */
  ghost predicate Unsent(before: seq<Entry>, after: seq<Entry>) {
    before <= after && forall k | |before| <= k < |after| :: !after[k].Sent?
  }

  /** The namespace was not listed since. */
  ghost predicate Unlisted(before: seq<Entry>, after: seq<Entry>) {
    before <= after && forall k | |before| <= k < |after| :: !after[k].Inventoried?
  }

  ghost predicate Calm(before: seq<Entry>, after: seq<Entry>) {
    Unsent(before, after) && Unlisted(before, after)
  }

  lemma CalmTransitive(a: seq<Entry>, b: seq<Entry>, c: seq<Entry>)
    requires Calm(a, b) && Calm(b, c)
    ensures Calm(a, c)
  {
    forall k | |a| <= k < |c|
      ensures !c[k].Sent? && !c[k].Inventoried?
    {
      if k < |b| {
        assert c[k] == b[k];
      }
    }
  }

  lemma CalmOne(a: seq<Entry>, e: Entry)
    requires !e.Sent? && !e.Inventoried?
    ensures Calm(a, a + [e])
  {
  }

  lemma CalmAbsences(a: seq<Entry>, saw: seq<Entry>)
    requires forall e | e in saw :: e.Absent?
    ensures Calm(a, a + saw)
  {
    forall k | |a| <= k < |a + saw|
      ensures (a + saw)[k].Absent?
    {
      assert saw[k - |a|] in saw;
    }
  }

  /** The volume of a bound claim is recorded as it was seen. */
  ghost predicate VolumeRecorded(l: Live, volumes: seq<OwnedVolume>, log: seq<Entry>) {
    exists v, pv | v in volumes && Saw(VolumeOf(l), pv) in log ::
      v.pvUid == pv.uid && v.claimUid == l.uid && v.handle == pv.handle
  }

  /** What was listed is in the journal, with its volume if it is a bound claim. */
  ghost predicate Covered(l: Live, j: Journal, log: seq<Entry>) {
    Key(OwnedBy(l)) in Keys(j.derived) && (Bound(l) ==> VolumeRecorded(l, j.volumes, log))
  }

  ghost predicate AllCovered(items: seq<Live>, j: Journal, log: seq<Entry>) {
    forall i | 0 <= i < |items| :: Covered(items[i], j, log)
  }

  /** Everything that was ever listed is in the journal. */
  ghost predicate Stocked(log: seq<Entry>, j: Journal) {
    forall k | 0 <= k < |log| && log[k].Inventoried? :: AllCovered(log[k].items, j, log)
  }

  /** The namespace was listed, and nothing was deleted since. */
  ghost predicate JustListed(log: seq<Entry>) {
    exists k | 0 <= k < |log| :: log[k].Inventoried? && forall i | k < i < |log| :: !log[i].Sent?
  }

  lemma {:induction false} VolumeRecordedLater(l: Live, vs: seq<OwnedVolume>, ws: seq<OwnedVolume>, log: seq<Entry>,
                                               later: seq<Entry>)
    requires VolumeRecorded(l, vs, log) && vs <= ws && log <= later
    ensures VolumeRecorded(l, ws, later)
  {
    var v, pv :| v in vs && Saw(VolumeOf(l), pv) in log && v.pvUid == pv.uid && v.claimUid == l.uid &&
      v.handle == pv.handle;
    var i :| 0 <= i < |vs| && vs[i] == v;
    assert ws[i] == v;
    var n :| 0 <= n < |log| && log[n] == Saw(VolumeOf(l), pv);
    assert later[n] == Saw(VolumeOf(l), pv);
  }

  lemma {:induction false} CoveredLater(l: Live, j: Journal, log: seq<Entry>, later: seq<Entry>, k: Journal)
    requires Covered(l, j, log) && log <= later && j.derived <= k.derived && j.volumes <= k.volumes
    ensures Covered(l, k, later)
  {
    forall o | o in j.derived
      ensures o in k.derived
    {
      var i :| 0 <= i < |j.derived| && j.derived[i] == o;
      assert k.derived[i] == o;
    }
    if Bound(l) {
      VolumeRecordedLater(l, j.volumes, k.volumes, log, later);
    }
  }

  /** What was covered stays so, and what was not listed need not be. */
  lemma {:induction false} StockedLater(log: seq<Entry>, later: seq<Entry>, j: Journal, k: Journal)
    requires Stocked(log, j) && Unlisted(log, later) && j.derived <= k.derived && j.volumes <= k.volumes
    ensures Stocked(later, k)
  {
    forall n, i | 0 <= n < |later| && later[n].Inventoried? && 0 <= i < |later[n].items|
      ensures Covered(later[n].items[i], k, later)
    {
      assert n < |log| && later[n] == log[n];
      CoveredLater(log[n].items[i], j, log, later, k);
    }
  }

  /** One more listing, once all of it is covered. */
  lemma {:induction false} StockedListing(log: seq<Entry>, later: seq<Entry>, items: seq<Live>, j: Journal, k: Journal)
    requires Stocked(log, j) && Calm(log + [Inventoried(items)], later) && AllCovered(items, k, later)
    requires j.derived <= k.derived && j.volumes <= k.volumes
    ensures Stocked(later, k) && JustListed(later) && Unsent(log, later)
  {
    var listed := log + [Inventoried(items)];
    forall n, i | 0 <= n < |later| && later[n].Inventoried? && 0 <= i < |later[n].items|
      ensures Covered(later[n].items[i], k, later)
    {
      assert n < |listed| && later[n] == listed[n];
      if n < |log| {
        assert later[n] == log[n];
        CoveredLater(log[n].items[i], j, log, later, k);
      }
    }
    assert later[|log|] == listed[|log|] == Inventoried(items);
  }

  lemma UnsentListing(log: seq<Entry>, later: seq<Entry>, items: seq<Live>)
    requires Calm(log + [Inventoried(items)], later)
    ensures Unsent(log, later)
  {
    var listed := log + [Inventoried(items)];
    forall k | |log| <= k < |later|
      ensures !later[k].Sent?
    {
      if k < |listed| {
        assert later[k] == listed[k];
      }
    }
  }

  lemma {:induction false} JustListedLater(log: seq<Entry>, later: seq<Entry>)
    requires JustListed(log) && Unsent(log, later)
    ensures JustListed(later)
  {
    var k :| 0 <= k < |log| && log[k].Inventoried? && forall i | k < i < |log| :: !log[i].Sent?;
    assert later[k] == log[k];
  }

  /**
   When an object may be deleted. What goes first goes newest first; a Namespace only after all of that was seen
   absent, and after a listing of it since when nothing was deleted; a PriorityClass only when the Namespace was
   seen absent, too.
   */
  ghost predicate InTurn(os: seq<OwnedObject>, ref: Ref, log: seq<Entry>) {
    match ref.kind
    case Namespace => FirstAbsent(os, log) && JustListed(log)
    case PriorityClass => LastTurn(os, log)
    case _ => NewerAbsent(os, ref, log)
  }

  /** What goes first and was journalled after this object was seen absent. */
  ghost predicate NewerAbsent(os: seq<OwnedObject>, ref: Ref, log: seq<Entry>) {
    forall i, j | 0 <= i < j < |os| && os[i].ref == ref && GoesFirst(os[j].ref) :: Absent(os[j].ref) in log
  }

  ghost predicate LastTurn(os: seq<OwnedObject>, log: seq<Entry>) {
    FirstAbsent(os, log) && NamespaceMissing(os, log)
  }

  ghost predicate NamespaceMissing(os: seq<OwnedObject>, log: seq<Entry>) {
    || (exists o | o in os && o.ref.kind.Namespace? :: Absent(o.ref) in log)
    || (forall o | o in os :: !o.ref.kind.Namespace?)
  }

  ghost predicate DeletedInTurn(log: seq<Entry>, k: nat)
    requires k < |log|
  {
    log[k].Sent? ==> InTurn(log[k].disk.objects, log[k].ref, log[..k])
  }

  /** Whatever was listed was on disk before the next DELETE was sent. */
  ghost predicate ListedOnDisk(log: seq<Entry>, k: nat)
    requires k < |log|
  {
    log[k].Sent? ==> Stocked(log[..k], log[k].disk)
  }

  /** Everything that goes before the Namespace was seen absent. */
  ghost predicate FirstAbsent(os: seq<OwnedObject>, log: seq<Entry>) {
    forall o | o in os && GoesFirst(o.ref) :: Absent(o.ref) in log
  }

  /** The same of the entries from `i` on. */
  ghost predicate AbsentFrom(os: seq<OwnedObject>, i: nat, log: seq<Entry>) {
    forall j | i <= j < |os| && GoesFirst(os[j].ref) :: Absent(os[j].ref) in log
  }

  lemma {:induction false} AllAbsent(os: seq<OwnedObject>, log: seq<Entry>)
    requires AbsentFrom(os, 0, log)
    ensures FirstAbsent(os, log)
  {
  }

  /** If these entries hold a UID for this name, this is it. */
  ghost predicate Pinned(held: seq<OwnedObject>, owned: OwnedObject) {
    forall o | o in held && o.ref == owned.ref && o.uid != "" :: o.uid == owned.uid
  }

  /** A DELETE carries the UID that these entries hold, whenever they hold one. */
  ghost predicate HeldUid(held: seq<OwnedObject>, e: Entry) {
    e.Sent? ==> Pinned(held, OwnedObject(e.ref, e.uid))
  }

  ghost predicate LogOk(held: seq<OwnedObject>, log: seq<Entry>) {
    forall k | 0 <= k < |log| :: EntryOk(held, log, k)
  }

  ghost predicate EntryOk(held: seq<OwnedObject>, log: seq<Entry>, k: nat)
    requires k < |log|
  {
    Journalled(log[k]) && HeldUid(held, log[k]) && DeletedInTurn(log, k) && ListedOnDisk(log, k)
  }

  lemma LogAppend(held: seq<OwnedObject>, log: seq<Entry>, e: Entry)
    requires LogOk(held, log) && Journalled(e) && HeldUid(held, e)
    requires e.Sent? ==> Stocked(log, e.disk)
    requires e.Sent? ==> InTurn(e.disk.objects, e.ref, log)
    ensures LogOk(held, log + [e])
  {
    var l := log + [e];
    forall k | 0 <= k < |l|
      ensures EntryOk(held, l, k)
    {
      if k < |log| {
        assert l[..k] == log[..k];
        assert EntryOk(held, log, k);
      } else {
        assert l[..k] == log;
      }
    }
  }

  /** The targets of the DELETEs the log shows. */
  ghost function Targets(log: seq<Entry>): seq<(Ref, string)> {
    if log == [] then []
    else
      var e := log[|log| - 1];
      Targets(log[..|log| - 1]) + if e.Sent? then [(e.ref, e.uid)] else []
  }

  /**
   The log is in order and shows exactly the DELETEs that the server was sent since the start; none was
   before the destroying phase had been saved.
   */
  ghost predicate Honest(origin: Origin, log: seq<Entry>, issued: seq<(Ref, string)>) {
    && LogOk(origin.journal.objects, log)
    && issued == origin.issued + Targets(log)
    && (origin.saved.None? ==> Targets(log) == [])
  }

  lemma HonestAppend(origin: Origin, log: seq<Entry>, issued: seq<(Ref, string)>, e: Entry)
    requires Honest(origin, log, issued) && Journalled(e) && HeldUid(origin.journal.objects, e)
    requires e.Sent? ==> origin.saved.Some?
    requires e.Sent? ==> Stocked(log, e.disk)
    requires e.Sent? ==> InTurn(e.disk.objects, e.ref, log)
    ensures Honest(origin, log + [e], if e.Sent? then issued + [(e.ref, e.uid)] else issued)
  {
    LogAppend(origin.journal.objects, log, e);
    assert (log + [e])[..|log|] == log;
  }

  /** The entries of a saved journal, with each Namespace as the copy of it was made at the start. */
  ghost function Anchor(start: seq<OwnedObject>, saved: seq<OwnedObject>): (os: seq<OwnedObject>)
    requires |start| == |saved|
    ensures |os| == |start|
  {
    seq(|start|, i requires 0 <= i < |start| => if start[i].ref.kind.Namespace? then start[i] else saved[i])
  }

  lemma {:induction false} NoTargets(log: seq<Entry>, k: nat)
    requires Targets(log) == [] && k < |log|
    ensures !log[k].Sent?
  {
    var n := |log| - 1;
    if k < n {
      assert log[..n][k] == log[k];
      NoTargets(log[..n], k);
    }
  }

  /** While nothing was sent, a log is in order for any entries. */
  lemma {:induction false} NothingSent(log: seq<Entry>, held: seq<OwnedObject>)
    requires Targets(log) == []
    ensures LogOk(held, log)
  {
    forall k | 0 <= k < |log|
      ensures !log[k].Sent?
    {
      NoTargets(log, k);
    }
  }

  /** What is pinned by later entries is pinned by the earlier ones they are loyal to. */
  lemma {:induction false} LogOkEarlier(start: seq<OwnedObject>, held: seq<OwnedObject>, log: seq<Entry>)
    requires Loyal(start, held) && LogOk(held, log)
    ensures LogOk(start, log)
  {
    forall k | 0 <= k < |log|
      ensures EntryOk(start, log, k)
    {
      assert EntryOk(held, log, k);
      forall o | o in start && o.uid != ""
        ensures o in held
      {
        HeldEntry(start, held, o);
      }
    }
  }

  /** Only a DELETE of a Namespace may carry another UID than these entries hold. */
  ghost predicate Steady(saved: seq<OwnedObject>, log: seq<Entry>) {
    forall e | e in log && e.Sent? && !e.ref.kind.Namespace? :: Pinned(saved, OwnedObject(e.ref, e.uid))
  }

  lemma {:induction false} AnchorSteady(start: seq<OwnedObject>, saved: seq<OwnedObject>, log: seq<Entry>)
    requires Loyal(start, saved) && LogOk(Anchor(start, saved), log)
    ensures Steady(saved, log)
  {
    var held := Anchor(start, saved);
    forall e | e in log && e.Sent? && !e.ref.kind.Namespace?
      ensures Pinned(saved, OwnedObject(e.ref, e.uid))
    {
      var k :| 0 <= k < |log| && log[k] == e;
      assert EntryOk(held, log, k);
      forall o | o in saved && o.ref == e.ref
        ensures o in held
      {
        var i :| 0 <= i < |saved| && saved[i] == o;
        assert held[i] == o;
      }
    }
  }

  /** From `n` on nothing was deleted any more, and all of these were seen absent. */
  ghost predicate SeenGone(log: seq<Entry>, n: nat, refs: set<Ref>) {
    n <= |log| && (forall k | n <= k < |log| :: !log[k].Sent?) && forall r | r in refs :: Absent(r) in log[n..]
  }

  ghost function ObjectRefs(os: seq<OwnedObject>): set<Ref> {
    set o | o in os :: o.ref
  }

  ghost function Noted(gone: bool, ref: Ref): seq<Entry> {
    if gone then [Absent(ref)] else []
  }

  lemma NotedTwo(log: seq<Entry>, a: bool, r: Ref, b: bool, q: Ref)
    ensures log + Noted(a, r) + Noted(b, q) == log + (Noted(a, r) + Noted(b, q))
    ensures forall e | e in Noted(a, r) + Noted(b, q) :: e.Absent?
    ensures a && b ==> Absent(r) in Noted(a, r) + Noted(b, q) && Absent(q) in Noted(a, r) + Noted(b, q)
  {
  }

  ghost function Absences(os: seq<OwnedObject>): (es: seq<Entry>)
    ensures |es| == |os| && forall i | 0 <= i < |os| :: es[i] == Absent(os[i].ref)
  {
    seq(|os|, i requires 0 <= i < |os| => Absent(os[i].ref))
  }

  lemma AbsencesAppend(log: seq<Entry>, os: seq<OwnedObject>, i: nat)
    requires i < |os|
    ensures log + Absences(os[..i]) + [Absent(os[i].ref)] == log + Absences(os[..i + 1])
  {
    assert Absences(os[..i + 1]) == Absences(os[..i]) + [Absent(os[i].ref)];
  }

  lemma AllSwept(log: seq<Entry>, os: seq<OwnedObject>)
    ensures SeenGone(log + Absences(os), |log|, ObjectRefs(os))
  {
    var all := log + Absences(os);
    assert all[|log|..] == Absences(os);
    forall r | r in ObjectRefs(os)
      ensures Absent(r) in all[|log|..]
    {
      var i :| 0 <= i < |os| && os[i].ref == r;
      assert Absences(os)[i] == Absent(r);
    }
  }

  ghost function VolumeRefs(vs: seq<OwnedVolume>): set<Ref> {
    (set v | v in vs :: v.pv) + (set v | v in vs :: v.backend)
  }

  /** The journal's key of a derived object. */
  function Key(o: OwnedObject): (string, string, string) {
    (o.ref.apiVersion, o.ref.resource, o.uid)
  }

  datatype Poll = Gone | Remaining | Failed

  /** The plan never holds two objects that the journal could confuse. */
  ghost predicate SlotsDistinct(plan: set<Ref>) {
    forall a, b | a in plan && b in plan && SameSlot(a, b) :: a == b
  }

  ghost predicate InPlan(os: seq<OwnedObject>, plan: set<Ref>) {
    forall o | o in os :: o.ref in plan
  }

  /** Only entries of `ref` differ, and only in their UID. */
  ghost predicate OnlyAt(a: seq<OwnedObject>, b: seq<OwnedObject>, ref: Ref) {
    |a| == |b| && forall i | 0 <= i < |a| :: b[i].ref == a[i].ref && (a[i].ref != ref ==> b[i] == a[i])
  }

  /** The same names, and every known UID as it was. */
  ghost predicate Loyal(a: seq<OwnedObject>, b: seq<OwnedObject>) {
    |a| == |b| && forall i | 0 <= i < |a| :: b[i].ref == a[i].ref && (a[i].uid != "" ==> b[i] == a[i])
  }

  /** Nothing that the journal held is forgotten. */
  ghost predicate Kept(a: Journal, b: Journal) {
    Loyal(a.objects, b.objects) && a.derived <= b.derived && a.volumes <= b.volumes
  }

  lemma {:induction false} KeptTransitive(a: Journal, b: Journal, c: Journal)
    requires Kept(a, b) && Kept(b, c)
    ensures Kept(a, c)
  {
  }

  /** Everything a journal answers for. */
  ghost function Everything(j: Journal): set<Ref> {
    ObjectRefs(j.objects) + ObjectRefs(j.derived) + VolumeRefs(j.volumes)
  }

  lemma {:induction false} KeptEverything(a: Journal, b: Journal)
    requires Kept(a, b)
    ensures Everything(a) <= Everything(b)
  {
    forall r | r in ObjectRefs(a.objects)
      ensures r in ObjectRefs(b.objects)
    {
      var i :| 0 <= i < |a.objects| && a.objects[i].ref == r;
      assert b.objects[i] in b.objects && b.objects[i].ref == r;
    }
    forall o | o in a.derived
      ensures o in b.derived
    {
      var i :| 0 <= i < |a.derived| && a.derived[i] == o;
      assert b.derived[i] == o;
    }
    forall v | v in a.volumes
      ensures v in b.volumes
    {
      var i :| 0 <= i < |a.volumes| && a.volumes[i] == v;
      assert b.volumes[i] == v;
    }
  }

  ghost predicate DistinctRefs(os: seq<OwnedObject>) {
    forall a, b | 0 <= a < b < |os| :: os[a].ref != os[b].ref
  }

  /** An order that holds for the names of a journal holds for every journal with the same names. */
  lemma {:induction false} StillInTurn(held: seq<OwnedObject>, os: seq<OwnedObject>, ref: Ref, log: seq<Entry>)
    requires Loyal(held, os) && InTurn(held, ref, log)
    ensures InTurn(os, ref, log)
  {
    forall i | 0 <= i < |os|
      ensures held[i] in held && held[i].ref == os[i].ref
    {
    }
    if ref.kind.PriorityClass? {
      MissingStays(held, os, log);
    }
  }

  lemma {:induction false} MissingStays(held: seq<OwnedObject>, os: seq<OwnedObject>, log: seq<Entry>)
    requires Loyal(held, os) && NamespaceMissing(held, log)
    ensures NamespaceMissing(os, log)
  {
    if o :| o in held && o.ref.kind.Namespace? && Absent(o.ref) in log {
      var i :| 0 <= i < |held| && held[i] == o;
      assert os[i] in os && os[i].ref == o.ref;
    } else {
      forall o | o in os
        ensures !o.ref.kind.Namespace?
      {
        var i :| 0 <= i < |os| && os[i] == o;
        assert held[i] in held && held[i].ref == o.ref;
      }
    }
  }

  lemma {:induction false} LoyalBack(held: seq<OwnedObject>, os: seq<OwnedObject>, log: seq<Entry>)
    requires Loyal(held, os) && NamespaceMissing(os, log)
    ensures NamespaceMissing(held, log)
  {
    if o :| o in os && o.ref.kind.Namespace? && Absent(o.ref) in log {
      var i :| 0 <= i < |os| && os[i] == o;
      assert held[i] in held && held[i].ref == o.ref;
    } else {
      forall o | o in held
        ensures !o.ref.kind.Namespace?
      {
        var i :| 0 <= i < |held| && held[i] == o;
        assert os[i] in os && os[i].ref == o.ref;
      }
    }
  }

  lemma {:induction false} LastTurnLater(os: seq<OwnedObject>, log: seq<Entry>, later: seq<Entry>)
    requires LastTurn(os, log) && log <= later
    ensures LastTurn(os, later)
  {
    MissingLater(os, log, later);
  }

  lemma {:induction false} InTurnLater(os: seq<OwnedObject>, ref: Ref, log: seq<Entry>, later: seq<Entry>)
    requires InTurn(os, ref, log) && Unsent(log, later)
    ensures InTurn(os, ref, later)
  {
    if ref.kind.Namespace? {
      JustListedLater(log, later);
    }
    if ref.kind.PriorityClass? {
      MissingLater(os, log, later);
    }
  }

  lemma {:induction false} MissingLater(os: seq<OwnedObject>, log: seq<Entry>, later: seq<Entry>)
    requires NamespaceMissing(os, log) && log <= later
    ensures NamespaceMissing(os, later)
  {
  }

  lemma {:induction false} HeldEntry(held: seq<OwnedObject>, os: seq<OwnedObject>, owned: OwnedObject)
    requires Loyal(held, os) && owned in held
    ensures owned.uid != "" ==> owned in os
  {
    var i :| 0 <= i < |held| && held[i] == owned;
    assert owned.uid != "" ==> os[i] == owned;
  }

  /** Up to `i` entries may have learnt a UID; the rest is untouched. */
  ghost predicate Learning(a: seq<OwnedObject>, b: seq<OwnedObject>, i: nat) {
    Loyal(a, b) && i <= |a| && forall j | i <= j < |a| :: b[j] == a[j]
  }

  ghost predicate LearntUpTo(a: seq<OwnedObject>, b: seq<OwnedObject>, i: nat, objects: map<Ref, Live>) {
    |a| == |b| && i <= |a| && forall j | 0 <= j < i :: b[j] == Learnt(a, objects)[j]
  }

  ghost predicate Teaches(uid: string, ref: Ref, objects: map<Ref, Live>) {
    if ref in objects then uid == objects[ref].uid != "" else uid == ""
  }

  lemma {:induction false} LearnOne(a: seq<OwnedObject>, b: seq<OwnedObject>, i: nat, uid: string, objects: map<Ref,
                                    Live>)
    requires Learning(a, b, i) && i < |a|
    ensures var c := if uid != "" && b[i].uid == "" then b[i := b[i].(uid := uid)] else b;
      && Learning(a, c, i + 1)
      && (LearntUpTo(a, b, i, objects) && Teaches(uid, b[i].ref, objects) ==> LearntUpTo(a, c, i + 1, objects))
  {
  }

  lemma {:induction false} LearntTidy(os: seq<OwnedObject>, objects: map<Ref, Live>, marks: Marks)
    requires Tidy(os, objects, marks)
    ensures Tidy(Learnt(os, objects), objects, marks)
  {
    var ls := Learnt(os, objects);
    forall o | o in ls && o.ref in objects
      ensures ReadOwned(objects[o.ref], o, marks)
    {
      var i :| 0 <= i < |ls| && ls[i] == o;
      assert os[i] in os && os[i].ref == o.ref;
    }
  }

  /** An entry of a journal that forgot nothing carries the UID that was held. */
  lemma {:induction false} PinnedEntry(held: seq<OwnedObject>, os: seq<OwnedObject>, owned: OwnedObject)
    requires Loyal(held, os) && DistinctRefs(held) && owned in os
    ensures Pinned(held, owned)
  {
    var j :| 0 <= j < |os| && os[j] == owned;
    forall o | o in held && o.ref == owned.ref && o.uid != ""
      ensures o.uid == owned.uid
    {
      var i :| 0 <= i < |held| && held[i] == o;
      assert held[j].ref == held[i].ref;
    }
  }

  function Keys(os: seq<OwnedObject>): set<(string, string, string)> {
    set o | o in os :: Key(o)
  }

  ghost predicate DistinctKeys(os: seq<OwnedObject>) {
    forall a, b | 0 <= a < b < |os| :: Key(os[a]) != Key(os[b])
  }

  lemma KeysAppend(os: seq<OwnedObject>, o: OwnedObject)
    ensures Keys(os + [o]) == Keys(os) + {Key(o)}
    ensures DistinctKeys(os) && Key(o) !in Keys(os) ==> DistinctKeys(os + [o])
  {
    var l := os + [o];
    assert forall p :: p in l <==> p in os || p == o;
    if DistinctKeys(os) && Key(o) !in Keys(os) {
      forall a, b | 0 <= a < b < |l|
        ensures Key(l[a]) != Key(l[b])
      {
        if b == |os| {
          assert l[a] in os;
        }
      }
    }
  }

  lemma {:induction false} LoyalNames(a: seq<OwnedObject>, b: seq<OwnedObject>)
    requires Loyal(a, b)
    ensures ObjectRefs(a) == ObjectRefs(b)
  {
    forall o | o in b
      ensures o.ref in ObjectRefs(a)
    {
      var i :| 0 <= i < |b| && b[i] == o;
      assert a[i] in a && a[i].ref == o.ref;
    }
    forall o | o in a
      ensures o.ref in ObjectRefs(b)
    {
      var i :| 0 <= i < |a| && a[i] == o;
      assert b[i] in b && b[i].ref == o.ref;
    }
  }

  lemma SeenGoneLater(log: seq<Entry>, later: seq<Entry>, n: nat, refs: set<Ref>)
    requires SeenGone(log, n, refs) && Unsent(log, later)
    ensures SeenGone(later, n, refs)
  {
    assert later[n..] == log[n..] + later[|log|..];
  }

  lemma SeenGoneFrom(log: seq<Entry>, n: nat, m: nat, refs: set<Ref>)
    requires n <= m && SeenGone(log, m, refs) && forall k | n <= k < |log| :: !log[k].Sent?
    ensures SeenGone(log, n, refs)
  {
    assert log[n..] == log[n..m] + log[m..];
  }

  /**
   From `n` on the cluster was seen without a volume of the namespace, and no Longhorn volume was found under
   the name that a late provisioner would give to one of a recorded claim.
   */
  ghost predicate StorageSeenGone(log: seq<Entry>, n: nat, derived: seq<OwnedObject>, namespace: string) {
    && n <= |log| && (exists items :: Volumes(items) in log[n..] && NoneClaimed(items, namespace))
    && forall o | o in derived && o.ref.kind.PersistentVolumeClaim? :: Backends("pvc-" + o.uid, []) in log[n..]
  }

  predicate NoneClaimed(items: seq<Live>, namespace: string) {
    forall i | 0 <= i < |items| :: items[i].claimNamespace != namespace
  }

  lemma StorageSeenGoneLater(log: seq<Entry>, later: seq<Entry>, n: nat, m: nat, derived: seq<OwnedObject>,
                             namespace: string)
    requires StorageSeenGone(log, n, derived, namespace) && log <= later && m <= n
    ensures StorageSeenGone(later, m, derived, namespace)
  {
    assert later[m..] == later[m..n] + log[n..] + later[|log|..];
  }

  /** What the three parts of one look at the storage show together. */
  lemma PollGone(log0: seq<Entry>, log1: seq<Entry>, log2: seq<Entry>, log3: seq<Entry>, refs: set<Ref>,
                 derived: seq<OwnedObject>, namespace: string)
    requires Calm(log0, log1) && Calm(log1, log2) && Calm(log2, log3)
    requires exists items :: Volumes(items) in log1[|log0|..] && NoneClaimed(items, namespace)
    requires SeenGone(log2, |log1|, refs)
    requires forall o | o in derived && o.ref.kind.PersistentVolumeClaim? ::
               Backends("pvc-" + o.uid, []) in log3[|log2|..]
    ensures SeenGone(log3, |log0|, refs) && StorageSeenGone(log3, |log0|, derived, namespace)
  {
    SeenGoneLater(log2, log3, |log1|, refs);
    CalmTransitive(log1, log2, log3);
    CalmTransitive(log0, log1, log3);
    SeenGoneFrom(log3, |log0|, |log1|, refs);
    assert log3[|log0|..] == log1[|log0|..] + log2[|log1|..] + log3[|log2|..];
  }

  /**
   Before anything is deleted the namespace was listed; or it was not there any more, and then there is no
   disk, or the claim of the disk is recorded.
   */
  ghost predicate Surveyed(j: Journal, log: seq<Entry>, namespace: string) {
    || (exists k | 0 <= k < |log| :: log[k].Inventoried?)
    || (NamespaceMissing(j.objects, log) && DiskAccounted(j, namespace))
  }

  /** This is a Namespace that the journal names, if it names one. */
  ghost predicate NamespaceOf(ns: Option<OwnedObject>, os: seq<OwnedObject>) {
    match ns
    case Some(n) => n.ref.kind.Namespace? && n.ref in ObjectRefs(os)
    case None => forall o | o in os :: !o.ref.kind.Namespace?
  }

  lemma {:induction false} SurveyedByListing(j: Journal, log: seq<Entry>, namespace: string)
    requires JustListed(log)
    ensures Surveyed(j, log, namespace)
  {
  }

  lemma {:induction false} SurveyedByAbsence(j: Journal, log: seq<Entry>, namespace: string, ns: Option<OwnedObject>)
    requires NamespaceOf(ns, j.objects) && DiskAccounted(j, namespace) && (ns.Some? ==> Absent(ns.value.ref) in log)
    ensures Surveyed(j, log, namespace) && NamespaceMissing(j.objects, log)
  {
    if ns.Some? {
      var o :| o in j.objects && o.ref == ns.value.ref;
      assert o.ref.kind.Namespace?;
    }
  }

  lemma {:induction false} NamespaceStays(ns: Option<OwnedObject>, a: seq<OwnedObject>, b: seq<OwnedObject>)
    requires NamespaceOf(ns, a) && Loyal(a, b)
    ensures NamespaceOf(ns, b)
  {
    LoyalNames(a, b);
    forall o | o in b
      ensures o.ref in ObjectRefs(a)
    {
      assert o.ref in ObjectRefs(b);
    }
  }

  ghost predicate DiskAccounted(j: Journal, namespace: string) {
    (forall o | o in j.objects :: !o.ref.kind.DataVolume?) || exists o | o in j.derived :: IsClaim(o, namespace)
  }

  // ---------------------------------------------------------------------------
  // What can be destroyed when nobody interferes

  /** Whatever is there under a journalled name passes the ownership check. */
  ghost predicate Tidy(os: seq<OwnedObject>, objects: map<Ref, Live>, marks: Marks) {
    forall o | o in os && o.ref in objects :: ReadOwned(objects[o.ref], o, marks)
  }

  lemma NothingToRemove(objects: map<Ref, Live>, ref: Ref)
    requires ref !in objects
    ensures objects - {ref} == objects
  {
  }

  /** Only removals. */
  ghost predicate Shrunk(before: map<Ref, Live>, after: map<Ref, Live>) {
    forall r | r in after :: r in before && after[r] == before[r]
  }

  /** The names between two positions that a deletion picks. */
  ghost function Picked(os: seq<OwnedObject>, lo: nat, hi: nat, pick: Ref -> bool): set<Ref>
    requires lo <= hi <= |os|
  {
    set j | lo <= j < hi && pick(os[j].ref) :: os[j].ref
  }

  lemma {:induction false} PickedBelow(os: seq<OwnedObject>, lo: nat, hi: nat, pick: Ref -> bool,
                                       objects: map<Ref, Live>)
    requires lo < hi <= |os|
    ensures objects - Picked(os, lo + 1, hi, pick) - (if pick(os[lo].ref) then {os[lo].ref} else {}) ==
            objects - Picked(os, lo, hi, pick)
  {
    assert Picked(os, lo, hi, pick) ==
           Picked(os, lo + 1, hi, pick) + if pick(os[lo].ref) then {os[lo].ref} else {};
  }

  lemma {:induction false} PickedAbove(os: seq<OwnedObject>, hi: nat, pick: Ref -> bool, objects: map<Ref, Live>)
    requires hi < |os|
    ensures objects - Picked(os, 0, hi, pick) - (if pick(os[hi].ref) then {os[hi].ref} else {}) ==
            objects - Picked(os, 0, hi + 1, pick)
  {
    assert Picked(os, 0, hi + 1, pick) ==
           Picked(os, 0, hi, pick) + if pick(os[hi].ref) then {os[hi].ref} else {};
  }

  lemma {:induction false} PickedGone(os: seq<OwnedObject>, pick: Ref -> bool, objects: map<Ref, Live>)
    ensures var rest := objects - Picked(os, 0, |os|, pick);
            Shrunk(objects, rest) && forall o | o in os && pick(o.ref) :: o.ref !in rest
  {
    forall o | o in os && pick(o.ref)
      ensures o.ref in Picked(os, 0, |os|, pick)
    {
      var j :| 0 <= j < |os| && os[j] == o;
    }
  }

  ghost predicate ClearedFrom(os: seq<OwnedObject>, i: nat, start: map<Ref, Live>, objects: map<Ref, Live>)
    requires i <= |os|
  {
    objects == start - Picked(os, i, |os|, GoesFirst)
  }

  ghost predicate ClearedTo(os: seq<OwnedObject>, i: nat, start: map<Ref, Live>, objects: map<Ref, Live>)
    requires i <= |os|
  {
    objects == start - Picked(os, 0, i, GoesLast)
  }

  ghost predicate NoneOf(refs: set<Ref>, objects: map<Ref, Live>) {
    forall r | r in refs :: r !in objects
  }

  /** Every entry is in the plan, and none is there twice. */
  ghost predicate Listed(os: seq<OwnedObject>, plan: set<Ref>) {
    InPlan(os, plan) && DistinctRefs(os)
  }

  ghost predicate AllGone(j: Journal, objects: map<Ref, Live>) {
    NoneOf(ObjectRefs(j.objects), objects) && NoneOf(ObjectRefs(j.derived), objects) &&
    NoneOf(VolumeRefs(j.volumes), objects)
  }

  lemma TidyAfter(a: seq<OwnedObject>, b: seq<OwnedObject>, objects: map<Ref, Live>, marks: Marks, ref: Ref)
    requires Tidy(a, objects, marks) && OnlyAt(a, b, ref)
    ensures Tidy(b, objects - {ref}, marks)
  {
    forall o | o in b && o.ref in objects - {ref}
      ensures ReadOwned(objects[o.ref], o, marks)
    {
      var i :| 0 <= i < |b| && b[i] == o;
      assert a[i].ref == o.ref && a[i] == b[i] && a[i] in a;
    }
  }

  lemma {:induction false} CopyTidy(held: seq<OwnedObject>, os: seq<OwnedObject>, objects: map<Ref, Live>, marks: Marks,
                                    ns: OwnedObject)
    requires Tidy(os, objects, marks) && Loyal(held, os) && ns in held
    ensures Tidy([ns], objects, marks)
  {
    var i :| 0 <= i < |held| && held[i] == ns;
    assert os[i] in os && os[i].ref == ns.ref;
  }

  /** The UIDs a look at the objects teaches. */
  ghost function Learnt(os: seq<OwnedObject>, objects: map<Ref, Live>): (ls: seq<OwnedObject>)
    ensures |ls| == |os|
  {
    seq(|os|, i requires 0 <= i < |os| =>
      if os[i].uid == "" && os[i].ref in objects then os[i].(uid := objects[os[i].ref].uid) else os[i])
  }

  lemma {:induction false} AnchorSound(start: seq<OwnedObject>, saved: seq<OwnedObject>, plan: set<Ref>,
                                       ns: Option<OwnedObject>)
    requires Loyal(start, saved) && InPlan(start, plan) && DistinctRefs(start)
    ensures Loyal(start, Anchor(start, saved)) && Loyal(Anchor(start, saved), saved)
    ensures InPlan(Anchor(start, saved), plan) && DistinctRefs(Anchor(start, saved))
    ensures ns.Some? && ns.value in start && ns.value.ref.kind.Namespace? ==> ns.value in Anchor(start, saved)
  {
    var held := Anchor(start, saved);
    LoyalNames(start, held);
    forall o | o in held
      ensures o.ref in plan
    {
      assert o.ref in ObjectRefs(start);
    }
    if ns.Some? && ns.value in start && ns.value.ref.kind.Namespace? {
      var i :| 0 <= i < |start| && start[i] == ns.value;
      assert held[i] == ns.value;
    }
  }

  class Engine {
    const server: Server
    const namespace: string
    var journal: Journal
    var disk: Journal
    ghost var origin: Origin
    ghost var log: seq<Entry>

    /** Loads the journal of an installation, also one that an earlier run has begun to destroy. */
    constructor (server: Server, namespace: string, journal: Journal)
      ensures this.server == server && this.namespace == namespace
      ensures this.journal == journal && disk == journal && log == []
      ensures origin == Origin(journal, server.issued, None, [])
    {
      this.server := server;
      this.namespace := namespace;
      this.origin := Origin(journal, server.issued, None, []);
      this.journal := journal;
      this.disk := journal;
      this.log := [];
    }

    /** The entries the run answers for. */
    ghost function Held(): seq<OwnedObject>
      reads this`origin
    {
      origin.journal.objects
    }

    /** The destroying phase was saved, with a journal that names planned objects, each once. */
    ghost predicate Sound()
      reads this`origin
    {
      InPlan(Held(), server.plan) && DistinctRefs(Held()) && SlotsDistinct(server.plan) && origin.saved.Some?
    }

    /** Neither the journal in memory nor the one on disk has forgotten anything. */
    ghost predicate Anchored()
      reads this
    {
      Kept(origin.journal, journal) && Kept(origin.journal, disk)
    }

    /** Writes the journal to disk; a failure may or may not have written it. */
    method Save() returns (ok: bool)
      modifies this`disk
      ensures ok ==> disk == journal
      ensures disk == journal || disk == old(disk)
      ensures server.quiet ==> ok
    {
      var written: bool := *;
      ok := *;
      ok := ok || server.quiet;
      if ok || written {
        disk := journal;
      }
    }

    /** A read that records what it sees to be absent. */
    method Look(ref: Ref) returns (r: GetReply)
      requires server.Valid() && Honest(origin, log, server.issued)
      modifies server, this`log
      ensures server.Valid() && server.Later() && Honest(origin, log, server.issued)
      ensures log == if r.NotFound? then old(log) + [Absent(ref)] else old(log)
      ensures Calm(old(log), log)
      ensures r.NotFound? ==> ref !in server.objects
      ensures r.Found? ==> r.live.rv in server.versions && server.versions[r.live.rv] == Version(ref, r.live)
      ensures server.quiet ==> server.objects == old(server.objects)
      ensures server.quiet ==> r == if ref in server.objects then Found(server.objects[ref]) else NotFound
    {
      r := server.Get(ref);
      if r.NotFound? {
        CalmOne(log, Absent(ref));
        HonestAppend(origin, log, server.issued, Absent(ref));
        log := log + [Absent(ref)];
      }
    }

    /** Deletes one journalled object and waits until it is seen absent. */
    method DeleteOwned(owned: OwnedObject) returns (ok: bool)
      requires server.Valid() && Honest(origin, log, server.issued) && Sound() && Anchored()
      requires disk == journal && journal.phase.Destroying?
      requires owned.ref in ObjectRefs(Held()) && Pinned(Held(), owned) &&
               (owned.uid != "" ==> owned in journal.objects)
      requires InTurn(Held(), owned.ref, log)
      requires Stocked(log, journal)
      modifies server, this`journal, this`disk, this`log
      ensures server.Valid() && Honest(origin, log, server.issued) && Anchored() && old(log) <= log
      ensures journal == old(journal).(objects := journal.objects)
      ensures OnlyAt(old(journal.objects), journal.objects, owned.ref)
      ensures ok ==> disk == journal && Absent(owned.ref) in log
      ensures ok && old(server.inflight) == [] ==> server.inflight == []
      ensures server.quiet && Tidy([owned], old(server.objects), server.marks) ==>
        && ok && server.objects == old(server.objects) - {owned.ref}
        && (owned.ref in old(server.objects) ==> (owned.ref, old(server.objects)[owned.ref].uid) in server.issued)
      ensures Stocked(log, journal)
    {
      assert owned in [owned];
      var got := Look(owned.ref);
      StockedLater(old(log), log, journal, journal);
      InTurnLater(Held(), owned.ref, old(log), log);
      if got.NotFound? {
        NothingToRemove(server.objects, owned.ref);
        return true;
      }
      if got.Unavailable? || !ReadOwned(got.live, owned, server.marks) {
        return false;
      }
      ok := DeleteFound(owned, got.live.uid, got.live.rv);
    }

    /** Records the UID that was read, if none was known, and sends the DELETE. */
    method DeleteFound(owned: OwnedObject, uid: string, rv: nat) returns (ok: bool)
      requires server.Valid() && Honest(origin, log, server.issued) && Sound() && Anchored()
      requires disk == journal && journal.phase.Destroying?
      requires owned.ref in ObjectRefs(Held()) && Pinned(Held(), owned)
      requires if owned.uid == "" then uid != "" else owned in journal.objects && uid == owned.uid
      requires InTurn(Held(), owned.ref, log)
      requires rv in server.versions && server.versions[rv].ref == owned.ref
      requires server.versions[rv].live.marks == server.marks && server.versions[rv].live.self == owned.ref
      requires Stocked(log, journal)
      modifies server, this`journal, this`disk, this`log
      ensures server.Valid() && Honest(origin, log, server.issued) && Anchored() && old(log) <= log
      ensures journal == old(journal).(objects := journal.objects)
      ensures OnlyAt(old(journal.objects), journal.objects, owned.ref)
      ensures ok ==> disk == journal && Absent(owned.ref) in log
      ensures ok && old(server.inflight) == [] ==> server.inflight == []
      ensures server.quiet && owned.ref in old(server.objects) && old(server.objects)[owned.ref].uid == uid &&
              old(server.objects)[owned.ref].rv == rv ==>
        ok && server.objects == old(server.objects) - {owned.ref} && (owned.ref, uid) in server.issued
      ensures Stocked(log, journal)
    {
      if owned.uid == "" {
        var saved := RecordUid(owned.ref, uid);
        if !saved {
          StockedLater(log, log, old(journal), journal);
          return false;
        }
      }
      StockedLater(old(log), log, old(journal), journal);
      ok := SendDelete(owned.ref, uid, rv);
      StockedLater(old(log), log, old(journal), journal);
    }

    /** The same, for an entry of the journal that does not go last. */
    method DeleteEntry(owned: OwnedObject) returns (ok: bool)
      requires server.Valid() && Honest(origin, log, server.issued) && Sound() && Anchored()
      requires disk == journal && journal.phase.Destroying?
      requires owned in journal.objects && !owned.ref.kind.Namespace?
      requires Stocked(log, journal)
      requires InTurn(Held(), owned.ref, log)
      modifies server, this`journal, this`disk, this`log
      ensures server.Valid() && Honest(origin, log, server.issued) && Anchored() && old(log) <= log
      ensures journal == old(journal).(objects := journal.objects)
      ensures ok ==> disk == journal && Absent(owned.ref) in log
      ensures ok && old(server.inflight) == [] ==> server.inflight == []
      ensures server.quiet && Tidy(old(journal.objects), old(server.objects), server.marks) ==>
        && ok && server.objects == old(server.objects) - {owned.ref}
        && Tidy(journal.objects, server.objects, server.marks)
      ensures Stocked(log, journal)
    {
      ghost var before, there := journal.objects, server.objects;
      PinnedEntry(Held(), journal.objects, owned);
      LoyalNames(Held(), journal.objects);
      ok := DeleteOwned(owned);
      if Tidy(before, there, server.marks) {
        TidyAfter(before, journal.objects, there, server.marks, owned.ref);
      }
    }

    method SendDelete(ref: Ref, uid: string, rv: nat) returns (ok: bool)
      requires server.Valid() && Honest(origin, log, server.issued) && Sound() && Anchored()
      requires disk.phase.Destroying? && OwnedObject(ref, uid) in disk.objects && Pinned(Held(), OwnedObject(ref, uid))
      requires InTurn(Held(), ref, log)
      requires rv in server.versions && server.versions[rv].ref == ref
      requires server.versions[rv].live.marks == server.marks && server.versions[rv].live.self == ref
      requires Stocked(log, disk)
      modifies server, this`log
      ensures server.Valid() && Honest(origin, log, server.issued) && old(log) <= log
      ensures ok ==> Absent(ref) in log
      ensures ok && old(server.inflight) == [] ==> server.inflight == []
      ensures server.quiet && ref in old(server.objects) && old(server.objects)[ref].uid == uid &&
              old(server.objects)[ref].rv == rv ==>
        ok && server.objects == old(server.objects) - {ref} && (ref, uid) in server.issued
      ensures Unlisted(old(log), log)
    {
      LoyalNames(Held(), disk.objects);
      var sameCluster := server.Probe();
      if !sameCluster || ref !in server.plan {
        return false;
      }
      ok := Transmit(ref, uid, rv);
    }

    /** Sends the request and polls until its target is absent or another object. */
    method Transmit(ref: Ref, uid: string, rv: nat) returns (ok: bool)
      requires server.Valid() && Honest(origin, log, server.issued) && origin.saved.Some? && Anchored()
      requires disk.phase.Destroying? && OwnedObject(ref, uid) in disk.objects && Pinned(Held(), OwnedObject(ref, uid))
      requires InTurn(Held(), ref, log)
      requires ref in server.plan && rv in server.versions && server.versions[rv].ref == ref
      requires server.versions[rv].live.marks == server.marks && server.versions[rv].live.self == ref
      requires Stocked(log, disk)
      modifies server, this`log
      ensures server.Valid() && Honest(origin, log, server.issued) && old(log) <= log
      ensures ok ==> Absent(ref) in log
      ensures ok && old(server.inflight) == [] ==> server.inflight == []
      ensures server.quiet && ref in old(server.objects) && old(server.objects)[ref].uid == uid &&
              old(server.objects)[ref].rv == rv ==>
        ok && server.objects == old(server.objects) - {ref} && (ref, uid) in server.issued
      ensures Unlisted(old(log), log)
    {
      StillInTurn(Held(), disk.objects, ref, log);
      HonestAppend(origin, log, server.issued, Sent(ref, uid, disk));
      log := log + [Sent(ref, uid, disk)];
      var reply := server.Delete(ref, uid, rv);
      if reply.DeleteFailed? {
        return false;
      }
      ok := AwaitAbsent(ref, uid);
    }

    /** Fills in the UID of every entry in the object's slot and saves the journal. */
    method RecordUid(ref: Ref, uid: string) returns (ok: bool)
      requires Sound() && Anchored() && ref in ObjectRefs(Held())
      requires forall o | o in Held() && o.ref == ref :: o.uid == ""
      modifies this`journal, this`disk
      ensures Anchored() && OnlyAt(old(journal.objects), journal.objects, ref)
      ensures journal == old(journal).(objects := journal.objects) && OwnedObject(ref, uid) in journal.objects
      ensures ok ==> disk == journal
      ensures server.quiet ==> ok
    {
      for i := 0 to |journal.objects|
        invariant Anchored() && journal == old(journal).(objects := journal.objects) && disk == old(disk)
        invariant OnlyAt(old(journal.objects), journal.objects, ref)
        invariant forall j | 0 <= j < i && SameSlot(journal.objects[j].ref, ref) :: journal.objects[j].uid == uid
      {
        var candidate := journal.objects[i];
        assert Held()[i] in Held() && Held()[i].ref == candidate.ref;
        if SameSlot(candidate.ref, ref) {
          journal := journal.(objects := journal.objects[i := candidate.(uid := uid)]);
        }
      }
      assert OwnedObject(ref, uid) in journal.objects by {
        var j :| 0 <= j < |Held()| && Held()[j].ref == ref;
        assert journal.objects[j] == OwnedObject(ref, uid);
      }
      ok := Save();
    }

    method AwaitAbsent(ref: Ref, uid: string) returns (ok: bool)
      requires server.Valid() && Honest(origin, log, server.issued)
      modifies server, this`log
      ensures server.Valid() && Honest(origin, log, server.issued) && Calm(old(log), log)
      ensures ok ==> Absent(ref) in log
      ensures server.issued == old(server.issued) && (old(server.inflight) == [] ==> server.inflight == [])
      ensures server.quiet ==> server.objects == old(server.objects)
      ensures server.quiet && ref !in server.objects ==> ok
    {
      var polls: nat := *;
      if server.quiet {
        polls := 1;
      }
      while polls > 0
        invariant server.Valid() && Honest(origin, log, server.issued) && Calm(old(log), log)
        invariant server.issued == old(server.issued) && (old(server.inflight) == [] ==> server.inflight == [])
        invariant server.quiet ==> server.objects == old(server.objects)
        invariant server.quiet && ref !in server.objects ==> polls > 0
      {
        var current := Look(ref);
        if current.NotFound? {
          return true;
        }
        if current.Unavailable? || current.live.uid != uid {
          return false;
        }
        polls := polls - 1;
      }
      ok := false;
    }

    // -------------------------------------------------------------------------
    // Storage

    /** The volume's backend is the one Longhorn volume that was found under its handle. */
    ghost predicate Backed(v: OwnedVolume, log: seq<Entry>) {
      exists b ::
        Backends(v.handle, [b]) in log && v.backend == b.self && v.backendUid == b.uid && b.self.name == v.handle
    }

    /** A listing of the namespace, which goes into the log as it was given. */
    method ListNamespace() returns (items: Option<seq<Live>>)
      requires server.Valid() && Honest(origin, log, server.issued)
      modifies server, this`log
      ensures server.Valid() && (old(server.inflight) == [] ==> server.inflight == []) &&
              Honest(origin, log, server.issued)
      ensures log == if items.Some? then old(log) + [Inventoried(items.value)] else old(log)
      ensures server.quiet ==> items == Some([]) && server.objects == old(server.objects)
    {
      items := server.List();
      if items.Some? {
        HonestAppend(origin, log, server.issued, Inventoried(items.value));
        log := log + [Inventoried(items.value)];
      }
    }

    method ListVolumes() returns (items: Option<seq<Live>>)
      requires server.Valid() && Honest(origin, log, server.issued)
      modifies server, this`log
      ensures server.Valid() && (old(server.inflight) == [] ==> server.inflight == []) &&
              Honest(origin, log, server.issued)
      ensures log == if items.Some? then old(log) + [Volumes(items.value)] else old(log)
      ensures server.quiet ==> items == Some([]) && server.objects == old(server.objects)
    {
      items := server.List();
      if items.Some? {
        HonestAppend(origin, log, server.issued, Volumes(items.value));
        log := log + [Volumes(items.value)];
      }
    }

    /** The Longhorn volumes of a name. */
    method ListBackends(name: string) returns (items: Option<seq<Live>>)
      requires server.Valid() && Honest(origin, log, server.issued)
      modifies server, this`log
      ensures server.Valid() && (old(server.inflight) == [] ==> server.inflight == []) &&
              Honest(origin, log, server.issued)
      ensures log == if items.Some? then old(log) + [Backends(name, items.value)] else old(log)
      ensures server.quiet ==> items == Some([]) && server.objects == old(server.objects)
    {
      items := server.List();
      if items.Some? {
        HonestAppend(origin, log, server.issued, Backends(name, items.value));
        log := log + [Backends(name, items.value)];
      }
    }

    /** The PersistentVolume that a claim is bound to. */
    method SeeVolume(claim: Live) returns (pv: GetReply)
      requires server.Valid() && Honest(origin, log, server.issued)
      modifies server, this`log
      ensures server.Valid() && (old(server.inflight) == [] ==> server.inflight == []) &&
              Honest(origin, log, server.issued) && Calm(old(log), log)
      ensures pv.Found? ==> Saw(VolumeOf(claim), pv.live) in log
    {
      pv := Look(VolumeOf(claim));
      if pv.Found? {
        CalmOne(log, Saw(VolumeOf(claim), pv.live));
        HonestAppend(origin, log, server.issued, Saw(VolumeOf(claim), pv.live));
        log := log + [Saw(VolumeOf(claim), pv.live)];
      }
    }

    /** Records a bound volume and its backend, unless its PersistentVolume is already known. */
    method RecordVolume(pv: Live, claimUid: string) returns (ok: bool)
      requires server.Valid() && Honest(origin, log, server.issued)
      requires Anchored()
      modifies server, this`journal, this`disk, this`log
      ensures Anchored()
      ensures server.Valid() && Honest(origin, log, server.issued) &&
              (old(server.inflight) == [] ==> server.inflight == []) && Calm(old(log), log)
      ensures journal == old(journal).(volumes := journal.volumes) && old(journal.volumes) <= journal.volumes
      ensures ok && old(disk) == old(journal) ==> disk == journal
      ensures ok ==>
                exists v | v in journal.volumes :: v.pvUid == pv.uid && v.claimUid == claimUid && v.handle == pv.handle
      ensures forall v | v in journal.volumes ::
                v in old(journal.volumes) || (v.pv == pv.self && v.pvUid == pv.uid && Backed(v, log))
      ensures |old(journal.volumes)| <= MAX_VOLUMES ==> |journal.volumes| <= MAX_VOLUMES
    {
      if !pv.sane || pv.uid == "" || claimUid == "" || pv.claimUid != claimUid || pv.claimNamespace != namespace {
        return false;
      }
      for i := 0 to |journal.volumes|
        invariant journal == old(journal) && disk == old(disk) && log == old(log)
        invariant forall j | 0 <= j < i :: journal.volumes[j].pvUid != pv.uid
      {
        var volume := journal.volumes[i];
        if volume.pvUid == pv.uid {
          assert volume in journal.volumes;
          return volume.claimUid == claimUid && volume.handle == pv.handle;
        }
      }
      ok := AddVolume(pv, claimUid);
    }

    /** Finds the backend of a new volume and records both. */
    method AddVolume(pv: Live, claimUid: string) returns (ok: bool)
      requires server.Valid() && Honest(origin, log, server.issued)
      requires Anchored()
      modifies server, this`journal, this`disk, this`log
      ensures Anchored()
      ensures server.Valid() && Honest(origin, log, server.issued) &&
              (old(server.inflight) == [] ==> server.inflight == []) && Calm(old(log), log)
      ensures journal == old(journal).(volumes := journal.volumes)
      ensures ok && old(disk) == old(journal) ==> disk == journal
      ensures journal.volumes != old(journal.volumes) ==>
                && |old(journal.volumes)| < MAX_VOLUMES && |journal.volumes| == |old(journal.volumes)| + 1
                && old(journal.volumes) <= journal.volumes
                && var v := journal.volumes[|old(journal.volumes)|];
                   && Backed(v, log) && v.pv == pv.self && v.pvUid == pv.uid && v.claimUid == claimUid
                   && v.handle == pv.handle
      ensures ok ==> journal.volumes != old(journal.volumes)
    {
      if |journal.volumes| >= MAX_VOLUMES {
        return false;
      }
      var backend := FindBackend(pv.handle);
      if backend.None? {
        return false;
      }
      var volume := OwnedVolume(pv.self, pv.uid, claimUid, backend.value.self.name, backend.value.self,
                                backend.value.uid);
      assert Backed(volume, log);
      journal := journal.(volumes := journal.volumes + [volume]);
      ok := Save();
    }

    /** The one Longhorn volume under this name. */
    method FindBackend(handle: string) returns (backend: Option<Live>)
      requires server.Valid() && Honest(origin, log, server.issued)
      modifies server, this`log
      ensures server.Valid() && Honest(origin, log, server.issued) &&
              (old(server.inflight) == [] ==> server.inflight == []) && Calm(old(log), log)
      ensures backend.Some? ==> Backends(handle, [backend.value]) in log && backend.value.self.name == handle
    {
      var backends := ListBackends(handle);
      if backends.None? {
        return None;
      }
      CalmOne(old(log), Backends(handle, backends.value));
      if |backends.value| != 1 {
        return None;
      }
      var found := backends.value[0];
      assert backends.value == [found];
      backend := if found.self.name == handle && found.sane && found.uid != "" then Some(found) else None;
    }

    predicate VolumeOk(v: OwnedVolume, claims: set<string>) {
      v.pv.kind.PersistentVolume? && v.pvUid != "" && v.handle == v.backend.name && v.backend.kind.LonghornVolume? &&
      v.claimUid in claims
    }

    function Claims(derived: seq<OwnedObject>): set<string> {
      set o | o in derived && IsClaim(o, namespace) :: o.uid
    }

    ghost predicate VolumesOk(j: Journal) {
      && (forall i | 0 <= i < |j.volumes| :: VolumeOk(j.volumes[i], Claims(j.derived)))
      && (forall a, b | 0 <= a < b < |j.volumes| :: j.volumes[a].pvUid != j.volumes[b].pvUid)
    }

    method ClaimUids() returns (claims: set<string>)
      ensures claims == Claims(journal.derived)
    {
      claims := {};
      for i := 0 to |journal.derived|
        invariant claims == Claims(journal.derived[..i])
      {
        var o := journal.derived[i];
        assert journal.derived[..i + 1] == journal.derived[..i] + [o];
        if IsClaim(o, namespace) {
          claims := claims + {o.uid};
        }
      }
      assert journal.derived[..|journal.derived|] == journal.derived;
    }

    /** Every recorded volume belongs to a recorded claim, and no PersistentVolume is recorded twice. */
    method ValidateRecordedVolumes() returns (ok: bool)
      ensures ok <==> VolumesOk(journal)
    {
      var claims := ClaimUids();
      var seen: set<string> := {};
      for i := 0 to |journal.volumes|
        invariant forall u :: u in seen <==> exists a :: 0 <= a < i && journal.volumes[a].pvUid == u
        invariant forall a | 0 <= a < i :: VolumeOk(journal.volumes[a], claims)
        invariant forall a, b | 0 <= a < b < i :: journal.volumes[a].pvUid != journal.volumes[b].pvUid
      {
        var v := journal.volumes[i];
        if !VolumeOk(v, claims) || v.pvUid in seen {
          return false;
        }
        seen := seen + {v.pvUid};
      }
      ok := true;
    }

    /** Only own content can be classified; the classification itself is not modelled. */
    method ClassifyInventory(items: seq<Live>) returns (refs: Option<seq<OwnedObject>>)
      ensures refs.Some? ==>
                |refs.value| == |items| && forall i | 0 <= i < |items| :: refs.value[i] == OwnedBy(items[i])
      ensures items == [] ==> refs.Some?
    {
      var ok: bool := *;
      ok := ok || items == [];
      refs := if ok then Some(seq(|items|, i requires 0 <= i < |items| => OwnedBy(items[i]))) else None;
    }

    /** Adds what the inventory lists to the journal, each key once, and records the volumes of bound claims. */
    method RecordInventory(items: seq<Live>) returns (ok: bool)
      requires server.Valid() && Honest(origin, log, server.issued) && disk == journal
      requires Anchored()
      modifies server, this`journal, this`disk, this`log
      ensures Anchored()
      ensures server.Valid() && Honest(origin, log, server.issued) &&
              (old(server.inflight) == [] ==> server.inflight == [])
      ensures Calm(old(log), log)
      ensures journal == old(journal).(derived := journal.derived, volumes := journal.volumes)
      ensures old(journal.derived) <= journal.derived && old(journal.volumes) <= journal.volumes
      ensures ok ==> disk == journal && AllCovered(items, journal, log)
      ensures ok ==> |journal.derived| <= MAX_DERIVED
      ensures DistinctKeys(old(journal.derived)) ==> DistinctKeys(journal.derived)
      ensures server.quiet && items == [] && |old(journal.derived)| <= MAX_DERIVED ==>
        ok && journal == old(journal) && server.objects == old(server.objects)
    {
      var refs := ClassifyInventory(items);
      if refs.None? {
        return false;
      }
      AddDerived(refs.value);
      assert forall i | 0 <= i < |items| :: refs.value[i] in refs.value;
      if |journal.derived| > MAX_DERIVED {
        return false;
      }
      ok := Save();
      if !ok {
        return;
      }
      ok := RecordBoundVolumes(items);
    }

    /** Records the volumes of the bound claims among the items. */
    method RecordBoundVolumes(items: seq<Live>) returns (ok: bool)
      requires server.Valid() && Honest(origin, log, server.issued) && disk == journal
      requires Anchored()
      modifies server, this`journal, this`disk, this`log
      ensures Anchored()
      ensures server.Valid() && Honest(origin, log, server.issued) &&
              (old(server.inflight) == [] ==> server.inflight == [])
      ensures Calm(old(log), log)
      ensures journal == old(journal).(volumes := journal.volumes) && old(journal.volumes) <= journal.volumes
      ensures ok ==> disk == journal
      ensures ok ==> forall i | 0 <= i < |items| && Bound(items[i]) :: VolumeRecorded(items[i], journal.volumes, log)
      ensures items == [] ==> ok && journal == old(journal) && server.objects == old(server.objects)
    {
      for i := 0 to |items|
        invariant Anchored()
        invariant server.Valid() && Honest(origin, log, server.issued) &&
                  (old(server.inflight) == [] ==> server.inflight == [])
        invariant Calm(old(log), log)
        invariant journal == old(journal).(volumes := journal.volumes) && old(journal.volumes) <= journal.volumes
        invariant disk == journal
        invariant forall j | 0 <= j < i && Bound(items[j]) :: VolumeRecorded(items[j], journal.volumes, log)
        invariant items == [] ==> journal == old(journal) && server.objects == old(server.objects)
      {
        if Bound(items[i]) {
          ok := RecordClaim(items[i], items[..i]);
          if !ok {
            return;
          }
        }
      }
      ok := true;
    }

    /** Records the volume of a bound claim; those recorded before stay so. */
    method RecordClaim(claim: Live, ghost before: seq<Live>) returns (ok: bool)
      requires server.Valid() && Honest(origin, log, server.issued) && disk == journal
      requires Anchored()
      requires forall l | l in before && Bound(l) :: VolumeRecorded(l, journal.volumes, log)
      modifies server, this`journal, this`disk, this`log
      ensures Anchored()
      ensures server.Valid() && Honest(origin, log, server.issued) &&
              (old(server.inflight) == [] ==> server.inflight == [])
      ensures Calm(old(log), log)
      ensures journal == old(journal).(volumes := journal.volumes) && old(journal.volumes) <= journal.volumes
      ensures ok ==> disk == journal && VolumeRecorded(claim, journal.volumes, log)
      ensures forall l | l in before && Bound(l) :: VolumeRecorded(l, journal.volumes, log)
    {
      var pv := SeeVolume(claim);
      ok := pv.Found?;
      ghost var seen := log;
      if ok {
        ok := RecordVolume(pv.live, claim.uid);
      }
      forall l | l in before && Bound(l)
        ensures VolumeRecorded(l, journal.volumes, log)
      {
        VolumeRecordedLater(l, old(journal.volumes), journal.volumes, old(log), log);
      }
    }

    method AddDerived(refs: seq<OwnedObject>)
      requires Anchored()
      modifies this`journal
      ensures Anchored()
      ensures journal == old(journal).(derived := journal.derived) && old(journal.derived) <= journal.derived
      ensures Keys(journal.derived) == Keys(old(journal.derived)) + Keys(refs)
      ensures DistinctKeys(old(journal.derived)) ==> DistinctKeys(journal.derived)
      ensures refs == [] ==> journal == old(journal)
    {
      var seen := set o | o in journal.derived :: Key(o);
      for i := 0 to |refs|
        invariant Anchored()
        invariant journal == old(journal).(derived := journal.derived) && old(journal.derived) <= journal.derived
        invariant seen == Keys(journal.derived) == Keys(old(journal.derived)) + Keys(refs[..i])
        invariant DistinctKeys(old(journal.derived)) ==> DistinctKeys(journal.derived)
        invariant refs == [] ==> journal == old(journal)
      {
        var o := refs[i];
        KeysAppend(refs[..i], o);
        assert refs[..i + 1] == refs[..i] + [o];
        if Key(o) !in seen {
          KeysAppend(journal.derived, o);
          journal := journal.(derived := journal.derived + [o]);
          seen := seen + {Key(o)};
        }
      }
      assert refs[..|refs|] == refs;
    }

    /** One look at everything that storage reclaim must remove. */
    method PollStorage() returns (r: Poll)
      requires server.Valid() && Honest(origin, log, server.issued) && disk == journal
      requires Anchored()
      modifies server, this`journal, this`disk, this`log
      ensures Anchored()
      ensures server.Valid() && Honest(origin, log, server.issued) &&
              (old(server.inflight) == [] ==> server.inflight == [])
      ensures Calm(old(log), log)
      ensures journal == old(journal).(volumes := journal.volumes) && old(journal.volumes) <= journal.volumes
      ensures !r.Failed? ==> disk == journal && VolumesOk(journal)
      ensures r.Gone? ==> SeenGone(log, |old(log)|, VolumeRefs(journal.volumes))
      ensures server.quiet && VolumesOk(old(journal)) &&
              NoneOf(VolumeRefs(old(journal.volumes)), old(server.objects)) ==>
        r.Gone? && journal == old(journal) && server.objects == old(server.objects)
      ensures r.Gone? ==> StorageSeenGone(log, |old(log)|, journal.derived, namespace)
    {
      var remaining := RecordNamespaceVolumes();
      if remaining.Failed? {
        return Failed;
      }
      ghost var log1 := log;
      var valid := ValidateRecordedVolumes();
      if !valid {
        return Failed;
      }
      var seen := LookAtVolumes();
      if seen.Failed? {
        CalmTransitive(old(log), log1, log);
        return Failed;
      }
      ghost var log2 := log;
      CalmTransitive(old(log), log1, log2);
      var late := LookForLateBackends();
      CalmTransitive(old(log), log2, log);
      if late.Failed? {
        return Failed;
      }
      r := if remaining.Remaining? || seen.Remaining? || late.Remaining? then Remaining else Gone;
      if r.Gone? {
        PollGone(old(log), log1, log2, log, VolumeRefs(journal.volumes), journal.derived, namespace);
      }
    }

    /** Records a volume of the namespace, if its claim is recorded. */
    method RecordClaimed(pv: Live) returns (ok: bool)
      requires server.Valid() && Honest(origin, log, server.issued) && disk == journal && Anchored()
      modifies server, this`journal, this`disk, this`log
      ensures Anchored()
      ensures server.Valid() && Honest(origin, log, server.issued) &&
              (old(server.inflight) == [] ==> server.inflight == []) && Calm(old(log), log)
      ensures journal == old(journal).(volumes := journal.volumes) && old(journal.volumes) <= journal.volumes
      ensures ok ==> disk == journal
      ensures ok ==> exists o | o in journal.derived :: o.ref.kind.PersistentVolumeClaim? && o.uid == pv.claimUid
    {
      if !exists o | o in journal.derived :: o.ref.kind.PersistentVolumeClaim? && o.uid == pv.claimUid {
        return false;
      }
      ok := RecordVolume(pv, pv.claimUid);
    }

    /** The volumes of the namespace belong to recorded claims, and are recorded. */
    method RecordNamespaceVolumes() returns (r: Poll)
      requires server.Valid() && Honest(origin, log, server.issued) && disk == journal
      requires Anchored()
      modifies server, this`journal, this`disk, this`log
      ensures Anchored()
      ensures server.Valid() && Honest(origin, log, server.issued) &&
              (old(server.inflight) == [] ==> server.inflight == [])
      ensures Calm(old(log), log)
      ensures journal == old(journal).(volumes := journal.volumes) && old(journal.volumes) <= journal.volumes
      ensures !r.Failed? ==> disk == journal
      ensures r.Gone? ==> exists items :: Volumes(items) in log[|old(log)|..] && NoneClaimed(items, namespace)
      ensures server.quiet ==> r.Gone? && journal == old(journal) && server.objects == old(server.objects)
    {
      var volumes := ListVolumes();
      if volumes.None? {
        return Failed;
      }
      ghost var listed := log;
      CalmOne(old(log), Volumes(volumes.value));
      r := RecordListed(volumes.value);
      CalmTransitive(old(log), listed, log);
      assert log[|old(log)|] == listed[|old(log)|] == Volumes(volumes.value);
      assert log[|old(log)|..][0] == Volumes(volumes.value);
    }

    method RecordListed(volumes: seq<Live>) returns (r: Poll)
      requires server.Valid() && Honest(origin, log, server.issued) && disk == journal
      requires Anchored()
      modifies server, this`journal, this`disk, this`log
      ensures Anchored()
      ensures server.Valid() && Honest(origin, log, server.issued) &&
              (old(server.inflight) == [] ==> server.inflight == [])
      ensures Calm(old(log), log)
      ensures journal == old(journal).(volumes := journal.volumes) && old(journal.volumes) <= journal.volumes
      ensures !r.Failed? ==> disk == journal
      ensures r.Gone? ==> NoneClaimed(volumes, namespace)
      ensures volumes == [] ==> r.Gone? && journal == old(journal) && server.objects == old(server.objects)
    {
      var remaining := false;
      for i := 0 to |volumes|
        invariant Anchored()
        invariant server.Valid() && Honest(origin, log, server.issued) &&
                  (old(server.inflight) == [] ==> server.inflight == [])
        invariant journal == old(journal).(volumes := journal.volumes) && old(journal.volumes) <= journal.volumes
        invariant disk == journal && Calm(old(log), log)
        invariant !remaining ==> forall j | 0 <= j < i :: volumes[j].claimNamespace != namespace
        invariant volumes == [] ==> journal == old(journal) && server.objects == old(server.objects) && !remaining
      {
        var pv := volumes[i];
        if pv.claimNamespace == namespace {
          remaining := true;
          ghost var before := log;
          var recorded := RecordClaimed(pv);
          CalmTransitive(old(log), before, log);
          if !recorded {
            return Failed;
          }
        }
      }
      r := if remaining then Remaining else Gone;
    }

    /** Absent, still the recorded object, or something that must not be there. */
    method LookFor(ref: Ref, uid: string) returns (r: Poll)
      requires server.Valid() && Honest(origin, log, server.issued)
      modifies server, this`log
      ensures server.Valid() && Honest(origin, log, server.issued) &&
              (old(server.inflight) == [] ==> server.inflight == [])
      ensures log == old(log) + Noted(r.Gone?, ref)
      ensures server.quiet ==> server.objects == old(server.objects) && (ref !in server.objects ==> r.Gone?)
    {
      var got := Look(ref);
      match got
      case NotFound => r := Gone;
      case Unavailable => r := Failed;
      case Found(live) => r := if live.uid == uid then Remaining else Failed;
    }

    /** A recorded volume and its backend. */
    method LookAtVolume(v: OwnedVolume) returns (r: Poll, ghost saw: seq<Entry>)
      requires server.Valid() && Honest(origin, log, server.issued)
      modifies server, this`log
      ensures server.Valid() && Honest(origin, log, server.issued) &&
              (old(server.inflight) == [] ==> server.inflight == [])
      ensures log == old(log) + saw && forall e | e in saw :: e.Absent?
      ensures r.Gone? ==> Absent(v.pv) in saw && Absent(v.backend) in saw
      ensures server.quiet ==> server.objects == old(server.objects)
      ensures server.quiet && v.pv !in server.objects && v.backend !in server.objects ==> r.Gone?
    {
      var pv := LookFor(v.pv, v.pvUid);
      saw := Noted(pv.Gone?, v.pv);
      if pv.Failed? {
        return Failed, saw;
      }
      var backend := LookFor(v.backend, v.backendUid);
      saw := saw + Noted(backend.Gone?, v.backend);
      NotedTwo(old(log), pv.Gone?, v.pv, backend.Gone?, v.backend);
      r := if backend.Failed? then Failed else if pv.Remaining? || backend.Remaining? then Remaining else Gone;
    }

    method LookAtVolumes() returns (r: Poll)
      requires server.Valid() && Honest(origin, log, server.issued)
      modifies server, this`log
      ensures server.Valid() && Honest(origin, log, server.issued) &&
              (old(server.inflight) == [] ==> server.inflight == [])
      ensures Calm(old(log), log)
      ensures r.Gone? ==> SeenGone(log, |old(log)|, VolumeRefs(journal.volumes))
      ensures server.quiet ==> server.objects == old(server.objects)
      ensures server.quiet && NoneOf(VolumeRefs(journal.volumes), server.objects) ==> r.Gone?
    {
      var remaining := false;
      ghost var saw: seq<Entry> := [];
      for i := 0 to |journal.volumes|
        invariant server.Valid() && Honest(origin, log, server.issued) &&
                  (old(server.inflight) == [] ==> server.inflight == [])
        invariant log == old(log) + saw && forall e | e in saw :: e.Absent?
        invariant !remaining ==> forall j | 0 <= j < i ::
                    Absent(journal.volumes[j].pv) in saw && Absent(journal.volumes[j].backend) in saw
        invariant server.quiet ==> server.objects == old(server.objects)
        invariant server.quiet && NoneOf(VolumeRefs(journal.volumes), server.objects) ==> !remaining
      {
        var v := journal.volumes[i];
        assert v in journal.volumes;
        var here, found := LookAtVolume(v);
        saw := saw + found;
        assert log == old(log) + saw;
        CalmAbsences(old(log), saw);
        if here.Failed? {
          return Failed;
        }
        remaining := remaining || here.Remaining?;
      }
      assert log[|old(log)|..] == saw;
      CalmAbsences(old(log), saw);
      r := if remaining then Remaining else Gone;
    }

    /** A late provisioner may have created a backend volume named after a recorded claim. */
    method LookForLateBackends() returns (r: Poll)
      requires server.Valid() && Honest(origin, log, server.issued)
      modifies server, this`log
      ensures server.Valid() && Honest(origin, log, server.issued) &&
              (old(server.inflight) == [] ==> server.inflight == [])
      ensures Calm(old(log), log)
      ensures r.Gone? ==>
                forall o | o in journal.derived && o.ref.kind.PersistentVolumeClaim? ::
                  Backends("pvc-" + o.uid, []) in log[|old(log)|..]
      ensures server.quiet ==> r.Gone? && server.objects == old(server.objects)
    {
      var remaining := false;
      for i := 0 to |journal.derived|
        invariant server.Valid() && Honest(origin, log, server.issued) &&
                  (old(server.inflight) == [] ==> server.inflight == [])
        invariant Calm(old(log), log)
        invariant !remaining ==>
                    forall j | 0 <= j < i && journal.derived[j].ref.kind.PersistentVolumeClaim? ::
                      Backends("pvc-" + journal.derived[j].uid, []) in log[|old(log)|..]
        invariant server.quiet ==> !remaining && server.objects == old(server.objects)
      {
        var claim := journal.derived[i];
        if claim.ref.kind.PersistentVolumeClaim? {
          ghost var before := log;
          var items := ListBackends("pvc-" + claim.uid);
          if items.None? {
            return Failed;
          }
          assert log[|old(log)|..] == before[|old(log)|..] + [Backends("pvc-" + claim.uid, items.value)];
          if |items.value| != 0 {
            remaining := true;
            if !exists v | v in journal.volumes :: v.claimUid == claim.uid && v.handle == "pvc-" + claim.uid {
              return Failed;
            }
          }
        }
      }
      r := if remaining then Remaining else Gone;
    }

    method WaitStorageAbsent() returns (ok: bool)
      requires server.Valid() && Honest(origin, log, server.issued) && disk == journal
      requires Anchored()
      modifies server, this`journal, this`disk, this`log
      ensures Anchored()
      ensures server.Valid() && Honest(origin, log, server.issued) &&
              (old(server.inflight) == [] ==> server.inflight == [])
      ensures Calm(old(log), log)
      ensures journal == old(journal).(volumes := journal.volumes) && old(journal.volumes) <= journal.volumes
      ensures ok ==> disk == journal && VolumesOk(journal) && SeenGone(log, |old(log)|, VolumeRefs(journal.volumes))
      ensures ok ==> StorageSeenGone(log, |old(log)|, journal.derived, namespace)
      ensures server.quiet && VolumesOk(old(journal)) &&
              NoneOf(VolumeRefs(old(journal.volumes)), old(server.objects)) ==>
        ok && journal == old(journal) && server.objects == old(server.objects)
    {
      var polls: nat := *;
      if server.quiet {
        polls := 1;
      }
      while polls > 0
        invariant Anchored()
        invariant server.quiet && VolumesOk(old(journal)) &&
                  NoneOf(VolumeRefs(old(journal.volumes)), old(server.objects)) ==>
          polls > 0 && journal == old(journal) && server.objects == old(server.objects)
        invariant server.Valid() && Honest(origin, log, server.issued) &&
                  (old(server.inflight) == [] ==> server.inflight == [])
        invariant Calm(old(log), log)
        invariant journal == old(journal).(volumes := journal.volumes) && old(journal.volumes) <= journal.volumes
        invariant disk == journal
      {
        ghost var before := |log|;
        var r := PollStorage();
        if r.Failed? {
          return false;
        }
        if r.Gone? {
          assert forall e | e in log[before..] :: e in log[|old(log)|..];
          StorageSeenGoneLater(log, log, before, |old(log)|, journal.derived, namespace);
          return true;
        }
        polls := polls - 1;
      }
      ok := false;
    }

    // -------------------------------------------------------------------------
    // The whole destruction

    /** The UID of an owned object, empty if it is absent; none if it is not owned or cannot be read. */
    method Identify(owned: OwnedObject) returns (uid: Option<string>)
      requires server.Valid() && Honest(origin, log, server.issued)
      modifies server, this`log
      ensures server.Valid() && Honest(origin, log, server.issued) &&
              (old(server.inflight) == [] ==> server.inflight == [])
      ensures Calm(old(log), log)
      ensures server.quiet ==> server.objects == old(server.objects)
      ensures server.quiet && owned.ref !in server.objects ==> uid == Some("")
      ensures server.quiet && owned.ref in server.objects ==>
        && (uid.Some? <==> ReadOwned(server.objects[owned.ref], owned, server.marks))
        && (uid.Some? ==> uid.value == server.objects[owned.ref].uid != "")
    {
      var got := Look(owned.ref);
      if got.Unavailable? || (got.Found? && !ReadOwned(got.live, owned, server.marks)) {
        return None;
      }
      uid := Some(if got.Found? then got.live.uid else "");
    }

    /** Reads every journalled object once, refuses foreign ones and learns the UIDs the journal does not have yet. */
    method RecoverIdentities() returns (ok: bool)
      requires server.Valid() && Honest(origin, log, server.issued) && Anchored() && disk == journal
      modifies server, this`journal, this`disk, this`log
      ensures server.Valid() && Honest(origin, log, server.issued) &&
              (old(server.inflight) == [] ==> server.inflight == [])
      ensures Anchored() && Loyal(old(journal.objects), journal.objects)
      ensures Calm(old(log), log)
      ensures journal == old(journal).(objects := journal.objects)
      ensures ok ==> disk == journal
      ensures server.quiet && Tidy(old(journal.objects), old(server.objects), server.marks) ==>
        ok && server.objects == old(server.objects) && journal.objects == Learnt(old(journal.objects), server.objects)
    {
      var recovered := false;
      for i := 0 to |journal.objects|
        invariant server.Valid() && Honest(origin, log, server.issued) &&
                  (old(server.inflight) == [] ==> server.inflight == [])
        invariant Calm(old(log), log)
        invariant journal == old(journal).(objects := journal.objects) &&
                  Learning(old(journal.objects), journal.objects, i)
        invariant !recovered ==> journal == old(journal)
        invariant disk == old(disk)
        invariant server.quiet ==> server.objects == old(server.objects)
        invariant server.quiet ==> LearntUpTo(old(journal.objects), journal.objects, i, server.objects)
      {
        var owned := journal.objects[i];
        assert owned in old(journal.objects);
        var uid := Identify(owned);
        if uid.None? {
          return false;
        }
        ghost var before := journal.objects;
        LearnOne(old(journal.objects), before, i, uid.value, server.objects);
        if uid.value != "" && owned.uid == "" {
          journal := journal.(objects := journal.objects[i := owned.(uid := uid.value)]);
          recovered := true;
        }
      }
      KeptTransitive(origin.journal, old(journal), journal);
      ok := true;
      if recovered {
        ok := Save();
      }
    }

    /** Lists the namespace and records what it holds. */
    method Inventory() returns (ok: bool)
      requires server.Valid() && Honest(origin, log, server.issued) && disk == journal
      requires Anchored() && Stocked(log, journal)
      modifies server, this`journal, this`disk, this`log
      ensures Anchored()
      ensures server.Valid() && Honest(origin, log, server.issued) &&
              (old(server.inflight) == [] ==> server.inflight == [])
      ensures Unsent(old(log), log)
      ensures journal == old(journal).(derived := journal.derived, volumes := journal.volumes)
      ensures ok ==> disk == journal && Stocked(log, journal) && JustListed(log)
      ensures server.quiet && |old(journal.derived)| <= MAX_DERIVED ==>
        ok && journal == old(journal) && server.objects == old(server.objects)
    {
      var items := ListNamespace();
      if items.None? {
        return false;
      }
      ok := RecordInventory(items.value);
      UnsentListing(old(log), log, items.value);
      if ok {
        StockedListing(old(log), log, items.value, old(journal), journal);
      }
    }

    /** Deletes everything that goes before the Namespace, newest first. */
    method DeleteFirst() returns (ok: bool)
      requires server.Valid() && Honest(origin, log, server.issued) && Sound() && Anchored()
      requires disk == journal && journal.phase.Destroying?
      requires Stocked(log, journal)
      modifies server, this`journal, this`disk, this`log
      ensures server.Valid() && Honest(origin, log, server.issued) && Anchored() && old(log) <= log
      ensures journal == old(journal).(objects := journal.objects)
      ensures ok ==> disk == journal && FirstAbsent(Held(), log)
      ensures ok && old(server.inflight) == [] ==> server.inflight == []
      ensures server.quiet && Tidy(old(journal.objects), old(server.objects), server.marks) ==>
        && ok && Tidy(journal.objects, server.objects, server.marks) && Shrunk(old(server.objects), server.objects)
        && forall o | o in Held() && GoesFirst(o.ref) :: o.ref !in server.objects
      ensures ok ==> Stocked(log, journal)
    {
      ghost var tidy := server.quiet && Tidy(journal.objects, server.objects, server.marks);
      var i := |journal.objects|;
      while i > 0
        invariant 0 <= i <= |Held()| == |journal.objects|
        invariant server.Valid() && Honest(origin, log, server.issued) && Anchored() && old(log) <= log
        invariant journal == old(journal).(objects := journal.objects) && disk == journal && Stocked(log, journal)
        invariant AbsentFrom(Held(), i, log)
        invariant old(server.inflight) == [] ==> server.inflight == []
        invariant tidy ==> Tidy(journal.objects, server.objects, server.marks)
        invariant tidy ==> ClearedFrom(Held(), i, old(server.objects), server.objects)
      {
        i := i - 1;
        ok := DeleteAt(i, old(server.objects));
        if !ok {
          return;
        }
      }
      AllAbsent(Held(), log);
      PickedGone(Held(), GoesFirst, old(server.objects));
      ok := true;
    }

    /** Deletes one entry of the first group, once all newer ones are gone. */
    method DeleteAt(i: nat, ghost start: map<Ref, Live>) returns (ok: bool)
      requires server.Valid() && Honest(origin, log, server.issued) && Sound() && Anchored()
      requires disk == journal && journal.phase.Destroying? && Stocked(log, journal)
      requires i < |journal.objects| == |Held()| && AbsentFrom(Held(), i + 1, log)
      modifies server, this`journal, this`disk, this`log
      ensures server.Valid() && Honest(origin, log, server.issued) && Anchored() && old(log) <= log
      ensures journal == old(journal).(objects := journal.objects) && Stocked(log, journal)
      ensures ok ==> disk == journal && AbsentFrom(Held(), i, log)
      ensures ok && old(server.inflight) == [] ==> server.inflight == []
      ensures server.quiet && Tidy(old(journal.objects), old(server.objects), server.marks) ==>
                ok && Tidy(journal.objects, server.objects, server.marks)
      ensures server.quiet && Tidy(old(journal.objects), old(server.objects), server.marks) ==>
                ClearedFrom(Held(), i + 1, start, old(server.objects)) ==> ClearedFrom(Held(), i, start, server.objects)
    {
      PickedBelow(Held(), i, |Held()|, GoesFirst, start);
      var owned := journal.objects[i];
      assert Held()[i].ref == owned.ref;
      ok := true;
      if GoesFirst(owned.ref) {
        ok := DeleteEntry(owned);
      }
    }

    /** Deletes one entry if it is a PriorityClass. */
    method DeletePriorityClassAt(i: nat, ghost start: map<Ref, Live>) returns (ok: bool)
      requires server.Valid() && Honest(origin, log, server.issued) && Sound() && Anchored()
      requires disk == journal && journal.phase.Destroying? && Stocked(log, journal)
      requires i < |journal.objects| == |Held()| && LastTurn(Held(), log)
      modifies server, this`journal, this`disk, this`log
      ensures server.Valid() && Honest(origin, log, server.issued) && Anchored() && old(log) <= log
      ensures journal == old(journal).(objects := journal.objects) && Stocked(log, journal) && LastTurn(Held(), log)
      ensures ok ==> disk == journal
      ensures ok && old(server.inflight) == [] ==> server.inflight == []
      ensures server.quiet && Tidy(old(journal.objects), old(server.objects), server.marks) ==>
                ok && Tidy(journal.objects, server.objects, server.marks)
      ensures server.quiet && Tidy(old(journal.objects), old(server.objects), server.marks) ==>
                ClearedTo(Held(), i, start, old(server.objects)) ==> ClearedTo(Held(), i + 1, start, server.objects)
    {
      PickedAbove(Held(), i, GoesLast, start);
      var owned := journal.objects[i];
      assert Held()[i].ref == owned.ref;
      ok := true;
      if GoesLast(owned.ref) {
        ok := DeleteEntry(owned);
        LastTurnLater(Held(), old(log), log);
      }
    }

    method DeletePriorityClasses() returns (ok: bool)
      requires server.Valid() && Honest(origin, log, server.issued) && Sound() && Anchored()
      requires disk == journal && journal.phase.Destroying?
      requires Stocked(log, journal)
      requires LastTurn(Held(), log)
      modifies server, this`journal, this`disk, this`log
      ensures server.Valid() && Honest(origin, log, server.issued) && Anchored() && old(log) <= log
      ensures journal == old(journal).(objects := journal.objects)
      ensures ok ==> disk == journal
      ensures ok && old(server.inflight) == [] ==> server.inflight == []
      ensures server.quiet && Tidy(old(journal.objects), old(server.objects), server.marks) ==>
        && ok && Shrunk(old(server.objects), server.objects)
        && forall o | o in Held() && o.ref.kind.PriorityClass? :: o.ref !in server.objects
      ensures ok ==> Stocked(log, journal)
    {
      ghost var tidy := server.quiet && Tidy(journal.objects, server.objects, server.marks);
      var n := |journal.objects|;
      for i := 0 to n
        invariant n == |journal.objects| == |Held()|
        invariant server.Valid() && Honest(origin, log, server.issued) && Anchored() && old(log) <= log
        invariant journal == old(journal).(objects := journal.objects) && disk == journal && Stocked(log, journal)
        invariant LastTurn(Held(), log)
        invariant old(server.inflight) == [] ==> server.inflight == []
        invariant tidy ==> Tidy(journal.objects, server.objects, server.marks)
        invariant tidy ==> ClearedTo(Held(), i, old(server.objects), server.objects)
      {
        ok := DeletePriorityClassAt(i, old(server.objects));
        if !ok {
          return;
        }
      }
      PickedGone(Held(), GoesLast, old(server.objects));
      ok := true;
    }

    /** The final sweep: every one of these objects must be seen absent. */
    method Sweep(os: seq<OwnedObject>) returns (ok: bool)
      requires server.Valid() && Honest(origin, log, server.issued)
      modifies server, this`log
      ensures server.Valid() && Honest(origin, log, server.issued) &&
              (old(server.inflight) == [] ==> server.inflight == [])
      ensures Calm(old(log), log)
      ensures ok ==> SeenGone(log, |old(log)|, ObjectRefs(os))
      ensures server.quiet ==> server.objects == old(server.objects)
      ensures server.quiet && NoneOf(ObjectRefs(os), server.objects) ==> ok
    {
      for i := 0 to |os|
        invariant server.Valid() && Honest(origin, log, server.issued) &&
                  (old(server.inflight) == [] ==> server.inflight == [])
        invariant log == old(log) + Absences(os[..i])
        invariant server.quiet ==> server.objects == old(server.objects)
      {
        assert os[i] in os;
        var got := Look(os[i].ref);
        if !got.NotFound? {
          return false;
        }
        AbsencesAppend(old(log), os, i);
      }
      AllSwept(old(log), os);
      assert os[..|os|] == os;
      ok := true;
    }

    /** The ownership guard: every journalled object is in the plan, and none is journalled twice. */
    method CheckGuard() returns (ok: bool)
      ensures ok ==> InPlan(journal.objects, server.plan)
      ensures ok ==> DistinctRefs(journal.objects)
      ensures server.quiet && Listed(journal.objects, server.plan) ==> ok
    {
      var seen: set<Ref> := {};
      for i := 0 to |journal.objects|
        invariant seen == set j | 0 <= j < i :: journal.objects[j].ref
        invariant forall j | 0 <= j < i :: journal.objects[j].ref in server.plan
        invariant forall a, b | 0 <= a < b < i :: journal.objects[a].ref != journal.objects[b].ref
      {
        var ref := journal.objects[i].ref;
        if ref in seen || ref !in server.plan {
          return false;
        }
        seen := seen + {ref};
      }
      ok := *;
      ok := ok || server.quiet;
    }

    /** The last Namespace entry of the journal, as it was before any UID was recovered. */
    method FindNamespace() returns (found: Option<OwnedObject>)
      ensures found.Some? ==> found.value in journal.objects && found.value.ref.kind.Namespace?
      ensures found.None? ==> forall o | o in journal.objects :: !o.ref.kind.Namespace?
    {
      found := None;
      for i := 0 to |journal.objects|
        invariant found.Some? ==> found.value in journal.objects && found.value.ref.kind.Namespace?
        invariant found.None? ==> forall j | 0 <= j < i :: !journal.objects[j].ref.kind.Namespace?
      {
        if journal.objects[i].ref.kind.Namespace? {
          found := Some(journal.objects[i]);
        }
      }
    }

    /** The Namespace is there to be listed, or there is no disk, or the claim of the disk is recorded. */
    ghost predicate Accounted(j: Journal, objects: map<Ref, Live>, ns: Option<OwnedObject>) {
      && |j.derived| <= MAX_DERIVED
      && ((ns.Some? && ns.value.ref in objects) || (forall r | r in ObjectRefs(j.objects) :: !r.kind.DataVolume?) ||
          exists o :: o in j.derived && IsClaim(o, namespace))
    }

    /** Nothing stands in the way: names are clean, and storage is accounted for. */
    ghost predicate Removable(j: Journal, objects: map<Ref, Live>, ns: Option<OwnedObject>) {
      Tidy(j.objects, objects, server.marks) && Accounted(j, objects, ns)
    }

    /** Everything up to the moment the journal says that the installation is being destroyed. */
    method Prepare(ns: Option<OwnedObject>) returns (ok: bool, namespaceExists: bool)
      requires server.Valid() && Honest(origin, log, server.issued) && Anchored() && disk == journal
      requires Stocked(log, journal) && NamespaceOf(ns, journal.objects)
      modifies server, this`journal, this`disk, this`log
      ensures server.Valid() && Honest(origin, log, server.issued) &&
              (old(server.inflight) == [] ==> server.inflight == [])
      ensures Anchored() && Loyal(old(journal.objects), journal.objects)
      ensures ok ==> disk == journal && journal.phase.Destroying? && (namespaceExists ==> ns.Some?)
      ensures server.quiet && Removable(old(journal), old(server.objects), ns) ==>
        && ok && server.objects == old(server.objects) &&
           journal.objects == Learnt(old(journal.objects), server.objects)
        && journal.derived == old(journal.derived) && journal.volumes == old(journal.volumes)
        && (namespaceExists <==> ns.Some? && ns.value.ref in server.objects)
      ensures Unsent(old(log), log)
      ensures ok ==> Stocked(log, journal) && Surveyed(journal, log, namespace)
      ensures ok && !namespaceExists ==> NamespaceMissing(journal.objects, log)
    {
      namespaceExists := false;
      ok := RecoverIdentities();
      LoyalNames(old(journal.objects), journal.objects);
      NamespaceStays(ns, old(journal.objects), journal.objects);
      StockedLater(old(log), log, old(journal), journal);
      if ok {
        ok, namespaceExists := TakeStock(ns);
      }
      if ok {
        StockedLater(log, log, journal, journal.(phase := Destroying));
        journal := journal.(phase := Destroying);
        ok := Save();
      }
    }

    /** Looks for the Namespace and records what it holds; without it the storage must have been recorded before. */
    method TakeStock(ns: Option<OwnedObject>) returns (ok: bool, namespaceExists: bool)
      requires server.Valid() && Honest(origin, log, server.issued) && Anchored() && disk == journal
      requires Stocked(log, journal) && NamespaceOf(ns, journal.objects)
      modifies server, this`journal, this`disk, this`log
      ensures server.Valid() && Honest(origin, log, server.issued) &&
              (old(server.inflight) == [] ==> server.inflight == [])
      ensures Anchored() && journal == old(journal).(derived := journal.derived, volumes := journal.volumes)
      ensures ok ==> disk == journal && (namespaceExists ==> ns.Some?)
      ensures server.quiet && Accounted(old(journal), old(server.objects), ns) ==>
        && ok && server.objects == old(server.objects) && journal == old(journal)
        && (namespaceExists <==> ns.Some? && ns.value.ref in server.objects)
      ensures Unsent(old(log), log)
      ensures ok ==> Stocked(log, journal) && Surveyed(journal, log, namespace)
      ensures ok && !namespaceExists ==> NamespaceMissing(journal.objects, log)
    {
      ok, namespaceExists := false, false;
      var readable;
      readable, namespaceExists := LookForNamespace(ns);
      StockedLater(old(log), log, journal, journal);
      if !readable {
        return;
      }
      if namespaceExists {
        ok := Inventory();
        if ok {
          SurveyedByListing(journal, log, namespace);
        }
      } else {
        ok := !(exists o | o in journal.objects :: o.ref.kind.DataVolume?) ||
              exists o | o in journal.derived :: IsClaim(o, namespace);
        if ok {
          SurveyedByAbsence(journal, log, namespace, ns);
        }
      }
    }

    method LookForNamespace(ns: Option<OwnedObject>) returns (readable: bool, there: bool)
      requires server.Valid() && Honest(origin, log, server.issued)
      modifies server, this`log
      ensures server.Valid() && Honest(origin, log, server.issued) &&
              (old(server.inflight) == [] ==> server.inflight == [])
      ensures Calm(old(log), log) && (there ==> readable && ns.Some?)
      ensures readable && !there && ns.Some? ==> Absent(ns.value.ref) in log
      ensures server.quiet ==>
                && readable && server.objects == old(server.objects)
                && (there <==> ns.Some? && ns.value.ref in server.objects)
    {
      if ns.None? {
        return true, false;
      }
      var got := Look(ns.value.ref);
      readable, there := !got.Unavailable?, got.Found?;
    }

    ghost predicate OneNamespace(os: seq<OwnedObject>, ns: Option<OwnedObject>) {
      forall o | o in os && o.ref.kind.Namespace? :: ns.Some? && ns.value.ref == o.ref
    }

    /** What the three deletions of a destruction leave behind, one after the other. */
    ghost predicate EachGone(objects1: map<Ref, Live>, objects2: map<Ref, Live>, objects3: map<Ref, Live>,
                             ns: Option<OwnedObject>)
      reads this`origin
    {
      && OneNamespace(Held(), ns)
      && Shrunk(objects1, objects2) && Shrunk(objects2, objects3)
      && (forall o | o in Held() && GoesFirst(o.ref) :: o.ref !in objects1)
      && (ns.Some? ==> ns.value.ref !in objects2)
      && (forall o | o in Held() && o.ref.kind.PriorityClass? :: o.ref !in objects3)
    }

    lemma NothingLeft(objects1: map<Ref, Live>, objects2: map<Ref, Live>, objects3: map<Ref, Live>,
                      ns: Option<OwnedObject>)
      requires EachGone(objects1, objects2, objects3, ns)
      ensures NoneOf(ObjectRefs(Held()), objects3)
    {
    }

    /** Deletes in order: the first group, the Namespace, the PriorityClass. */
    method DeleteAll(ns: Option<OwnedObject>, namespaceExists: bool) returns (ok: bool)
      requires server.Valid() && Honest(origin, log, server.issued) && Sound() && Anchored()
      requires disk == journal && journal.phase.Destroying?
      requires ns.Some? ==> ns.value in Held() && ns.value.ref.kind.Namespace?
      requires namespaceExists ==> ns.Some?
      requires Stocked(log, journal)
      requires !namespaceExists ==> NamespaceMissing(Held(), log)
      modifies server, this`journal, this`disk, this`log
      ensures server.Valid() && Honest(origin, log, server.issued) && Anchored()
      ensures ok ==> disk == journal
      ensures old(log) <= log
      ensures ok && old(server.inflight) == [] ==> server.inflight == []
      ensures server.quiet && Smooth(old(journal), old(server.objects), ns, namespaceExists) ==>
        && ok && Shrunk(old(server.objects), server.objects) && NoneOf(ObjectRefs(Held()), server.objects)
        && journal.derived == old(journal.derived) && journal.volumes == old(journal.volumes)
      ensures ok ==> Stocked(log, journal)
    {
      ghost var smooth := server.quiet && Smooth(journal, server.objects, ns, namespaceExists);
      ghost var objects1;
      ok, objects1 := DeleteUpToNamespace(ns, namespaceExists);
      if !ok {
        return;
      }
      ghost var objects2, log2 := server.objects, log;
      ok := DeletePriorityClasses();
      assert old(log) <= log2 <= log;
      if smooth {
        NothingLeft(objects1, objects2, server.objects, ns);
      }
    }

    /** The first group and then the Namespace; `between` is what was there after the first group. */
    method DeleteUpToNamespace(ns: Option<OwnedObject>, namespaceExists: bool)
      returns (ok: bool, ghost between: map<Ref, Live>)
      requires server.Valid() && Honest(origin, log, server.issued) && Sound() && Anchored()
      requires disk == journal && journal.phase.Destroying? && Stocked(log, journal)
      requires ns.Some? ==> ns.value in Held() && ns.value.ref.kind.Namespace?
      requires (namespaceExists ==> ns.Some?) && (!namespaceExists ==> NamespaceMissing(Held(), log))
      modifies server, this`journal, this`disk, this`log
      ensures server.Valid() && Honest(origin, log, server.issued) && Anchored() && journal.phase.Destroying?
      ensures old(log) <= log && (ok ==> disk == journal && Stocked(log, journal) && LastTurn(Held(), log))
      ensures ok && old(server.inflight) == [] ==> server.inflight == []
      ensures server.quiet && Smooth(old(journal), old(server.objects), ns, namespaceExists) ==>
        && ok && Shrunk(old(server.objects), between) && Shrunk(between, server.objects)
        && (ns.Some? ==> ns.value.ref !in server.objects)
        && (forall o | o in Held() && GoesFirst(o.ref) :: o.ref !in between)
        && Tidy(journal.objects, server.objects, server.marks)
        && journal.derived == old(journal.derived) && journal.volumes == old(journal.volumes)
    {
      ok := DeleteFirst();
      between := server.objects;
      if !ok {
        return;
      }
      ghost var log1 := log;
      if !namespaceExists {
        MissingLater(Held(), old(log), log);
      }
      ok := DeleteNamespaceIfThere(ns, namespaceExists);
      assert old(log) <= log1 <= log;
    }

    method DeleteNamespaceIfThere(ns: Option<OwnedObject>, namespaceExists: bool) returns (ok: bool)
      requires server.Valid() && Honest(origin, log, server.issued) && Sound() && Anchored()
      requires disk == journal && journal.phase.Destroying? && Stocked(log, journal)
      requires ns.Some? ==> ns.value in Held() && ns.value.ref.kind.Namespace?
      requires (namespaceExists ==> ns.Some?) && FirstAbsent(Held(), log)
      requires !namespaceExists ==> NamespaceMissing(Held(), log)
      modifies server, this`journal, this`disk, this`log
      ensures server.Valid() && Honest(origin, log, server.issued) && Anchored() && journal.phase.Destroying?
      ensures old(log) <= log && (ok ==> disk == journal && Stocked(log, journal))
      ensures ok && old(server.inflight) == [] ==> server.inflight == []
      ensures server.quiet && |old(journal.derived)| <= MAX_DERIVED &&
              Tidy(old(journal.objects), old(server.objects), server.marks) &&
              (ns.Some? && !namespaceExists ==> ns.value.ref !in old(server.objects)) ==>
        && ok && Shrunk(old(server.objects), server.objects) && (ns.Some? ==> ns.value.ref !in server.objects)
        && Tidy(journal.objects, server.objects, server.marks)
        && journal.derived == old(journal.derived) && journal.volumes == old(journal.volumes)
      ensures ok ==> LastTurn(Held(), log)
    {
      ok := true;
      if namespaceExists {
        ok := DeleteNamespace(ns.value);
      }
    }

    ghost predicate Smooth(j: Journal, objects: map<Ref, Live>, ns: Option<OwnedObject>, namespaceExists: bool)
      reads this`origin
    {
      && Tidy(j.objects, objects, server.marks) && |j.derived| <= MAX_DERIVED
      && OneNamespace(Held(), ns) && (namespaceExists <==> ns.Some? && ns.value.ref in objects)
    }

    /** The second inventory and the Namespace itself, as the journal named it at the start. */
    method DeleteNamespace(ns: OwnedObject) returns (ok: bool)
      requires server.Valid() && Honest(origin, log, server.issued) && Sound() && Anchored()
      requires disk == journal && journal.phase.Destroying?
      requires ns in Held() && ns.ref.kind.Namespace? && FirstAbsent(Held(), log)
      requires Stocked(log, journal)
      modifies server, this`journal, this`disk, this`log
      ensures server.Valid() && Honest(origin, log, server.issued) && Anchored() && journal.phase.Destroying?
      ensures ok ==> disk == journal
      ensures old(log) <= log && (ok ==> Absent(ns.ref) in log)
      ensures ok && old(server.inflight) == [] ==> server.inflight == []
      ensures server.quiet && |old(journal.derived)| <= MAX_DERIVED && Tidy([ns], old(server.objects), server.marks) ==>
        && ok && server.objects == old(server.objects) - {ns.ref}
        && (ns.ref in old(server.objects) ==> (ns.ref, old(server.objects)[ns.ref].uid) in server.issued)
        && journal.derived == old(journal.derived) && journal.volumes == old(journal.volumes)
      ensures server.quiet && |old(journal.derived)| <= MAX_DERIVED &&
              Tidy(old(journal.objects), old(server.objects), server.marks) ==>
        && ok && server.objects == old(server.objects) - {ns.ref} && Tidy(journal.objects, server.objects, server.marks)
        && journal.derived == old(journal.derived) && journal.volumes == old(journal.volumes)
      ensures ok ==> Stocked(log, journal)
    {
      if Tidy(journal.objects, server.objects, server.marks) {
        CopyTidy(Held(), journal.objects, server.objects, server.marks, ns);
      }
      ok := Inventory();
      if !ok {
        return;
      }
      ghost var before, there := journal.objects, server.objects;
      PinnedEntry(Held(), Held(), ns);
      HeldEntry(Held(), journal.objects, ns);
      ok := DeleteOwned(ns);
      if Tidy(before, there, server.marks) {
        TidyAfter(before, journal.objects, there, server.marks, ns.ref);
      }
    }

    /**
     Waits for storage reclaim and sweeps the journal; `settled` is where the log stood when the
     last DELETE was done.
     */
    method VerifyGone() returns (ok: bool, ghost settled: nat)
      requires server.Valid() && Honest(origin, log, server.issued) && disk == journal
      requires Anchored()
      requires Stocked(log, journal)
      modifies server, this`journal, this`disk, this`log
      ensures Anchored()
      ensures server.Valid() && Honest(origin, log, server.issued) &&
              (old(server.inflight) == [] ==> server.inflight == [])
      ensures ok ==> SeenGone(log, settled, Everything(journal)) && Stocked(log, journal)
      ensures ok ==> StorageSeenGone(log, settled, journal.derived, namespace)
      ensures Calm(old(log), log)
      ensures server.quiet && VolumesOk(old(journal)) && AllGone(old(journal), old(server.objects)) ==> ok
    {
      settled := |log|;
      ok := WaitStorageAbsent();
      if !ok {
        return;
      }
      ghost var log1, storage := log, journal;
      ok := Sweep(journal.objects);
      if !ok {
        CalmTransitive(old(log), log1, log);
        return;
      }
      ghost var log2 := log;
      CalmTransitive(old(log), log1, log2);
      SeenGoneLater(log1, log2, settled, VolumeRefs(journal.volumes));
      SeenGoneFrom(log2, settled, |log1|, ObjectRefs(journal.objects));
      ok := Sweep(journal.derived);
      CalmTransitive(old(log), log2, log);
      if !ok {
        return;
      }
      SeenGoneLater(log2, log, settled, VolumeRefs(journal.volumes));
      SeenGoneLater(log2, log, settled, ObjectRefs(journal.objects));
      SeenGoneFrom(log, settled, |log2|, ObjectRefs(journal.derived));
      StorageSeenGoneLater(log1, log, settled, settled, journal.derived, namespace);
      StockedLater(old(log), log, old(journal), journal);
    }

    /**
     A journal whose installation can be destroyed completely: the guard passes, whatever is there under its
     names is marked as its own, there is one Namespace, and the storage behind it is reclaimed.
     */
    ghost predicate Clearable(j: Journal, objects: map<Ref, Live>) {
      && Listed(j.objects, server.plan) && Reclaimed(j, objects)
      && (forall a, b | a in j.objects && b in j.objects && a.ref.kind.Namespace? && b.ref.kind.Namespace? :: a == b)
      && Tidy(j.objects, objects, server.marks) && |j.derived| <= MAX_DERIVED
      && ((exists o :: o in j.objects && o.ref.kind.Namespace? && o.ref in objects) ||
          (forall r | r in ObjectRefs(j.objects) :: !r.kind.DataVolume?) ||
          (exists o :: o in j.derived && IsClaim(o, namespace)))
    }

    /**
     Destroys the installation. Whatever foreign actors do meanwhile, only marked objects of the plan are
     accepted for deletion (the server's invariant); every target, and everything the namespace was found to
     hold, was on disk before the next DELETE; objects go newest first, and the Namespace after a fresh listing
     and before the PriorityClass (the log); and before the first DELETE the namespace was listed, or was gone
     with its storage accounted for. Zero residue means that everything was seen absent after the last DELETE,
     with no volume of the namespace and no late backend of a claim. If nobody interferes, a clearable
     installation is destroyed completely.
     */
    method Destroy() returns (r: Report, ghost settled: nat)
      requires server.Valid() && SlotsDistinct(server.plan)
      requires disk == journal && log == [] && origin == Origin(journal, server.issued, None, [])
      modifies server, this`journal, this`disk, this`log, this`origin
      ensures server.Valid() && LogOk(old(journal.objects), log) && server.issued == old(server.issued) + Targets(log)
      ensures Targets(log) != [] ==> origin.saved.Some?
      ensures origin.saved.Some? ==> Reached(old(journal), origin) && Steady(origin.saved.value.objects, log)
      ensures origin.before <= log && (origin.saved.Some? ==> Targets(origin.before) == [])
      ensures Kept(old(journal), journal) && Kept(old(journal), disk)
      ensures r.zeroOwnedResidue ==> r.ok && SeenGone(log, settled, Everything(journal)) && origin.saved.Some?
      ensures r.zeroOwnedResidue ==> StorageSeenGone(log, settled, journal.derived, namespace) && Stocked(log, journal)
      ensures r.zeroOwnedResidue ==> Everything(old(journal)) <= Everything(journal)
      ensures r.zeroOwnedResidue && old(server.inflight) == [] ==> server.inflight == []
      ensures server.quiet && Clearable(old(journal), old(server.objects)) ==> r.zeroOwnedResidue
    {
      r := Report(false, false);
      var gone;
      gone, settled := Carry();
      Answered(old(journal), log);
      if !gone {
        return;
      }
      var removed: bool := *;
      removed := removed || server.quiet;
      r := Report(removed, removed);
      KeptEverything(old(journal), journal);
    }

    /** Everything but the report. */
    method Carry() returns (gone: bool, ghost settled: nat)
      requires server.Valid() && SlotsDistinct(server.plan)
      requires disk == journal && log == [] && origin == Origin(journal, server.issued, None, [])
      modifies server, this`journal, this`disk, this`log, this`origin
      ensures server.Valid() && Honest(origin, log, server.issued) && origin.issued == old(server.issued)
      ensures Anchored() && Kept(old(journal), origin.journal) && origin.before <= log
      ensures origin.saved.Some? ==> Reached(old(journal), origin)
      ensures gone ==> SeenGone(log, settled, Everything(journal)) && origin.saved.Some?
      ensures gone ==> StorageSeenGone(log, settled, journal.derived, namespace) && Stocked(log, journal)
      ensures gone && old(server.inflight) == [] ==> server.inflight == []
      ensures server.quiet && Clearable(old(journal), old(server.objects)) ==> gone
    {
      settled := 0;
      assert Honest(origin, log, server.issued) by { assert origin.issued + Targets(log) == origin.issued; }
      var ready, ns, namespaceExists := Preflight();
      var announced: bool := *;
      announced := announced || server.quiet;
      gone := false;
      if ready && announced {
        gone, settled := Finish(ns, namespaceExists);
      }
    }

    /** The recorded storage is well formed and gone. */
    ghost predicate Reclaimed(j: Journal, objects: map<Ref, Live>) {
      VolumesOk(j) && NoneOf(ObjectRefs(j.derived), objects) && NoneOf(VolumeRefs(j.volumes), objects)
    }

    /** The deletions, and the proof that nothing is left. */
    method Finish(ns: Option<OwnedObject>, namespaceExists: bool) returns (ok: bool, ghost settled: nat)
      requires server.Valid() && Honest(origin, log, server.issued) && Sound() && Anchored()
      requires disk == journal && journal.phase.Destroying?
      requires ns.Some? ==> ns.value in Held() && ns.value.ref.kind.Namespace?
      requires namespaceExists ==> ns.Some?
      requires Stocked(log, journal)
      requires !namespaceExists ==> NamespaceMissing(Held(), log)
      modifies server, this`journal, this`disk, this`log
      ensures server.Valid() && Honest(origin, log, server.issued) && Anchored()
      ensures ok && old(server.inflight) == [] ==> server.inflight == []
      ensures ok ==> SeenGone(log, settled, Everything(journal)) && Stocked(log, journal)
      ensures ok ==> StorageSeenGone(log, settled, journal.derived, namespace)
      ensures old(log) <= log
      ensures server.quiet && Smooth(old(journal), old(server.objects), ns, namespaceExists) ==>
                Reclaimed(old(journal), old(server.objects)) ==> ok
    {
      settled := 0;
      ok := DeleteAll(ns, namespaceExists);
      var announced: bool := *;
      announced := announced || server.quiet;
      if !ok || !announced {
        return false, settled;
      }
      LoyalNames(Held(), journal.objects);
      ok, settled := VerifyGone();
    }

    /** The run has saved the destroying phase, and answers from then on for what it saved. */
    ghost predicate Reached(start: Journal, origin: Origin) {
      && origin.saved.Some? && origin.saved.value.phase.Destroying? && Kept(start, origin.saved.value)
      && Targets(origin.before) == [] && Surveyed(origin.saved.value, origin.before, namespace)
      && origin.journal == origin.saved.value.(objects := Anchor(start.objects, origin.saved.value.objects))
    }

    /** What a run that answered for what it saved has done for the journal it was given. */
    lemma Answered(start: Journal, log: seq<Entry>)
      requires Anchored() && LogOk(Held(), log) && Kept(start, origin.journal)
      requires origin.saved.Some? ==> Reached(start, origin)
      ensures LogOk(start.objects, log) && Kept(start, journal) && Kept(start, disk)
      ensures origin.saved.Some? ==> Steady(origin.saved.value.objects, log)
    {
      LogOkEarlier(start.objects, Held(), log);
      KeptTransitive(start, origin.journal, journal);
      KeptTransitive(start, origin.journal, disk);
      if origin.saved.Some? {
        AnchorSteady(start.objects, origin.saved.value.objects, log);
      }
    }

    ghost method AnswerFor(start: Journal, ns: Option<OwnedObject>, there: bool)
      requires Honest(origin, log, server.issued) && origin.journal == start && origin.saved.None?
      requires disk == journal && journal.phase.Destroying? && Kept(start, journal)
      requires InPlan(start.objects, server.plan) && DistinctRefs(start.objects) && SlotsDistinct(server.plan)
      requires Surveyed(journal, log, namespace)
      requires !there ==> NamespaceMissing(journal.objects, log)
      modifies this`origin
      ensures Honest(origin, log, server.issued) && Sound() && Anchored() && Kept(start, origin.journal)
      ensures origin.issued == old(origin.issued) && origin.saved == Some(disk) && origin.before == log
      ensures Reached(start, origin)
      ensures OneNamespace(start.objects, ns) ==> OneNamespace(Held(), ns)
      ensures ns.Some? && ns.value in start.objects && ns.value.ref.kind.Namespace? ==> ns.value in Held()
      ensures !there ==> NamespaceMissing(Held(), log)
    {
      origin := Origin(disk.(objects := Anchor(Held(), disk.objects)), origin.issued, Some(disk), log);
      AnchorSound(start.objects, disk.objects, server.plan, ns);
      NothingSent(log, Held());
      if !there {
        LoyalBack(Held(), journal.objects, log);
      }
      forall o | o in Held() && o.ref.kind.Namespace?
        ensures o in start.objects
      {
        var i :| 0 <= i < |Held()| && Held()[i] == o;
        assert start.objects[i] == o;
      }
    }

    /** Everything before the first DELETE. */
    method Preflight() returns (ok: bool, ns: Option<OwnedObject>, namespaceExists: bool)
      requires server.Valid() && Honest(origin, log, server.issued) && SlotsDistinct(server.plan)
      requires disk == journal == origin.journal && origin.saved.None?
      requires log == []
      modifies server, this`journal, this`disk, this`log, this`origin
      ensures server.Valid() && Honest(origin, log, server.issued) &&
              (old(server.inflight) == [] ==> server.inflight == [])
      ensures Anchored() && origin.issued == old(origin.issued) && Kept(old(journal), origin.journal)
      ensures origin == old(origin) || (Reached(old(journal), origin) && origin.before == log)
      ensures ok ==> Stocked(log, journal) && origin.before == log
      ensures ok ==> Sound() && disk == journal && journal.phase.Destroying? && origin.saved == Some(disk)
      ensures ns.Some? ==> ns.value in Held() && ns.value.ref.kind.Namespace?
      ensures ok && namespaceExists ==> ns.Some?
      ensures server.quiet && Clearable(old(journal), old(server.objects)) ==>
        && ok && Smooth(journal, server.objects, ns, namespaceExists) && server.objects == old(server.objects)
        && journal.objects == Learnt(old(journal.objects), server.objects)
        && journal.derived == old(journal.derived) && journal.volumes == old(journal.volumes)
      ensures ok && !namespaceExists ==> NamespaceMissing(Held(), log)
    {
      ns, namespaceExists := None, false;
      ok := CheckJournal();
      if !ok {
        return;
      }
      ns := FindNamespace();
      if Clearable(journal, server.objects) {
        ClearableIsRemovable(journal, server.objects, ns);
        LearntTidy(journal.objects, server.objects, server.marks);
      }
      assert NamespaceOf(ns, journal.objects);
      ok, namespaceExists := Prepare(ns);
      if ok {
        AnswerFor(old(journal), ns, namespaceExists);
      }
    }

    /** The journal is sound, its volumes are well formed, and the cluster is the right one. */
    method CheckJournal() returns (ok: bool)
      requires server.Valid() && Honest(origin, log, server.issued)
      modifies server
      ensures server.Valid() && Honest(origin, log, server.issued) &&
              (old(server.inflight) == [] ==> server.inflight == [])
      ensures ok ==> InPlan(journal.objects, server.plan) && DistinctRefs(journal.objects)
      ensures server.quiet ==> server.objects == old(server.objects)
      ensures server.quiet && Listed(journal.objects, server.plan) && VolumesOk(journal) ==> ok
    {
      ok := CheckGuard();
      if ok {
        ok := ValidateRecordedVolumes();
      }
      if ok {
        ok := server.Probe();
      }
    }

    lemma ClearableIsRemovable(j: Journal, objects: map<Ref, Live>, ns: Option<OwnedObject>)
      requires Clearable(j, objects)
      requires ns.Some? ==> ns.value in j.objects && ns.value.ref.kind.Namespace?
      requires ns.None? ==> forall o | o in j.objects :: !o.ref.kind.Namespace?
      ensures Removable(j, objects, ns) && OneNamespace(j.objects, ns)
    {
    }
  }

  /**
   A run that failed is resumed from the journal on disk, over a server that still has its requests in flight.
   Nothing was forgotten in between: zero residue of the second run covers everything the first was given.
   */
  method DestroyAgain(server: Server, namespace: string, journal: Journal)
    returns (r: Report, ghost resumed: Journal, ghost log: seq<Entry>, ghost settled: nat)
    requires server.Valid() && SlotsDistinct(server.plan)
    modifies server
    ensures server.Valid() && Kept(journal, resumed)
    ensures r.zeroOwnedResidue ==>
              SeenGone(log, settled, Everything(resumed)) && Everything(journal) <= Everything(resumed)
  {
    var first := new Engine(server, namespace, journal);
    r, settled := first.Destroy();
    resumed, log := first.journal, first.log;
    if !r.zeroOwnedResidue {
      var second := new Engine(server, namespace, first.disk);
      r, settled := second.Destroy();
      KeptTransitive(journal, first.disk, second.journal);
      resumed, log := second.journal, second.log;
    }
    KeptEverything(journal, resumed);
  }

  // ---------------------------------------------------------------------------
  // When the UID of a target is determined

  /** The ownership check admits objects of one UID only if and only if the entry it is given holds a UID. */
  lemma UidPinnedExactly(owned: OwnedObject, marks: Marks)
    ensures owned.uid != "" <==>
      forall x, y | ReadOwned(x, owned, marks) && ReadOwned(y, owned, marks) :: x.uid == y.uid
  {
    if owned.uid == "" {
      var x := Live(owned.ref, "a", 0, marks, "", "", "", "", true);
      var y := x.(uid := "b");
      assert ReadOwned(x, owned, marks) && ReadOwned(y, owned, marks);
    }
  }

  const DEV := Ref("v1", Namespace, "namespaces", "", "dev")
  const DEV_LIVE := Live(DEV, "first", 0, Marks("installation", "nonce", "profile"), "", "", "", "", true)

  /** A Namespace that the journal names without a UID, up to the first DELETE of its destruction. */
  method NamespaceLearnt() returns (engine: Engine)
    ensures fresh(engine) && fresh(engine.server) && engine.server.quiet && engine.server.marks == DEV_LIVE.marks
    ensures engine.server.Valid() && Honest(engine.origin, engine.log, engine.server.issued)
    ensures engine.Held() == [OwnedObject(DEV, "")] && engine.Sound() && engine.Anchored()
    ensures Stocked(engine.log, engine.journal)
    ensures engine.disk == engine.journal == Journal(Destroying, [OwnedObject(DEV, "first")], [], [])
  {
    var server := new Server({DEV}, DEV_LIVE.marks, true);
    server.Put(DEV, DEV_LIVE);
    engine := new Engine(server, "dev", Journal(Ready, [OwnedObject(DEV, "")], [], []));
    assert engine.origin.issued + Targets(engine.log) == engine.server.issued;
    assert engine.Clearable(engine.journal, server.objects) by {
      assert engine.journal.objects[0].ref.kind.Namespace? && engine.journal.objects[0] in engine.journal.objects;
    }
    var ready, ns, there := engine.Preflight();
    assert engine.journal.objects == [OwnedObject(DEV, "first")];
  }

  /**
   The exception at work: the journal names the Namespace without a UID, the first part of a destruction learns
   and saves one, a foreign actor replaces the Namespace, and the DELETE carries the other UID.
   */
  method NamespaceReplaced() returns (recorded: Journal, ghost issued: seq<(Ref, string)>)
    ensures recorded.objects == [OwnedObject(DEV, "first")] && (DEV, "second") in issued
  {
    var engine := NamespaceLearnt();
    recorded := engine.disk;
    engine.server.Put(DEV, DEV_LIVE.(uid := "second"));
    var ok := engine.DeleteNamespace(OwnedObject(DEV, ""));
    issued := engine.server.issued;
  }
}
