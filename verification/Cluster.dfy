/**
 The API server as the development installer sees it: objects with identities and
 resource versions, foreign actors who may do anything between two calls, and DELETE
 requests guarded by UID and resourceVersion that may be accepted late.
 */
module Cluster {
  import opened Options

  datatype Kind = Namespace | PriorityClass | DataVolume | PersistentVolumeClaim | PersistentVolume | LonghornVolume
      | OtherKind(name: string)

  /** The address of an API object. */
  datatype Ref = Ref(apiVersion: string, kind: Kind, resource: string, namespace: string, name: string)

  /** The installation's owner label, owner nonce and profile digest. */
  datatype Marks = Marks(installation: string, nonce: string, profile: string)

  /** One version of an API object. `self` is the identity it states; the rest is what storage objects carry. */
  datatype Live = Live(self: Ref, uid: string, rv: nat, marks: Marks,
                       claimUid: string, claimNamespace: string, volumeName: string, handle: string, sane: bool)

  datatype Version = Version(ref: Ref, live: Live)

  datatype Request = Request(ref: Ref, uid: string, rv: nat)

  datatype GetReply = Found(live: Live) | NotFound | Unavailable

  datatype DeleteReply = Deleted | DeleteNotFound | DeleteFailed

  datatype Event =
    | ForeignPut(ref: Ref, live: Live)
    | ForeignRemove(ref: Ref)
    | Accept(i: nat, immediate: bool)

  /** What this installation may delete, and the marks a target must carry. */
  ghost predicate Ours(v: Version, plan: set<Ref>, marks: Marks) {
    v.ref in plan && v.live.marks == marks && v.live.self == v.ref
  }

  class Server {
    const plan: set<Ref>
    const marks: Marks
    /** On a quiet server nobody else acts, every request is answered, and a deletion takes effect at once. */
    const quiet: bool
    var objects: map<Ref, Live>
    var next: nat                       // the next resourceVersion
    var inflight: seq<Request>          // DELETE requests whose reply was lost
    ghost var versions: map<nat, Version>
    ghost var issued: seq<(Ref, string)>  // the targets of every DELETE this client has sent
    ghost var accepted: seq<Version>    // the exact versions this client's DELETEs were accepted for

    constructor (plan: set<Ref>, marks: Marks, quiet: bool)
      ensures Valid() && this.plan == plan && this.marks == marks && this.quiet == quiet
      ensures objects == map[] && inflight == [] && issued == [] && accepted == []
    {
      this.plan, this.marks, this.quiet := plan, marks, quiet;
      objects, next, inflight := map[], 0, [];
      versions, issued, accepted := map[], [], [];
    }

    /** A resourceVersion names one version for ever, and only own marked versions are ever accepted for deletion. */
    ghost predicate Valid()
      reads this
    {
      && (forall k | k in versions :: k < next && versions[k].live.rv == k)
      && (forall r | r in objects :: objects[r].rv in versions && versions[objects[r].rv] == Version(r, objects[r]))
      && (forall q | q in inflight ::
            q.rv in versions && versions[q.rv].ref == q.ref && Ours(versions[q.rv], plan, marks) &&
            (q.ref, q.uid) in issued)
      && (forall v | v in accepted :: Ours(v, plan, marks) && (v.ref, v.live.uid) in issued)
    }

    /** Time only adds versions and accepted deletions. */
    twostate predicate Later()
      reads this
    {
      && old(next) <= next
      && (forall k | k in old(versions) :: k in versions && versions[k] == old(versions)[k])
      && issued == old(issued)
      && old(accepted) <= accepted
      && (old(inflight) == [] ==> inflight == [] && accepted == old(accepted))
    }

    method Put(ref: Ref, live: Live)
      requires Valid()
      modifies this
      ensures Valid() && Later() && objects == old(objects)[ref := live.(rv := old(next))]
      ensures inflight == old(inflight) && accepted == old(accepted)
    {
      var stored := live.(rv := next);
      objects := objects[ref := stored];
      versions := versions[next := Version(ref, stored)];
      next := next + 1;
    }

    /** The preconditions hold: the object goes at once, or is marked and left to its finalizers. */
    method Process(q: Request, immediate: bool) returns (reply: DeleteReply)
      requires Valid() && q.rv in versions && versions[q.rv].ref == q.ref && Ours(versions[q.rv], plan, marks)
      requires (q.ref, q.uid) in issued
      modifies this
      ensures Valid() && inflight == old(inflight) && issued == old(issued) && old(next) <= next
      ensures forall k | k in old(versions) :: k in versions && versions[k] == old(versions)[k]
      ensures old(accepted) <= accepted
      ensures reply.Deleted? <==>
              q.ref in old(objects) && old(objects)[q.ref].uid == q.uid && old(objects)[q.ref].rv == q.rv
      ensures !reply.Deleted? ==> accepted == old(accepted) && objects == old(objects)
      ensures reply.Deleted? ==> accepted == old(accepted) + [Version(q.ref, old(objects)[q.ref])]
      ensures reply.Deleted? && immediate ==> objects == old(objects) - {q.ref}
      ensures reply.DeleteNotFound? <==> q.ref !in old(objects)
    {
      if q.ref in objects && objects[q.ref].uid == q.uid && objects[q.ref].rv == q.rv {
        accepted := accepted + [Version(q.ref, objects[q.ref])];
        if immediate {
          objects := objects - {q.ref};
        } else {
          Put(q.ref, objects[q.ref]);
        }
        return Deleted;
      }
      reply := if q.ref in objects then DeleteFailed else DeleteNotFound;
    }

    method Elapse()
      requires Valid()
      modifies this
      ensures Valid() && Later()
      ensures quiet ==> objects == old(objects)
    {
      if quiet {
        return;
      }
      var n: nat := *;
      while n > 0
        invariant Valid() && Later()
      {
        var e: Event := *;
        match e {
          case ForeignPut(ref, live) =>
            Put(ref, live);
          case ForeignRemove(ref) =>
            objects := objects - {ref};
          case Accept(i, immediate) =>
            if i < |inflight| {
              var q := inflight[i];
              inflight := inflight[..i] + inflight[i + 1..];
              var _ := Process(q, immediate);
            }
        }
        n := n - 1;
      }
    }

    method Probe() returns (ok: bool)
      requires Valid()
      modifies this
      ensures Valid() && Later()
      ensures quiet ==> ok && objects == old(objects)
    {
      Elapse();
      ok := *;
      ok := ok || quiet;
    }

    method Get(ref: Ref) returns (r: GetReply)
      requires Valid()
      modifies this
      ensures Valid() && Later()
      ensures r.NotFound? ==> ref !in objects
      ensures r.Found? ==> r.live.rv in versions && versions[r.live.rv] == Version(ref, r.live)
      ensures quiet ==> objects == old(objects) && r == if ref in objects then Found(objects[ref]) else NotFound
    {
      Elapse();
      var ok := *;
      if !ok && !quiet {
        r := Unavailable;
      } else if ref in objects {
        r := Found(objects[ref]);
      } else {
        r := NotFound;
      }
    }

    /** DELETE with UID and resourceVersion preconditions; a lost reply leaves the request on its way. */
    method Delete(ref: Ref, uid: string, rv: nat) returns (r: DeleteReply)
      requires Valid() && rv in versions && versions[rv].ref == ref && Ours(versions[rv], plan, marks)
      modifies this
      ensures Valid() && issued == old(issued) + [(ref, uid)]
      ensures forall k | k in old(versions) :: k in versions && versions[k] == old(versions)[k]
      ensures !r.DeleteFailed? && old(inflight) == [] ==> inflight == []
      ensures quiet && ref in old(objects) && old(objects)[ref].uid == uid && old(objects)[ref].rv == rv ==>
        r.Deleted? && objects == old(objects) - {ref}
    {
      Elapse();
      var lost, immediate: bool := *, *;
      lost, immediate := lost && !quiet, immediate || quiet;
      var q := Request(ref, uid, rv);
      issued := issued + [(ref, uid)];
      if lost {
        inflight := inflight + [q];
        return DeleteFailed;
      }
      r := Process(q, immediate);
    }

    /**
     Some listing of stored volumes; only its entries' own identities are relied on. On a quiet
     server storage is reclaimed.
     */
    method List() returns (r: Option<seq<Live>>)
      requires Valid()
      modifies this
      ensures Valid() && Later()
      ensures quiet ==> r == Some([]) && objects == old(objects)
    {
      Elapse();
      var ok := *;
      var items: seq<Live> := *;
      r := if quiet then Some([]) else if ok then Some(items) else None;
    }
  }
}
