/**
 The clients the executor talks through. Every call first lets an arbitrary amount of
 outside activity happen and then acts; a reply may be lost, and what a lost reply
 leaves behind is up to the server. A `cooperative` connection loses nothing and has no
 outside activity, but its server still refuses to write the paths in `rejects`.
 */
module OpenBaoClient {
  import opened Options
  import opened OpenBaoWorld

  datatype WriteReply = Ok(obj: Object) | Rejected | Forbidden | Ambiguous {
    predicate DefinitelyRejected() { Rejected? || Forbidden? }
  }

  datatype LoginReply = LoggedIn(token: Option<Token>) | LoginRejected | LoginForbidden | LoginAmbiguous

  datatype UnwrapReply = Unwrapped(token: Token) | UnwrapRejected | UnwrapAmbiguous

  datatype WrapReply = Wrapped(wrapper: Token, child: Token) | WrapRejected | WrapAmbiguous

  datatype LeaseReply = Updated(rv: nat) | Inexact | UpdateRejected | UpdateAmbiguous

  datatype TokenFacts = TokenFacts(policies: seq<string>, accessor: string, bounded: bool)

  /** Who logs in: the contract's workload, or one of the identities that must be turned away. */
  datatype Identity = Workload | Stranger(n: nat)

  datatype Signin = Signin(who: Identity, reply: LoginReply)

  /** A question with an answer that does not depend on the modelled state. */
  datatype Question =
    | Health
    | Boundary
    | RootProfile
    | SameServiceAccount
    | TokenIssued(who: Identity)
    | ManagementCapabilities(t: Token)
    | ExactLogin(t: Token)
    | WorkloadCapabilities(t: Token)
    | SiblingDenied(t: Token)
    | MetadataDenied(t: Token)

  /** What a reply has told the caller; `bearer` is the token a read was made with, none for the root credential. */
  datatype Note =
    | Affirmed(question: Question)
    | Shown(bearer: Option<Token>, path: Path, found: Option<Object>)
    | RolesShown(names: set<string>)
    | Acknowledged(path: Path, reply: Object)
    | Facts(t: Token, facts: TokenFacts)
    | Denied(t: Token)
    | TokenUnwrapped(t: Token)
    | LeaseWritten(holder: string)
    | LeaseShown(holder: string)

  class Connection {
    const cooperative: bool
    const rejects: set<Path>
    const facts: TokenFacts
    var w: World
    var view: View
    ghost var seen: set<Note>
    ghost var signins: seq<Signin>

    constructor (w: World, cooperative: bool, rejects: set<Path>, facts: TokenFacts)
      ensures this.w == w && this.cooperative == cooperative && this.rejects == rejects && this.facts == facts
      ensures view == View(map[], Unlistable) && seen == {} && signins == []
    {
      this.w := w;
      this.cooperative := cooperative;
      this.rejects := rejects;
      this.facts := facts;
      view, seen, signins := View(map[], Unlistable), {}, [];
    }

    /** Nothing that was noted is forgotten, and nobody has logged in meanwhile. */
    twostate predicate Noted()
      reads this
    {
      old(seen) <= seen && signins == old(signins)
    }

    /** Outside activity of any length. */
    method Elapse()
      requires WF(w)
      modifies this`w
      ensures Evolves(old(w), w) && Reaches(old(w), w)
      ensures cooperative ==> w == old(w)
    {
      EvolvesReflexive(w);
      ReachesItself(w);
      if cooperative {
        return;
      }
      var n: nat := *;
      while n > 0
        invariant WF(w) && Evolves(old(w), w) && Reaches(old(w), w)
      {
        var e: Event := *;
        StepEvolves(w, e);
        EvolvesTransitive(old(w), w, Step(w, e));
        ReachesStep(old(w), w, e);
        w := Step(w, e);
        n := n - 1;
      }
    }

    method Probe(q: Question) returns (ok: bool)
      requires WF(w)
      modifies this`w, this`seen
      ensures Evolves(old(w), w) && Reaches(old(w), w)
      ensures seen == if ok then old(seen) + {Affirmed(q)} else old(seen)
      ensures cooperative ==> ok && w == old(w)
    {
      Elapse();
      ok := *;
      ok := ok || cooperative;
      if ok {
        seen := seen + {Affirmed(q)};
      }
    }

    method Read(bearer: Option<Token>, p: Path) returns (r: ReadReply)
      requires WF(w)
      modifies this`w, this`view, this`seen
      ensures Evolves(old(w), w) && Reaches(old(w), w)
      ensures view == old(view).(shown := old(view.shown)[p := r])
      ensures seen == if r.Got? then old(seen) + {Shown(bearer, p, r.found)} else old(seen)
      ensures r.Got? ==> r.found == Get(w.store, p)
      ensures cooperative ==> r.Got? && w == old(w)
    {
      Elapse();
      var ok := *;
      r := if ok || cooperative then Got(Get(w.store, p)) else Unreadable;
      view := view.(shown := view.shown[p := r]);
      if r.Got? {
        seen := seen + {Shown(bearer, p, r.found)};
      }
    }

    method ListRoles() returns (r: ListReply)
      requires WF(w)
      modifies this`w, this`view, this`seen
      ensures Evolves(old(w), w) && Reaches(old(w), w)
      ensures view == old(view).(roles := r)
      ensures seen == if r.Listed? then old(seen) + {RolesShown(r.names)} else old(seen)
      ensures r.Listed? ==> r.names == RoleNames(w.store)
      ensures cooperative ==> r.Listed? && w == old(w)
    {
      Elapse();
      var ok := *;
      r := if ok || cooperative then Listed(RoleNames(w.store)) else Unlistable;
      view := view.(roles := r);
      if r.Listed? {
        seen := seen + {RolesShown(r.names)};
      }
    }

    method Write(p: Path, body: string) returns (r: WriteReply, ghost mid: World)
      requires WF(w)
      modifies this`w, this`seen
      ensures Evolves(old(w), mid) && WF(w)
      ensures seen == if r.Ok? then old(seen) + {Acknowledged(p, r.obj)} else old(seen)
      ensures r.Ok? ==>
                Accepts(mid.store, p) && w == Asked(mid, p, ToPut(p, body, view)).(store := mid.store[p := r.obj])
      ensures r.DefinitelyRejected() ==> w == Asked(mid, p, ToPut(p, body, view))
      ensures r.Ambiguous? ==> w.(store := mid.store, inflight := mid.inflight) == Asked(mid, p, ToPut(p, body, view))
      ensures cooperative ==> mid == old(w)
      ensures cooperative && (p in rejects || !Accepts(mid.store, p)) ==> r == Rejected
      ensures cooperative && p !in rejects && Accepts(mid.store, p) ==>
                r.Ok? && r.obj.body == body && r.obj.uuid != "" && r.obj.accessor != "" &&
                r.obj.version == 1 && r.obj.modified != "" && !r.obj.deleted
    {
      Elapse();
      mid := w;
      w := Asked(w, p, ToPut(p, body, view));
      if cooperative {
        if p in rejects || !Accepts(w.store, p) {
          return Rejected, mid;
        }
        var created := Object(body, "uuid", "accessor", 1, "modified", false);
        w := w.(store := w.store[p := created]);
        seen := seen + {Acknowledged(p, created)};
        return Ok(created), mid;
      }
      var stored: Object := *;
      var lost, applied, late, forbidden: bool := *, *, *, *;
      if lost {
        if applied {
          w := w.(store := Commit(w.store, Put(p, stored)));
        } else if late {
          w := w.(inflight := w.inflight + [Put(p, stored)]);
        }
        return Ambiguous, mid;
      }
      if applied && Accepts(w.store, p) {
        w := w.(store := w.store[p := stored]);
        seen := seen + {Acknowledged(p, stored)};
        return Ok(stored), mid;
      }
      r := if forbidden then Forbidden else Rejected;
    }

    method Delete(p: Path) returns (ghost mid: World)
      requires WF(w)
      modifies this`w
      ensures Evolves(old(w), mid) && WF(w)
      ensures w.(store := mid.store, inflight := mid.inflight) == Asked(mid, p, ToRemove(p, view))
      ensures if w.inflight == mid.inflight then w.store == mid.store || w.store == Without(mid.store, p)
              else w.inflight == mid.inflight + [Remove(p)] && w.store == mid.store
      ensures cooperative ==>
                mid == old(w) && w == Asked(mid, p, ToRemove(p, view)).(store := Without(mid.store, p))
    {
      Elapse();
      mid := w;
      w := Asked(w, p, ToRemove(p, view));
      var applied, late: bool := *, *;
      if applied || cooperative {
        w := w.(store := Without(w.store, p));
      } else if late {
        w := w.(inflight := w.inflight + [Remove(p)]);
      }
    }

    // -------------------------------------------------------------------------
    // Tokens

    method LookupSelf(t: Token) returns (r: Option<TokenFacts>)
      requires WF(w)
      modifies this`w, this`seen
      ensures seen == if r.Some? then old(seen) + {Facts(t, r.value)} else old(seen)
      ensures Evolves(old(w), w) && Reaches(old(w), w)
      ensures r.Some? ==> t in w.live && t.mayLookup
      ensures cooperative ==> w == old(w) && (t in w.live && t.mayLookup ==> r == Some(facts))
    {
      Elapse();
      var ok := *;
      var said: TokenFacts := *;
      if t in w.live && t.mayLookup && (ok || cooperative) {
        r := Some(if cooperative then facts else said);
        seen := seen + {Facts(t, r.value)};
      } else {
        r := None;
      }
    }

    method RevokeSelf(t: Token)
      requires WF(w)
      modifies this`w
      ensures Evolves(old(w), w) && Reaches(old(w), w)
      ensures cooperative ==> w == old(w).(live := old(w).live - {t})
    {
      Elapse();
      var applied := *;
      if applied || cooperative {
        StepEvolves(w, Expire(t));
        EvolvesTransitive(old(w), w, Step(w, Expire(t)));
        ReachesStep(old(w), w, Expire(t));
        w := w.(live := w.live - {t});
      }
    }

    /** Success means that lookup-self answered 403 for this token. */
    method ExpectForbidden(t: Token) returns (ok: bool)
      requires WF(w)
      modifies this`w, this`seen
      ensures seen == if ok then old(seen) + {Denied(t)} else old(seen)
      ensures Evolves(old(w), w) && Reaches(old(w), w)
      ensures ok ==> t !in w.live || !t.mayLookup
      ensures cooperative ==> w == old(w) && (t !in w.live ==> ok)
    {
      Elapse();
      ok := *;
      ok := (t !in w.live || !t.mayLookup) && (ok || cooperative);
      if ok {
        seen := seen + {Denied(t)};
      }
    }

    method Unwrap() returns (r: UnwrapReply, ghost mid: World)
      requires WF(w)
      modifies this`w, this`seen
      ensures seen == if r.Unwrapped? then old(seen) + {TokenUnwrapped(r.token)} else old(seen)
      ensures Evolves(old(w), mid) && WF(w)
      ensures r.Unwrapped? ==>
                w == if r.token in mid.known then mid.(handed := mid.handed + {r.token}) else Mint(mid, r.token)
      ensures !r.Unwrapped? ==> w == mid
      ensures cooperative ==> mid == old(w) && r.Unwrapped? && r.token !in mid.known && r.token.mayLookup
    {
      Elapse();
      mid := w;
      if cooperative {
        var t := FreshToken(w.known);
        w := Mint(w, t);
        seen := seen + {TokenUnwrapped(t)};
        return Unwrapped(t), mid;
      }
      var ok, rejected: bool := *, *;
      var t: Token := *;
      if ok {
        w := if t in w.known then w.(handed := w.handed + {t}) else Mint(w, t);
        seen := seen + {TokenUnwrapped(t)};
        return Unwrapped(t), mid;
      }
      r := if rejected then UnwrapRejected else UnwrapAmbiguous;
    }

    /** A login; the contract expects every stranger to be forbidden. */
    method Login(who: Identity) returns (r: LoginReply, ghost mid: World)
      requires WF(w)
      modifies this`w, this`signins
      ensures signins == old(signins) + [Signin(who, r)]
      ensures Evolves(old(w), mid) && WF(w)
      ensures r.LoggedIn? && r.token.Some? ==> r.token.value !in mid.known && w == Mint(mid, r.token.value)
      ensures r.LoginRejected? || r.LoginForbidden? ==> w == mid
      ensures r.LoginAmbiguous? || r == LoggedIn(None) ==>
                mid.known <= w.known && w.(known := mid.known, live := mid.live, handed := mid.handed,
                                           mints := mid.mints) == mid
      ensures cooperative ==> mid == old(w)
      ensures cooperative && who.Stranger? ==> r == LoginForbidden
      ensures cooperative && who.Workload? ==> r.LoggedIn? && r.token.Some? && r.token.value.mayLookup
    {
      Elapse();
      mid := w;
      if cooperative {
        if who.Stranger? {
          signins := signins + [Signin(who, LoginForbidden)];
          return LoginForbidden, mid;
        }
        var t := FreshToken(w.known);
        w := Mint(w, t);
        signins := signins + [Signin(who, LoggedIn(Some(t)))];
        return LoggedIn(Some(t)), mid;
      }
      var ok, forbidden, lost, minted, late: bool := *, *, *, *, *;
      var t: Token := *;
      if lost {
        if minted && t !in w.known {
          w := Mint(w, t);
        } else if late {
          w := w.(mints := w.mints + 1);
        }
        r := if ok then LoggedIn(None) else LoginAmbiguous;
      } else if ok && t !in w.known {
        w := Mint(w, t);
        r := LoggedIn(Some(t));
      } else {
        r := if forbidden then LoginForbidden else LoginRejected;
      }
      signins := signins + [Signin(who, r)];
    }

    /** Mints a wrapping token and the child token it wraps; neither has been handed to a run yet. */
    method CreateWrappedToken() returns (r: WrapReply, ghost mid: World)
      requires WF(w)
      modifies this`w
      ensures Evolves(old(w), mid) && WF(w)
      ensures r.Wrapped? ==> r.wrapper !in mid.known && r.child !in mid.known &&
                             w == mid.(known := mid.known + {r.wrapper, r.child}, live := mid.live +
                                       {r.wrapper, r.child})
      ensures r.WrapRejected? ==> w == mid
      ensures r.WrapAmbiguous? ==> w.(known := mid.known, live := mid.live) == mid
      ensures cooperative ==> mid == old(w) && r.Wrapped?
    {
      Elapse();
      mid := w;
      var ok, lost, minted: bool := *, *, *;
      if cooperative {
        ok, lost := true, false;
      }
      var wrapper := FreshToken(w.known);
      var child := FreshToken(w.known + {wrapper});
      if lost {
        if minted {
          w := w.(known := w.known + {wrapper, child}, live := w.live + {wrapper, child});
        }
        r := WrapAmbiguous;
      } else if ok {
        w := w.(known := w.known + {wrapper, child}, live := w.live + {wrapper, child});
        r := Wrapped(wrapper, child);
      } else {
        r := WrapRejected;
      }
    }

    method AccessorPresent(t: Token) returns (r: Option<bool>)
      requires WF(w)
      modifies this`w
      ensures Evolves(old(w), w)
      ensures r.Some? ==> (r.value <==> t in w.live)
      ensures cooperative ==> w == old(w) && r.Some?
    {
      Elapse();
      var ok := *;
      r := if ok || cooperative then Some(t in w.live) else None;
    }

    method RevokeAccessor(t: Token) returns (ok: bool)
      requires WF(w)
      modifies this`w
      ensures Evolves(old(w), w)
      ensures ok ==> t !in w.live
      ensures cooperative ==> ok && w == old(w).(live := old(w).live - {t})
    {
      RevokeSelf(t);
      ok := *;
      ok := (ok || cooperative) && t !in w.live;
    }

    // -------------------------------------------------------------------------
    // The Lease

    method GetLease() returns (r: Option<LeaseUpdate>, ghost mid: World)
      requires WF(w)
      modifies this`w, this`seen
      ensures seen == if r.Some? then old(seen) + {LeaseShown(r.value.holder)} else old(seen)
      ensures Evolves(old(w), mid) && WF(w)
      ensures r.None? ==> w == mid
      ensures r.Some? ==>
                r.value == LeaseUpdate(|mid.lease| - 1, mid.lease[|mid.lease| - 1].holder) && w == mid.(leaseSeen := r)
      ensures cooperative ==> mid == old(w) && r.Some?
    {
      Elapse();
      mid := w;
      var ok := *;
      if ok || cooperative {
        r := Some(LeaseUpdate(|w.lease| - 1, w.lease[|w.lease| - 1].holder));
        w := w.(leaseSeen := r);
        seen := seen + {LeaseShown(r.value.holder)};
      } else {
        r := None;
      }
    }

    /** A compare-and-swap on the resourceVersion. */
    method UpdateLease(rv: nat, holder: string) returns (r: LeaseReply, ghost mid: World)
      requires WF(w) && rv < |w.lease|
      modifies this`w, this`seen
      ensures seen == if r.Updated? then old(seen) + {LeaseWritten(holder)} else old(seen)
      ensures Evolves(old(w), mid) && WF(w)
      ensures r.Updated? ==> rv + 1 == |mid.lease| == r.rv && w == Append(mid, holder, true)
      ensures r.UpdateRejected? ==> w == mid
      ensures r.Inexact? || r.UpdateAmbiguous? ==> w.(lease := mid.lease, leaseInflight := mid.leaseInflight) == mid
      ensures mid.lease <= w.lease
      ensures cooperative ==> mid == old(w) && (rv + 1 == |mid.lease| ==> r.Updated?)
    {
      Elapse();
      mid := w;
      var ok, lost, late, inexact: bool := *, *, *, *;
      if cooperative {
        ok, lost := true, false;
      }
      if lost {
        if ok && rv + 1 == |w.lease| {
          w := Append(w, holder, true);
        } else if late {
          w := w.(leaseInflight := w.leaseInflight + [LeaseUpdate(rv, holder)]);
        }
        r := if inexact then Inexact else UpdateAmbiguous;
      } else if ok && rv + 1 == |w.lease| {
        w := Append(w, holder, true);
        r := Updated(rv + 1);
        seen := seen + {LeaseWritten(holder)};
      } else {
        r := UpdateRejected;
      }
    }
  }

  /** A token the server has never minted, allowed to look itself up. */
  method FreshToken(known: set<Token>) returns (t: Token)
    ensures t !in known && t.mayLookup
  {
    var n: nat := 0;
    var rest := known;
    while rest != {}
      invariant rest <= known
      invariant forall u | u in known && u !in rest :: u.id < n
    {
      var u :| u in rest;
      if n <= u.id {
        n := u.id + 1;
      }
      rest := rest - {u};
    }
    t := Token(n, true);
  }
}
