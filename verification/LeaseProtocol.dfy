/**
 The exclusive Lease as a compare-and-swap register shared by any number of executors.
 Every update travels as a message that may be delivered late or never and whose reply
 may be lost; each executor that holds the Lease also runs a renewal thread.
 */
module LeaseProtocol {
  import opened Options

  datatype Kind = Acquire | Renew | Release

  datatype Delivery = Sent | Committed(rv: nat) | Conflicted

  /** An update of the Lease, guarded by the resourceVersion it was based on. */
  datatype Message = Message(sender: nat, kind: Kind, rv: nat, holder: string, delivery: Delivery)

  /** The executor's main thread. */
  datatype Phase =
    | Starting
    | SawEmpty(rv: nat)
    | Acquiring(id: nat)
    | Holding
    | StoppingToRelease
    | StoppingToAbandon
    | Releasing(id: nat)
    | ReadingBack(rv: nat)
    | Released
    | Ended

  /** The renewal thread. */
  datatype Renewal = Off | Waiting | Renewing(id: nat) | Done

  datatype Executor = Executor(identity: string, phase: Phase, current: nat, lost: bool, renewal: Renewal)

  /**
   `owner` is the executor whose acquisition is in force; it is not part of the Lease and no step reads it.
   `writes` lists, in order, who has sent a write or a removal to the protected store.
   */
  datatype State = State(holder: string, rv: nat, owner: Option<nat>, messages: seq<Message>, executors: seq<Executor>,
                         writes: seq<nat>)

  datatype Step =
    | Join(identity: string)
    | Get(i: nat)
    | SendAcquire(i: nat)
    | Deliver(m: nat)
    | AcquireReply(i: nat)
    | RenewTick(i: nat)
    | RenewReply(i: nat)
    | RenewFails(i: nat)
    | RenewStops(i: nat)
    | BeginRelease(i: nat)
    | BeginAbandon(i: nat)
    | SendRelease(i: nat)
    | ReleaseReply(i: nat)
    | ReadBack(i: nat)
    | GiveUp(i: nat)
    | Write(i: nat)

  /** Between a successful acquire and the matching release or abandon. */
  predicate InCharge(e: Executor) {
    e.phase.Holding? || e.phase.StoppingToRelease? || e.phase.StoppingToAbandon?
  }

  function Init(): State {
    State("", 0, None, [], [], [])
  }

  predicate Enabled(s: State, step: Step) {
    match step
    case Join(identity) => identity != ""
    case Deliver(m) => m < |s.messages| && s.messages[m].delivery.Sent?
    case Get(i) => i < |s.executors| && s.executors[i].phase.Starting?
    case SendAcquire(i) => i < |s.executors| && s.executors[i].phase.SawEmpty?
    case AcquireReply(i) =>
      && i < |s.executors| && s.executors[i].phase.Acquiring?
      && s.executors[i].phase.id < |s.messages| && !s.messages[s.executors[i].phase.id].delivery.Sent?
    case RenewTick(i) => i < |s.executors| && s.executors[i].renewal.Waiting?
    case RenewReply(i) =>
      && i < |s.executors| && s.executors[i].renewal.Renewing?
      && s.executors[i].renewal.id < |s.messages| && !s.messages[s.executors[i].renewal.id].delivery.Sent?
    case RenewFails(i) => i < |s.executors| && s.executors[i].renewal.Renewing?
    case RenewStops(i) =>
      && i < |s.executors| && s.executors[i].renewal.Waiting?
      && (s.executors[i].phase.StoppingToRelease? || s.executors[i].phase.StoppingToAbandon?)
    case BeginRelease(i) => i < |s.executors| && s.executors[i].phase.Holding?
    case BeginAbandon(i) => i < |s.executors| && s.executors[i].phase.Holding?
    case SendRelease(i) => i < |s.executors| && s.executors[i].phase.StoppingToRelease? && s.executors[i].renewal.Done?
    case ReleaseReply(i) =>
      && i < |s.executors| && s.executors[i].phase.Releasing?
      && s.executors[i].phase.id < |s.messages| && !s.messages[s.executors[i].phase.id].delivery.Sent?
    case ReadBack(i) => i < |s.executors| && s.executors[i].phase.ReadingBack?
    // A lost reply, a failed read, the end of an abandon and a crash all end the executor's part.
    case GiveUp(i) => i < |s.executors|
    case Write(i) => i < |s.executors| && s.executors[i].phase.Holding?
  }

  function WithExecutor(s: State, i: nat, e: Executor): State
    requires i < |s.executors|
  {
    s.(executors := s.executors[i := e])
  }

  function Post(s: State, m: Message): State {
    s.(messages := s.messages + [m])
  }

  function Next(s: State, step: Step): State
    requires Enabled(s, step)
  {
    match step
    case Join(identity) => s.(executors := s.executors + [Executor(identity, Starting, 0, false, Off)])
    case Get(i) =>
      var e := s.executors[i];
      WithExecutor(s, i, e.(phase := if s.holder == "" then SawEmpty(s.rv) else Ended))
    case SendAcquire(i) =>
      var e := s.executors[i];
      Post(WithExecutor(s, i, e.(phase := Acquiring(|s.messages|))), Message(i, Acquire, e.phase.rv, e.identity, Sent))
    case Deliver(m) =>
      var msg := s.messages[m];
      if msg.rv == s.rv then
        s.(holder := msg.holder, rv := s.rv + 1,
           owner := if msg.kind.Acquire? then Some(msg.sender) else if msg.kind.Release? then None else s.owner,
           messages := s.messages[m := msg.(delivery := Committed(s.rv + 1))])
      else s.(messages := s.messages[m := msg.(delivery := Conflicted)])
    case AcquireReply(i) =>
      var e := s.executors[i];
      var reply := s.messages[e.phase.id].delivery;
      WithExecutor(s, i, if reply.Committed? then e.(phase := Holding, current := reply.rv, renewal := Waiting)
                   else e.(phase := Ended))
    case RenewTick(i) =>
      var e := s.executors[i];
      Post(WithExecutor(s, i, e.(renewal := Renewing(|s.messages|))), Message(i, Renew, e.current, e.identity, Sent))
    case RenewReply(i) =>
      var e := s.executors[i];
      var reply := s.messages[e.renewal.id].delivery;
      WithExecutor(s, i, if reply.Committed? then e.(current := reply.rv, renewal := Waiting)
                   else e.(lost := true, renewal := Done))
    case RenewFails(i) =>
      var e := s.executors[i];
      WithExecutor(s, i, e.(lost := true, renewal := Done))
    case RenewStops(i) =>
      var e := s.executors[i];
      WithExecutor(s, i, e.(renewal := Done))
    case BeginRelease(i) =>
      var e := s.executors[i];
      WithExecutor(s, i, e.(phase := StoppingToRelease))
    case BeginAbandon(i) =>
      var e := s.executors[i];
      WithExecutor(s, i, e.(phase := StoppingToAbandon))
    case SendRelease(i) =>
      var e := s.executors[i];
      if e.lost then WithExecutor(s, i, e.(phase := Ended))
      else Post(WithExecutor(s, i, e.(phase := Releasing(|s.messages|))), Message(i, Release, e.current, "", Sent))
    case ReleaseReply(i) =>
      var e := s.executors[i];
      var reply := s.messages[e.phase.id].delivery;
      WithExecutor(s, i, e.(phase := if reply.Committed? then ReadingBack(reply.rv) else Ended))
    case ReadBack(i) =>
      var e := s.executors[i];
      WithExecutor(s, i, e.(phase := if s.rv == e.phase.rv && s.holder == "" then Released else Ended))
    case GiveUp(i) =>
      var e := s.executors[i];
      WithExecutor(s, i, e.(phase := Ended, renewal := Done))
    case Write(i) => s.(writes := s.writes + [i])
  }

  predicate Legal(s: State, steps: seq<Step>)
    decreases |steps|
  {
    steps == [] || (Enabled(s, steps[0]) && Legal(Next(s, steps[0]), steps[1..]))
  }

  function Run(s: State, steps: seq<Step>): State
    requires Legal(s, steps)
    decreases |steps|
  {
    if steps == [] then s else Run(Next(s, steps[0]), steps[1..])
  }

  // ---------------------------------------------------------------------------
  // The invariant

  /** What is known about a message at the current version of the Lease. */
  ghost predicate MessageOk(s: State, m: Message) {
    && m.sender < |s.executors|
    && m.rv <= s.rv
    && (m.kind.Acquire? ==> m.holder == s.executors[m.sender].identity != "")
    && (m.kind.Renew? ==> m.holder == s.executors[m.sender].identity != "")
    && (m.kind.Release? ==> m.holder == "")
    && (m.delivery.Committed? ==> m.delivery.rv == m.rv + 1 <= s.rv)
    && (m.delivery.Sent? && m.rv == s.rv ==>
          if m.kind.Acquire? then s.owner == None else s.owner == Some(m.sender))
    && (m.kind.Release? ==> !m.delivery.Conflicted? && HasLeft(s.executors[m.sender]))
    && (m.kind.Release? && m.delivery.Sent? ==> m.rv == s.rv)
  }

  /** A release that is still on its way is the sender's only message that is. */
  ghost predicate LastWord(s: State, k: nat)
    requires k < |s.messages|
  {
    s.messages[k].kind.Release? && s.messages[k].delivery.Sent? ==>
      forall j | 0 <= j < |s.messages| && j != k &&
      s.messages[j].sender == s.messages[k].sender :: !s.messages[j].delivery.Sent?
  }

  /** The executor has sent its release, or has stopped for another reason. */
  predicate HasLeft(e: Executor) {
    (e.phase.Releasing? || e.phase.ReadingBack? || e.phase.Released? || e.phase.Ended?) && e.renewal.Done?
  }

  /** The one message, if any, whose reply an executor is waiting for. */
  function Awaited(e: Executor): Option<nat> {
    if e.phase.Acquiring? || e.phase.Releasing? then Some(e.phase.id)
    else if e.renewal.Renewing? then Some(e.renewal.id)
    else None
  }

  /** The guard's version is the latest one, or the awaited renewal has just made it so. */
  ghost predicate Fresh(s: State, i: nat)
    requires i < |s.executors|
  {
    var e := s.executors[i];
    if e.renewal.Renewing? && e.renewal.id < |s.messages| && s.messages[e.renewal.id].delivery.Committed? then
      s.messages[e.renewal.id].delivery.rv == s.rv
    else e.current == s.rv
  }

  /** Nothing this executor sent is still on its way, apart from the message it waits for. */
  ghost predicate Quiet(s: State, i: nat)
    requires i < |s.executors|
  {
    forall k | 0 <= k < |s.messages| && s.messages[k].sender == i && s.messages[k].delivery.Sent? ::
      Awaited(s.executors[i]) == Some(k)
  }

  ghost predicate ExecutorOk(s: State, i: nat)
    requires i < |s.executors|
  {
    var e := s.executors[i];
    && e.identity != ""
    && (e.phase.Starting? || e.phase.SawEmpty? ==>
          e.renewal.Off? && !e.lost && forall k | 0 <= k < |s.messages| :: s.messages[k].sender != i)
    && (e.phase.SawEmpty? ==> e.phase.rv <= s.rv && (e.phase.rv == s.rv ==> s.owner == None))
    && (e.phase.Acquiring? ==>
          && e.phase.id < |s.messages| && e.renewal.Off? && !e.lost && Quiet(s, i)
          && s.messages[e.phase.id].sender == i && s.messages[e.phase.id].kind.Acquire?
          && (s.messages[e.phase.id].delivery.Committed? ==>
                s.owner == Some(i) && s.messages[e.phase.id].delivery.rv == s.rv))
    && (InCharge(e) ==>
          && s.owner == Some(i)
          && (e.renewal.Waiting? || e.renewal.Renewing? || e.renewal.Done?)
          && (e.lost ==> e.renewal.Done?)
          && (!e.lost ==> Quiet(s, i) && Fresh(s, i)))
    && (e.renewal.Renewing? ==>
          && InCharge(e) && !e.lost && e.renewal.id < |s.messages|
          && s.messages[e.renewal.id].sender == i && s.messages[e.renewal.id].kind.Renew?
          && s.messages[e.renewal.id].rv == e.current && !s.messages[e.renewal.id].delivery.Conflicted?)
    && (e.renewal.Waiting? ==> InCharge(e) && !e.lost)
    && (e.phase.Releasing? ==>
          && e.phase.id < |s.messages| && Quiet(s, i) && !e.lost && e.renewal.Done?
          && s.messages[e.phase.id].sender == i && s.messages[e.phase.id].kind.Release?
          && (s.messages[e.phase.id].delivery.Sent? ==> s.owner == Some(i)))
  }

  ghost predicate Inv(s: State) {
    && (s.holder == "" <==> s.owner == None)
    && (s.owner.Some? ==> s.owner.value < |s.executors| && s.holder == s.executors[s.owner.value].identity)
    && (forall k | 0 <= k < |s.messages| :: MessageOk(s, s.messages[k]) && LastWord(s, k))
    && (forall i | 0 <= i < |s.executors| :: ExecutorOk(s, i))
  }

  lemma InitInv()
    ensures Inv(Init())
  {
  }

  lemma NextInv(s: State, step: Step)
    requires Inv(s) && Enabled(s, step)
    ensures Inv(Next(s, step))
  {
    match step
    case Join(identity) => JoinInv(s, identity);
    case Deliver(m) => DeliverInv(s, m);
    case SendAcquire(i) => PostInv(s, step, i);
    case RenewTick(i) => PostInv(s, step, i);
    case SendRelease(i) => if s.executors[i].lost { LocalInv(s, step, i); } else { PostInv(s, step, i); }
    case Get(i) => LocalInv(s, step, i);
    case AcquireReply(i) => LocalInv(s, step, i);
    case RenewReply(i) => LocalInv(s, step, i);
    case RenewFails(i) => LocalInv(s, step, i);
    case RenewStops(i) => LocalInv(s, step, i);
    case BeginRelease(i) => LocalInv(s, step, i);
    case BeginAbandon(i) => LocalInv(s, step, i);
    case ReleaseReply(i) => LocalInv(s, step, i);
    case ReadBack(i) => LocalInv(s, step, i);
    case GiveUp(i) => LocalInv(s, step, i);
    case Write(i) => WriteInv(s, i);
  }

  lemma WriteInv(s: State, i: nat)
    requires Inv(s) && Enabled(s, Write(i))
    ensures Inv(Next(s, Write(i)))
  {
    var t := Next(s, Write(i));
    forall k | 0 <= k < |t.messages|
      ensures MessageOk(t, t.messages[k]) && LastWord(t, k)
    {
      assert MessageOk(s, s.messages[k]) && LastWord(s, k);
    }
    forall j | 0 <= j < |t.executors|
      ensures ExecutorOk(t, j)
    {
      assert ExecutorOk(s, j);
    }
  }

  lemma JoinInv(s: State, identity: string)
    requires Inv(s) && Enabled(s, Join(identity))
    ensures Inv(Next(s, Join(identity)))
  {
    var t := Next(s, Join(identity));
    forall k | 0 <= k < |t.messages|
      ensures MessageOk(t, t.messages[k]) && LastWord(t, k)
    {
      assert MessageOk(s, s.messages[k]) && LastWord(s, k);
    }
    forall i | 0 <= i < |t.executors|
      ensures ExecutorOk(t, i)
    {
      if i < |s.executors| {
        assert ExecutorOk(s, i);
      } else {
        forall k | 0 <= k < |t.messages|
          ensures t.messages[k].sender != i
        {
          assert MessageOk(s, s.messages[k]);
        }
      }
    }
  }

  /** Changing one executor leaves what is known about the messages and the others alone. */
  lemma LocalFrame(s: State, i: nat, e: Executor)
    requires Inv(s) && i < |s.executors|
    requires e.identity == s.executors[i].identity && (HasLeft(s.executors[i]) ==> HasLeft(e))
    requires ExecutorOk(WithExecutor(s, i, e), i)
    ensures Inv(WithExecutor(s, i, e))
  {
    var t := WithExecutor(s, i, e);
    forall k | 0 <= k < |t.messages|
      ensures MessageOk(t, t.messages[k]) && LastWord(t, k)
    {
      assert MessageOk(s, s.messages[k]) && LastWord(s, k);
    }
    forall j | 0 <= j < |t.executors|
      ensures ExecutorOk(t, j)
    {
      assert ExecutorOk(s, j);
    }
  }

  /** Steps that change one executor and nothing else. */
  lemma LocalInv(s: State, step: Step, i: nat)
    requires Inv(s) && Enabled(s, step) && i < |s.executors|
    requires step in {Get(i), AcquireReply(i), RenewReply(i), RenewFails(i), RenewStops(i), BeginRelease(i),
                      BeginAbandon(i),
                      ReleaseReply(i), ReadBack(i), GiveUp(i)} || (step == SendRelease(i) && s.executors[i].lost)
    ensures Inv(Next(s, step))
  {
    var t := Next(s, step);
    assert ExecutorOk(s, i);
    LocalFrame(s, i, t.executors[i]);
  }

  /** Steps that send a message. */
  lemma PostInv(s: State, step: Step, i: nat)
    requires Inv(s) && Enabled(s, step) && i < |s.executors|
    requires step == SendAcquire(i) || step == RenewTick(i) || (step == SendRelease(i) && !s.executors[i].lost)
    ensures Inv(Next(s, step))
  {
    var t := Next(s, step);
    PostMessages(s, step, i);
    PostSender(s, step, i);
    forall j | 0 <= j < |t.executors|
      ensures ExecutorOk(t, j)
    {
      if j != i {
        PostOthers(s, step, i, j);
      }
    }
  }

  lemma PostSender(s: State, step: Step, i: nat)
    requires Inv(s) && Enabled(s, step) && i < |s.executors|
    requires step == SendAcquire(i) || step == RenewTick(i) || (step == SendRelease(i) && !s.executors[i].lost)
    ensures ExecutorOk(Next(s, step), i)
  {
    assert ExecutorOk(s, i);
  }

  lemma PostOthers(s: State, step: Step, i: nat, j: nat)
    requires Inv(s) && Enabled(s, step) && i < |s.executors| && j < |s.executors| && j != i
    requires step == SendAcquire(i) || step == RenewTick(i) || (step == SendRelease(i) && !s.executors[i].lost)
    ensures ExecutorOk(Next(s, step), j)
  {
    var t := Next(s, step);
    assert ExecutorOk(s, j);
    assert t.executors[j] == s.executors[j];
    assert Quiet(s, j) ==> Quiet(t, j);
  }

  lemma PostMessages(s: State, step: Step, i: nat)
    requires Inv(s) && Enabled(s, step) && i < |s.executors|
    requires step == SendAcquire(i) || step == RenewTick(i) || (step == SendRelease(i) && !s.executors[i].lost)
    ensures forall k | 0 <= k < |Next(s, step).messages| ::
              MessageOk(Next(s, step), Next(s, step).messages[k]) && LastWord(Next(s, step), k)
  {
    var t := Next(s, step);
    assert ExecutorOk(s, i);
    forall k | 0 <= k < |t.messages|
      ensures MessageOk(t, t.messages[k]) && LastWord(t, k)
    {
      if k < |s.messages| {
        assert MessageOk(s, s.messages[k]) && LastWord(s, k);
      }
    }
  }

  lemma DeliverInv(s: State, m: nat)
    requires Inv(s) && Enabled(s, Deliver(m))
    ensures Inv(Next(s, Deliver(m)))
  {
    var t := Next(s, Deliver(m));
    DeliverMessages(s, m);
    assert MessageOk(s, s.messages[m]);
    assert ExecutorOk(s, s.messages[m].sender);
    forall i | 0 <= i < |t.executors|
      ensures ExecutorOk(t, i)
    {
      assert ExecutorOk(s, i);
    }
  }

  lemma DeliverMessages(s: State, m: nat)
    requires Inv(s) && Enabled(s, Deliver(m))
    ensures var t := Next(s, Deliver(m));
            forall k | 0 <= k < |t.messages| :: MessageOk(t, t.messages[k]) && LastWord(t, k)
  {
    var t := Next(s, Deliver(m));
    assert MessageOk(s, s.messages[m]);
    assert ExecutorOk(s, s.messages[m].sender);
    forall k | 0 <= k < |t.messages|
      ensures MessageOk(t, t.messages[k]) && LastWord(t, k)
    {
      assert MessageOk(s, s.messages[k]) && LastWord(s, k);
    }
  }

  lemma {:induction false} RunInv(s: State, steps: seq<Step>)
    requires Inv(s) && Legal(s, steps)
    ensures Inv(Run(s, steps))
    decreases |steps|
  {
    if steps != [] {
      NextInv(s, steps[0]);
      RunInv(Next(s, steps[0]), steps[1..]);
    }
  }

  // ---------------------------------------------------------------------------
  // What the protocol guarantees in every run

  /** At most one executor is ever between a successful acquire and its release or abandon. */
  lemma MutualExclusion(steps: seq<Step>, i: nat, j: nat)
    requires Legal(Init(), steps)
    requires i < |Run(Init(), steps).executors| && j < |Run(Init(), steps).executors|
    requires InCharge(Run(Init(), steps).executors[i]) && InCharge(Run(Init(), steps).executors[j])
    ensures i == j
    ensures Run(Init(), steps).holder == Run(Init(), steps).executors[i].identity
  {
    InitInv();
    RunInv(Init(), steps);
    var s := Run(Init(), steps);
    assert ExecutorOk(s, i) && ExecutorOk(s, j);
  }

  // ---------------------------------------------------------------------------
  // What the protocol makes possible

  /** The executor is in charge, its guard is healthy and at the latest version, and the Lease names it. */
  predicate Healthy(s: State, i: nat) {
    && i < |s.executors| && s.executors[i].phase.Holding? && s.executors[i].renewal.Waiting?
    && !s.executors[i].lost && s.executors[i].current == s.rv && s.holder == s.executors[i].identity
  }

  /** A committed acquire that is answered puts its sender in charge; nothing else does. */
  lemma AcquiredExactly(s: State, step: Step, i: nat)
    requires Inv(s) && Enabled(s, step) && i < |s.executors| && !InCharge(s.executors[i])
    ensures InCharge(Next(s, step).executors[i]) <==>
      step == AcquireReply(i) && s.messages[s.executors[i].phase.id].delivery.Committed?
    ensures InCharge(Next(s, step).executors[i]) ==> Healthy(Next(s, step), i)
  {
    assert ExecutorOk(s, i);
    if step == AcquireReply(i) {
      assert MessageOk(s, s.messages[s.executors[i].phase.id]);
    }
  }

  /** A guard is lost by a renewal that failed or was refused, and by nothing else. */
  lemma LostExactly(s: State, step: Step, i: nat)
    requires Inv(s) && Enabled(s, step) && i < |s.executors| && !s.executors[i].lost
    ensures Next(s, step).executors[i].lost <==>
      || step == RenewFails(i)
      || (step == RenewReply(i) && s.messages[s.executors[i].renewal.id].delivery.Conflicted?)
  {
  }

  /** Whoever comes to an empty Lease and is not disturbed is put in charge of it. */
  lemma {:induction false} CanAcquire(s: State, identity: string) returns (steps: seq<Step>)
    requires Inv(s) && s.holder == "" && identity != ""
    ensures Legal(s, steps) && Healthy(Run(s, steps), |s.executors|)
    ensures Run(s, steps).holder == identity && Run(s, steps).rv == s.rv + 1
  {
    var n, m := |s.executors|, |s.messages|;
    steps := [];
    OneMore(s, steps, Join(identity));
    steps := steps + [Join(identity)];
    OneMore(s, steps, Get(n));
    steps := steps + [Get(n)];
    OneMore(s, steps, SendAcquire(n));
    steps := steps + [SendAcquire(n)];
    OneMore(s, steps, Deliver(m));
    steps := steps + [Deliver(m)];
    OneMore(s, steps, AcquireReply(n));
    steps := steps + [AcquireReply(n)];
  }

  /** A renewal that commits and is answered keeps the guard healthy, at the next version. */
  lemma {:induction false} CanRenew(s: State, i: nat) returns (steps: seq<Step>)
    requires Healthy(s, i)
    ensures Legal(s, steps) && Healthy(Run(s, steps), i)
    ensures Run(s, steps).rv == s.rv + 1 && Run(s, steps).holder == s.holder
  {
    var m := |s.messages|;
    steps := [];
    OneMore(s, steps, RenewTick(i));
    steps := steps + [RenewTick(i)];
    OneMore(s, steps, Deliver(m));
    steps := steps + [Deliver(m)];
    OneMore(s, steps, RenewReply(i));
    steps := steps + [RenewReply(i)];
  }

  /** So does any number of them. */
  lemma {:induction false} CanRenewForLong(s: State, i: nat, n: nat) returns (steps: seq<Step>)
    requires Healthy(s, i)
    ensures Legal(s, steps) && Healthy(Run(s, steps), i)
    ensures Run(s, steps).rv == s.rv + n && Run(s, steps).holder == s.holder
  {
    if n == 0 {
      steps := [];
    } else {
      var before := CanRenewForLong(s, i, n - 1);
      var more := CanRenew(Run(s, before), i);
      steps := before + more;
      RunAppend(s, before, more);
    }
  }

  /** A healthy guard that is not disturbed hands the Lease back, empty. */
  lemma {:induction false} CanRelease(s: State, i: nat) returns (steps: seq<Step>)
    requires Healthy(s, i)
    ensures Legal(s, steps) && i < |Run(s, steps).executors| && Run(s, steps).executors[i].phase.Released?
    ensures Run(s, steps).holder == "" && Run(s, steps).owner == None && Run(s, steps).rv == s.rv + 1
  {
    var m := |s.messages|;
    steps := [];
    OneMore(s, steps, BeginRelease(i));
    steps := steps + [BeginRelease(i)];
    OneMore(s, steps, RenewStops(i));
    steps := steps + [RenewStops(i)];
    OneMore(s, steps, SendRelease(i));
    steps := steps + [SendRelease(i)];
    OneMore(s, steps, Deliver(m));
    steps := steps + [Deliver(m)];
    OneMore(s, steps, ReleaseReply(i));
    steps := steps + [ReleaseReply(i)];
    OneMore(s, steps, ReadBack(i));
    steps := steps + [ReadBack(i)];
  }

  /**
   In every reachable state with an empty holder a newcomer can acquire the Lease, renew it any number of
   times and release it, after which the Lease is empty again.
   */
  lemma {:induction false} WholeTerm(before: seq<Step>, identity: string, renewals: nat) returns (steps: seq<Step>)
    requires Legal(Init(), before) && Run(Init(), before).holder == "" && identity != ""
    ensures Legal(Run(Init(), before), steps)
    ensures var t := Run(Run(Init(), before), steps);
            && t.holder == "" && t.rv == Run(Init(), before).rv + renewals + 2
            && |Run(Init(), before).executors| < |t.executors|
            && t.executors[|Run(Init(), before).executors|].phase.Released?
  {
    InitInv();
    RunInv(Init(), before);
    var s, n := Run(Init(), before), |Run(Init(), before).executors|;
    var acquire := CanAcquire(s, identity);
    var renew := CanRenewForLong(Run(s, acquire), n, renewals);
    RunAppend(s, acquire, renew);
    var release := CanRelease(Run(s, acquire + renew), n);
    RunAppend(s, acquire + renew, release);
    steps := acquire + renew + release;
  }

  lemma {:induction false} RunAppend(s: State, a: seq<Step>, b: seq<Step>)
    requires Legal(s, a) && Legal(Run(s, a), b)
    ensures Legal(s, a + b) && Run(s, a + b) == Run(Run(s, a), b)
    decreases |a|
  {
    if a == [] {
      assert a + b == b;
    } else {
      assert (a + b)[1..] == a[1..] + b;
      RunAppend(Next(s, a[0]), a[1..], b);
    }
  }

  lemma {:induction false} OneMore(s: State, steps: seq<Step>, step: Step)
    requires Legal(s, steps) && Enabled(Run(s, steps), step)
    ensures Legal(s, steps + [step]) && Run(s, steps + [step]) == Next(Run(s, steps), step)
  {
    var t, one := Run(s, steps), [step];
    assert one[0] == step && one[1..] == [];
    assert Legal(Next(t, step), one[1..]);
    assert Legal(t, one);
    assert Run(t, one) == Run(Next(t, one[0]), one[1..]);
    RunAppend(s, steps, one);
  }

  // ---------------------------------------------------------------------------
  // Writes

  /** The executor's time in charge is over. */
  predicate Past(e: Executor) {
    e.phase.Releasing? || e.phase.ReadingBack? || e.phase.Released? || e.phase.Ended?
  }

  /** Time in charge ends once and does not come back. */
  lemma {:induction false} PastForGood(s: State, steps: seq<Step>, i: nat)
    requires Legal(s, steps) && i < |s.executors| && Past(s.executors[i])
    ensures i < |Run(s, steps).executors| && Past(Run(s, steps).executors[i])
    decreases |steps|
  {
    if steps != [] {
      PastForGood(Next(s, steps[0]), steps[1..], i);
    }
  }

  lemma OwnWrite(s: State, step: Step, i: nat)
    requires Inv(s) && Enabled(s, step) && i < |s.executors| && InCharge(s.executors[i])
    ensures Next(s, step).writes == s.writes || Next(s, step).writes == s.writes + [i]
  {
    if step.Write? {
      assert ExecutorOk(s, i) && ExecutorOk(s, step.i);
    }
  }

  /**
   From any moment at which an executor is in charge to any later one at which it still is, every
   write sent to the store is its own.
   */
  lemma {:induction false} WritesAreTheHolders(s: State, steps: seq<Step>, i: nat)
    requires Inv(s) && Legal(s, steps) && i < |s.executors| && InCharge(s.executors[i])
    requires i < |Run(s, steps).executors| && InCharge(Run(s, steps).executors[i])
    ensures s.writes <= Run(s, steps).writes
    ensures forall k | |s.writes| <= k < |Run(s, steps).writes| :: Run(s, steps).writes[k] == i
    decreases |steps|
  {
    if steps != [] {
      var t := Next(s, steps[0]);
      NextInv(s, steps[0]);
      if Past(t.executors[i]) {
        PastForGood(t, steps[1..], i);
        assert false;
      }
      OwnWrite(s, steps[0], i);
      WritesAreTheHolders(t, steps[1..], i);
    }
  }

  /**
   A release is sent against the latest committed version, stays so until it is delivered, and is
   therefore never refused; only a guard that was lost does not send one.
   */
  lemma ReleaseSwapsLatest(steps: seq<Step>)
    requires Legal(Init(), steps)
    ensures var s := Run(Init(), steps);
            && (forall i | 0 <= i < |s.executors| && Enabled(s, SendRelease(i)) &&
                !s.executors[i].lost :: s.executors[i].current == s.rv)
            && (forall k | 0 <= k < |s.messages| && s.messages[k].kind.Release? ::
                  (s.messages[k].delivery.Sent? ==> s.messages[k].rv == s.rv) && !s.messages[k].delivery.Conflicted?)
  {
    InitInv();
    RunInv(Init(), steps);
    var s := Run(Init(), steps);
    forall i | 0 <= i < |s.executors| && Enabled(s, SendRelease(i)) && !s.executors[i].lost
      ensures s.executors[i].current == s.rv
    {
      assert ExecutorOk(s, i);
    }
    forall k | 0 <= k < |s.messages| && s.messages[k].kind.Release?
      ensures (s.messages[k].delivery.Sent? ==> s.messages[k].rv == s.rv) && !s.messages[k].delivery.Conflicted?
    {
      assert MessageOk(s, s.messages[k]);
    }
  }

  /** The owner has ended without a release that could still be delivered. */
  ghost predicate Stuck(s: State, o: nat) {
    && s.owner == Some(o) && o < |s.executors|
    && s.executors[o].phase.Ended?
    && forall k | 0 <= k < |s.messages| && s.messages[k].sender == o &&
       s.messages[k].kind.Release? :: !s.messages[k].delivery.Sent?
  }

  lemma StuckStep(s: State, step: Step, o: nat)
    requires Inv(s) && Stuck(s, o) && Enabled(s, step)
    ensures Stuck(Next(s, step), o)
  {
    assert ExecutorOk(s, o);
    if step.Deliver? {
      assert MessageOk(s, s.messages[step.m]);
    }
  }

  /** A holder that vanished is never taken over: after it nobody is ever in charge again. */
  lemma {:induction false} NoTakeover(s: State, steps: seq<Step>, o: nat, i: nat)
    requires Inv(s) && Stuck(s, o) && Legal(s, steps) && i < |Run(s, steps).executors|
    ensures !InCharge(Run(s, steps).executors[i])
    ensures o < |Run(s, steps).executors| && Run(s, steps).holder == Run(s, steps).executors[o].identity
    decreases |steps|
  {
    if steps == [] {
      assert ExecutorOk(s, i) && ExecutorOk(s, o);
    } else {
      NextInv(s, steps[0]);
      StuckStep(s, steps[0], o);
      NoTakeover(Next(s, steps[0]), steps[1..], o, i);
    }
  }
}
