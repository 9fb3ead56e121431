/**
 First start of a control plane: any number of servers, with equal or different
 identities, race to create the one durable installation record. A save is a
 compare-and-swap against "no document"; it may be delivered late or never and its
 reply may be lost.
 */
module BootstrapProtocol {
  import opened Options

  /** The durable record; `sound` stands for the checks that do not depend on the caller's identity. */
  datatype Record = Record(installation: string, tokenHash: nat, created: int, sound: bool)

  datatype Delivery = Sent | Committed | Conflicted

  datatype Save = Save(sender: nat, record: Record, delivery: Delivery)

  datatype Phase = Loading | Saving(id: nat) | Reloading | Done(result: Option<Record>)

  datatype Server = Server(installation: string, tokenHash: nat, created: int, phase: Phase)

  datatype State = State(document: Option<Record>, saves: seq<Save>, servers: seq<Server>)

  datatype Step =
    | Start(installation: string, tokenHash: nat, created: int)
    | Load(i: nat)
    | Deliver(k: nat)
    | SaveReply(i: nat)
    | SaveUncertain(i: nat)
    | Reload(i: nat)
    | Fail(i: nat)

  function Validate(record: Record, installation: string, tokenHash: nat): Option<Record> {
    if record.sound && record.installation == installation && record.tokenHash == tokenHash then Some(record) else None
  }

  /** The database may already hold a record, sound or not, from an earlier life. */
  function Init(document: Option<Record>): State {
    State(document, [], [])
  }

  predicate Enabled(s: State, step: Step) {
    match step
    case Start(_, _, _) => true
    case Load(i) => i < |s.servers| && s.servers[i].phase.Loading?
    case Deliver(k) => k < |s.saves| && s.saves[k].delivery.Sent?
    case SaveReply(i) =>
      && i < |s.servers| && s.servers[i].phase.Saving?
      && s.servers[i].phase.id < |s.saves| && !s.saves[s.servers[i].phase.id].delivery.Sent?
    case SaveUncertain(i) => i < |s.servers| && s.servers[i].phase.Saving?
    case Reload(i) => i < |s.servers| && s.servers[i].phase.Reloading?
    case Fail(i) => i < |s.servers| && !s.servers[i].phase.Done?
  }

  function With(s: State, i: nat, phase: Phase): State
    requires i < |s.servers|
  {
    s.(servers := s.servers[i := s.servers[i].(phase := phase)])
  }

  function Next(s: State, step: Step): State
    requires Enabled(s, step)
  {
    match step
    case Start(installation, tokenHash, created) =>
      s.(servers := s.servers + [Server(installation, tokenHash, created, Loading)])
    case Load(i) =>
      var v := s.servers[i];
      if s.document.Some? then With(s, i, Done(Validate(s.document.value, v.installation, v.tokenHash)))
      else With(s, i, Saving(|s.saves|)).(saves := s.saves +
                                          [Save(i, Record(v.installation, v.tokenHash, v.created, true), Sent)])
    case Deliver(k) =>
      var m := s.saves[k];
      if s.document.None? then s.(document := Some(m.record), saves := s.saves[k := m.(delivery := Committed)])
      else s.(saves := s.saves[k := m.(delivery := Conflicted)])
    case SaveReply(i) =>
      var v := s.servers[i];
      var m := s.saves[v.phase.id];
      With(s, i, if m.delivery.Committed? then Done(Validate(m.record, v.installation, v.tokenHash)) else Reloading)
    case SaveUncertain(i) => With(s, i, Reloading)
    case Reload(i) =>
      var v := s.servers[i];
      With(s, i, Done(if s.document.Some? then Validate(s.document.value, v.installation, v.tokenHash) else None))
    case Fail(i) => With(s, i, Done(None))
  }

  predicate Legal(s: State, steps: seq<Step>)
    decreases |steps|
  {
    steps == [] || (Enabled(s, steps[0]) && Legal(Next(s, steps[0]), steps[1..]))
  }

  function Run(s: State, steps: seq<Step>): State
    requires Legal(s, steps)
    decreases |steps|
  {
    if steps == [] then s else Run(Next(s, steps[0]), steps[1..])
  }

  // ---------------------------------------------------------------------------

  ghost predicate Inv(s: State) {
    && (forall k | 0 <= k < |s.saves| :: s.saves[k].delivery.Committed? ==> s.document == Some(s.saves[k].record))
    && (forall i | 0 <= i < |s.servers| :: s.servers[i].phase.Done? && s.servers[i].phase.result.Some? ==>
          && s.document == s.servers[i].phase.result
          && s.document.value.sound
          && s.document.value.installation == s.servers[i].installation
          && s.document.value.tokenHash == s.servers[i].tokenHash)
  }

  lemma NextInv(s: State, step: Step)
    requires Inv(s) && Enabled(s, step)
    ensures Inv(Next(s, step))
    ensures s.document.Some? ==> Next(s, step).document == s.document
  {
  }

  lemma {:induction false} RunInv(s: State, steps: seq<Step>)
    requires Inv(s) && Legal(s, steps)
    ensures Inv(Run(s, steps))
    ensures s.document.Some? ==> Run(s, steps).document == s.document
    decreases |steps|
  {
    if steps != [] {
      NextInv(s, steps[0]);
      RunInv(Next(s, steps[0]), steps[1..]);
    }
  }

  /** The record never changes once it exists, whoever keeps trying to write it. */
  lemma RecordIsPermanent(document: Option<Record>, before: seq<Step>, after: seq<Step>)
    requires Legal(Init(document), before) && Legal(Run(Init(document), before), after)
    requires Run(Init(document), before).document.Some?
    ensures Run(Run(Init(document), before), after).document == Run(Init(document), before).document
  {
    RunInv(Init(document), before);
    RunInv(Run(Init(document), before), after);
  }

  /**
   All bootstraps that succeed return the same record, which is the stored one, is sound and carries their
   own identity and token; a bootstrap with another identity or token therefore never succeeds.
   */
  lemma Agreement(document: Option<Record>, steps: seq<Step>, i: nat, j: nat)
    requires Legal(Init(document), steps)
    requires i < |Run(Init(document), steps).servers| && j < |Run(Init(document), steps).servers|
    requires Run(Init(document), steps).servers[i].phase.Done? &&
             Run(Init(document), steps).servers[i].phase.result.Some?
    ensures var s := Run(Init(document), steps);
            var r := s.servers[i].phase.result;
            && s.document == r && r.value.sound
            && r.value.installation == s.servers[i].installation && r.value.tokenHash == s.servers[i].tokenHash
            && (s.servers[j].phase.Done? && s.servers[j].phase.result.Some? ==>
                  && s.servers[j].phase.result == r
                  && s.servers[j].installation == s.servers[i].installation
                  && s.servers[j].tokenHash == s.servers[i].tokenHash)
  {
    RunInv(Init(document), steps);
  }

  // ---------------------------------------------------------------------------
  // What the protocol makes possible

  lemma {:induction false} RunAppend(s: State, a: seq<Step>, b: seq<Step>)
    requires Legal(s, a) && Legal(Run(s, a), b)
    ensures Legal(s, a + b) && Run(s, a + b) == Run(Run(s, a), b)
    decreases |a|
  {
    if a == [] {
      assert a + b == b;
    } else {
      assert (a + b)[1..] == a[1..] + b;
      RunAppend(Next(s, a[0]), a[1..], b);
    }
  }

  lemma {:induction false} OneMore(s: State, steps: seq<Step>, step: Step)
    requires Legal(s, steps) && Enabled(Run(s, steps), step)
    ensures Legal(s, steps + [step]) && Run(s, steps + [step]) == Next(Run(s, steps), step)
  {
    var t, one := Run(s, steps), [step];
    assert one[0] == step && one[1..] == [];
    assert Legal(Next(t, step), one[1..]);
    assert Legal(t, one);
    assert Run(t, one) == Run(Next(t, one[0]), one[1..]);
    RunAppend(s, steps, one);
  }

  predicate Succeeded(s: State, i: nat, record: Record) {
    i < |s.servers| && s.servers[i].phase == Done(Some(record)) && s.document == Some(record)
  }

  /**
   A server that starts where there is no record yet, and is not disturbed, creates it and succeeds with it,
   also if the reply of its save is lost.
   */
  lemma {:induction false} CanCreate(s: State, installation: string, tokenHash: nat, created: int, lost: bool)
    returns (steps: seq<Step>)
    requires s.document.None?
    ensures Legal(s, steps)
    ensures Succeeded(Run(s, steps), |s.servers|, Record(installation, tokenHash, created, true))
    ensures steps != [] && steps[|steps| - 1] == if lost then Reload(|s.servers|) else SaveReply(|s.servers|)
  {
    var n, k := |s.servers|, |s.saves|;
    var start := Start(installation, tokenHash, created);
    steps := [];
    OneMore(s, steps, start);
    steps := steps + [start];
    OneMore(s, steps, Load(n));
    steps := steps + [Load(n)];
    OneMore(s, steps, Deliver(k));
    steps := steps + [Deliver(k)];
    if lost {
      OneMore(s, steps, SaveUncertain(n));
      steps := steps + [SaveUncertain(n)];
      OneMore(s, steps, Reload(n));
      steps := steps + [Reload(n)];
    } else {
      OneMore(s, steps, SaveReply(n));
      steps := steps + [SaveReply(n)];
    }
  }

  /** A server that finds a record, and is not disturbed, succeeds exactly if the record is its own and sound. */
  lemma {:induction false} CanJoin(s: State, installation: string, tokenHash: nat, created: int)
    returns (steps: seq<Step>)
    requires s.document.Some?
    ensures Legal(s, steps) && |s.servers| < |Run(s, steps).servers| && Run(s, steps).servers[|s.servers|].phase.Done?
    ensures var record := s.document.value;
            Succeeded(Run(s, steps), |s.servers|, record) <==>
              record.sound && record.installation == installation && record.tokenHash == tokenHash
    ensures Run(s, steps).document == s.document
  {
    var n := |s.servers|;
    var start := Start(installation, tokenHash, created);
    OneMore(s, [], start);
    steps := [] + [start];
    OneMore(s, steps, Load(n));
    steps := steps + [Load(n)];
  }

  /** A server that loses the race to create the record succeeds with the winner's, exactly if it is its own. */
  lemma {:induction false} CanLoseRace(s: State, i: nat) returns (steps: seq<Step>)
    requires i < |s.servers| && s.servers[i].phase.Saving? && s.servers[i].phase.id < |s.saves|
    requires s.saves[s.servers[i].phase.id].delivery.Sent? && s.document.Some?
    ensures Legal(s, steps) && i < |Run(s, steps).servers| && Run(s, steps).servers[i].phase.Done?
    ensures var record := s.document.value;
            Succeeded(Run(s, steps), i, record) <==>
              record.sound && record.installation == s.servers[i].installation &&
              record.tokenHash == s.servers[i].tokenHash
  {
    var k := s.servers[i].phase.id;
    OneMore(s, [], Deliver(k));
    steps := [] + [Deliver(k)];
    OneMore(s, steps, SaveReply(i));
    steps := steps + [SaveReply(i)];
    OneMore(s, steps, Reload(i));
    steps := steps + [Reload(i)];
  }
}
