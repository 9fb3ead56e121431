/**
 The operator's single durable browser session: a document with strictly increasing
 revisions, replaced only by compare-and-swap, and any number of concurrent logins and
 logouts whose saves may be delivered late or never and whose replies may be lost.
 */
module SessionProtocol {
  import opened Options

  /** Seconds a session is accepted after its creation. */
  const LIFETIME := 30 * 60

  /** A stored session; the token stands for its hash. */
  datatype Session = Session(token: nat, created: int, revoked: bool)

  datatype Delivery = Sent | Committed | Conflicted

  datatype Save = Save(sender: nat, expected: nat, session: Session, delivery: Delivery)

  datatype LoginPhase = Loading | Loaded(rev: nat) | Saving | ReadingBack(conflict: bool) | LoginDone(ok: bool)

  datatype LogoutPhase = Sending | Revoking(id: nat) | Verifying | LogoutDone(ok: bool)

  /** `last` is the login's latest save; `rev` is the revision the logout has loaded. */
  datatype Process =
    | Login(token: nat, created: int, attempt: nat, last: Option<nat>, login: LoginPhase)
    | Logout(token: nat, created: int, rev: nat, logout: LogoutPhase)
  {
    predicate Finished() { if Login? then login.LoginDone? else logout.LogoutDone? }
  }

  /** `history[r - 1]` is the document at revision `r`; `writers` names the save behind each revision. */
  datatype State = State(history: seq<Session>, writers: seq<nat>, saves: seq<Save>, processes: seq<Process>, now: int)

  datatype Step =
    | Tick(seconds: nat)
    | StartLogin(token: nat)
    | LoginLoad(i: nat)
    | LoginSend(i: nat)
    | LoginReply(i: nat)
    | LoginUncertain(i: nat)
    | LoginReadBack(i: nat, readable: bool)
    | Deliver(k: nat)
    | StartLogout(token: nat)
    | LogoutSend(i: nat)
    | LogoutReply(i: nat)
    | LogoutUncertain(i: nat)
    | LogoutVerify(i: nat, readable: bool)
    | Crash(i: nat)

  /** The current revision; zero while there is no document. */
  function Revision(s: State): nat {
    |s.history|
  }

  /** The session check: the stored token, not revoked, not from the future and not expired. */
  predicate Accepted(s: State, token: nat) {
    && s.history != []
    && var doc := s.history[|s.history| - 1];
       doc.token == token && !doc.revoked && doc.created <= s.now < doc.created + LIFETIME
  }

  function Init(now: int): State {
    State([], [], [], [], now)
  }

  predicate IsLogin(s: State, i: nat) {
    i < |s.processes| && s.processes[i].Login?
  }

  predicate IsLogout(s: State, i: nat) {
    i < |s.processes| && s.processes[i].Logout?
  }

  predicate Enabled(s: State, step: Step) {
    match step
    case Tick(_) => true
    case StartLogin(token) => forall p | p in s.processes && p.Login? :: p.token != token
    case LoginLoad(i) => IsLogin(s, i) && s.processes[i].login.Loading?
    case LoginSend(i) => IsLogin(s, i) && s.processes[i].login.Loaded?
    case LoginReply(i) =>
      && IsLogin(s, i) && s.processes[i].login.Saving? && s.processes[i].last.Some?
      && s.processes[i].last.value < |s.saves| && !s.saves[s.processes[i].last.value].delivery.Sent?
    case LoginUncertain(i) => IsLogin(s, i) && s.processes[i].login.Saving?
    case LoginReadBack(i, _) => IsLogin(s, i) && s.processes[i].login.ReadingBack?
    case Deliver(k) => k < |s.saves| && s.saves[k].delivery.Sent?
    case StartLogout(token) => Accepted(s, token)
    case LogoutSend(i) => IsLogout(s, i) && s.processes[i].logout.Sending?
    case LogoutReply(i) =>
      && IsLogout(s, i) && s.processes[i].logout.Revoking?
      && s.processes[i].logout.id < |s.saves| && !s.saves[s.processes[i].logout.id].delivery.Sent?
    case LogoutUncertain(i) => IsLogout(s, i) && s.processes[i].logout.Revoking?
    case LogoutVerify(i, _) => IsLogout(s, i) && s.processes[i].logout.Verifying?
    case Crash(i) => i < |s.processes| && !s.processes[i].Finished()
  }

  function With(s: State, i: nat, p: Process): State
    requires i < |s.processes|
  {
    s.(processes := s.processes[i := p])
  }

  function Post(s: State, m: Save): State {
    s.(saves := s.saves + [m])
  }

  function Next(s: State, step: Step): State
    requires Enabled(s, step)
  {
    match step
    case Tick(seconds) => s.(now := s.now + seconds)
    case StartLogin(token) => s.(processes := s.processes + [Login(token, s.now, 1, None, Loading)])
    case LoginLoad(i) => With(s, i, s.processes[i].(login := Loaded(Revision(s))))
    case LoginSend(i) =>
      var p := s.processes[i];
      Post(With(s, i, p.(login := Saving, last := Some(|s.saves|))),
           Save(i, p.login.rev, Session(p.token, p.created, false), Sent))
    case LoginReply(i) =>
      var p := s.processes[i];
      With(s, i, p.(login := if s.saves[p.last.value].delivery.Committed? then LoginDone(true) else ReadingBack(true)))
    case LoginUncertain(i) => With(s, i, s.processes[i].(login := ReadingBack(false)))
    case LoginReadBack(i, readable) =>
      var p := s.processes[i];
      With(s, i,
           if readable && s.history != [] &&
              s.history[|s.history| - 1].token == p.token then p.(login := LoginDone(true))
           else if p.login.conflict && p.attempt < 3 then p.(login := Loading, attempt := p.attempt + 1)
           else p.(login := LoginDone(false)))
    case Deliver(k) =>
      var m := s.saves[k];
      if m.expected == Revision(s) then
        s.(history := s.history + [m.session], writers := s.writers + [k],
           saves := s.saves[k := m.(delivery := Committed)])
      else s.(saves := s.saves[k := m.(delivery := Conflicted)])
    case StartLogout(token) =>
      s.(processes := s.processes + [Logout(token, s.history[|s.history| - 1].created, Revision(s), Sending)])
    case LogoutSend(i) =>
      var p := s.processes[i];
      Post(With(s, i, p.(logout := Revoking(|s.saves|))), Save(i, p.rev, Session(p.token, p.created, true), Sent))
    case LogoutReply(i) =>
      var p := s.processes[i];
      With(s, i, p.(logout := if s.saves[p.logout.id].delivery.Committed? then LogoutDone(true) else Verifying))
    case LogoutUncertain(i) => With(s, i, s.processes[i].(logout := Verifying))
    case LogoutVerify(i, readable) =>
      var p := s.processes[i];
      With(s, i, p.(logout := LogoutDone(readable && !Accepted(s, p.token))))
    case Crash(i) =>
      var p := s.processes[i];
      With(s, i, if p.Login? then p.(login := LoginDone(false)) else p.(logout := LogoutDone(false)))
  }

  predicate Legal(s: State, steps: seq<Step>)
    decreases |steps|
  {
    steps == [] || (Enabled(s, steps[0]) && Legal(Next(s, steps[0]), steps[1..]))
  }

  function Run(s: State, steps: seq<Step>): State
    requires Legal(s, steps)
    decreases |steps|
  {
    if steps == [] then s else Run(Next(s, steps[0]), steps[1..])
  }

  // ---------------------------------------------------------------------------
  // The invariant

  /** Revision `rev` created the session of `token`. */
  predicate CreatedAt(s: State, rev: nat, token: nat, created: int) {
    1 <= rev <= |s.history| && s.history[rev - 1] == Session(token, created, false)
  }

  ghost predicate SaveOk(s: State, k: nat)
    requires k < |s.saves|
  {
    var m := s.saves[k];
    && m.sender < |s.processes|
    && m.expected <= |s.history|
    && m.session.token == s.processes[m.sender].token
    && m.session.created == s.processes[m.sender].created
    && m.session.revoked == s.processes[m.sender].Logout?
    && (s.processes[m.sender].Login? && !m.delivery.Conflicted? ==> s.processes[m.sender].last == Some(k))
    && (s.processes[m.sender].Logout? ==> m.expected == s.processes[m.sender].rev)
    && (m.delivery.Committed? ==> m.expected < |s.history| && s.history[m.expected] == m.session)
  }

  ghost predicate RevisionOk(s: State, r: nat)
    requires r < |s.history| && |s.writers| == |s.history|
  {
    && s.writers[r] < |s.saves|
    && s.saves[s.writers[r]].delivery.Committed?
    && s.saves[s.writers[r]].expected == r
    && s.saves[s.writers[r]].session == s.history[r]
    && (s.history[r].revoked ==> r > 0 && s.history[r - 1] == s.history[r].(revoked := false))
  }

  /** No save of this login can still take effect or has taken effect. */
  ghost predicate AllConflicted(s: State, i: nat) {
    forall k | 0 <= k < |s.saves| && s.saves[k].sender == i :: s.saves[k].delivery.Conflicted?
  }

  ghost predicate LoginOk(s: State, i: nat)
    requires IsLogin(s, i)
  {
    var p := s.processes[i];
    && p.created <= s.now
    && (p.last.Some? ==> p.last.value < |s.saves| && s.saves[p.last.value].sender == i)
    && (p.login.Loading? || p.login.Loaded? || p.login == ReadingBack(true) ==> AllConflicted(s, i))
    && (p.login.Loaded? ==> p.login.rev <= |s.history|)
    && (p.login == LoginDone(true) ==> p.last.Some? && s.saves[p.last.value].delivery.Committed?)
    && 1 <= p.attempt <= 3
  }

  /** The token of this session can never be accepted again. */
  ghost predicate Dead(s: State, rev: nat, created: int) {
    rev < |s.history| || created + LIFETIME <= s.now
  }

  ghost predicate LogoutOk(s: State, i: nat)
    requires IsLogout(s, i)
  {
    var p := s.processes[i];
    && p.created <= s.now
    && CreatedAt(s, p.rev, p.token, p.created)
    && (p.logout.Revoking? ==> p.logout.id < |s.saves| && s.saves[p.logout.id].sender == i)
    && (p.logout == LogoutDone(true) ==> Dead(s, p.rev, p.created))
  }

  ghost predicate Inv(s: State) {
    && |s.writers| == |s.history|
    && (forall r | 0 <= r < |s.history| :: RevisionOk(s, r))
    && (forall k | 0 <= k < |s.saves| :: SaveOk(s, k))
    && (forall i | 0 <= i < |s.processes| :: if s.processes[i].Login? then LoginOk(s, i) else LogoutOk(s, i))
    && (forall i, j | 0 <= i < j < |s.processes| && s.processes[i].Login? && s.processes[j].Login? ::
          s.processes[i].token != s.processes[j].token)
  }

  /** A token is created at most once, so the revision that created it is unique. */
  lemma CreatedOnce(s: State, a: nat, b: nat)
    requires Inv(s) && a < |s.history| && b < |s.history|
    requires s.history[a].token == s.history[b].token && !s.history[a].revoked && !s.history[b].revoked
    ensures a == b
  {
    assert RevisionOk(s, a) && RevisionOk(s, b);
    assert SaveOk(s, s.writers[a]) && SaveOk(s, s.writers[b]);
  }

  lemma NotAcceptedWhenDead(s: State, rev: nat, token: nat, created: int)
    requires Inv(s) && CreatedAt(s, rev, token, created) && created <= s.now
    ensures Accepted(s, token) <==> !Dead(s, rev, created)
  {
    var last := |s.history| - 1;
    if s.history[last].token == token && !s.history[last].revoked {
      CreatedOnce(s, rev - 1, last);
    }
  }

  /** A login that sees its own token in the document has been committed. */
  lemma SeenMeansCommitted(s: State, i: nat, r: nat)
    requires Inv(s) && IsLogin(s, i) && r < |s.history| && s.history[r].token == s.processes[i].token
    ensures s.processes[i].last.Some? && s.processes[i].last.value < |s.saves|
    ensures s.saves[s.processes[i].last.value].delivery.Committed?
  {
    assert RevisionOk(s, r);
    if s.history[r].revoked {
      SeenMeansCommitted(s, i, r - 1);
    } else {
      assert SaveOk(s, s.writers[r]);
    }
  }

  lemma InitInv(now: int)
    ensures Inv(Init(now))
  {
  }

  lemma NextInv(s: State, step: Step)
    requires Inv(s) && Enabled(s, step)
    ensures Inv(Next(s, step))
  {
    match step
    case Tick(seconds) => TickInv(s, seconds);
    case StartLogin(token) => StartInv(s, step);
    case StartLogout(token) => StartInv(s, step);
    case Deliver(d) => DeliverInv(s, d);
    case LoginSend(i) => PostInv(s, step, i);
    case LogoutSend(i) => PostInv(s, step, i);
    case LoginLoad(i) => LocalInv(s, i, Next(s, step).processes[i]);
    case LoginReply(i) => LoginReplyInv(s, i);
    case LoginUncertain(i) => LocalInv(s, i, Next(s, step).processes[i]);
    case LoginReadBack(i, readable) => LoginReadBackInv(s, i, readable);
    case LogoutReply(i) => LogoutReplyInv(s, i);
    case LogoutUncertain(i) => LocalInv(s, i, Next(s, step).processes[i]);
    case LogoutVerify(i, readable) => LogoutVerifyInv(s, i, readable);
    case Crash(i) => LocalInv(s, i, Next(s, step).processes[i]);
  }

  lemma TickInv(s: State, seconds: nat)
    requires Inv(s)
    ensures Inv(Next(s, Tick(seconds)))
  {
    var t := Next(s, Tick(seconds));
    forall r | 0 <= r < |t.history| ensures RevisionOk(t, r) { assert RevisionOk(s, r); }
    forall k | 0 <= k < |t.saves| ensures SaveOk(t, k) { assert SaveOk(s, k); }
  }

  lemma StartInv(s: State, step: Step)
    requires Inv(s) && Enabled(s, step) && (step.StartLogin? || step.StartLogout?)
    ensures Inv(Next(s, step))
  {
    var t := Next(s, step);
    var n := |s.processes|;
    forall r | 0 <= r < |t.history| ensures RevisionOk(t, r) { assert RevisionOk(s, r); }
    forall k | 0 <= k < |t.saves| ensures SaveOk(t, k) && t.saves[k].sender != n { assert SaveOk(s, k); }
    forall i | 0 <= i < n && s.processes[i].Login? && t.processes[n].Login?
      ensures s.processes[i].token != t.processes[n].token
    {
      assert s.processes[i] in s.processes;
    }
  }

  /** A change of one process that keeps its identity and its own invariant keeps everything. */
  lemma LocalInv(s: State, i: nat, p: Process)
    requires Inv(s) && i < |s.processes|
    requires var q := s.processes[i];
             p.Login? == q.Login? && p.token == q.token && p.created == q.created &&
             (if p.Login? then p.last == q.last else p.rev == q.rev)
    requires if p.Login? then LoginOk(With(s, i, p), i) else LogoutOk(With(s, i, p), i)
    ensures Inv(With(s, i, p))
  {
    var t := With(s, i, p);
    forall r | 0 <= r < |t.history| ensures RevisionOk(t, r) { assert RevisionOk(s, r); }
    forall k | 0 <= k < |t.saves| ensures SaveOk(t, k) { assert SaveOk(s, k); }
  }

  lemma LoginReplyInv(s: State, i: nat)
    requires Inv(s) && Enabled(s, LoginReply(i))
    ensures Inv(Next(s, LoginReply(i)))
  {
    var t := Next(s, LoginReply(i));
    forall k | 0 <= k < |s.saves| && s.saves[k].sender == i && !s.saves[s.processes[i].last.value].delivery.Committed?
      ensures s.saves[k].delivery.Conflicted?
    {
      assert SaveOk(s, k);
    }
    LocalInv(s, i, t.processes[i]);
  }

  lemma LoginReadBackInv(s: State, i: nat, readable: bool)
    requires Inv(s) && Enabled(s, LoginReadBack(i, readable))
    ensures Inv(Next(s, LoginReadBack(i, readable)))
  {
    var t := Next(s, LoginReadBack(i, readable));
    var last := |s.history| - 1;
    if s.history != [] && s.history[last].token == s.processes[i].token {
      SeenMeansCommitted(s, i, last);
    }
    LocalInv(s, i, t.processes[i]);
  }

  lemma LogoutReplyInv(s: State, i: nat)
    requires Inv(s) && Enabled(s, LogoutReply(i))
    ensures Inv(Next(s, LogoutReply(i)))
  {
    assert SaveOk(s, s.processes[i].logout.id);
    LocalInv(s, i, Next(s, LogoutReply(i)).processes[i]);
  }

  lemma LogoutVerifyInv(s: State, i: nat, readable: bool)
    requires Inv(s) && Enabled(s, LogoutVerify(i, readable))
    ensures Inv(Next(s, LogoutVerify(i, readable)))
  {
    var p := s.processes[i];
    NotAcceptedWhenDead(s, p.rev, p.token, p.created);
    LocalInv(s, i, Next(s, LogoutVerify(i, readable)).processes[i]);
  }

  lemma PostInv(s: State, step: Step, i: nat)
    requires Inv(s) && Enabled(s, step) && (step == LoginSend(i) || step == LogoutSend(i))
    ensures Inv(Next(s, step))
  {
    var t := Next(s, step);
    forall r | 0 <= r < |t.history| ensures RevisionOk(t, r) { assert RevisionOk(s, r); }
    forall k | 0 <= k < |t.saves|
      ensures SaveOk(t, k)
    {
      if k < |s.saves| {
        assert SaveOk(s, k);
      }
    }
    forall j | 0 <= j < |t.processes|
      ensures if t.processes[j].Login? then LoginOk(t, j) else LogoutOk(t, j)
    {
      assert if s.processes[j].Login? then LoginOk(s, j) else LogoutOk(s, j);
    }
  }

  lemma DeliverInv(s: State, d: nat)
    requires Inv(s) && Enabled(s, Deliver(d))
    ensures Inv(Next(s, Deliver(d)))
  {
    var t := Next(s, Deliver(d));
    assert SaveOk(s, d);
    forall r | 0 <= r < |t.history|
      ensures RevisionOk(t, r)
    {
      if r < |s.history| {
        assert RevisionOk(s, r);
      }
    }
    forall k | 0 <= k < |t.saves| ensures SaveOk(t, k) { assert SaveOk(s, k); }
    forall j | 0 <= j < |t.processes|
      ensures if t.processes[j].Login? then LoginOk(t, j) else LogoutOk(t, j)
    {
      assert if s.processes[j].Login? then LoginOk(s, j) else LogoutOk(s, j);
    }
  }

  lemma {:induction false} RunInv(s: State, steps: seq<Step>)
    requires Inv(s) && Legal(s, steps)
    ensures Inv(Run(s, steps))
    decreases |steps|
  {
    if steps != [] {
      NextInv(s, steps[0]);
      RunInv(Next(s, steps[0]), steps[1..]);
    }
  }

  // ---------------------------------------------------------------------------
  // What the protocol guarantees in every run

  lemma FinishedForGood(s: State, steps: seq<Step>, i: nat)
    requires Legal(s, steps) && i < |s.processes| && s.processes[i].Finished()
    ensures i < |Run(s, steps).processes| && Run(s, steps).processes[i] == s.processes[i]
    decreases |steps|
  {
    if steps != [] {
      FinishedForGood(Next(s, steps[0]), steps[1..], i);
    }
  }

  /** Once a logout has reported success, its token is not accepted in any later state of any run. */
  lemma LogoutIsFinal(now: int, before: seq<Step>, after: seq<Step>, i: nat)
    requires Legal(Init(now), before) && Legal(Run(Init(now), before), after)
    requires IsLogout(Run(Init(now), before), i) && Run(Init(now), before).processes[i].logout == LogoutDone(true)
    ensures !Accepted(Run(Run(Init(now), before), after), Run(Init(now), before).processes[i].token)
  {
    InitInv(now);
    RunInv(Init(now), before);
    var s := Run(Init(now), before);
    RunInv(s, after);
    FinishedForGood(s, after, i);
    var t := Run(s, after);
    var p := t.processes[i];
    assert LogoutOk(t, i);
    NotAcceptedWhenDead(t, p.rev, p.token, p.created);
  }

  /** A revocation only ever replaces the very session it was sent for, however late it arrives. */
  lemma RevocationHitsItsOwnSession(now: int, steps: seq<Step>, r: nat)
    requires Legal(Init(now), steps) && r < |Run(Init(now), steps).history|
    requires Run(Init(now), steps).history[r].revoked
    ensures r > 0 && Run(Init(now), steps).history[r - 1] == Run(Init(now), steps).history[r].(revoked := false)
  {
    InitInv(now);
    RunInv(Init(now), steps);
    assert RevisionOk(Run(Init(now), steps), r);
  }

  /** A login commits its token at most once, and reports success only if it was committed. */
  lemma LoginCommitsOnce(now: int, steps: seq<Step>, i: nat, a: nat, b: nat)
    requires Legal(Init(now), steps) && IsLogin(Run(Init(now), steps), i)
    ensures var s := Run(Init(now), steps);
            var p := s.processes[i];
            && (p.login == LoginDone(true) ==> exists r :: CreatedAt(s, r, p.token, p.created))
            && (CreatedAt(s, a, p.token, p.created) && CreatedAt(s, b, p.token, p.created) ==> a == b)
  {
    InitInv(now);
    RunInv(Init(now), steps);
    var s := Run(Init(now), steps);
    var p := s.processes[i];
    assert LoginOk(s, i);
    if p.login == LoginDone(true) {
      assert SaveOk(s, p.last.value);
      assert CreatedAt(s, s.saves[p.last.value].expected + 1, p.token, p.created);
    }
    if CreatedAt(s, a, p.token, p.created) && CreatedAt(s, b, p.token, p.created) {
      CreatedOnce(s, a - 1, b - 1);
    }
  }

  // ---------------------------------------------------------------------------
  // What the protocol makes possible

  lemma {:induction false} RunAppend(s: State, a: seq<Step>, b: seq<Step>)
    requires Legal(s, a) && Legal(Run(s, a), b)
    ensures Legal(s, a + b) && Run(s, a + b) == Run(Run(s, a), b)
    decreases |a|
  {
    if a == [] {
      assert a + b == b;
    } else {
      assert (a + b)[1..] == a[1..] + b;
      RunAppend(Next(s, a[0]), a[1..], b);
    }
  }

  lemma {:induction false} OneMore(s: State, steps: seq<Step>, step: Step)
    requires Legal(s, steps) && Enabled(Run(s, steps), step)
    ensures Legal(s, steps + [step]) && Run(s, steps + [step]) == Next(Run(s, steps), step)
  {
    var t, one := Run(s, steps), [step];
    assert one[0] == step && one[1..] == [];
    assert Legal(Next(t, step), one[1..]);
    assert Legal(t, one);
    assert Run(t, one) == Run(Next(t, one[0]), one[1..]);
    RunAppend(s, steps, one);
  }

  /** The login has succeeded, its session is the latest revision, and its token is accepted. */
  predicate SignedIn(s: State, i: nat, token: nat) {
    && IsLogin(s, i) && s.processes[i].token == token && s.processes[i].login == LoginDone(true)
    && CreatedAt(s, Revision(s), token, s.processes[i].created) && Accepted(s, token)
  }

  /**
   A login that has loaded the document and is not disturbed any more succeeds, also if the reply of its
   save is lost and the document must be read back.
   */
  lemma {:induction false} CanFinishLogin(s: State, i: nat, lost: bool) returns (steps: seq<Step>)
    requires Inv(s) && IsLogin(s, i) && s.processes[i].login.Loading? && s.now < s.processes[i].created + LIFETIME
    ensures Legal(s, steps) && SignedIn(Run(s, steps), i, s.processes[i].token)
    ensures steps != [] && steps[|steps| - 1] == if lost then LoginReadBack(i, true) else LoginReply(i)
  {
    var k := |s.saves|;
    assert LoginOk(s, i);
    steps := [];
    OneMore(s, steps, LoginLoad(i));
    steps := steps + [LoginLoad(i)];
    OneMore(s, steps, LoginSend(i));
    steps := steps + [LoginSend(i)];
    OneMore(s, steps, Deliver(k));
    steps := steps + [Deliver(k)];
    if lost {
      OneMore(s, steps, LoginUncertain(i));
      steps := steps + [LoginUncertain(i)];
      OneMore(s, steps, LoginReadBack(i, true));
      steps := steps + [LoginReadBack(i, true)];
    } else {
      OneMore(s, steps, LoginReply(i));
      steps := steps + [LoginReply(i)];
    }
  }

  /** In every reachable state a login with a fresh token that is not disturbed succeeds and is accepted. */
  lemma {:induction false} CanLogin(now: int, before: seq<Step>, token: nat, lost: bool) returns (steps: seq<Step>)
    requires Legal(Init(now), before) && Enabled(Run(Init(now), before), StartLogin(token))
    ensures Legal(Run(Init(now), before), steps)
    ensures SignedIn(Run(Run(Init(now), before), steps), |Run(Init(now), before).processes|, token)
    ensures var n := |Run(Init(now), before).processes|;
            steps != [] && steps[|steps| - 1] == if lost then LoginReadBack(n, true) else LoginReply(n)
  {
    var s := Run(Init(now), before);
    InitInv(now);
    RunInv(Init(now), before);
    OneMore(s, [], StartLogin(token));
    var start := [] + [StartLogin(token)];
    NextInv(s, StartLogin(token));
    var rest := CanFinishLogin(Run(s, start), |s.processes|, lost);
    RunAppend(s, start, rest);
    steps := start + rest;
  }

  /** A save that lost the race to another is tried again, and succeeds the second or third time if not disturbed. */
  lemma {:induction false} CanRetry(s: State, i: nat, readable: bool) returns (steps: seq<Step>)
    requires Inv(s) && IsLogin(s, i) && s.processes[i].login == ReadingBack(true) && s.processes[i].attempt < 3
    requires s.now < s.processes[i].created + LIFETIME
    ensures Legal(s, steps) && SignedIn(Run(s, steps), i, s.processes[i].token)
  {
    var step := LoginReadBack(i, readable);
    NotYetSeen(s, i);
    OneMore(s, [], step);
    var start := [] + [step];
    NextInv(s, step);
    var rest := CanFinishLogin(Run(s, start), i, false);
    RunAppend(s, start, rest);
    steps := start + rest;
  }

  /** After a conflict the login's own token is in no revision. */
  lemma NotYetSeen(s: State, i: nat)
    requires Inv(s) && IsLogin(s, i) && s.processes[i].login == ReadingBack(true)
    ensures s.history != [] ==> s.history[|s.history| - 1].token != s.processes[i].token
  {
    assert LoginOk(s, i);
    if s.history != [] && s.history[|s.history| - 1].token == s.processes[i].token {
      SeenMeansCommitted(s, i, |s.history| - 1);
    }
  }

  /** A login whose save was committed and answered has succeeded, in every later state of every run. */
  lemma AnsweredLoginSucceeds(now: int, before: seq<Step>, after: seq<Step>, i: nat)
    requires Legal(Init(now), before) && Enabled(Run(Init(now), before), LoginReply(i))
    requires var s := Run(Init(now), before); s.saves[s.processes[i].last.value].delivery.Committed?
    requires Legal(Next(Run(Init(now), before), LoginReply(i)), after)
    ensures var t := Run(Next(Run(Init(now), before), LoginReply(i)), after);
            IsLogin(t, i) && t.processes[i].login == LoginDone(true)
  {
    var s := Next(Run(Init(now), before), LoginReply(i));
    FinishedForGood(s, after, i);
  }

  /** An accepted session whose logout is not disturbed, or only loses its reply, is signed out. */
  lemma {:induction false} CanLogout(now: int, before: seq<Step>, token: nat, lost: bool) returns (steps: seq<Step>)
    requires Legal(Init(now), before) && Accepted(Run(Init(now), before), token)
    ensures Legal(Run(Init(now), before), steps)
    ensures var s, t := Run(Init(now), before), Run(Run(Init(now), before), steps);
            && IsLogout(t, |s.processes|) && t.processes[|s.processes|].logout == LogoutDone(true)
            && !Accepted(t, token) && Revision(t) == Revision(s) + 1
    ensures var n := |Run(Init(now), before).processes|;
            steps != [] && steps[|steps| - 1] == if lost then LogoutVerify(n, true) else LogoutReply(n)
  {
    var s := Run(Init(now), before);
    var n, k := |s.processes|, |s.saves|;
    steps := [];
    OneMore(s, steps, StartLogout(token));
    steps := steps + [StartLogout(token)];
    OneMore(s, steps, LogoutSend(n));
    steps := steps + [LogoutSend(n)];
    OneMore(s, steps, Deliver(k));
    steps := steps + [Deliver(k)];
    if lost {
      OneMore(s, steps, LogoutUncertain(n));
      steps := steps + [LogoutUncertain(n)];
      OneMore(s, steps, LogoutVerify(n, true));
      steps := steps + [LogoutVerify(n, true)];
    } else {
      OneMore(s, steps, LogoutReply(n));
      steps := steps + [LogoutReply(n)];
    }
  }

  /** How many saves a process has sent. */
  function SavesBy(saves: seq<Save>, i: nat): nat {
    if saves == [] then 0
    else SavesBy(saves[..|saves| - 1], i) + if saves[|saves| - 1].sender == i then 1 else 0
  }

  lemma {:induction false} SavesByUpdate(saves: seq<Save>, k: nat, m: Save, i: nat)
    requires k < |saves| && m.sender == saves[k].sender
    ensures SavesBy(saves[k := m], i) == SavesBy(saves, i)
  {
    var n := |saves| - 1;
    if k < n {
      SavesByUpdate(saves[..n], k, m, i);
      assert saves[k := m][..n] == saves[..n][k := m];
    } else {
      assert saves[k := m][..n] == saves[..n];
    }
  }

  lemma {:induction false} SavesByNobody(saves: seq<Save>, i: nat)
    requires forall k | 0 <= k < |saves| :: saves[k].sender != i
    ensures SavesBy(saves, i) == 0
  {
    if saves != [] {
      SavesByNobody(saves[..|saves| - 1], i);
    }
  }

  /** A login has sent at most one save for each of its attempts, of which there are at most three. */
  ghost predicate Frugal(s: State, i: nat)
    requires i < |s.processes|
  {
    var p := s.processes[i];
    if p.Logout? then SavesBy(s.saves, i) <= if p.logout.Sending? then 0 else 1
    else SavesBy(s.saves, i) <= if p.login.Loading? || p.login.Loaded? then p.attempt - 1 else p.attempt
  }

  lemma FrugalNext(s: State, step: Step, i: nat)
    requires Inv(s) && Enabled(s, step) && i < |Next(s, step).processes| && (i < |s.processes| ==> Frugal(s, i))
    ensures Frugal(Next(s, step), i)
  {
    var t := Next(s, step);
    if step.Deliver? {
      SavesByUpdate(s.saves, step.k, t.saves[step.k], i);
    } else if i == |s.processes| {
      forall k | 0 <= k < |s.saves|
        ensures s.saves[k].sender != i
      {
        assert SaveOk(s, k);
      }
      SavesByNobody(s.saves, i);
    } else if step.LoginSend? || step.LogoutSend? {
      assert t.saves[..|s.saves|] == s.saves;
    }
  }

  lemma {:induction false} FrugalRun(s: State, steps: seq<Step>, i: nat)
    requires Inv(s) && Legal(s, steps) && i < |Run(s, steps).processes| && (i < |s.processes| ==> Frugal(s, i))
    ensures Frugal(Run(s, steps), i)
    decreases |steps|
  {
    if steps != [] {
      var t := Next(s, steps[0]);
      NextInv(s, steps[0]);
      if i < |t.processes| {
        FrugalNext(s, steps[0], i);
      }
      FrugalRun(t, steps[1..], i);
    }
  }

  /** No login ever sends more than three saves, and no logout more than one. */
  lemma AtMostThreeSaves(now: int, steps: seq<Step>, i: nat)
    requires Legal(Init(now), steps) && i < |Run(Init(now), steps).processes|
    ensures var s := Run(Init(now), steps); SavesBy(s.saves, i) <= if s.processes[i].Login? then 3 else 1
  {
    InitInv(now);
    FrugalRun(Init(now), steps, i);
    RunInv(Init(now), steps);
    var s := Run(Init(now), steps);
    assert s.processes[i].Login? ==> LoginOk(s, i);
  }

  /** A session that was created is accepted exactly while it is the latest revision and has not expired. */
  lemma AcceptedExactly(now: int, steps: seq<Step>, rev: nat, token: nat, created: int)
    requires Legal(Init(now), steps) && CreatedAt(Run(Init(now), steps), rev, token, created)
    ensures var s := Run(Init(now), steps);
            Accepted(s, token) <==> rev == Revision(s) && s.now < created + 30 * 60
  {
    InitInv(now);
    RunInv(Init(now), steps);
    var s := Run(Init(now), steps);
    assert RevisionOk(s, rev - 1);
    var w := s.writers[rev - 1];
    assert SaveOk(s, w);
    assert LoginOk(s, s.saves[w].sender);
    NotAcceptedWhenDead(s, rev, token, created);
  }
}
