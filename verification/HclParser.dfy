/**
 The parser of OpenBao server configurations: a cursor over the tokens, a method for each
 kind of block, and sets of the names already seen. It is specified by the syntax trees the
 tokens print: which tree means which configuration, and which mean none.
 */
module HclParser {
  import opened Options
  import opened HclSyntax

  datatype Listener = Listener(kind: string, address: string, clusterAddress: string, tlsDisable: nat,
                               tlsCertFile: string, tlsKeyFile: string, tlsClientCaFile: string)
  datatype RetryJoin = RetryJoin(apiAddress: string, caCertFile: string, clientCertFile: string,
                                 clientKeyFile: string, tlsServerName: string)
  datatype Storage = Storage(kind: string, path: string, retryJoin: seq<RetryJoin>)
  datatype AuditOptions = AuditOptions(filePath: string, mode: string, logRaw: string)
  datatype Audit = Audit(kind: string, name: string, description: string, options: AuditOptions)
  datatype Registration = Registration(kind: string)
  datatype Config = Config(ui: bool, listeners: seq<Listener>, storage: seq<Storage>, audits: seq<Audit>,
                           registrations: seq<Registration>)

  // ---------------------------------------------------------------------------
  // Numbers

  const MAX_INT := 0x7FFF_FFFF_FFFF_FFFF

  function Digits(s: string): nat
    requires forall i | 0 <= i < |s| :: IsDigit(s[i])
  {
    if s == "" then 0 else assert IsDigit(s[|s| - 1]); 10 * Digits(s[..|s| - 1]) + (s[|s| - 1] as int - '0' as int)
  }

  /** A decimal numeral that fits in a 64-bit integer. */
  function Atoi(s: string): Option<nat> {
    if s != "" && (forall i | 0 <= i < |s| :: IsDigit(s[i])) && Digits(s) <= MAX_INT then Some(Digits(s)) else None
  }

  function Decimal(n: nat): (s: string)
    ensures s != "" && forall i | 0 <= i < |s| :: IsDigit(s[i])
    ensures Digits(s) == n
  {
    var last := ['0' + (n % 10) as char];
    if n < 10 then last else Decimal(n / 10) + last
  }

  // ---------------------------------------------------------------------------
  // What trees mean

  predicate TextEntry(e: Entry) { e.Assign? && e.value.Text? }

  predicate ListenerText(name: string) {
    name == "address" || name == "cluster_address" || name == "tls_cert_file" || name == "tls_key_file" ||
    name == "tls_client_ca_file"
  }

  predicate ListenerEntry(e: Entry) {
    || (TextEntry(e) && ListenerText(e.name))
    || (e.Assign? && e.name == "tls_disable" && e.value.Number? && Atoi(e.value.digits).Some?)
  }

  /** The number assigned to `tls_disable`; zero if there is none. */
  function TlsDisable(es: seq<Entry>): nat {
    if es == [] then 0
    else
      var e := es[|es| - 1];
      if e.Assign? && e.name == "tls_disable" && e.value.Number? && Atoi(e.value.digits).Some?
      then Atoi(e.value.digits).value
      else TlsDisable(es[..|es| - 1])
  }

  function ListenerSoFar(kind: string, es: seq<Entry>): Listener {
    Listener(kind, TextOf(es, "address"), TextOf(es, "cluster_address"), TlsDisable(es),
             TextOf(es, "tls_cert_file"), TextOf(es, "tls_key_file"), TextOf(es, "tls_client_ca_file"))
  }

  predicate AllPresent(names: set<string>) {
    && "address" in names && "cluster_address" in names && "tls_disable" in names
    && "tls_cert_file" in names && "tls_key_file" in names && "tls_client_ca_file" in names
  }

  /** A listener block sets each of its six attributes exactly once, and nothing else. */
  function ListenerOf(labels: seq<string>, body: seq<Entry>): Option<Listener> {
    if |labels| == 1 && (forall e | e in body :: ListenerEntry(e)) && Distinct(body) && AllPresent(Names(body))
    then Some(ListenerSoFar(labels[0], body))
    else None
  }

  /** Sets the one attribute that the entry names. */
  function WithListenerEntry(l: Listener, e: Entry): Listener
    requires ListenerEntry(e)
  {
    if e.name == "tls_disable" then if e.value.Number? then l.(tlsDisable := Atoi(e.value.digits).value) else l
    else if e.name == "address" then l.(address := e.value.text)
    else if e.name == "cluster_address" then l.(clusterAddress := e.value.text)
    else if e.name == "tls_cert_file" then l.(tlsCertFile := e.value.text)
    else if e.name == "tls_key_file" then l.(tlsKeyFile := e.value.text)
    else l.(tlsClientCaFile := e.value.text)
  }

  lemma ListenerStep(kind: string, es: seq<Entry>, e: Entry)
    requires ListenerEntry(e)
    ensures ListenerSoFar(kind, es + [e]) == WithListenerEntry(ListenerSoFar(kind, es), e)
  {
    assert (es + [e])[..|es|] == es;
  }

  ghost predicate NoListener(ts: seq<Token>) {
    forall ls: seq<string>, b: seq<Entry>, rest: seq<Token> | BlockAt(ts, ls, b, rest) :: ListenerOf(ls, b).None?
  }

  ghost predicate NoListenerEntry(ts: seq<Token>, seen: set<string>) {
    forall e: Entry, rest: seq<Token> | EntryAt(ts, e, rest) :: !ListenerEntry(e) || e.name in seen
  }

  lemma StuckInListener(ts: seq<Token>, known: seq<string>, done: seq<Entry>, more: seq<Token>)
    requires Reading(ts, known, done, more) && !AtClose(more) && NoListenerEntry(more, Names(done))
    ensures NoListener(ts)
  {
    forall ls: seq<string>, b: seq<Entry>, rest: seq<Token> | BlockAt(ts, ls, b, rest)
      ensures ListenerOf(ls, b).None?
    {
      StuckInBlock(ts, known, done, more, e => ListenerEntry(e), ls, b, rest);
    }
  }

  lemma UnfinishedListener(ts: seq<Token>, known: seq<string>, done: seq<Entry>, more: seq<Token>)
    requires Reading(ts, known, done, more) && AtClose(more) && !AllPresent(Names(done))
    ensures NoListener(ts)
  {
    forall ls: seq<string>, b: seq<Entry>, rest: seq<Token> | BlockAt(ts, ls, b, rest)
      ensures ListenerOf(ls, b).None?
    {
      InsideBlock(ts, known, done, more, ls, b, rest);
    }
  }

  // Retry-join blocks

  predicate JoinText(name: string) {
    name == "leader_api_addr" || name == "leader_ca_cert_file" || name == "leader_client_cert_file" ||
    name == "leader_client_key_file" || name == "leader_tls_servername"
  }

  predicate JoinEntry(e: Entry) { TextEntry(e) && JoinText(e.name) }

  function JoinSoFar(es: seq<Entry>): RetryJoin {
    RetryJoin(TextOf(es, "leader_api_addr"), TextOf(es, "leader_ca_cert_file"), TextOf(es, "leader_client_cert_file"),
              TextOf(es, "leader_client_key_file"), TextOf(es, "leader_tls_servername"))
  }

  /** A retry-join block sets each of its attributes at most once, and nothing else. */
  function JoinOf(labels: seq<string>, body: seq<Entry>): Option<RetryJoin> {
    if labels == [] && (forall e | e in body :: JoinEntry(e)) && Distinct(body) then Some(JoinSoFar(body)) else None
  }

  function WithJoinEntry(j: RetryJoin, e: Entry): RetryJoin
    requires JoinEntry(e)
  {
    if e.name == "leader_api_addr" then j.(apiAddress := e.value.text)
    else if e.name == "leader_ca_cert_file" then j.(caCertFile := e.value.text)
    else if e.name == "leader_client_cert_file" then j.(clientCertFile := e.value.text)
    else if e.name == "leader_client_key_file" then j.(clientKeyFile := e.value.text)
    else j.(tlsServerName := e.value.text)
  }

  lemma JoinStep(es: seq<Entry>, e: Entry)
    requires JoinEntry(e)
    ensures JoinSoFar(es + [e]) == WithJoinEntry(JoinSoFar(es), e)
  {
    assert (es + [e])[..|es|] == es;
  }

  ghost predicate NoJoin(ts: seq<Token>) {
    forall ls: seq<string>, b: seq<Entry>, rest: seq<Token> | BlockAt(ts, ls, b, rest) :: JoinOf(ls, b).None?
  }

  ghost predicate NoJoinEntry(ts: seq<Token>, seen: set<string>) {
    forall e: Entry, rest: seq<Token> | EntryAt(ts, e, rest) :: !JoinEntry(e) || e.name in seen
  }

  lemma StuckInJoin(ts: seq<Token>, done: seq<Entry>, more: seq<Token>)
    requires Reading(ts, [], done, more) && !AtClose(more) && NoJoinEntry(more, Names(done))
    ensures NoJoin(ts)
  {
    forall ls: seq<string>, b: seq<Entry>, rest: seq<Token> | BlockAt(ts, ls, b, rest)
      ensures JoinOf(ls, b).None?
    {
      StuckInBlock(ts, [], done, more, e => JoinEntry(e), ls, b, rest);
    }
  }

  // Audit options

  predicate OptionText(name: string) {
    name == "file_path" || name == "mode" || name == "log_raw"
  }

  predicate OptionEntry(e: Entry) { TextEntry(e) && OptionText(e.name) }

  function OptionsSoFar(es: seq<Entry>): AuditOptions {
    AuditOptions(TextOf(es, "file_path"), TextOf(es, "mode"), TextOf(es, "log_raw"))
  }

  predicate AllOptions(names: set<string>) {
    "file_path" in names && "mode" in names && "log_raw" in names
  }

  /** An audit-options block sets each of its three options exactly once, and nothing else. */
  function OptionsOf(labels: seq<string>, body: seq<Entry>): Option<AuditOptions> {
    if labels == [] && (forall e | e in body :: OptionEntry(e)) && Distinct(body) && AllOptions(Names(body))
    then Some(OptionsSoFar(body))
    else None
  }

  function WithOptionEntry(o: AuditOptions, e: Entry): AuditOptions
    requires OptionEntry(e)
  {
    if e.name == "file_path" then o.(filePath := e.value.text)
    else if e.name == "mode" then o.(mode := e.value.text)
    else o.(logRaw := e.value.text)
  }

  lemma OptionStep(es: seq<Entry>, e: Entry)
    requires OptionEntry(e)
    ensures OptionsSoFar(es + [e]) == WithOptionEntry(OptionsSoFar(es), e)
  {
    assert (es + [e])[..|es|] == es;
  }

  ghost predicate NoOptions(ts: seq<Token>) {
    forall ls: seq<string>, b: seq<Entry>, rest: seq<Token> | BlockAt(ts, ls, b, rest) :: OptionsOf(ls, b).None?
  }

  ghost predicate NoOptionEntry(ts: seq<Token>, seen: set<string>) {
    forall e: Entry, rest: seq<Token> | EntryAt(ts, e, rest) :: !OptionEntry(e) || e.name in seen
  }

  lemma StuckInOptions(ts: seq<Token>, done: seq<Entry>, more: seq<Token>)
    requires Reading(ts, [], done, more)
    requires if AtClose(more) then !AllOptions(Names(done)) else NoOptionEntry(more, Names(done))
    ensures NoOptions(ts)
  {
    forall ls: seq<string>, b: seq<Entry>, rest: seq<Token> | BlockAt(ts, ls, b, rest)
      ensures OptionsOf(ls, b).None?
    {
      if AtClose(more) {
        InsideBlock(ts, [], done, more, ls, b, rest);
      } else {
        StuckInBlock(ts, [], done, more, e => OptionEntry(e), ls, b, rest);
      }
    }
  }

  // Audit devices

  predicate AuditEntry(e: Entry) {
    || (TextEntry(e) && e.name == "description")
    || (e.Block? && e.name == "options" && OptionsOf(e.labels, e.body).Some?)
  }

  function OptionsIn(es: seq<Entry>): AuditOptions {
    if es == [] then AuditOptions("", "", "")
    else
      var e := es[|es| - 1];
      if e.Block? && e.name == "options" && OptionsOf(e.labels, e.body).Some? then OptionsOf(e.labels, e.body).value
      else OptionsIn(es[..|es| - 1])
  }

  function AuditSoFar(kind: string, name: string, es: seq<Entry>): Audit {
    Audit(kind, name, TextOf(es, "description"), OptionsIn(es))
  }

  predicate AllAudit(names: set<string>) {
    "description" in names && "options" in names
  }

  /** An audit block sets its description and its options exactly once each, and nothing else. */
  function AuditOf(labels: seq<string>, body: seq<Entry>): Option<Audit> {
    if |labels| == 2 && (forall e | e in body :: AuditEntry(e)) && Distinct(body) && AllAudit(Names(body))
    then Some(AuditSoFar(labels[0], labels[1], body))
    else None
  }

  function WithAuditEntry(a: Audit, e: Entry): Audit
    requires AuditEntry(e)
  {
    if e.Assign? then a.(description := e.value.text) else a.(options := OptionsOf(e.labels, e.body).value)
  }

  lemma AuditStep(kind: string, name: string, es: seq<Entry>, e: Entry)
    requires AuditEntry(e)
    ensures AuditSoFar(kind, name, es + [e]) == WithAuditEntry(AuditSoFar(kind, name, es), e)
  {
    assert (es + [e])[..|es|] == es;
  }

  ghost predicate NoAudit(ts: seq<Token>) {
    forall ls: seq<string>, b: seq<Entry>, rest: seq<Token> | BlockAt(ts, ls, b, rest) :: AuditOf(ls, b).None?
  }

  ghost predicate NoAuditEntry(ts: seq<Token>, seen: set<string>) {
    forall e: Entry, rest: seq<Token> | EntryAt(ts, e, rest) :: !AuditEntry(e) || e.name in seen
  }

  lemma StuckInAudit(ts: seq<Token>, known: seq<string>, done: seq<Entry>, more: seq<Token>)
    requires Reading(ts, known, done, more)
    requires if AtClose(more) then !AllAudit(Names(done)) else NoAuditEntry(more, Names(done))
    ensures NoAudit(ts)
  {
    forall ls: seq<string>, b: seq<Entry>, rest: seq<Token> | BlockAt(ts, ls, b, rest)
      ensures AuditOf(ls, b).None?
    {
      if AtClose(more) {
        InsideBlock(ts, known, done, more, ls, b, rest);
      } else {
        StuckInBlock(ts, known, done, more, e => AuditEntry(e), ls, b, rest);
      }
    }
  }

  // Storage

  predicate StorageEntry(e: Entry) {
    || (TextEntry(e) && e.name == "path")
    || (e.Block? && e.name == "retry_join" && JoinOf(e.labels, e.body).Some?)
  }

  /** The retry-join blocks, in order. */
  function Joins(es: seq<Entry>): seq<RetryJoin> {
    if es == [] then []
    else
      var e := es[|es| - 1];
      Joins(es[..|es| - 1]) +
      if e.Block? && e.name == "retry_join" &&
         JoinOf(e.labels, e.body).Some? then [JoinOf(e.labels, e.body).value] else []
  }

  function StorageSoFar(kind: string, es: seq<Entry>): Storage {
    Storage(kind, TextOf(es, "path"), Joins(es))
  }

  /** A storage block sets its path at most once and may hold any number of retry-join blocks. */
  function StorageOf(labels: seq<string>, body: seq<Entry>): Option<Storage> {
    if |labels| == 1 && (forall e | e in body :: StorageEntry(e)) && Once(body, "path")
    then Some(StorageSoFar(labels[0], body))
    else None
  }

  function WithStorageEntry(s: Storage, e: Entry): Storage
    requires StorageEntry(e)
  {
    if e.Assign? then s.(path := e.value.text) else s.(retryJoin := s.retryJoin + [JoinOf(e.labels, e.body).value])
  }

  lemma StorageStep(kind: string, es: seq<Entry>, e: Entry)
    requires StorageEntry(e)
    ensures StorageSoFar(kind, es + [e]) == WithStorageEntry(StorageSoFar(kind, es), e)
  {
    assert (es + [e])[..|es|] == es;
  }

  ghost predicate NoStorage(ts: seq<Token>) {
    forall ls: seq<string>, b: seq<Entry>, rest: seq<Token> | BlockAt(ts, ls, b, rest) :: StorageOf(ls, b).None?
  }

  ghost predicate NoStorageEntry(ts: seq<Token>, pathSeen: bool) {
    forall e: Entry, rest: seq<Token> | EntryAt(ts, e, rest) :: !StorageEntry(e) || (pathSeen && e.name == "path")
  }

  lemma StuckInStorage(ts: seq<Token>, known: seq<string>, done: seq<Entry>, more: seq<Token>)
    requires Reading(ts, known, done, more) && !AtClose(more) && NoStorageEntry(more, "path" in Names(done))
    ensures NoStorage(ts)
  {
    forall ls: seq<string>, b: seq<Entry>, rest: seq<Token> | BlockAt(ts, ls, b, rest)
      ensures StorageOf(ls, b).None?
    {
      InsideBlock(ts, known, done, more, ls, b, rest);
      var e := b[|done|];
      assert e in b;
      if e.name in Names(done) {
        RepeatedName(done, b);
      }
    }
  }

  // Service registrations

  /** A service-registration block is empty. */
  function RegistrationOf(labels: seq<string>, body: seq<Entry>): Option<Registration> {
    if |labels| == 1 && body == [] then Some(Registration(labels[0])) else None
  }

  ghost predicate NoRegistration(ts: seq<Token>) {
    forall ls: seq<string>, b: seq<Entry>, rest: seq<Token> | BlockAt(ts, ls, b, rest) :: RegistrationOf(ls, b).None?
  }

  // Whole configurations

  predicate Item(e: Entry) {
    if e.Assign? then e.name == "ui" && (e.value == Name("true") || e.value == Name("false"))
    else
      || (e.name == "listener" && ListenerOf(e.labels, e.body).Some?)
      || (e.name == "storage" && StorageOf(e.labels, e.body).Some?)
      || (e.name == "audit" && AuditOf(e.labels, e.body).Some?)
      || (e.name == "service_registration" && RegistrationOf(e.labels, e.body).Some?)
  }

  /** Adds what one item says. */
  function WithItem(c: Config, e: Entry): Config
    requires Item(e)
  {
    if e.Assign? then c.(ui := e.value == Name("true"))
    else if e.name == "listener" then c.(listeners := c.listeners + [ListenerOf(e.labels, e.body).value])
    else if e.name == "storage" then c.(storage := c.storage + [StorageOf(e.labels, e.body).value])
    else if e.name == "audit" then c.(audits := c.audits + [AuditOf(e.labels, e.body).value])
    else c.(registrations := c.registrations + [RegistrationOf(e.labels, e.body).value])
  }

  const EMPTY := Config(false, [], [], [], [])

  function ConfigSoFar(es: seq<Entry>): Config
    requires forall e | e in es :: Item(e)
  {
    if es == [] then EMPTY else WithItem(ConfigSoFar(es[..|es| - 1]), es[|es| - 1])
  }

  /** A configuration sets `ui` exactly once and holds any number of blocks of each kind. */
  function ConfigOf(doc: seq<Entry>): Option<Config> {
    if (forall e | e in doc :: Item(e)) && Once(doc, "ui") && "ui" in Names(doc) then Some(ConfigSoFar(doc)) else None
  }

  lemma ConfigStep(es: seq<Entry>, e: Entry)
    requires Item(e) && forall f | f in es :: Item(f)
    ensures (forall f | f in es + [e] :: Item(f)) && ConfigSoFar(es + [e]) == WithItem(ConfigSoFar(es), e)
  {
    assert (es + [e])[..|es|] == es;
  }

  ghost predicate NoItem(ts: seq<Token>, uiSeen: bool) {
    forall e: Entry, rest: seq<Token> | EntryAt(ts, e, rest) :: !Item(e) || (uiSeen && e.name == "ui")
  }

  lemma NotUi(ts: seq<Token>, more: seq<Token>, uiSeen: bool)
    requires ts == [Name("ui")] + more
    requires !(|more| >= 2 && more[0] == Equals && more[1] in {Name("true"), Name("false")})
    ensures NoItem(ts, uiSeen)
  {
    NamedBlock(ts, "ui", more);
    forall e: Entry, rest: seq<Token> | EntryAt(ts, e, rest)
      ensures !Item(e)
    {
      assert ts[1..] == EntryTail(e) + rest == more;
    }
  }

  lemma StuckAtItem(done: seq<Entry>, more: seq<Token>, doc: seq<Entry>)
    requires more != [] && Print(done) + more == Print(doc) && NoItem(more, "ui" in Names(done))
    ensures ConfigOf(doc).None?
  {
    assert Print(done) + more == Print(doc) + [];
    NextEntry(done, more, doc, []);
    var e := doc[|done|];
    assert e in doc;
    if e.name in Names(done) {
      RepeatedName(done, doc);
    }
  }

  // ---------------------------------------------------------------------------
  // The cursor

  class Parser {
    const tokens: seq<Token>
    var index: nat

    constructor (tokens: seq<Token>)
      ensures this.tokens == tokens && index == 0
    {
      this.tokens := tokens;
      index := 0;
    }

    ghost predicate Valid()
      reads this
    {
      index <= |tokens|
    }

    function Ahead(): seq<Token>
      reads this
      requires Valid()
    {
      tokens[index..]
    }

    method Identifier() returns (r: Option<string>)
      requires Valid()
      modifies this`index
      ensures Valid() && old(index) <= index
      ensures r.Some? <==> old(Ahead()) != [] && old(Ahead())[0].Name?
      ensures r.Some? ==> old(Ahead()) == [Name(r.value)] + Ahead()
    {
      if index == |tokens| || !tokens[index].Name? {
        return None;
      }
      r := Some(tokens[index].name);
      index := index + 1;
    }

    method StringToken() returns (r: Option<string>)
      requires Valid()
      modifies this`index
      ensures Valid() && old(index) <= index
      ensures r.Some? <==> old(Ahead()) != [] && old(Ahead())[0].Text?
      ensures r.Some? ==> old(Ahead()) == [Text(r.value)] + Ahead()
    {
      if index == |tokens| || !tokens[index].Text? {
        return None;
      }
      r := Some(tokens[index].text);
      index := index + 1;
    }

    method Consume(token: Token) returns (ok: bool)
      requires Valid()
      modifies this`index
      ensures Valid() && old(index) <= index
      ensures ok <==> old(Ahead()) != [] && old(Ahead())[0] == token
      ensures ok ==> old(Ahead()) == [token] + Ahead()
    {
      if index == |tokens| || tokens[index] != token {
        return false;
      }
      index := index + 1;
      ok := true;
    }

    method Peek(token: Token) returns (ok: bool)
      requires Valid()
      ensures ok <==> Ahead() != [] && Ahead()[0] == token
    {
      ok := index < |tokens| && tokens[index] == token;
    }

    method UniqueIdentifier(seen: set<string>) returns (r: Option<string>)
      requires Valid()
      modifies this`index
      ensures Valid() && old(index) <= index
      ensures r.Some? <==> old(Ahead()) != [] && old(Ahead())[0].Name? && old(Ahead())[0].name !in seen
      ensures r.Some? ==> old(Ahead()) == [Name(r.value)] + Ahead()
    {
      r := Identifier();
      if r.Some? && r.value in seen {
        r := None;
      }
    }

    method StringAssignment() returns (r: Option<string>)
      requires Valid()
      modifies this`index
      ensures Valid() && old(index) <= index
      ensures r.Some? <==> |old(Ahead())| >= 2 && old(Ahead())[0] == Equals && old(Ahead())[1].Text?
      ensures r.Some? ==> old(Ahead()) == [Equals, Text(r.value)] + Ahead()
    {
      var ok := Consume(Equals);
      if !ok {
        return None;
      }
      r := StringToken();
    }

    method IntegerAssignment() returns (r: Option<nat>, ghost digits: string)
      requires Valid()
      modifies this`index
      ensures Valid() && old(index) <= index
      ensures r.Some? <==>
              |old(Ahead())| >= 2 && old(Ahead())[0] == Equals && old(Ahead())[1].Number? &&
              Atoi(old(Ahead())[1].digits).Some?
      ensures r.Some? ==> r == Atoi(digits) && old(Ahead()) == [Equals, Number(digits)] + Ahead()
    {
      var ok := Consume(Equals);
      if !ok || index == |tokens| || !tokens[index].Number? {
        return None, "";
      }
      r, digits := Atoi(tokens[index].digits), tokens[index].digits;
      index := index + 1;
    }

    /** A string label and an opening brace. */
    method OpenLabelled() returns (r: Option<string>)
      requires Valid()
      modifies this`index
      ensures Valid() && old(index) <= index
      ensures r.Some? ==> Reading(old(Ahead()), [r.value], [], Ahead())
      ensures r.None? ==>
                forall ls: seq<string>, b: seq<Entry>,
                rest: seq<Token> | BlockAt(old(Ahead()), ls, b, rest) :: |ls| != 1
    {
      ghost var whole := Ahead();
      r := StringToken();
      if r.Some? {
        var ok := Consume(Open);
        if !ok {
          r := None;
        }
      }
      if r.None? {
        forall ls: seq<string>, b: seq<Entry>, rest: seq<Token> | BlockAt(whole, ls, b, rest)
          ensures |ls| != 1
        {
          BlockStart(whole, ls, b, rest);
        }
      }
    }

    /** Two string labels and an opening brace. */
    method OpenTwiceLabelled() returns (r: Option<(string, string)>)
      requires Valid()
      modifies this`index
      ensures Valid() && old(index) <= index
      ensures r.Some? ==> Reading(old(Ahead()), [r.value.0, r.value.1], [], Ahead())
      ensures r.None? ==>
                forall ls: seq<string>, b: seq<Entry>,
                rest: seq<Token> | BlockAt(old(Ahead()), ls, b, rest) :: |ls| != 2
    {
      ghost var whole := Ahead();
      var first := StringToken();
      var second := None;
      if first.Some? {
        second := StringToken();
      }
      var ok := false;
      if second.Some? {
        ok := Consume(Open);
      }
      if ok {
        return Some((first.value, second.value));
      }
      r := None;
      forall ls: seq<string>, b: seq<Entry>, rest: seq<Token> | BlockAt(whole, ls, b, rest)
        ensures |ls| != 2
      {
        BlockStart(whole, ls, b, rest);
      }
    }

    /** An opening brace without a label. */
    method OpenPlain() returns (ok: bool)
      requires Valid()
      modifies this`index
      ensures Valid() && old(index) <= index
      ensures ok ==> Reading(old(Ahead()), [], [], Ahead())
      ensures !ok ==>
                forall ls: seq<string>, b: seq<Entry>, rest: seq<Token> | BlockAt(old(Ahead()), ls, b, rest) :: ls != []
    {
      ghost var whole := Ahead();
      ok := Consume(Open);
      if !ok {
        forall ls: seq<string>, b: seq<Entry>, rest: seq<Token> | BlockAt(whole, ls, b, rest)
          ensures ls != []
        {
          BlockStart(whole, ls, b, rest);
        }
      }
    }

    // -------------------------------------------------------------------------
    // Listeners

    /** Reads one attribute into the listener, or finds that no new attribute can come next. */
    method ListenerAttribute(listener: Listener, seen: set<string>)
      returns (r: Option<(Listener, string)>, ghost e: Entry)
      requires Valid()
      modifies this`index
      ensures Valid() && old(index) <= index
      ensures r.Some? ==> ListenerEntry(e) && e.name == r.value.1 && e.name !in seen && old(index) < index
      ensures r.Some? ==> r.value.0 == WithListenerEntry(listener, e)
      ensures r.Some? ==> EntryAt(old(Ahead()), e, Ahead())
      ensures r.None? ==> NoListenerEntry(old(Ahead()), seen)
    {
      e := Assign("", Equals);
      var name := UniqueIdentifier(seen);
      if name.None? {
        return None, e;
      }
      if name.value == "tls_disable" {
        var n, digits := IntegerAssignment();
        if n.None? {
          return None, e;
        }
        e := Assign(name.value, Number(digits));
        return Some((listener.(tlsDisable := n.value), name.value)), e;
      }
      if !ListenerText(name.value) {
        return None, e;
      }
      var text := StringAssignment();
      if text.None? {
        return None, e;
      }
      e := Assign(name.value, Text(text.value));
      var out := listener;
      if name.value == "address" {
        out := out.(address := text.value);
      } else if name.value == "cluster_address" {
        out := out.(clusterAddress := text.value);
      } else if name.value == "tls_cert_file" {
        out := out.(tlsCertFile := text.value);
      } else if name.value == "tls_key_file" {
        out := out.(tlsKeyFile := text.value);
      } else {
        out := out.(tlsClientCaFile := text.value);
      }
      r := Some((out, name.value));
    }

    method ListenerBlock() returns (r: Option<Listener>, ghost labels: seq<string>, ghost body: seq<Entry>)
      requires Valid()
      modifies this`index
      ensures Valid() && old(index) <= index
      ensures r.Some? ==> BlockAt(old(Ahead()), labels, body, Ahead()) && r == ListenerOf(labels, body)
      ensures r.None? ==> NoListener(old(Ahead()))
    {
      ghost var whole := Ahead();
      labels, body := [], [];
      var kind := OpenLabelled();
      if kind.None? {
        return None, labels, body;
      }
      labels := [kind.value];
      var listener := Listener(kind.value, "", "", 0, "", "", "");
      var seen: set<string> := {};
      var stop := Peek(Close);
      while !stop
        invariant Valid() && old(index) <= index
        invariant Reading(whole, labels, body, Ahead()) && (stop <==> AtClose(Ahead()))
        invariant listener == ListenerSoFar(kind.value, body)
        invariant Distinct(body) && Names(body) == seen && forall e | e in body :: ListenerEntry(e)
        decreases |tokens| - index
      {
        ghost var more := Ahead();
        var next, e := ListenerAttribute(listener, seen);
        if next.None? {
          StuckInListener(whole, labels, body, more);
          return None, labels, body;
        }
        ListenerStep(kind.value, body, e);
        DistinctAppend(body, e);
        ReadOneMore(whole, labels, body, more, e, Ahead());
        listener, seen, body := next.value.0, seen + {next.value.1}, body + [e];
        stop := Peek(Close);
      }
      if !AllPresent(seen) {
        UnfinishedListener(whole, labels, body, Ahead());
        return None, labels, body;
      }
      var ok := Consume(Close);
      ReadAll(whole, labels, body, Ahead());
      r := Some(listener);
    }

    // -------------------------------------------------------------------------
    // Retry-join blocks

    method JoinAttribute(join: RetryJoin, seen: set<string>) returns (r: Option<(RetryJoin, string)>, ghost e: Entry)
      requires Valid()
      modifies this`index
      ensures Valid() && old(index) <= index
      ensures r.Some? ==> JoinEntry(e) && e.name == r.value.1 && e.name !in seen && old(index) < index
      ensures r.Some? ==> r.value.0 == WithJoinEntry(join, e)
      ensures r.Some? ==> EntryAt(old(Ahead()), e, Ahead())
      ensures r.None? ==> NoJoinEntry(old(Ahead()), seen)
    {
      e := Assign("", Equals);
      var name := UniqueIdentifier(seen);
      if name.None? || !JoinText(name.value) {
        return None, e;
      }
      var text := StringAssignment();
      if text.None? {
        return None, e;
      }
      e := Assign(name.value, Text(text.value));
      var out := join;
      if name.value == "leader_api_addr" {
        out := out.(apiAddress := text.value);
      } else if name.value == "leader_ca_cert_file" {
        out := out.(caCertFile := text.value);
      } else if name.value == "leader_client_cert_file" {
        out := out.(clientCertFile := text.value);
      } else if name.value == "leader_client_key_file" {
        out := out.(clientKeyFile := text.value);
      } else {
        out := out.(tlsServerName := text.value);
      }
      r := Some((out, name.value));
    }

    method RetryJoinBlock() returns (r: Option<RetryJoin>, ghost body: seq<Entry>)
      requires Valid()
      modifies this`index
      ensures Valid() && old(index) <= index
      ensures r.Some? ==> BlockAt(old(Ahead()), [], body, Ahead()) && r == JoinOf([], body)
      ensures r.None? ==> NoJoin(old(Ahead()))
    {
      ghost var whole := Ahead();
      body := [];
      var ok := OpenPlain();
      if !ok {
        return None, body;
      }
      var join := RetryJoin("", "", "", "", "");
      var seen: set<string> := {};
      var stop := Peek(Close);
      while !stop
        invariant Valid() && old(index) <= index
        invariant Reading(whole, [], body, Ahead()) && (stop <==> AtClose(Ahead()))
        invariant join == JoinSoFar(body)
        invariant Distinct(body) && Names(body) == seen && forall e | e in body :: JoinEntry(e)
        decreases |tokens| - index
      {
        ghost var more := Ahead();
        var next, e := JoinAttribute(join, seen);
        if next.None? {
          StuckInJoin(whole, body, more);
          return None, body;
        }
        JoinStep(body, e);
        DistinctAppend(body, e);
        ReadOneMore(whole, [], body, more, e, Ahead());
        join, seen, body := next.value.0, seen + {next.value.1}, body + [e];
        stop := Peek(Close);
      }
      ok := Consume(Close);
      ReadAll(whole, [], body, Ahead());
      r := Some(join);
    }

    // -------------------------------------------------------------------------
    // Audit devices

    method OptionAttribute(options: AuditOptions, seen: set<string>)
      returns (r: Option<(AuditOptions, string)>, ghost e: Entry)
      requires Valid()
      modifies this`index
      ensures Valid() && old(index) <= index
      ensures r.Some? ==> OptionEntry(e) && e.name == r.value.1 && e.name !in seen && old(index) < index
      ensures r.Some? ==> r.value.0 == WithOptionEntry(options, e)
      ensures r.Some? ==> EntryAt(old(Ahead()), e, Ahead())
      ensures r.None? ==> NoOptionEntry(old(Ahead()), seen)
    {
      e := Assign("", Equals);
      var name := UniqueIdentifier(seen);
      if name.None? || !OptionText(name.value) {
        return None, e;
      }
      var text := StringAssignment();
      if text.None? {
        return None, e;
      }
      e := Assign(name.value, Text(text.value));
      var out := options;
      if name.value == "file_path" {
        out := out.(filePath := text.value);
      } else if name.value == "mode" {
        out := out.(mode := text.value);
      } else {
        out := out.(logRaw := text.value);
      }
      r := Some((out, name.value));
    }

    method AuditOptionsBlock() returns (r: Option<AuditOptions>, ghost body: seq<Entry>)
      requires Valid()
      modifies this`index
      ensures Valid() && old(index) <= index
      ensures r.Some? ==> BlockAt(old(Ahead()), [], body, Ahead()) && r == OptionsOf([], body)
      ensures r.None? ==> NoOptions(old(Ahead()))
    {
      ghost var whole := Ahead();
      body := [];
      var ok := OpenPlain();
      if !ok {
        return None, body;
      }
      var options := AuditOptions("", "", "");
      var seen: set<string> := {};
      var stop := Peek(Close);
      while !stop
        invariant Valid() && old(index) <= index
        invariant Reading(whole, [], body, Ahead()) && (stop <==> AtClose(Ahead()))
        invariant options == OptionsSoFar(body)
        invariant Distinct(body) && Names(body) == seen && forall e | e in body :: OptionEntry(e)
        decreases |tokens| - index
      {
        ghost var more := Ahead();
        var next, e := OptionAttribute(options, seen);
        if next.None? {
          StuckInOptions(whole, body, more);
          return None, body;
        }
        OptionStep(body, e);
        DistinctAppend(body, e);
        ReadOneMore(whole, [], body, more, e, Ahead());
        options, seen, body := next.value.0, seen + {next.value.1}, body + [e];
        stop := Peek(Close);
      }
      if !AllOptions(seen) {
        StuckInOptions(whole, body, Ahead());
        return None, body;
      }
      ok := Consume(Close);
      ReadAll(whole, [], body, Ahead());
      r := Some(options);
    }

    method AuditAttribute(audit: Audit, seen: set<string>) returns (r: Option<(Audit, string)>, ghost e: Entry)
      requires Valid()
      modifies this`index
      ensures Valid() && old(index) <= index
      ensures r.Some? ==> AuditEntry(e) && e.name == r.value.1 && e.name !in seen && old(index) < index
      ensures r.Some? ==> r.value.0 == WithAuditEntry(audit, e)
      ensures r.Some? ==> EntryAt(old(Ahead()), e, Ahead())
      ensures r.None? ==> NoAuditEntry(old(Ahead()), seen)
    {
      e := Assign("", Equals);
      ghost var whole := Ahead();
      var name := UniqueIdentifier(seen);
      if name.None? {
        return None, e;
      }
      if name.value == "description" {
        var text := StringAssignment();
        if text.None? {
          return None, e;
        }
        e := Assign(name.value, Text(text.value));
        return Some((audit.(description := text.value), name.value)), e;
      }
      if name.value == "options" {
        ghost var more := Ahead();
        var options, body := AuditOptionsBlock();
        if options.None? {
          NamedBlock(whole, name.value, more);
          return None, e;
        }
        e := Block(name.value, [], body);
        return Some((audit.(options := options.value), name.value)), e;
      }
      r := None;
    }

    method AuditBlock() returns (r: Option<Audit>, ghost labels: seq<string>, ghost body: seq<Entry>)
      requires Valid()
      modifies this`index
      ensures Valid() && old(index) <= index
      ensures r.Some? ==> BlockAt(old(Ahead()), labels, body, Ahead()) && r == AuditOf(labels, body)
      ensures r.None? ==> NoAudit(old(Ahead()))
    {
      ghost var whole := Ahead();
      labels, body := [], [];
      var names := OpenTwiceLabelled();
      if names.None? {
        return None, labels, body;
      }
      labels := [names.value.0, names.value.1];
      var audit := Audit(names.value.0, names.value.1, "", AuditOptions("", "", ""));
      var seen: set<string> := {};
      var stop := Peek(Close);
      while !stop
        invariant Valid() && old(index) <= index
        invariant Reading(whole, labels, body, Ahead()) && (stop <==> AtClose(Ahead()))
        invariant audit == AuditSoFar(names.value.0, names.value.1, body)
        invariant Distinct(body) && Names(body) == seen && forall e | e in body :: AuditEntry(e)
        decreases |tokens| - index
      {
        ghost var more := Ahead();
        var next, e := AuditAttribute(audit, seen);
        if next.None? {
          StuckInAudit(whole, labels, body, more);
          return None, labels, body;
        }
        AuditStep(names.value.0, names.value.1, body, e);
        DistinctAppend(body, e);
        ReadOneMore(whole, labels, body, more, e, Ahead());
        audit, seen, body := next.value.0, seen + {next.value.1}, body + [e];
        stop := Peek(Close);
      }
      if !AllAudit(seen) {
        StuckInAudit(whole, labels, body, Ahead());
        return None, labels, body;
      }
      var ok := Consume(Close);
      ReadAll(whole, labels, body, Ahead());
      r := Some(audit);
    }

    // -------------------------------------------------------------------------
    // Storage

    method StorageAttribute(storage: Storage, pathSeen: bool) returns (r: Option<(Storage, bool)>, ghost e: Entry)
      requires Valid()
      modifies this`index
      ensures Valid() && old(index) <= index
      ensures r.Some? ==> StorageEntry(e) && (pathSeen ==> e.name != "path") && old(index) < index
      ensures r.Some? ==> r.value.1 == (pathSeen || e.name == "path") && r.value.0 == WithStorageEntry(storage, e)
      ensures r.Some? ==> EntryAt(old(Ahead()), e, Ahead())
      ensures r.None? ==> NoStorageEntry(old(Ahead()), pathSeen)
    {
      e := Assign("", Equals);
      ghost var whole := Ahead();
      var name := Identifier();
      if name.None? {
        return None, e;
      }
      if name.value == "retry_join" {
        ghost var more := Ahead();
        var join, body := RetryJoinBlock();
        if join.None? {
          NamedBlock(whole, name.value, more);
          return None, e;
        }
        e := Block(name.value, [], body);
        return Some((storage.(retryJoin := storage.retryJoin + [join.value]), pathSeen)), e;
      }
      if name.value != "path" || pathSeen {
        return None, e;
      }
      var text := StringAssignment();
      if text.None? {
        return None, e;
      }
      e := Assign(name.value, Text(text.value));
      r := Some((storage.(path := text.value), true));
    }

    method StorageBlock() returns (r: Option<Storage>, ghost labels: seq<string>, ghost body: seq<Entry>)
      requires Valid()
      modifies this`index
      ensures Valid() && old(index) <= index
      ensures r.Some? ==> BlockAt(old(Ahead()), labels, body, Ahead()) && r == StorageOf(labels, body)
      ensures r.None? ==> NoStorage(old(Ahead()))
    {
      ghost var whole := Ahead();
      labels, body := [], [];
      var kind := OpenLabelled();
      if kind.None? {
        return None, labels, body;
      }
      labels := [kind.value];
      var storage := Storage(kind.value, "", []);
      var pathSeen := false;
      var stop := Peek(Close);
      while !stop
        invariant Valid() && old(index) <= index
        invariant Reading(whole, labels, body, Ahead()) && (stop <==> AtClose(Ahead()))
        invariant storage == StorageSoFar(kind.value, body)
        invariant Once(body, "path") && pathSeen == ("path" in Names(body)) && forall e | e in body :: StorageEntry(e)
        decreases |tokens| - index
      {
        ghost var more := Ahead();
        var next, e := StorageAttribute(storage, pathSeen);
        if next.None? {
          StuckInStorage(whole, labels, body, more);
          return None, labels, body;
        }
        StorageStep(kind.value, body, e);
        OnceAppend(body, e, "path");
        ReadOneMore(whole, labels, body, more, e, Ahead());
        storage, pathSeen, body := next.value.0, next.value.1, body + [e];
        stop := Peek(Close);
      }
      var ok := Consume(Close);
      ReadAll(whole, labels, body, Ahead());
      r := Some(storage);
    }

    // -------------------------------------------------------------------------
    // Service registrations

    method ServiceRegistryBlock() returns (r: Option<Registration>, ghost labels: seq<string>, ghost body: seq<Entry>)
      requires Valid()
      modifies this`index
      ensures Valid() && old(index) <= index
      ensures r.Some? ==> BlockAt(old(Ahead()), labels, body, Ahead()) && r == RegistrationOf(labels, body)
      ensures r.None? ==> NoRegistration(old(Ahead()))
    {
      ghost var whole := Ahead();
      labels, body := [], [];
      var kind := OpenLabelled();
      if kind.None? {
        return None, labels, body;
      }
      labels := [kind.value];
      ghost var more := Ahead();
      var ok := Consume(Close);
      if !ok {
        forall ls: seq<string>, b: seq<Entry>, rest: seq<Token> | BlockAt(whole, ls, b, rest)
          ensures RegistrationOf(ls, b).None?
        {
          InsideBlock(whole, labels, body, more, ls, b, rest);
        }
        return None, labels, body;
      }
      ReadAll(whole, labels, body, Ahead());
      r := Some(Registration(kind.value));
    }

    // -------------------------------------------------------------------------
    // Whole configurations

    method BooleanAssignment() returns (r: Option<bool>)
      requires Valid()
      modifies this`index
      ensures Valid() && old(index) <= index
      ensures r.Some? <==>
              |old(Ahead())| >= 2 && old(Ahead())[0] == Equals && old(Ahead())[1] in {Name("true"), Name("false")}
      ensures r.Some? ==> old(Ahead()) == [Equals, Name(if r.value then "true" else "false")] + Ahead()
    {
      var ok := Consume(Equals);
      if !ok {
        return None;
      }
      var name := Identifier();
      if name.None? || (name.value != "true" && name.value != "false") {
        return None;
      }
      r := Some(name.value == "true");
    }

    /** The block behind one of the four block names. */
    method BlockItem(config: Config, name: string) returns (r: Option<Config>, ghost e: Entry)
      requires Valid()
      modifies this`index
      ensures Valid() && old(index) <= index
      ensures r.Some? ==> e.Block? && e.name == name && Item(e) && BlockAt(old(Ahead()), e.labels, e.body, Ahead())
      ensures r.Some? ==> r.value == WithItem(config, e)
      ensures r.None? ==>
        forall ls: seq<string>, b: seq<Entry>,
        rest: seq<Token> | BlockAt(old(Ahead()), ls, b, rest) :: !Item(Block(name, ls, b))
    {
      e := Assign("", Equals);
      ghost var labels, body := [], [];
      if name == "listener" {
        var listener;
        listener, labels, body := ListenerBlock();
        r := if listener.Some? then Some(config.(listeners := config.listeners + [listener.value])) else None;
      } else if name == "storage" {
        var storage;
        storage, labels, body := StorageBlock();
        r := if storage.Some? then Some(config.(storage := config.storage + [storage.value])) else None;
      } else if name == "audit" {
        var audit;
        audit, labels, body := AuditBlock();
        r := if audit.Some? then Some(config.(audits := config.audits + [audit.value])) else None;
      } else if name == "service_registration" {
        var registry;
        registry, labels, body := ServiceRegistryBlock();
        r := if registry.Some? then Some(config.(registrations := config.registrations + [registry.value])) else None;
      } else {
        r := None;
      }
      e := Block(name, labels, body);
    }

    method TopLevelItem(config: Config, uiSeen: bool) returns (r: Option<(Config, bool)>, ghost e: Entry)
      requires Valid()
      modifies this`index
      ensures Valid() && old(index) <= index
      ensures r.Some? ==> Item(e) && (uiSeen ==> e.name != "ui") && old(index) < index
      ensures r.Some? ==> r.value.1 == (uiSeen || e.name == "ui") && r.value.0 == WithItem(config, e)
      ensures r.Some? ==> EntryAt(old(Ahead()), e, Ahead())
      ensures r.None? ==> NoItem(old(Ahead()), uiSeen)
    {
      e := Assign("", Equals);
      ghost var whole := Ahead();
      var name := Identifier();
      if name.None? || (name.value == "ui" && uiSeen) {
        return None, e;
      }
      if name.value == "ui" {
        ghost var rest := Ahead();
        var ui := BooleanAssignment();
        if ui.None? {
          NotUi(whole, rest, uiSeen);
          return None, e;
        }
        e := Assign(name.value, Name(if ui.value then "true" else "false"));
        return Some((config.(ui := ui.value), true)), e;
      }
      ghost var more := Ahead();
      var next;
      next, e := BlockItem(config, name.value);
      if next.None? {
        NamedBlock(whole, name.value, more);
        return None, e;
      }
      r := Some((next.value, uiSeen));
    }
  }

  /**
   Parses a token sequence: the configuration is exactly what the one tree printed by the
   tokens means, and there is none when no tree is printed by them or the tree means none.
   */
  method ParseTokens(tokens: seq<Token>) returns (r: Option<Config>, ghost doc: seq<Entry>)
    ensures r.Some? ==> Print(doc) == tokens && r == ConfigOf(doc)
    ensures forall d: seq<Entry> | Print(d) == tokens :: r == ConfigOf(d)
  {
    var parser := new Parser(tokens);
    var config, uiSeen := EMPTY, false;
    doc := [];
    while parser.index < |tokens|
      invariant parser.Valid() && parser.tokens == tokens
      invariant tokens == Print(doc) + parser.Ahead()
      invariant (forall e | e in doc :: Item(e)) && config == ConfigSoFar(doc)
      invariant Once(doc, "ui") && uiSeen == ("ui" in Names(doc))
      decreases |tokens| - parser.index
    {
      ghost var more := parser.Ahead();
      var next, e := parser.TopLevelItem(config, uiSeen);
      if next.None? {
        forall d: seq<Entry> | Print(d) == tokens
          ensures ConfigOf(d).None?
        {
          StuckAtItem(doc, more, d);
        }
        return None, doc;
      }
      ConfigStep(doc, e);
      OnceAppend(doc, e, "ui");
      PrintOneMore(doc, e, parser.Ahead());
      config, uiSeen, doc := next.value.0, next.value.1, doc + [e];
    }
    assert Print(doc) == tokens;
    forall d: seq<Entry> | Print(d) == tokens
      ensures d == doc
    {
      assert Print(d) + [] == Print(doc) + [];
      PrintUnique(d, [], doc, []);
    }
    r := if uiSeen then Some(config) else None;
  }
}
