/**
 From configuration text to configuration and back: the whole reader, and a rendering of
 any configuration that it reads back exactly.
 */
module HclConfig {
  import opened Options
  import opened HclSyntax
  import opened HclLexer
  import opened HclParser

  /**
   Reads configuration text. The result is what the tree behind the text means, whichever
   way the tokens are spelled, spaced and commented; text behind which there is no tree has
   no result.
   */
  method ParseOpenBaoHcl(source: string, unquote: string -> Option<string>) returns (r: Option<Config>)
    ensures forall d: seq<Entry> | Scan(source, 0, [], unquote) == Some(Print(d)) :: r == ConfigOf(d)
    ensures r.Some? ==> exists d: seq<Entry> :: Scan(source, 0, [], unquote) == Some(Print(d)) && r == ConfigOf(d)
  {
    var tokens := Lex(source, unquote);
    if tokens.None? {
      return None;
    }
    ghost var doc;
    r, doc := ParseTokens(tokens.value);
  }

  // ---------------------------------------------------------------------------
  // A rendering

  function Field(name: string, value: string): Entry { Assign(name, Text(value)) }

  function FirstAttributes(l: Listener): seq<Entry> {
    [Field("address", l.address)] + [Field("cluster_address", l.clusterAddress)] +
    [Assign("tls_disable", Number(Decimal(l.tlsDisable)))]
  }

  function ListenerBody(l: Listener): seq<Entry> {
    FirstAttributes(l) +
    [Field("tls_cert_file", l.tlsCertFile)] + [Field("tls_key_file", l.tlsKeyFile)] +
    [Field("tls_client_ca_file", l.tlsClientCaFile)]
  }

  function JoinBody(j: RetryJoin): seq<Entry> {
    [Field("leader_api_addr", j.apiAddress), Field("leader_ca_cert_file", j.caCertFile)] +
    [Field("leader_client_cert_file", j.clientCertFile), Field("leader_client_key_file", j.clientKeyFile)] +
    [Field("leader_tls_servername", j.tlsServerName)]
  }

  function OptionsBody(o: AuditOptions): seq<Entry> {
    [Field("file_path", o.filePath), Field("mode", o.mode), Field("log_raw", o.logRaw)]
  }

  function AuditBody(a: Audit): seq<Entry> {
    [Field("description", a.description), Block("options", [], OptionsBody(a.options))]
  }

  function StorageBody(path: string, joins: seq<RetryJoin>): seq<Entry> {
    if joins == [] then [Field("path", path)]
    else StorageBody(path, joins[..|joins| - 1]) + [Block("retry_join", [], JoinBody(joins[|joins| - 1]))]
  }

  function ListenerItem(l: Listener): Entry { Block("listener", [l.kind], ListenerBody(l)) }
  function StorageItem(s: Storage): Entry { Block("storage", [s.kind], StorageBody(s.path, s.retryJoin)) }
  function AuditItem(a: Audit): Entry { Block("audit", [a.kind, a.name], AuditBody(a)) }
  function RegistrationItem(r: Registration): Entry { Block("service_registration", [r.kind], []) }

  function Doc(c: Config): seq<Entry>
    decreases |c.listeners| + |c.storage| + |c.audits| + |c.registrations|
  {
    if c.registrations != [] then
      var n := |c.registrations| - 1;
      Doc(c.(registrations := c.registrations[..n])) + [RegistrationItem(c.registrations[n])]
    else if c.audits != [] then
      var n := |c.audits| - 1;
      Doc(c.(audits := c.audits[..n])) + [AuditItem(c.audits[n])]
    else if c.storage != [] then
      var n := |c.storage| - 1;
      Doc(c.(storage := c.storage[..n])) + [StorageItem(c.storage[n])]
    else if c.listeners != [] then
      var n := |c.listeners| - 1;
      Doc(c.(listeners := c.listeners[..n])) + [ListenerItem(c.listeners[n])]
    else [Assign("ui", Name(if c.ui then "true" else "false"))]
  }

  ghost predicate ListenerSo(kind: string, es: seq<Entry>, l: Listener, names: set<string>) {
    (forall e | e in es :: ListenerEntry(e)) && Distinct(es) && ListenerSoFar(kind, es) == l && Names(es) == names
  }

  lemma OneMoreAttribute(kind: string, es: seq<Entry>, l: Listener, names: set<string>, e: Entry)
    requires ListenerSo(kind, es, l, names) && ListenerEntry(e) && e.name !in names
    ensures ListenerSo(kind, es + [e], WithListenerEntry(l, e), names + {e.name})
  {
    ListenerStep(kind, es, e);
    DistinctAppend(es, e);
  }

  lemma FirstAttributesRendered(l: Listener)
    requires l.tlsDisable <= MAX_INT
    ensures ListenerSo(l.kind, FirstAttributes(l),
                       Listener(l.kind, l.address, l.clusterAddress, l.tlsDisable, "", "", ""),
                       {"address", "cluster_address", "tls_disable"})
  {
    var a, b, c := Field("address", l.address), Field("cluster_address", l.clusterAddress),
                   Assign("tls_disable", Number(Decimal(l.tlsDisable)));
    var blank := Listener(l.kind, "", "", 0, "", "", "");
    assert [] + [a] == [a];
    OneMoreAttribute(l.kind, [], blank, {}, a);
    OneMoreAttribute(l.kind, [a], blank.(address := l.address), {"address"}, b);
    OneMoreAttribute(l.kind, [a] + [b], blank.(address := l.address, clusterAddress := l.clusterAddress),
                     {"address", "cluster_address"}, c);
  }

  lemma ListenerRendered(l: Listener)
    requires l.tlsDisable <= MAX_INT
    ensures ListenerOf([l.kind], ListenerBody(l)) == Some(l)
  {
    FirstAttributesRendered(l);
    var a, b, c := Field("tls_cert_file", l.tlsCertFile), Field("tls_key_file", l.tlsKeyFile),
                   Field("tls_client_ca_file", l.tlsClientCaFile);
    var half := FirstAttributes(l);
    var seen := {"address", "cluster_address", "tls_disable"};
    var so := Listener(l.kind, l.address, l.clusterAddress, l.tlsDisable, "", "", "");
    OneMoreAttribute(l.kind, half, so, seen, a);
    OneMoreAttribute(l.kind, half + [a], so.(tlsCertFile := l.tlsCertFile), seen + {a.name}, b);
    OneMoreAttribute(l.kind, half + [a] + [b], so.(tlsCertFile := l.tlsCertFile, tlsKeyFile := l.tlsKeyFile), seen +
                     {a.name} + {b.name}, c);
  }

  lemma JoinRendered(j: RetryJoin)
    ensures JoinOf([], JoinBody(j)) == Some(j)
  {
    var b := JoinBody(j);
    JoinStep([], b[0]);
    JoinStep(b[..1], b[1]);
    JoinStep(b[..2], b[2]);
    JoinStep(b[..3], b[3]);
    JoinStep(b[..4], b[4]);
    assert [] + [b[0]] == b[..1] && b[..1] + [b[1]] == b[..2] && b[..2] + [b[2]] == b[..3];
    assert b[..3] + [b[3]] == b[..4] && b[..4] + [b[4]] == b;
  }

  lemma OptionsRendered(o: AuditOptions)
    ensures OptionsOf([], OptionsBody(o)) == Some(o)
  {
    var b := OptionsBody(o);
    OptionStep([], b[0]);
    OptionStep(b[..1], b[1]);
    OptionStep(b[..2], b[2]);
    assert [] + [b[0]] == b[..1] && b[..1] + [b[1]] == b[..2] && b[..2] + [b[2]] == b;
    assert b[0].name in Names(b) && b[1].name in Names(b) && b[2].name in Names(b);
  }

  lemma AuditRendered(a: Audit)
    ensures AuditOf([a.kind, a.name], AuditBody(a)) == Some(a)
  {
    var b := AuditBody(a);
    OptionsRendered(a.options);
    AuditStep(a.kind, a.name, [], b[0]);
    AuditStep(a.kind, a.name, b[..1], b[1]);
    assert [] + [b[0]] == b[..1] && b[..1] + [b[1]] == b;
    assert b[0].name in Names(b) && b[1].name in Names(b);
  }

  lemma OneMoreJoin(kind: string, es: seq<Entry>, s: Storage, j: RetryJoin)
    requires StorageOf([kind], es) == Some(s)
    ensures StorageOf([kind], es + [Block("retry_join", [], JoinBody(j))]) == Some(s.(retryJoin := s.retryJoin + [j]))
  {
    var e := Block("retry_join", [], JoinBody(j));
    JoinRendered(j);
    StorageStep(kind, es, e);
    OnceAppend(es, e, "path");
  }

  lemma PathRendered(kind: string, path: string)
    ensures StorageOf([kind], [Field("path", path)]) == Some(Storage(kind, path, []))
  {
    StorageStep(kind, [], Field("path", path));
    assert [] + [Field("path", path)] == [Field("path", path)];
  }

  lemma {:induction false} StorageRendered(kind: string, path: string, joins: seq<RetryJoin>)
    ensures StorageOf([kind], StorageBody(path, joins)) == Some(Storage(kind, path, joins))
  {
    if joins == [] {
      PathRendered(kind, path);
    } else {
      var n := |joins| - 1;
      StorageRendered(kind, path, joins[..n]);
      OneMoreJoin(kind, StorageBody(path, joins[..n]), Storage(kind, path, joins[..n]), joins[n]);
      assert joins == joins[..n] + [joins[n]];
    }
  }

  predicate Sensible(c: Config) {
    forall i | 0 <= i < |c.listeners| :: c.listeners[i].tlsDisable <= MAX_INT
  }

  lemma OneMoreItem(doc: seq<Entry>, c: Config, e: Entry)
    requires ConfigOf(doc) == Some(c) && Item(e) && e.name != "ui"
    ensures ConfigOf(doc + [e]) == Some(WithItem(c, e))
  {
    ConfigStep(doc, e);
    OnceAppend(doc, e, "ui");
  }

  lemma OneMoreListener(doc: seq<Entry>, c: Config, l: Listener)
    requires ConfigOf(doc) == Some(c) && l.tlsDisable <= MAX_INT
    ensures ConfigOf(doc + [ListenerItem(l)]) == Some(c.(listeners := c.listeners + [l]))
  {
    ListenerRendered(l);
    OneMoreItem(doc, c, ListenerItem(l));
  }

  lemma OneMoreStorage(doc: seq<Entry>, c: Config, s: Storage)
    requires ConfigOf(doc) == Some(c)
    ensures ConfigOf(doc + [StorageItem(s)]) == Some(c.(storage := c.storage + [s]))
  {
    StorageRendered(s.kind, s.path, s.retryJoin);
    OneMoreItem(doc, c, StorageItem(s));
  }

  lemma OneMoreAudit(doc: seq<Entry>, c: Config, a: Audit)
    requires ConfigOf(doc) == Some(c)
    ensures ConfigOf(doc + [AuditItem(a)]) == Some(c.(audits := c.audits + [a]))
  {
    AuditRendered(a);
    OneMoreItem(doc, c, AuditItem(a));
  }

  lemma OneMoreRegistration(doc: seq<Entry>, c: Config, r: Registration)
    requires ConfigOf(doc) == Some(c)
    ensures ConfigOf(doc + [RegistrationItem(r)]) == Some(c.(registrations := c.registrations + [r]))
  {
    OneMoreItem(doc, c, RegistrationItem(r));
  }

  lemma UiRendered(ui: bool)
    ensures ConfigOf([Assign("ui", Name(if ui then "true" else "false"))]) == Some(Config(ui, [], [], [], []))
  {
    var e := Assign("ui", Name(if ui then "true" else "false"));
    ConfigStep([], e);
    OnceAppend([], e, "ui");
    assert [] + [e] == [e];
  }

  lemma {:induction false} ListenersRendered(c: Config)
    requires Sensible(c) && c.storage == [] && c.audits == [] && c.registrations == []
    ensures ConfigOf(Doc(c)) == Some(c)
    decreases |c.listeners|
  {
    if c.listeners == [] {
      UiRendered(c.ui);
    } else {
      var n := |c.listeners| - 1;
      var front := c.(listeners := c.listeners[..n]);
      assert c.listeners == c.listeners[..n] + [c.listeners[n]];
      ListenersRendered(front);
      OneMoreListener(Doc(front), front, c.listeners[n]);
    }
  }

  lemma {:induction false} StoragesRendered(c: Config)
    requires Sensible(c) && c.audits == [] && c.registrations == []
    ensures ConfigOf(Doc(c)) == Some(c)
    decreases |c.storage|
  {
    if c.storage == [] {
      ListenersRendered(c);
    } else {
      var n := |c.storage| - 1;
      var front := c.(storage := c.storage[..n]);
      assert c.storage == c.storage[..n] + [c.storage[n]];
      StoragesRendered(front);
      OneMoreStorage(Doc(front), front, c.storage[n]);
    }
  }

  lemma {:induction false} AuditsRendered(c: Config)
    requires Sensible(c) && c.registrations == []
    ensures ConfigOf(Doc(c)) == Some(c)
    decreases |c.audits|
  {
    if c.audits == [] {
      StoragesRendered(c);
    } else {
      var n := |c.audits| - 1;
      var front := c.(audits := c.audits[..n]);
      assert c.audits == c.audits[..n] + [c.audits[n]];
      AuditsRendered(front);
      OneMoreAudit(Doc(front), front, c.audits[n]);
    }
  }

  /** The rendering of a configuration means that configuration. */
  lemma {:induction false} Rendered(c: Config)
    requires Sensible(c)
    ensures ConfigOf(Doc(c)) == Some(c)
    decreases |c.registrations|
  {
    if c.registrations == [] {
      AuditsRendered(c);
    } else {
      var n := |c.registrations| - 1;
      var front := c.(registrations := c.registrations[..n]);
      assert c.registrations == c.registrations[..n] + [c.registrations[n]];
      Rendered(front);
      OneMoreRegistration(Doc(front), front, c.registrations[n]);
    }
  }

  /**
   Print, then parse: any text that spells out the rendering of a configuration, whatever
   its spacing, comments and quoting, is read as that configuration and nothing else.
   */
  lemma PrintThenParse(c: Config, source: string, ps: seq<Piece>, unquote: string -> Option<string>)
    requires Sensible(c) && source == Concat(ps) && Readable(ps, "", unquote) && TokensOf(ps) == Print(Doc(c))
    ensures Scan(source, 0, [], unquote) == Some(Print(Doc(c))) && ConfigOf(Doc(c)) == Some(c)
    ensures forall d: seq<Entry> | Scan(source, 0, [], unquote) == Some(Print(d)) :: d == Doc(c)
  {
    Rendered(c);
    assert source == Concat(ps) + "";
    assert Spelled(source, Print(Doc(c)), ps, "", unquote);
    ScanSpelled(source, Print(Doc(c)), ps, "", unquote);
    forall d: seq<Entry> | Print(d) == Print(Doc(c))
      ensures d == Doc(c)
    {
      PrintUnique(d, [], Doc(c), []);
    }
  }

  // ---------------------------------------------------------------------------
  // Every configuration has a text

  predicate Plain(t: Token) {
    match t
    case Name(name) => IsWord(name)
    case Number(digits) => IsNumeral(digits)
    case _ => true
  }

  predicate AllPlain(ts: seq<Token>) {
    forall t | t in ts :: Plain(t)
  }

  /** Each token followed by a space. */
  function Spaced(ts: seq<Token>, quote: string -> string): seq<Piece> {
    if ts == [] then [] else [Lexeme(ts[0], SpellOut(ts[0], quote))] + ([Blank(' ')] + Spaced(ts[1..], quote))
  }

  function SpellOut(t: Token, quote: string -> string): string {
    match t
    case Open => "{"
    case Close => "}"
    case Equals => "="
    case Name(name) => name
    case Number(digits) => digits
    case Text(text) => quote(text)
  }

  /** A way of quoting strings that `unquote` undoes. */
  ghost predicate Quotes(quote: string -> string, unquote: string -> Option<string>) {
    forall text: string :: Quoted(quote(text)) && unquote(quote(text)) == Some(text)
  }

  function Escape(text: string): string {
    if text == "" then ""
    else if text[0] == '"' || text[0] == '\\' then ['\\', text[0]] + Escape(text[1..])
    else [text[0]] + Escape(text[1..])
  }

  /** Undoes the two escapes; a lone backslash or quote is refused. */
  function Unescape(s: string): Option<string> {
    if s == "" then Some("")
    else if s[0] == '"' then None
    else if s[0] != '\\' then Prepend(s[0], Unescape(s[1..]))
    else if |s| >= 2 && (s[1] == '"' || s[1] == '\\') then Prepend(s[1], Unescape(s[2..]))
    else None
  }

  function Prepend(c: char, rest: Option<string>): Option<string> {
    if rest.Some? then Some([c] + rest.value) else None
  }

  /** Between quotes, with quotes and backslashes escaped. */
  function Quote(text: string): string { "\"" + Escape(text) + "\"" }

  function Unquote(s: string): Option<string> {
    if Quoted(s) then Unescape(s[1..|s| - 1]) else None
  }

  lemma {:induction false} EscapeThenUnescape(text: string)
    ensures Unescape(Escape(text)) == Some(text)
  {
    if text != "" {
      EscapeThenUnescape(text[1..]);
      var n := if text[0] == '"' || text[0] == '\\' then 2 else 1;
      assert Escape(text)[n..] == Escape(text[1..]);
      assert text == [text[0]] + text[1..];
    }
  }

  lemma {:induction false} EscapedCloses(front: string, text: string)
    ensures var s := front + Escape(text) + "\""; Closing(s, |front|, false) == Some(|s|)
    decreases |text|
  {
    if text != "" {
      var n := if text[0] == '"' || text[0] == '\\' then 2 else 1;
      var more := front + Escape(text)[..n];
      assert Escape(text) == Escape(text)[..n] + Escape(text[1..]);
      assert front + Escape(text) + "\"" == more + Escape(text[1..]) + "\"";
      EscapedCloses(more, text[1..]);
    }
  }

  /** There is such a way: escaping quotes and backslashes, and undoing just that. */
  lemma {:induction false} EscapingQuotes()
    ensures Quotes(Quote, Unquote)
  {
    forall text: string
      ensures Quoted(Quote(text)) && Unquote(Quote(text)) == Some(text)
    {
      var s := Quote(text);
      EscapedCloses("\"", text);
      EscapeThenUnescape(text);
      assert s[1..|s| - 1] == Escape(text);
    }
  }

  lemma {:induction false} OneSpaced(t: Token, rest: seq<Piece>, quote: string -> string,
                                     unquote: string -> Option<string>)
    requires Plain(t) && Quotes(quote, unquote) && Readable(rest, "", unquote)
    ensures var ps := [Lexeme(t, SpellOut(t, quote))] + ([Blank(' ')] + rest);
      Readable(ps, "", unquote) && TokensOf(ps) == [t] + TokensOf(rest)
  {
    var p, b := Lexeme(t, SpellOut(t, quote)), Blank(' ');
    var more := [b] + rest;
    ReadableMore(b, rest, "", unquote);
    assert (Concat(more) + "")[0] == ' ' && EndsBefore(p, Concat(more) + "");
    ReadableMore(p, more, "", unquote);
    assert more[1..] == rest && ([p] + more)[1..] == more;
  }

  lemma {:induction false} SpacedIsReadable(ts: seq<Token>, quote: string -> string, unquote: string -> Option<string>)
    requires AllPlain(ts) && Quotes(quote, unquote)
    ensures Readable(Spaced(ts, quote), "", unquote) && TokensOf(Spaced(ts, quote)) == ts
  {
    if ts != [] {
      assert Plain(ts[0]) && AllPlain(ts[1..]);
      SpacedIsReadable(ts[1..], quote, unquote);
      OneSpaced(ts[0], Spaced(ts[1..], quote), quote, unquote);
      assert ts == [ts[0]] + ts[1..];
    }
  }

  lemma PlainAppend(es: seq<Entry>, fs: seq<Entry>)
    requires AllPlain(Print(es)) && AllPlain(Print(fs))
    ensures AllPlain(Print(es + fs))
  {
    PrintAppend(es, fs);
  }

  lemma {:induction false} PlainAssigns(es: seq<Entry>)
    requires forall e | e in es :: e.Assign? && IsWord(e.name) && Plain(e.value)
    ensures AllPlain(Print(es))
  {
    if es != [] {
      assert es[0] in es;
      PlainAssigns(es[1..]);
    }
  }

  lemma PlainBlock(name: string, labels: seq<string>, body: seq<Entry>)
    requires IsWord(name) && AllPlain(Print(body))
    ensures AllPlain(Print([Block(name, labels, body)]))
  {
    var e := Block(name, labels, body);
    assert [e][1..] == [];
    assert Print([e]) == [Name(name)] + BlockTail(labels, body);
    forall t | t in Labels(labels)
      ensures t.Text?
    {
    }
  }

  lemma ListenerWords()
    ensures IsWord("address") && IsWord("cluster_address") && IsWord("tls_disable") && IsWord("listener")
    ensures IsWord("tls_cert_file") && IsWord("tls_key_file") && IsWord("tls_client_ca_file")
  {
  }

  lemma JoinWords()
    ensures IsWord("leader_api_addr") && IsWord("leader_ca_cert_file") && IsWord("leader_client_cert_file")
  {
  }

  lemma MoreJoinWords()
    ensures IsWord("leader_client_key_file") && IsWord("leader_tls_servername")
  {
  }

  lemma AuditWords()
    ensures IsWord("audit") && IsWord("description") && IsWord("options")
    ensures IsWord("file_path") && IsWord("mode") && IsWord("log_raw")
  {
  }

  lemma PlainListener(l: Listener)
    ensures AllPlain(Print([ListenerItem(l)]))
  {
    ListenerWords();
    PlainAssigns(ListenerBody(l));
    PlainBlock("listener", [l.kind], ListenerBody(l));
  }

  lemma PlainJoin(j: RetryJoin)
    ensures AllPlain(Print(JoinBody(j)))
  {
    JoinWords();
    MoreJoinWords();
    PlainAssigns(JoinBody(j));
  }

  lemma PlainStorageItem(s: Storage)
    ensures AllPlain(Print([StorageItem(s)]))
  {
    assert IsWord("storage");
    PlainStorage(s.path, s.retryJoin);
    PlainBlock("storage", [s.kind], StorageBody(s.path, s.retryJoin));
  }

  lemma {:induction false} PlainStorage(path: string, joins: seq<RetryJoin>)
    ensures AllPlain(Print(StorageBody(path, joins)))
  {
    if joins == [] {
      assert IsWord("path");
      PlainAssigns([Field("path", path)]);
    } else {
      var n := |joins| - 1;
      assert IsWord("retry_join");
      PlainStorage(path, joins[..n]);
      PlainJoin(joins[n]);
      PlainBlock("retry_join", [], JoinBody(joins[n]));
      PlainAppend(StorageBody(path, joins[..n]), [Block("retry_join", [], JoinBody(joins[n]))]);
    }
  }

  lemma PlainAudit(a: Audit)
    ensures AllPlain(Print([AuditItem(a)]))
  {
    AuditWords();
    PlainAssigns(OptionsBody(a.options));
    PlainBlock("options", [], OptionsBody(a.options));
    PlainAssigns([Field("description", a.description)]);
    PlainAppend([Field("description", a.description)], [Block("options", [], OptionsBody(a.options))]);
    assert AuditBody(a) == [Field("description", a.description)] + [Block("options", [], OptionsBody(a.options))];
    PlainBlock("audit", [a.kind, a.name], AuditBody(a));
  }

  lemma PlainRegistration(r: Registration)
    ensures AllPlain(Print([RegistrationItem(r)]))
  {
    assert IsWord("service_registration");
    PlainBlock("service_registration", [r.kind], []);
  }

  lemma PlainUi(ui: bool)
    ensures AllPlain(Print([Assign("ui", Name(if ui then "true" else "false"))]))
  {
    assert IsWord("ui") && IsWord("true") && IsWord("false");
    PlainAssigns([Assign("ui", Name(if ui then "true" else "false"))]);
  }

  lemma {:induction false} PlainListeners(c: Config)
    requires c.storage == [] && c.audits == [] && c.registrations == []
    ensures AllPlain(Print(Doc(c)))
    decreases |c.listeners|
  {
    if c.listeners == [] {
      PlainUi(c.ui);
    } else {
      var n := |c.listeners| - 1;
      PlainListeners(c.(listeners := c.listeners[..n]));
      PlainListener(c.listeners[n]);
      PlainAppend(Doc(c.(listeners := c.listeners[..n])), [ListenerItem(c.listeners[n])]);
    }
  }

  lemma {:induction false} PlainStorages(c: Config)
    requires c.audits == [] && c.registrations == []
    ensures AllPlain(Print(Doc(c)))
    decreases |c.storage|
  {
    if c.storage == [] {
      PlainListeners(c);
    } else {
      var n := |c.storage| - 1;
      PlainStorages(c.(storage := c.storage[..n]));
      PlainStorageItem(c.storage[n]);
      PlainAppend(Doc(c.(storage := c.storage[..n])), [StorageItem(c.storage[n])]);
    }
  }

  lemma {:induction false} PlainAudits(c: Config)
    requires c.registrations == []
    ensures AllPlain(Print(Doc(c)))
    decreases |c.audits|
  {
    if c.audits == [] {
      PlainStorages(c);
    } else {
      var n := |c.audits| - 1;
      PlainAudits(c.(audits := c.audits[..n]));
      PlainAudit(c.audits[n]);
      PlainAppend(Doc(c.(audits := c.audits[..n])), [AuditItem(c.audits[n])]);
    }
  }

  lemma {:induction false} PlainDoc(c: Config)
    ensures AllPlain(Print(Doc(c)))
    decreases |c.registrations|
  {
    if c.registrations == [] {
      PlainAudits(c);
    } else {
      var n := |c.registrations| - 1;
      PlainDoc(c.(registrations := c.registrations[..n]));
      PlainRegistration(c.registrations[n]);
      PlainAppend(Doc(c.(registrations := c.registrations[..n])), [RegistrationItem(c.registrations[n])]);
    }
  }

  function TextFor(c: Config, quote: string -> string): string {
    Concat(Spaced(Print(Doc(c)), quote))
  }

  /** The text written for a configuration is read back as that configuration. */
  lemma RoundTrip(c: Config, quote: string -> string, unquote: string -> Option<string>)
    requires Sensible(c) && Quotes(quote, unquote)
    ensures Scan(TextFor(c, quote), 0, [], unquote) == Some(Print(Doc(c))) && ConfigOf(Doc(c)) == Some(c)
  {
    var ts := Print(Doc(c));
    PlainDoc(c);
    SpacedIsReadable(ts, quote, unquote);
    PrintThenParse(c, TextFor(c, quote), Spaced(ts, quote), unquote);
  }

  /** With quotes and backslashes escaped, every configuration is written and read back without further assumption. */
  lemma EscapedRoundTrip(c: Config)
    requires Sensible(c)
    ensures Scan(TextFor(c, Quote), 0, [], Unquote) == Some(Print(Doc(c))) && ConfigOf(Doc(c)) == Some(c)
  {
    EscapingQuotes();
    RoundTrip(c, Quote, Unquote);
  }
}
