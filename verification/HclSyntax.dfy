/**
 The token language of the OpenBao server configuration files and the syntax trees behind
 it: names assigned a scalar, and labelled blocks of further entries. Every token sequence
 is printed by at most one tree.
 */
module HclSyntax {
  import opened Options

  predicate IsDigit(c: char) { '0' <= c <= '9' }

  datatype Token = Open | Close | Equals | Name(name: string) | Text(text: string) | Number(digits: string)

  datatype Entry = Assign(name: string, value: Token) | Block(name: string, labels: seq<string>, body: seq<Entry>)

  function Labels(labels: seq<string>): (ts: seq<Token>)
    ensures |ts| == |labels| && forall i | 0 <= i < |labels| :: ts[i] == Text(labels[i])
  {
    seq(|labels|, i requires 0 <= i < |labels| => Text(labels[i]))
  }

  /** The tokens of a block after its name. */
  function BlockTail(labels: seq<string>, body: seq<Entry>): seq<Token>
    decreases body, 1
  {
    Labels(labels) + [Open] + Print(body) + [Close]
  }

  function EntryTail(e: Entry): (ts: seq<Token>)
    decreases e
  {
    match e
    case Assign(_, value) => [Equals, value]
    case Block(_, labels, body) => BlockTail(labels, body)
  }

  function Print(es: seq<Entry>): (ts: seq<Token>)
    ensures es != [] ==> ts != [] && ts[0] == Name(es[0].name)
    decreases es, 0
  {
    if es == [] then [] else [Name(es[0].name)] + EntryTail(es[0]) + Print(es[1..])
  }

  /** What may come after a run of entries: the end, or a token that starts no entry. */
  predicate Stops(ts: seq<Token>) {
    ts == [] || !ts[0].Name?
  }

  // ---------------------------------------------------------------------------
  // One tree for each token sequence

  lemma {:induction false} TailUnique(e: Entry, x: seq<Token>, f: Entry, y: seq<Token>)
    requires e.name == f.name && EntryTail(e) + x == EntryTail(f) + y
    ensures e == f && x == y
    decreases e, 1
  {
    assert (EntryTail(e) + x)[0] == (EntryTail(f) + y)[0];
    if e.Assign? {
      assert EntryTail(e) + x == [Equals, e.value] + x;
      assert (EntryTail(e) + x)[1] == e.value && (EntryTail(f) + y)[1] == f.value;
      assert (EntryTail(e) + x)[2..] == x && (EntryTail(f) + y)[2..] == y;
    } else {
      BlockUnique(e.labels, e.body, x, f.labels, f.body, y);
    }
  }

  lemma {:induction false} BlockUnique(ls: seq<string>, b: seq<Entry>, x: seq<Token>, ms: seq<string>, c: seq<Entry>,
                                       y: seq<Token>)
    requires BlockTail(ls, b) + x == BlockTail(ms, c) + y
    ensures ls == ms && b == c && x == y
    decreases b, 3
  {
    var one, other := [Close] + x, [Close] + y;
    assert BlockTail(ls, b) + x == Labels(ls) + ([Open] + (Print(b) + one));
    assert BlockTail(ms, c) + y == Labels(ms) + ([Open] + (Print(c) + other));
    LabelsUnique(ls, Print(b) + one, ms, Print(c) + other);
    PrintUnique(b, one, c, other);
    assert one[1..] == x && other[1..] == y;
  }

  lemma {:induction false} LabelsUnique(ls: seq<string>, x: seq<Token>, ms: seq<string>, y: seq<Token>)
    requires Labels(ls) + ([Open] + x) == Labels(ms) + ([Open] + y)
    ensures ls == ms && x == y
  {
    var s, t := Labels(ls) + ([Open] + x), Labels(ms) + ([Open] + y);
    assert s[|ls|] == Open && t[|ms|] == Open;
    assert |ls| == |ms|;
    forall i | 0 <= i < |ls|
      ensures ls[i] == ms[i]
    {
      assert s[i] == Text(ls[i]) && t[i] == Text(ms[i]);
    }
    assert s[|ls| + 1..] == x && t[|ls| + 1..] == y;
  }

  lemma {:induction false} PrintHead(es: seq<Entry>, x: seq<Token>)
    requires es != []
    ensures Print(es) + x == [Name(es[0].name)] + (EntryTail(es[0]) + (Print(es[1..]) + x))
  {
    var head, tail, rest := [Name(es[0].name)], EntryTail(es[0]), Print(es[1..]);
    assert head + tail + rest + x == head + (tail + (rest + x));
  }

  lemma {:induction false} HeadUnique(es: seq<Entry>, x: seq<Token>, fs: seq<Entry>, y: seq<Token>)
    requires es != [] && fs != [] && Print(es) + x == Print(fs) + y
    ensures es[0] == fs[0] && Print(es[1..]) + x == Print(fs[1..]) + y
    decreases es, 0
  {
    var e, f := es[0], fs[0];
    var s, t := EntryTail(e) + (Print(es[1..]) + x), EntryTail(f) + (Print(fs[1..]) + y);
    PrintHead(es, x);
    PrintHead(fs, y);
    assert ([Name(e.name)] + s)[0] == ([Name(f.name)] + t)[0];
    assert s == ([Name(e.name)] + s)[1..] && t == ([Name(f.name)] + t)[1..];
    TailUnique(e, Print(es[1..]) + x, f, Print(fs[1..]) + y);
  }

  /**
   A reader that has consumed the entries `done` of a printed sequence has read its first
   entries, and the next tokens are those of the next entry, or the end.
   */
  lemma {:induction false} Ahead(done: seq<Entry>, more: seq<Token>, all: seq<Entry>, rest: seq<Token>)
    requires Stops(rest) && Print(done) + more == Print(all) + rest
    ensures done <= all && more == Print(all[|done|..]) + rest
    decreases done, 1
  {
    if done == [] {
      assert all[0..] == all && Print(done) + more == more;
    } else {
      assert (Print(done) + more)[0].Name?;
      assert Print([]) + rest == rest;
      HeadUnique(done, more, all, rest);
      Ahead(done[1..], more, all[1..], rest);
      assert all[1..][|done| - 1..] == all[|done|..];
      assert done == [done[0]] + done[1..] && all == [all[0]] + all[1..];
    }
  }

  /** No two trees print alike, even with something behind them. */
  lemma {:induction false} PrintUnique(es: seq<Entry>, x: seq<Token>, fs: seq<Entry>, y: seq<Token>)
    requires Stops(x) && Stops(y) && Print(es) + x == Print(fs) + y
    ensures es == fs && x == y
    decreases es, 2
  {
    Ahead(es, x, fs, y);
    var left := fs[|es|..];
    assert left == [] by {
      if left != [] {
        PrintHead(left, y);
      }
    }
    assert Print([]) + y == y;
  }

  lemma {:induction false} PrintAppend(es: seq<Entry>, fs: seq<Entry>)
    ensures Print(es + fs) == Print(es) + Print(fs)
  {
    if es == [] {
      assert es + fs == fs;
    } else {
      PrintAppend(es[1..], fs);
      assert (es + fs)[1..] == es[1..] + fs;
      PrintHead(es, Print(fs));
      PrintHead(es + fs, []);
      assert Print(es + fs) + [] == Print(es + fs) && Print((es + fs)[1..]) + [] == Print((es + fs)[1..]);
    }
  }

  /** The same one entry at a time. */
  lemma {:induction false} PrintOneMore(es: seq<Entry>, e: Entry, x: seq<Token>)
    ensures Print(es + [e]) + x == Print(es) + ([Name(e.name)] + EntryTail(e) + x)
  {
    PrintAppend(es, [e]);
    assert [e][1..] == [];
    assert Print([e]) == [Name(e.name)] + EntryTail(e);
  }

  /** The tokens at which the entry `e` starts and `rest` follows it. */
  predicate EntryAt(ts: seq<Token>, e: Entry, rest: seq<Token>) {
    ts == [Name(e.name)] + EntryTail(e) + rest
  }

  predicate BlockAt(ts: seq<Token>, labels: seq<string>, body: seq<Entry>, rest: seq<Token>) {
    ts == BlockTail(labels, body) + rest
  }

  /** A block starts with its labels and an opening brace. */
  lemma {:induction false} BlockStart(ts: seq<Token>, labels: seq<string>, body: seq<Entry>, rest: seq<Token>)
    requires BlockAt(ts, labels, body, rest)
    ensures |labels| < |ts| && ts[|labels|] == Open && forall i | 0 <= i < |labels| :: ts[i] == Text(labels[i])
  {
    assert ts == Labels(labels) + ([Open] + (Print(body) + [Close] + rest));
  }

  /** A block with these labels has been opened and the entries `done` read; `more` is left. */
  predicate Reading(ts: seq<Token>, labels: seq<string>, done: seq<Entry>, more: seq<Token>) {
    ts == Labels(labels) + ([Open] + (Print(done) + more))
  }

  predicate AtClose(ts: seq<Token>) {
    ts != [] && ts[0] == Close
  }

  lemma {:induction false} ReadOneMore(ts: seq<Token>, labels: seq<string>, done: seq<Entry>, more: seq<Token>,
                                       e: Entry, rest: seq<Token>)
    requires Reading(ts, labels, done, more) && EntryAt(more, e, rest)
    ensures Reading(ts, labels, done + [e], rest)
  {
    PrintOneMore(done, e, rest);
  }

  lemma {:induction false} ReadAll(ts: seq<Token>, labels: seq<string>, body: seq<Entry>, rest: seq<Token>)
    requires Reading(ts, labels, body, [Close] + rest)
    ensures BlockAt(ts, labels, body, rest)
  {
    assert BlockTail(labels, body) + rest == Labels(labels) + ([Open] + (Print(body) + ([Close] + rest)));
  }

  /** Where a reader that has read the entries `done` stands: at the end, or at the next entry. */
  lemma {:induction false} NextEntry(done: seq<Entry>, more: seq<Token>, all: seq<Entry>, rest: seq<Token>)
    requires Stops(rest) && Print(done) + more == Print(all) + rest
    ensures done <= all
    ensures Stops(more) ==> done == all && more == rest
    ensures !Stops(more) ==> |done| < |all| && EntryAt(more, all[|done|], Print(all[|done| + 1..]) + rest)
  {
    Ahead(done, more, all, rest);
    FirstOf(all[|done|..], more, rest);
    if |done| < |all| {
      assert all[|done|..][1..] == all[|done| + 1..];
    }
  }

  lemma {:induction false} FirstOf(left: seq<Entry>, more: seq<Token>, rest: seq<Token>)
    requires Stops(rest) && more == Print(left) + rest
    ensures Stops(more) ==> left == [] && more == rest
    ensures !Stops(more) ==> left != [] && EntryAt(more, left[0], Print(left[1..]) + rest)
  {
    if left == [] {
      assert Print(left) + rest == rest;
    } else {
      PrintHead(left, rest);
    }
  }

  lemma {:induction false} InsideBlock(ts: seq<Token>, known: seq<string>, done: seq<Entry>, more: seq<Token>,
                                       labels: seq<string>, body: seq<Entry>, rest: seq<Token>)
    requires Reading(ts, known, done, more) && BlockAt(ts, labels, body, rest)
    ensures labels == known && done <= body
    ensures AtClose(more) ==> done == body && more == [Close] + rest
    ensures !AtClose(more) ==>
              |done| < |body| && EntryAt(more, body[|done|], Print(body[|done| + 1..]) + ([Close] + rest))
  {
    var end := [Close] + rest;
    assert BlockTail(labels, body) + rest == Labels(labels) + ([Open] + (Print(body) + end));
    LabelsUnique(known, Print(done) + more, labels, Print(body) + end);
    NextEntry(done, more, body, end);
  }

  /** Behind a block's name only the block itself can be read. */
  lemma {:induction false} NamedBlock(ts: seq<Token>, name: string, more: seq<Token>)
    requires ts == [Name(name)] + more
    ensures forall e: Entry, rest: seq<Token> | EntryAt(ts, e, rest) &&
            e.Block? :: BlockAt(more, e.labels, e.body, rest)
    ensures forall e: Entry, rest: seq<Token> | EntryAt(ts, e, rest) :: e.name == name
  {
    forall e: Entry, rest: seq<Token> | EntryAt(ts, e, rest)
      ensures e.name == name && (e.Block? ==> BlockAt(more, e.labels, e.body, rest))
    {
      assert ts[0] == Name(e.name);
      assert ts[1..] == EntryTail(e) + rest == more;
    }
  }

  /** If what comes next is no acceptable new entry, no block of acceptable distinct entries is being read. */
  lemma {:induction false} StuckInBlock(ts: seq<Token>, known: seq<string>, done: seq<Entry>, more: seq<Token>,
                                        good: Entry -> bool,
                     labels: seq<string>, body: seq<Entry>, rest: seq<Token>)
    requires Reading(ts, known, done, more) && BlockAt(ts, labels, body, rest) && !AtClose(more)
    requires forall e: Entry, x: seq<Token> | EntryAt(more, e, x) :: !good(e) || e.name in Names(done)
    ensures !Distinct(body) || exists e :: e in body && !good(e)
  {
    InsideBlock(ts, known, done, more, labels, body, rest);
    var e := body[|done|];
    assert e in body;
    if e.name in Names(done) {
      RepeatedName(done, body);
    }
  }

  // ---------------------------------------------------------------------------
  // Looking entries up

  predicate Distinct(es: seq<Entry>) {
    forall i, j | 0 <= i < j < |es| :: es[i].name != es[j].name
  }

  function Names(es: seq<Entry>): set<string> {
    set i | 0 <= i < |es| :: es[i].name
  }

  predicate Once(es: seq<Entry>, name: string) {
    forall i, j | 0 <= i < j < |es| :: !(es[i].name == name && es[j].name == name)
  }

  lemma {:induction false} OnceAppend(es: seq<Entry>, e: Entry, name: string)
    requires Once(es, name) && (e.name == name ==> name !in Names(es))
    ensures Once(es + [e], name)
    ensures name in Names(es + [e]) <==> name in Names(es) || e.name == name
  {
    var all := es + [e];
    forall i | 0 <= i < |es|
      ensures all[i].name in Names(es)
    {
      assert all[i] == es[i];
    }
    if name in Names(es) {
      var i :| 0 <= i < |es| && es[i].name == name;
      assert all[i].name == name;
    }
    assert all[|es|].name == e.name;
  }

  lemma {:induction false} RepeatedName(done: seq<Entry>, all: seq<Entry>)
    requires done < all && all[|done|].name in Names(done)
    ensures !Distinct(all) && !Once(all, all[|done|].name)
  {
    var i :| 0 <= i < |done| && done[i].name == all[|done|].name;
    assert all[i] == done[i];
  }

  /** The text assigned to a name; empty if there is none. */
  function TextOf(es: seq<Entry>, name: string): string {
    if es == [] then ""
    else
      var e := es[|es| - 1];
      if e.name == name && e.Assign? && e.value.Text? then e.value.text else TextOf(es[..|es| - 1], name)
  }

  lemma {:induction false} DistinctAppend(es: seq<Entry>, e: Entry)
    requires Distinct(es) && e.name !in Names(es)
    ensures Distinct(es + [e]) && Names(es + [e]) == Names(es) + {e.name}
  {
    var all := es + [e];
    forall i | 0 <= i < |es|
      ensures all[i].name in Names(es)
    {
      assert all[i] == es[i];
    }
    assert all[|es|] == e;
    forall n | n in Names(es) + {e.name}
      ensures n in Names(all)
    {
      if n != e.name {
        var i :| 0 <= i < |es| && es[i].name == n;
        assert all[i].name == n;
      } else {
        assert all[|es|].name == n;
      }
    }
  }
}
