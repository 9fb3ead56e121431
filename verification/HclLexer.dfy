/**
 The lexer of OpenBao server configurations. A character stands for one byte of the source,
 classified as its Latin-1 code point, as the lexer does. How a quoted spelling is read
 (`unquote`) is the standard library's business and a parameter here.
 */
module HclLexer {
  import opened Options
  import opened HclSyntax

  predicate IsSpace(c: char) {
    var n := c as int;
    9 <= n <= 13 || n == 32 || n == 0x85 || n == 0xA0
  }

  predicate IsLetter(c: char) {
    var n := c as int;
    || 'a' <= c <= 'z' || 'A' <= c <= 'Z' || n == 0xAA || n == 0xB5 || n == 0xBA
    || 0xC0 <= n <= 0xD6 || 0xD8 <= n <= 0xF6 || 0xF8 <= n <= 0xFF
  }

  predicate WordStart(c: char) { IsLetter(c) || c == '_' }
  predicate WordChar(c: char) { WordStart(c) || IsDigit(c) }
  predicate InLine(c: char) { c != '\n' }

  /** The end of the longest run of `good` characters from `i` on. */
  function RunEnd(s: string, i: nat, good: char -> bool): (n: nat)
    requires i <= |s|
    ensures i <= n <= |s| && (n == |s| || !good(s[n]))
    ensures forall k | i <= k < n :: good(s[k])
    ensures i < |s| && good(s[i]) ==> i < n
    decreases |s| - i
  {
    if i < |s| && good(s[i]) then RunEnd(s, i + 1, good) else i
  }

  /** The position behind the quote that closes a string; escaped characters do not close it. */
  function Closing(s: string, i: nat, escaped: bool): (n: Option<nat>)
    requires i <= |s|
    ensures n.Some? ==> i < n.value <= |s| && s[n.value - 1] == '"'
    decreases |s| - i
  {
    if i == |s| then None
    else if escaped then Closing(s, i + 1, false)
    else if s[i] == '\\' then Closing(s, i + 1, true)
    else if s[i] == '"' then Some(i + 1)
    else Closing(s, i + 1, false)
  }

  /** A piece of source text: a blank, a comment up to the end of its line, or the spelling of a token. */
  datatype Piece = Blank(c: char) | Comment(text: string) | Lexeme(token: Token, spelling: string)

  function Here(p: Piece): seq<Token> {
    if p.Lexeme? then [p.token] else []
  }

  /** The piece at `i` and where it ends, if the lexer goes on there. */
  function PieceAt(s: string, i: nat, unquote: string -> Option<string>): (r: Option<(Piece, nat)>)
    requires i < |s|
    ensures r.Some? ==> i < r.value.1 <= |s|
  {
    if IsSpace(s[i]) then Some((Blank(s[i]), i + 1))
    else if s[i] == '#' then Some((Comment(s[i..RunEnd(s, i, InLine)]), RunEnd(s, i, InLine)))
    else if s[i] == '{' then Some((Lexeme(Open, "{"), i + 1))
    else if s[i] == '}' then Some((Lexeme(Close, "}"), i + 1))
    else if s[i] == '=' then Some((Lexeme(Equals, "="), i + 1))
    else if s[i] == '"' then
      var end := Closing(s, i + 1, false);
      if end.Some? && unquote(s[i..end.value]).Some?
      then Some((Lexeme(Text(unquote(s[i..end.value]).value), s[i..end.value]), end.value)) else None
    else if WordStart(s[i]) then
      var end := RunEnd(s, i, WordChar);
      Some((Lexeme(Name(s[i..end]), s[i..end]), end))
    else if IsDigit(s[i]) then
      var end := RunEnd(s, i, IsDigit);
      Some((Lexeme(Number(s[i..end]), s[i..end]), end))
    else None
  }

  /** The tokens from `i` on, added to those before. */
  function Scan(s: string, i: nat, tokens: seq<Token>, unquote: string -> Option<string>): Option<seq<Token>>
    requires i <= |s|
    decreases |s| - i
  {
    if i == |s| then Some(tokens)
    else
      var piece := PieceAt(s, i, unquote);
      if piece.Some? then Scan(s, piece.value.1, tokens + Here(piece.value.0), unquote)
      else if Dangles(s, i) && tokens != [] && tokens[|tokens| - 1].Text? then Some(tokens)
      else None
  }

  /** An unclosed string in a source that ends in a quote. */
  predicate Dangles(s: string, i: nat)
    requires i < |s|
  {
    s[i] == '"' && s[|s| - 1] == '"' && Closing(s, i + 1, false).None?
  }

  method Run(s: string, i: nat, good: char -> bool) returns (n: nat)
    requires i <= |s|
    ensures n == RunEnd(s, i, good)
  {
    n := i;
    while n < |s| && good(s[n])
      invariant i <= n <= |s|
      invariant RunEnd(s, i, good) == RunEnd(s, n, good)
    {
      n := n + 1;
    }
  }

  /** Runs to the closing quote, or to the end of the source if there is none. */
  method StringEnd(source: string, start: nat) returns (index: nat, closed: bool)
    requires start <= |source|
    ensures start <= index <= |source|
    ensures if closed then Closing(source, start, false) == Some(index)
            else Closing(source, start, false) == None && index == |source|
  {
    index, closed := start, false;
    var escaped := false;
    while index < |source| && !closed
      invariant start <= index <= |source|
      invariant if closed then Closing(source, start, false) == Some(index)
                else Closing(source, start, false) == Closing(source, index, escaped)
      decreases |source| - index
    {
      var character := source[index];
      index := index + 1;
      if escaped {
        escaped := false;
      } else if character == '\\' {
        escaped := true;
      } else if character == '"' {
        closed := true;
      }
    }
  }

  /** One turn of the lexer's loop. */
  method LexOne(source: string, start: nat, tokens: seq<Token>, unquote: string -> Option<string>)
    returns (ok: bool, index: nat, out: seq<Token>)
    requires start < |source|
    ensures PieceAt(source, start, unquote).Some? ==>
      ok && index == PieceAt(source, start, unquote).value.1 && out == tokens +
      Here(PieceAt(source, start, unquote).value.0)
    ensures PieceAt(source, start, unquote).None? ==>
      (ok <==> Dangles(source, start) && tokens != [] && tokens[|tokens| - 1].Text?) &&
      (ok ==> index == |source| && out == tokens)
  {
    var c := source[start];
    ok, index, out := true, start + 1, tokens;
    if IsSpace(c) {
    } else if c == '#' {
      index := Run(source, start, InLine);
    } else if c == '{' {
      out := tokens + [Open];
    } else if c == '}' {
      out := tokens + [Close];
    } else if c == '=' {
      out := tokens + [Equals];
    } else if c == '"' {
      var closed;
      index, closed := StringEnd(source, index);
      if closed {
        var decoded := unquote(source[start..index]);
        if decoded.None? {
          return false, index, out;
        }
        out := tokens + [Text(decoded.value)];
      }
      ok := out != [] && out[|out| - 1].Text? && source[index - 1] == '"';
    } else if WordStart(c) {
      index := Run(source, start, WordChar);
      out := tokens + [Name(source[start..index])];
    } else if IsDigit(c) {
      index := Run(source, start, IsDigit);
      out := tokens + [Number(source[start..index])];
    } else {
      ok := false;
    }
  }

  method Lex(source: string, unquote: string -> Option<string>) returns (r: Option<seq<Token>>)
    ensures r == Scan(source, 0, [], unquote)
  {
    var tokens := [];
    var index := 0;
    while index < |source|
      invariant index <= |source|
      invariant Scan(source, 0, [], unquote) == Scan(source, index, tokens, unquote)
      decreases |source| - index
    {
      var ok, next, out := LexOne(source, index, tokens, unquote);
      if !ok {
        return None;
      }
      index, tokens := next, out;
    }
    r := Some(tokens);
  }

  // ---------------------------------------------------------------------------
  // Spelling tokens out

  function Spelling(p: Piece): string {
    match p
    case Blank(c) => [c]
    case Comment(text) => text
    case Lexeme(_, spelling) => spelling
  }

  function Concat(ps: seq<Piece>): string {
    if ps == [] then "" else Spelling(ps[0]) + Concat(ps[1..])
  }

  function TokensOf(ps: seq<Piece>): seq<Token> {
    if ps == [] then []
    else Here(ps[0]) + TokensOf(ps[1..])
  }

  predicate IsWord(s: string) {
    s != "" && WordStart(s[0]) && forall i | 0 <= i < |s| :: WordChar(s[i])
  }

  predicate IsNumeral(s: string) {
    s != "" && forall i | 0 <= i < |s| :: IsDigit(s[i])
  }

  /** A quote, and the one that closes it at the very end. */
  predicate Quoted(s: string) {
    |s| >= 2 && s[0] == '"' && Closing(s, 1, false) == Some(|s|)
  }

  predicate Spells(s: string, token: Token, unquote: string -> Option<string>) {
    match token
    case Open => s == "{"
    case Close => s == "}"
    case Equals => s == "="
    case Name(name) => s == name && IsWord(s)
    case Number(digits) => s == digits && IsNumeral(s)
    case Text(text) => Quoted(s) && unquote(s) == Some(text)
  }

  /** Nothing behind a piece may be taken for more of it. */
  predicate EndsBefore(p: Piece, next: string) {
    match p
    case Blank(_) => true
    case Comment(_) => next == "" || next[0] == '\n'
    case Lexeme(token, _) =>
      && (token.Name? ==> next == "" || !WordChar(next[0]))
      && (token.Number? ==> next == "" || !IsDigit(next[0]))
  }

  predicate ReadablePiece(p: Piece, unquote: string -> Option<string>) {
    match p
    case Blank(c) => IsSpace(c)
    case Comment(text) => text != "" && text[0] == '#' && forall i | 0 <= i < |text| :: InLine(text[i])
    case Lexeme(token, spelling) => Spells(spelling, token, unquote)
  }

  /** Every piece is readable and ends before what follows it. */
  predicate Readable(ps: seq<Piece>, tail: string, unquote: string -> Option<string>) {
    ps == [] ||
    (ReadablePiece(ps[0], unquote) && EndsBefore(ps[0], Concat(ps[1..]) + tail) && Readable(ps[1..], tail, unquote))
  }

  /**
   The one malformed ending that gets through: an unclosed string, just behind a string
   token, in a source that ends in a quote.
   */
  predicate Dangling(tail: string, tokens: seq<Token>) {
    && tail != "" && Dangles(tail, 0)
    && tokens != [] && tokens[|tokens| - 1].Text?
  }

  predicate Spelled(s: string, tokens: seq<Token>, ps: seq<Piece>, tail: string, unquote: string -> Option<string>) {
    && s == Concat(ps) + tail && tokens == TokensOf(ps) && Readable(ps, tail, unquote)
    && (tail == "" || Dangling(tail, tokens))
  }

  // Reading what is spelled out

  lemma {:induction false} RunOver(s: string, i: nat, n: nat, good: char -> bool)
    requires i <= n <= |s| && (forall k | i <= k < n :: good(s[k])) && (n == |s| || !good(s[n]))
    ensures RunEnd(s, i, good) == n
    decreases n - i
  {
    if i < n {
      RunOver(s, i + 1, n, good);
    }
  }

  /** Where a text stands in the source, and what follows it. */
  predicate Stands(s: string, i: nat, text: string, after: string) {
    i + |text| <= |s| && s[i..i + |text|] == text && s[i + |text|..] == after
  }

  lemma {:induction false} RunSpelled(s: string, i: nat, text: string, after: string, good: char -> bool)
    requires Stands(s, i, text, after)
    requires (forall k | 0 <= k < |text| :: good(text[k])) && (after == "" || !good(after[0]))
    ensures RunEnd(s, i, good) == i + |text|
  {
    forall k | i <= k < i + |text|
      ensures good(s[k])
    {
      assert s[k] == text[k - i];
    }
    RunOver(s, i, i + |text|, good);
  }

  lemma {:induction false} ClosingSpelled(s: string, i: nat, text: string, after: string, k: nat, escaped: bool)
    requires Stands(s, i, text, after) && k <= |text| && Closing(text, k, escaped).Some?
    ensures Closing(s, i + k, escaped) == Some(i + Closing(text, k, escaped).value)
    decreases |text| - k
  {
    assert s[i + k] == text[k];
    if escaped {
      ClosingSpelled(s, i, text, after, k + 1, false);
    } else if text[k] == '\\' {
      ClosingSpelled(s, i, text, after, k + 1, true);
    } else if text[k] != '"' {
      ClosingSpelled(s, i, text, after, k + 1, false);
    }
  }

  lemma {:induction false} ClosingBehind(s: string, i: nat, k: nat, escaped: bool)
    requires i + k <= |s|
    ensures Closing(s, i + k, escaped).None? <==> Closing(s[i..], k, escaped).None?
    decreases |s| - k
  {
    if i + k < |s| {
      assert s[i..][k] == s[i + k];
      ClosingBehind(s, i, k + 1, if escaped then false else s[i + k] == '\\');
    }
  }

  lemma {:induction false} WordSpelled(s: string, i: nat, text: string, after: string,
                                       unquote: string -> Option<string>)
    requires Stands(s, i, text, after) && IsWord(text) && (after == "" || !WordChar(after[0]))
    ensures PieceAt(s, i, unquote) == Some((Lexeme(Name(text), text), i + |text|))
  {
    RunSpelled(s, i, text, after, WordChar);
    assert s[i] == text[0];
  }

  lemma {:induction false} NumberSpelled(s: string, i: nat, text: string, after: string,
                                         unquote: string -> Option<string>)
    requires Stands(s, i, text, after) && IsNumeral(text) && (after == "" || !IsDigit(after[0]))
    ensures PieceAt(s, i, unquote) == Some((Lexeme(Number(text), text), i + |text|))
  {
    RunSpelled(s, i, text, after, IsDigit);
    assert s[i] == text[0];
  }

  lemma {:induction false} TextSpelled(s: string, i: nat, text: string, after: string,
                                       unquote: string -> Option<string>)
    requires Stands(s, i, text, after) && Quoted(text) && unquote(text).Some?
    ensures PieceAt(s, i, unquote) == Some((Lexeme(Text(unquote(text).value), text), i + |text|))
  {
    ClosingSpelled(s, i, text, after, 1, false);
    assert s[i] == text[0];
  }

  lemma {:induction false} CommentSpelled(s: string, i: nat, text: string, after: string,
                                          unquote: string -> Option<string>)
    requires Stands(s, i, text, after) && text != "" && text[0] == '#' &&
             (forall k | 0 <= k < |text| :: InLine(text[k]))
    requires after == "" || after[0] == '\n'
    ensures PieceAt(s, i, unquote) == Some((Comment(text), i + |text|))
  {
    RunSpelled(s, i, text, after, InLine);
    assert s[i] == text[0];
  }

  lemma {:induction false} PieceSpelled(s: string, i: nat, ps: seq<Piece>, tail: string,
                                        unquote: string -> Option<string>)
    requires ps != [] && Readable(ps, tail, unquote) && Stands(s, i, Spelling(ps[0]), Concat(ps[1..]) + tail)
    ensures PieceAt(s, i, unquote) == Some((ps[0], i + |Spelling(ps[0])|))
  {
    var p, text, after := ps[0], Spelling(ps[0]), Concat(ps[1..]) + tail;
    match p
    case Blank(_) => assert s[i] == text[0];
    case Comment(_) => CommentSpelled(s, i, text, after, unquote);
    case Lexeme(token, _) =>
      match token {
        case Name(_) => WordSpelled(s, i, text, after, unquote);
        case Number(_) => NumberSpelled(s, i, text, after, unquote);
        case Text(_) => TextSpelled(s, i, text, after, unquote);
        case _ => assert s[i] == text[0];
      }
  }

  lemma {:induction false} Split(s: string, i: nat, text: string, after: string)
    requires i <= |s| && s[i..] == text + after
    ensures Stands(s, i, text, after)
  {
    var n := i + |text|;
    assert s[i..n] == s[i..][..|text|] && s[n..] == s[i..][|text|..];
  }

  lemma {:induction false} DanglingAt(s: string, i: nat)
    requires i < |s|
    ensures Dangles(s, i) <==> Dangles(s[i..], 0)
    ensures Dangles(s, i) ==> forall unquote: string -> Option<string> :: PieceAt(s, i, unquote).None?
  {
    ClosingBehind(s, i, 1, false);
    assert s[i..][0] == s[i] && s[i..][|s| - i - 1] == s[|s| - 1];
  }

  /** What reading on from `i` yields. */
  predicate Yields(s: string, i: nat, tokens: seq<Token>, unquote: string -> Option<string>, all: seq<Token>)
    requires i <= |s|
  {
    Scan(s, i, tokens, unquote) == Some(all)
  }

  lemma {:induction false} ScanTail(s: string, i: nat, tokens: seq<Token>, unquote: string -> Option<string>)
    requires i <= |s| && (s[i..] == "" || Dangling(s[i..], tokens))
    ensures Yields(s, i, tokens, unquote, tokens)
  {
    if i < |s| {
      DanglingAt(s, i);
    }
  }

  lemma {:induction false} ConcatFirst(ps: seq<Piece>, tail: string)
    requires ps != []
    ensures Concat(ps) + tail == Spelling(ps[0]) + (Concat(ps[1..]) + tail)
  {
    var a, b := Spelling(ps[0]), Concat(ps[1..]);
    assert a + b + tail == a + (b + tail);
  }

  /** The lexer, from `i` on, takes one of these pieces after the other and then meets `tail`. */
  predicate Takes(s: string, i: nat, ps: seq<Piece>, tail: string, unquote: string -> Option<string>)
    requires i <= |s|
    decreases |ps|
  {
    if ps == [] then s[i..] == tail
    else
      && i < |s| && PieceAt(s, i, unquote).Some? && PieceAt(s, i, unquote).value.0 == ps[0]
      && Takes(s, PieceAt(s, i, unquote).value.1, ps[1..], tail, unquote)
  }

  lemma SpellingNonEmpty(p: Piece, unquote: string -> Option<string>)
    requires ReadablePiece(p, unquote)
    ensures Spelling(p) != ""
  {
  }

  /** The lexer takes the first piece for what it is. */
  lemma {:induction false} FirstSpelled(s: string, i: nat, ps: seq<Piece>, tail: string,
                                        unquote: string -> Option<string>)
    returns (n: nat)
    requires ps != [] && i <= |s| && s[i..] == Concat(ps) + tail && Readable(ps, tail, unquote)
    ensures i < |s| && PieceAt(s, i, unquote) == Some((ps[0], n)) && i < n <= |s|
    ensures s[n..] == Concat(ps[1..]) + tail && Readable(ps[1..], tail, unquote)
  {
    var text, rest := Spelling(ps[0]), Concat(ps[1..]) + tail;
    assert Stands(s, i, text, rest) by {
      ConcatFirst(ps, tail);
      Split(s, i, text, rest);
    }
    SpellingNonEmpty(ps[0], unquote);
    PieceSpelled(s, i, ps, tail, unquote);
    n := i + |text|;
  }

  lemma {:induction false} SpelledTakes(s: string, i: nat, ps: seq<Piece>, tail: string,
                                        unquote: string -> Option<string>)
    requires i <= |s| && s[i..] == Concat(ps) + tail && Readable(ps, tail, unquote)
    ensures Takes(s, i, ps, tail, unquote)
    decreases |ps|
  {
    if ps != [] {
      var n := FirstSpelled(s, i, ps, tail, unquote);
      SpelledTakes(s, n, ps[1..], tail, unquote);
    }
  }

  lemma {:induction false} TakesScans(s: string, i: nat, ps: seq<Piece>, tail: string, tokens: seq<Token>,
                                      all: seq<Token>,
                                      unquote: string -> Option<string>)
    requires i <= |s| && Takes(s, i, ps, tail, unquote)
    requires all == tokens + TokensOf(ps) && (tail == "" || Dangling(tail, all))
    ensures Yields(s, i, tokens, unquote, all)
    decreases |ps|
  {
    if ps == [] {
      assert all == tokens;
      ScanTail(s, i, tokens, unquote);
    } else {
      TokensFirst(ps, tokens);
      TakesScans(s, PieceAt(s, i, unquote).value.1, ps[1..], tail, tokens + Here(ps[0]), all, unquote);
    }
  }

  /** Text in which every token is spelled out, between any blanks and comments, is read as those tokens. */
  lemma {:induction false} ScanSpelled(s: string, tokens: seq<Token>, ps: seq<Piece>, tail: string,
                                       unquote: string -> Option<string>)
    requires Spelled(s, tokens, ps, tail, unquote)
    ensures Yields(s, 0, [], unquote, tokens)
  {
    assert s[0..] == s && [] + TokensOf(ps) == TokensOf(ps);
    SpelledTakes(s, 0, ps, tail, unquote);
    TakesScans(s, 0, ps, tail, [], tokens, unquote);
  }

  lemma {:induction false} ClosingInside(s: string, i: nat, k: nat, escaped: bool)
    requires i <= k <= |s| && Closing(s, k, escaped).Some?
    ensures Closing(s[i..Closing(s, k, escaped).value], k - i, escaped) == Some(Closing(s, k, escaped).value - i)
    decreases |s| - k
  {
    var n := Closing(s, k, escaped).value;
    assert s[i..n][k - i] == s[k];
    if escaped {
      ClosingInside(s, i, k + 1, false);
    } else if s[k] == '\\' {
      ClosingInside(s, i, k + 1, true);
    } else if s[k] != '"' {
      ClosingInside(s, i, k + 1, false);
    }
  }

  lemma RunReads(s: string, i: nat, good: char -> bool)
    requires i < |s| && good(s[i])
    ensures var n := RunEnd(s, i, good);
      && s[i..n] != "" && s[i..n][0] == s[i] && (forall k | 0 <= k < n - i :: good(s[i..n][k]))
      && (s[n..] == "" || !good(s[n..][0]))
  {
    var n := RunEnd(s, i, good);
    assert forall k | 0 <= k < n - i :: s[i..n][k] == s[i + k];
  }

  lemma {:induction false} WordReads(s: string, i: nat, unquote: string -> Option<string>)
    requires i < |s| && WordStart(s[i])
    ensures var n := RunEnd(s, i, WordChar); var p := Lexeme(Name(s[i..n]), s[i..n]);
      ReadablePiece(p, unquote) && EndsBefore(p, s[n..])
  {
    RunReads(s, i, WordChar);
  }

  lemma {:induction false} NumberReads(s: string, i: nat, unquote: string -> Option<string>)
    requires i < |s| && IsDigit(s[i])
    ensures var n := RunEnd(s, i, IsDigit); var p := Lexeme(Number(s[i..n]), s[i..n]);
      ReadablePiece(p, unquote) && EndsBefore(p, s[n..])
  {
    RunReads(s, i, IsDigit);
  }

  lemma {:induction false} CommentReads(s: string, i: nat, unquote: string -> Option<string>)
    requires i < |s| && s[i] == '#'
    ensures var n := RunEnd(s, i, InLine);
      ReadablePiece(Comment(s[i..n]), unquote) && EndsBefore(Comment(s[i..n]), s[n..])
  {
    RunReads(s, i, InLine);
  }

  lemma {:induction false} TextReads(s: string, i: nat, unquote: string -> Option<string>)
    requires i < |s| && s[i] == '"' && Closing(s, i + 1, false).Some?
    requires unquote(s[i..Closing(s, i + 1, false).value]).Some?
    ensures var text := s[i..Closing(s, i + 1, false).value];
      ReadablePiece(Lexeme(Text(unquote(text).value), text), unquote)
  {
    ClosingInside(s, i, i + 1, false);
  }

  /** What the lexer takes for a piece is one, and ends where it says. */
  predicate Reads(p: Piece, s: string, i: nat, n: nat, unquote: string -> Option<string>)
    requires i <= n <= |s|
  {
    ReadablePiece(p, unquote) && Spelling(p) == s[i..n] && EndsBefore(p, s[n..])
  }

  lemma {:induction false} PieceAtReads(s: string, i: nat, unquote: string -> Option<string>)
    requires i < |s| && PieceAt(s, i, unquote).Some?
    ensures Reads(PieceAt(s, i, unquote).value.0, s, i, PieceAt(s, i, unquote).value.1, unquote)
  {
    if IsSpace(s[i]) {
    } else if s[i] == '#' {
      CommentReads(s, i, unquote);
    } else if s[i] == '"' {
      TextReads(s, i, unquote);
    } else if WordStart(s[i]) {
      WordReads(s, i, unquote);
    } else if IsDigit(s[i]) {
      NumberReads(s, i, unquote);
    }
  }

  lemma ReadableMore(p: Piece, rest: seq<Piece>, tail: string, unquote: string -> Option<string>)
    requires Readable(rest, tail, unquote) && ReadablePiece(p, unquote) && EndsBefore(p, Concat(rest) + tail)
    ensures Readable([p] + rest, tail, unquote)
    ensures Concat([p] + rest) + tail == Spelling(p) + (Concat(rest) + tail)
    ensures forall tokens: seq<Token> :: tokens + TokensOf([p] + rest) == tokens + Here(p) + TokensOf(rest)
  {
    assert ([p] + rest)[1..] == rest;
  }

  lemma {:induction false} ReadsOne(s: string, i: nat, p: Piece, n: nat, rest: seq<Piece>, tail: string,
                                    unquote: string -> Option<string>)
    requires i <= n <= |s| && Reads(p, s, i, n, unquote) && Readable(rest, tail, unquote) &&
             s[n..] == Concat(rest) + tail
    ensures Readable([p] + rest, tail, unquote) && s[i..] == Concat([p] + rest) + tail
  {
    var ps := [p] + rest;
    assert ps[1..] == rest;
    ConcatFirst(ps, tail);
    assert s[i..] == s[i..n] + s[n..];
  }

  lemma {:induction false} TokensFirst(ps: seq<Piece>, tokens: seq<Token>)
    requires ps != []
    ensures tokens + TokensOf(ps) == tokens + Here(ps[0]) + TokensOf(ps[1..])
  {
  }

  /** Whatever is read has been spelled out, up to a dangling quote. */
  lemma {:induction false} ScanReads(s: string, i: nat, tokens: seq<Token>, unquote: string -> Option<string>)
    returns (ps: seq<Piece>, tail: string)
    requires i <= |s| && Scan(s, i, tokens, unquote).Some?
    ensures s[i..] == Concat(ps) + tail && Readable(ps, tail, unquote)
    ensures Scan(s, i, tokens, unquote).value == tokens + TokensOf(ps)
    ensures tail == "" || Dangling(tail, tokens + TokensOf(ps))
    decreases |s| - i
  {
    if i == |s| || PieceAt(s, i, unquote).None? {
      ps, tail := [], s[i..];
      assert s[i..] == Concat(ps) + tail && tokens + TokensOf(ps) == tokens;
      if i < |s| {
        DanglingAt(s, i);
      }
    } else {
      var (p, n) := PieceAt(s, i, unquote).value;
      var rest;
      rest, tail := ScanReads(s, n, tokens + Here(p), unquote);
      ps := [p] + rest;
      assert Readable(ps, tail, unquote) && s[i..] == Concat(ps) + tail by {
        PieceAtReads(s, i, unquote);
        ReadsOne(s, i, p, n, rest, tail, unquote);
      }
      assert ps[1..] == rest;
      TokensFirst(ps, tokens);
    }
  }

  lemma {:induction false} ScanIsSpelled(s: string, tokens: seq<Token>, unquote: string -> Option<string>)
    returns (ps: seq<Piece>, tail: string)
    requires Yields(s, 0, [], unquote, tokens)
    ensures Spelled(s, tokens, ps, tail, unquote)
  {
    ps, tail := ScanReads(s, 0, [], unquote);
    assert s[0..] == s && [] + TokensOf(ps) == TokensOf(ps);
  }

  /**
   The lexer accepts exactly the texts in which tokens are spelled out between blanks and
   comments, and those that end in a dangling quote besides.
   */
  lemma ScanExactly(s: string, tokens: seq<Token>, unquote: string -> Option<string>)
    ensures Yields(s, 0, [], unquote, tokens) <==> exists ps, tail :: Spelled(s, tokens, ps, tail, unquote)
  {
    if Yields(s, 0, [], unquote, tokens) {
      var ps, tail := ScanIsSpelled(s, tokens, unquote);
    }
    if ps, tail :| Spelled(s, tokens, ps, tail, unquote) {
      ScanSpelled(s, tokens, ps, tail, unquote);
    }
  }

  lemma {:induction false} TakesOneWay(s: string, i: nat, ps: seq<Piece>, tail: string, qs: seq<Piece>, rest: string,
                                       unquote: string -> Option<string>)
    requires i <= |s| && Takes(s, i, ps, tail, unquote) && Takes(s, i, qs, rest, unquote)
    requires (tail == "" || Dangles(tail, 0)) && (rest == "" || Dangles(rest, 0))
    ensures ps == qs && tail == rest
    decreases |ps|
  {
    if i < |s| {
      DanglingAt(s, i);
    }
    if ps != [] && qs != [] {
      TakesOneWay(s, PieceAt(s, i, unquote).value.1, ps[1..], tail, qs[1..], rest, unquote);
      assert ps == [ps[0]] + ps[1..] && qs == [qs[0]] + qs[1..];
    }
  }

  /** A text is spelled in one way only. */
  lemma {:induction false} SpelledOneWay(s: string, tokens: seq<Token>, ps: seq<Piece>, tail: string,
                                         more: seq<Token>, qs: seq<Piece>, rest: string,
                                         unquote: string -> Option<string>)
    requires Spelled(s, tokens, ps, tail, unquote) && Spelled(s, more, qs, rest, unquote)
    ensures ps == qs && tail == rest && tokens == more
  {
    assert s[0..] == s;
    SpelledTakes(s, 0, ps, tail, unquote);
    SpelledTakes(s, 0, qs, rest, unquote);
    TakesOneWay(s, 0, ps, tail, qs, rest, unquote);
  }

  /** So an accepted text either is well formed or ends in a dangling quote, and never both. */
  lemma {:induction false} WellFormedExactly(s: string, tokens: seq<Token>, unquote: string -> Option<string>)
    requires Yields(s, 0, [], unquote, tokens)
    ensures (exists ps :: Spelled(s, tokens, ps, "", unquote)) <==>
            !exists ps, tail :: Spelled(s, tokens, ps, tail, unquote) && Dangling(tail, tokens)
  {
    var qs, rest := ScanIsSpelled(s, tokens, unquote);
    forall ps, tail | Spelled(s, tokens, ps, tail, unquote)
      ensures tail == rest
    {
      SpelledOneWay(s, tokens, ps, tail, tokens, qs, rest, unquote);
    }
  }

  /** For instance, a lone quote behind a string. */
  lemma LoneQuoteIsRead(unquote: string -> Option<string>)
    requires unquote("\"a\"") == Some("a")
    ensures Scan("\"a\" \"", 0, [], unquote) == Some([Text("a")])
  {
    var s := "\"a\" \"";
    assert Closing(s, 1, false) == Closing(s, 2, false) == Some(3);
    assert s[0..3] == "\"a\"";
    var a := [Text("a")];
    assert Here(Lexeme(Text("a"), s[0..3])) == a && [] + a == a && a + [] == a;
    assert Closing(s, 5, false) == None;
    assert Scan(s, 4, a, unquote) == Some(a);
    assert PieceAt(s, 3, unquote) == Some((Blank(' '), 4));
    assert Scan(s, 3, a, unquote) == Some(a);
  }
}
