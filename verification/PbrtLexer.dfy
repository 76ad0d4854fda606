/** The pbrt lexer: quoted strings, brackets and bare atoms between whitespace
    and comments, each with the line it starts on. Text is characters here; every
    delimiter is ASCII, so the tokens are those the bytes give. */
module PbrtLexer {

  import opened Options

  /** The double quote. */
  const QUOTE: char := 34 as char

  /** The ASCII whitespace characters; vertical tab is not one of them. */
  predicate Blank(c: char) { c == ' ' || c == '\t' || c == '\n' || c == '\r' || c == 12 as char }

  predicate InAtom(c: char) { !Blank(c) && c != '[' && c != ']' && c != QUOTE && c != '#' }

  datatype Span = Span(start: nat, end: nat, quoted: bool, line: nat)

  datatype Tokenizer = Tokenizer(source: string, offset: nat, line: nat)

  datatype Lexed = Found(span: Span) | Finished | Unterminated(line: nat)

  // ---------------------------------------------------------------- what lexing means

  function Newlines(s: string): nat {
    if s == "" then 0 else (if s[0] == '\n' then 1 else 0) + Newlines(s[1..])
  }

  /** The first place from i on that holds a character of the given kind. */
  function Until(s: string, i: nat, stop: char -> bool): (j: nat)
    requires i <= |s|
    ensures i <= j <= |s|
    ensures forall k :: i <= k < j ==> !stop(s[k])
    ensures j < |s| ==> stop(s[j])
    decreases |s| - i
  {
    if i == |s| || stop(s[i]) then i else Until(s, i + 1, stop)
  }

  predicate LineEnd(c: char) { c == '\n' }

  predicate Quote(c: char) { c == QUOTE }

  predicate AtomEnd(c: char) { !InAtom(c) }

  /** Past whitespace and comments. */
  function Skip(s: string, i: nat): (j: nat)
    requires i <= |s|
    ensures i <= j <= |s|
    decreases |s| - i
  {
    if i == |s| then i
    else if Blank(s[i]) then Skip(s, i + 1)
    else if s[i] == '#' then Skip(s, Until(s, i + 1, LineEnd))
    else i
  }

  /** The token at a place that is neither whitespace nor a comment. */
  function TokenAt(s: string, i: nat, line: nat): Lexed
    requires i <= |s|
  {
    if i == |s| then Finished
    else if s[i] == '[' || s[i] == ']' then Found(Span(i, i + 1, false, line))
    else if s[i] == QUOTE then
      var j := Until(s, i + 1, Quote);
      if j == |s| then Unterminated(line) else Found(Span(i + 1, j, true, line))
    else Found(Span(i, Until(s, i, AtomEnd), false, line))
  }

  /** Where reading goes on after a token. */
  function Past(span: Span): nat { if span.quoted then span.end + 1 else span.end }

  /** The next token from a place, each line counted from its text alone. */
  function Lex(t: Tokenizer): Lexed
    requires t.offset <= |t.source|
  {
    var i := Skip(t.source, t.offset);
    TokenAt(t.source, i, t.line + Newlines(t.source[t.offset..i]))
  }

  function Advanced(t: Tokenizer): (u: Tokenizer)
    requires t.offset <= |t.source| && Lex(t).Found?
    ensures u.source == t.source && t.offset < u.offset <= |t.source|
  {
    var n := Past(Lex(t).span);
    SkipStops(t.source, t.offset);
    Tokenizer(t.source, n, t.line + Newlines(t.source[t.offset..n]))
  }

  lemma {:induction false} SkipStops(s: string, i: nat)
    requires i <= |s|
    ensures var j := Skip(s, i); j < |s| ==> !Blank(s[j]) && s[j] != '#'
    decreases |s| - i
  {
    if i < |s| {
      if Blank(s[i]) { SkipStops(s, i + 1); }
      else if s[i] == '#' { SkipStops(s, Until(s, i + 1, LineEnd)); }
    }
  }

  lemma {:induction false} NewlinesSplit(s: string, t: string)
    ensures Newlines(s + t) == Newlines(s) + Newlines(t)
  {
    if s == "" {
      assert s + t == t;
    } else {
      assert (s + t)[1..] == s[1..] + t;
      NewlinesSplit(s[1..], t);
    }
  }

  /** How many places of a text hold a newline. */
  lemma {:induction false} NewlinesCounts(s: string)
    ensures Newlines(s) == |set k | 0 <= k < |s| && s[k] == '\n'|
  {
    var places := set k | 0 <= k < |s| && s[k] == '\n';
    if s != "" {
      var rest, last := s[..|s| - 1], |s| - 1;
      var fewer := set k | 0 <= k < |rest| && rest[k] == '\n';
      NewlinesCounts(rest);
      NewlinesSplit(rest, [s[last]]);
      assert s == rest + [s[last]] && [s[last]][1..] == "";
      assert places == if s[last] == '\n' then fewer + {last} else fewer;
    }
  }

  lemma NewlinesBetween(s: string, i: nat, j: nat, k: nat)
    requires i <= j <= k <= |s|
    ensures Newlines(s[i..k]) == Newlines(s[i..j]) + Newlines(s[j..k])
  {
    assert s[i..k] == s[i..j] + s[j..k];
    NewlinesSplit(s[i..j], s[j..k]);
  }

  lemma NewlinesNext(s: string, i: nat, j: nat)
    requires i <= j < |s|
    ensures Newlines(s[i..j + 1]) == Newlines(s[i..j]) + (if s[j] == '\n' then 1 else 0)
  {
    NewlinesBetween(s, i, j, j + 1);
    assert s[j..j + 1] == [s[j]] && [s[j]][1..] == "";
  }

  lemma {:induction false} NoNewlines(s: string)
    requires forall k :: 0 <= k < |s| ==> s[k] != '\n'
    ensures Newlines(s) == 0
  {
    if s != "" { NoNewlines(s[1..]); }
  }

  // ---------------------------------------------------------------- the tokenizer

  lemma CommentPasses(s: string, i: nat, hash: nat, end: nat)
    requires i <= hash < end <= |s| && s[hash] == '#' && (forall k :: hash <= k < end ==> s[k] != '\n') && (end < |s| ==> s[end] == '\n')
    ensures Skip(s, hash) == Skip(s, end) && Newlines(s[i..end]) == Newlines(s[i..hash])
  {
    UntilIs(s, hash + 1, end, LineEnd);
    hide Until, Newlines;
    NewlinesBetween(s, i, hash, end);
    NoNewlines(s[hash..end]);
  }

  lemma SkipsHere(s: string, i: nat)
    requires i <= |s|
    ensures i < |s| && Blank(s[i]) ==> Skip(s, i) == Skip(s, i + 1)
    ensures i == |s| || (!Blank(s[i]) && s[i] != '#') ==> Skip(s, i) == i
    ensures Newlines(s[i..i]) == 0
  {}

  /** Skip whitespace and comments, counting lines. */
  method SkipBlanks(t: Tokenizer) returns (offset: nat, line: nat)
    requires t.offset <= |t.source|
    ensures offset == Skip(t.source, t.offset) && line == t.line + Newlines(t.source[t.offset..offset])
  {
    var s := t.source;
    offset, line := t.offset, t.line;
    hide Newlines, Until, Skip;
    SkipsHere(s, offset);
    while offset < |s|
      invariant t.offset <= offset <= |s| && Skip(s, t.offset) == Skip(s, offset)
      invariant line == t.line + Newlines(s[t.offset..offset])
      decreases |s| - offset
    {
      SkipsHere(s, offset);
      if s[offset] == '\n' {
        NewlinesNext(s, t.offset, offset);
        line, offset := line + 1, offset + 1;
      } else if Blank(s[offset]) {
        NewlinesNext(s, t.offset, offset);
        offset := offset + 1;
      } else if s[offset] == '#' {
        ghost var hash := offset;
        while offset < |s| && s[offset] != '\n'
          invariant hash <= offset <= |s|
          invariant forall k :: hash <= k < offset ==> s[k] != '\n'
        {
          offset := offset + 1;
        }
        CommentPasses(s, t.offset, hash, offset);
      } else {
        return;
      }
    }
    SkipsHere(s, offset);
  }

  lemma {:induction false} UntilIs(s: string, i: nat, j: nat, stop: char -> bool)
    requires i <= j <= |s| && (forall k :: i <= k < j ==> !stop(s[k])) && (j < |s| ==> stop(s[j]))
    ensures Until(s, i, stop) == j
    decreases j - i
  {
    if i < j { UntilIs(s, i + 1, j, stop); }
  }

  /** The closing quote, counting the lines inside the string. */
  method ScanString(s: string, content: nat) returns (end: nat, lines: nat)
    requires content <= |s|
    ensures end == Until(s, content, Quote) && lines == Newlines(s[content..end])
  {
    end, lines := content, 0;
    while end < |s| && s[end] != QUOTE
      invariant content <= end <= |s| && forall k :: content <= k < end ==> s[k] != QUOTE
      invariant lines == Newlines(s[content..end])
    {
      NewlinesNext(s, content, end);
      if s[end] == '\n' { lines := lines + 1; }
      end := end + 1;
    }
    UntilIs(s, content, end, Quote);
  }

  /** The end of a bare atom; it spans no line. */
  method ScanAtom(s: string, start: nat) returns (end: nat)
    requires start <= |s|
    ensures end == Until(s, start, AtomEnd) && Newlines(s[start..end]) == 0
  {
    end := start;
    while end < |s| && InAtom(s[end])
      invariant start <= end <= |s| && forall k :: start <= k < end ==> InAtom(s[k])
    {
      end := end + 1;
    }
    UntilIs(s, start, end, AtomEnd);
    NoNewlines(s[start..end]);
  }

  lemma LinesPast(t: Tokenizer, start: nat, content: nat, end: nat, past: nat)
    requires t.offset <= start <= content <= end <= past <= |t.source|
    requires content <= start + 1 && past <= end + 1
    requires start < content ==> t.source[start] != '\n'
    requires end < past ==> t.source[end] != '\n'
    ensures Newlines(t.source[t.offset..past]) == Newlines(t.source[t.offset..start]) + Newlines(t.source[content..end])
  {
    hide Newlines;
    var s := t.source;
    NewlinesBetween(s, t.offset, start, past);
    NewlinesBetween(s, start, content, past);
    NewlinesBetween(s, content, end, past);
    NoNewlines(s[start..content]);
    NoNewlines(s[end..past]);
  }

  /** The next token, and the tokenizer moved past it. */
  method NextSpan(t: Tokenizer) returns (r: Lexed, u: Tokenizer)
    requires t.offset <= |t.source|
    ensures r == Lex(t)
    ensures r.Found? ==> u == Advanced(t)
    ensures r.Finished? ==> u.source == t.source && u.offset == |t.source|
  {
    hide Newlines, Skip, Until;
    var s := t.source;
    var start, line := SkipBlanks(t);
    SkipStops(s, t.offset);
    if start == |s| { return Finished, Tokenizer(s, start, line); }
    if s[start] == '[' || s[start] == ']' {
      LinesPast(t, start, start + 1, start + 1, start + 1);
      NoNewlines(s[start + 1..start + 1]);
      return Found(Span(start, start + 1, false, line)), Tokenizer(s, start + 1, line);
    } else if s[start] == QUOTE {
      var end, lines := ScanString(s, start + 1);
      if end == |s| { return Unterminated(line), Tokenizer(s, end, line + lines); }
      LinesPast(t, start, start + 1, end, end + 1);
      return Found(Span(start + 1, end, true, line)), Tokenizer(s, end + 1, line + lines);
    } else {
      var end := ScanAtom(s, start);
      LinesPast(t, start, start, end, end);
      return Found(Span(start, end, false, line)), Tokenizer(s, end, line);
    }
  }

  // ---------------------------------------------------------------- whole files

  datatype Token = Token(text: string, quoted: bool, line: nat)

  /** Every token of a file, and the line of the string left open, if one is. */
  datatype Scanned = Scanned(tokens: seq<Token>, broken: Option<nat>)

  function TextOf(t: Tokenizer, span: Span): string
    requires span.start <= span.end <= |t.source|
  {
    t.source[span.start..span.end]
  }

  lemma SpanInside(t: Tokenizer)
    requires t.offset <= |t.source| && Lex(t).Found?
    ensures Lex(t).span.start <= Lex(t).span.end <= |t.source|
  {
  }

  function TokenOf(t: Tokenizer): Token
    requires t.offset <= |t.source| && Lex(t).Found?
  {
    SpanInside(t);
    var span := Lex(t).span;
    Token(TextOf(t, span), span.quoted, span.line)
  }

  function Scan(t: Tokenizer): Scanned
    requires t.offset <= |t.source|
    decreases |t.source| - t.offset
  {
    match Lex(t)
    case Finished => Scanned([], None)
    case Unterminated(line) => Scanned([], Some(line))
    case Found(_) =>
      var rest := Scan(Advanced(t));
      Scanned([TokenOf(t)] + rest.tokens, rest.broken)
  }

  function Opened(source: string): Tokenizer { Tokenizer(source, 0, 1) }

  // ---------------------------------------------------------------- printing

  datatype Word = Word(text: string, quoted: bool)

  /** A word and the whitespace and comments before it. */
  datatype Piece = Piece(gap: string, word: Word)

  // What may be printed, said without the lexer's own classes of characters.

  /** Space, tab, newline, return, form feed. */
  predicate White(c: char) { c == ' ' || c == 9 as char || c == 10 as char || c == 13 as char || c == 12 as char }

  predicate Ordinary(c: char) { !White(c) && c != '[' && c != ']' && c != '\"' && c != '#' }

  /** The end of the line a place is on. */
  function LineTail(s: string, i: nat): (j: nat)
    requires i <= |s|
    ensures i <= j <= |s| && (forall k :: i <= k < j ==> s[k] != '\n') && (j < |s| ==> s[j] == '\n')
    decreases |s| - i
  {
    if i == |s| || s[i] == '\n' then i else LineTail(s, i + 1)
  }

  /** Whitespace and comments, each comment ended by its line's end. */
  predicate Gap(s: string)
    decreases |s|
  {
    s == ""
    || (White(s[0]) && Gap(s[1..]))
    || (s[0] == '#' && LineTail(s, 1) < |s| && Gap(s[LineTail(s, 1)..]))
  }

  /** Trailing whitespace, where a last comment need not be ended. */
  predicate Tail(s: string)
    decreases |s|
  {
    s == "" || (White(s[0]) && Tail(s[1..])) || (s[0] == '#' && Tail(s[LineTail(s, 1)..]))
  }

  predicate Atom(w: Word) { !w.quoted && w.text != "" && forall k :: 0 <= k < |w.text| ==> Ordinary(w.text[k]) }

  predicate Printable(w: Word) {
    if w.quoted then '\"' !in w.text else w.text == "[" || w.text == "]" || Atom(w)
  }

  function Spelled(w: Word): string { if w.quoted then ['\"'] + w.text + ['\"'] else w.text }

  /** Two atoms in a row need something between them; anything else may touch. */
  predicate Separated(pieces: seq<Piece>) {
    forall i :: 0 < i < |pieces| && Atom(pieces[i - 1].word) && Atom(pieces[i].word) ==> pieces[i].gap != ""
  }

  predicate WellSpaced(pieces: seq<Piece>) {
    Separated(pieces) && forall i :: 0 <= i < |pieces| ==> Gap(pieces[i].gap) && Printable(pieces[i].word)
  }

  function Printed(pieces: seq<Piece>): string {
    if pieces == [] then "" else pieces[0].gap + Spelled(pieces[0].word) + Printed(pieces[1..])
  }

  /** The tokens to expect, each on the line its place in the text says: one more
      than the newlines before it. */
  function Expected(before: string, pieces: seq<Piece>): seq<Token>
    decreases |pieces|
  {
    if pieces == [] then []
    else
      var p := pieces[0];
      [Token(p.word.text, p.word.quoted, 1 + Newlines(before + p.gap))]
        + Expected(before + p.gap + Spelled(p.word), pieces[1..])
  }

  // ---------------------------------------------------------------- lexing what was printed

  /** The text from place i on starts with g. */
  predicate Here(s: string, i: nat, g: string) { i + |g| <= |s| && s[i..i + |g|] == g }

  lemma {:induction false} UntilStays(s: string, i: nat, g: string, k: nat, stop: char -> bool)
    requires Here(s, i, g) && k <= |g| && Until(g, k, stop) < |g|
    ensures Until(s, i + k, stop) == i + Until(g, k, stop)
  {
    var j := Until(g, k, stop);
    forall n | i + k <= n < i + j ensures !stop(s[n]) { assert s[n] == g[n - i]; }
    assert s[i + j] == g[j];
    UntilIs(s, i + k, i + j, stop);
  }

  lemma HereDrops(s: string, i: nat, g: string, k: nat)
    requires Here(s, i, g) && k <= |g|
    ensures Here(s, i + k, g[k..])
  {
    assert s[i + k..i + |g|] == s[i..i + |g|][k..];
  }

  lemma LineTailIs(s: string, i: nat)
    requires i <= |s|
    ensures LineTail(s, i) == Until(s, i, LineEnd)
  {
    UntilIs(s, i, LineTail(s, i), LineEnd);
  }

  lemma CommentSkips(s: string, i: nat, g: string)
    requires Here(s, i, g) && g != "" && g[0] == '#' && LineTail(g, 1) < |g|
    ensures Skip(s, i) == Skip(s, i + LineTail(g, 1))
  {
    LineTailIs(g, 1);
    UntilStays(s, i, g, 1, LineEnd);
    hide Until;
    assert s[i] == s[i..i + |g|][0];
  }

  lemma {:induction false} SkipsGap(s: string, i: nat, g: string)
    requires Here(s, i, g) && Gap(g)
    ensures Skip(s, i) == Skip(s, i + |g|)
    decreases |g|
  {
    hide Here, Until, Skip, LineTail;
    if g != "" {
      if White(g[0]) {
        BlankSkips(s, i, g);
        HereDrops(s, i, g, 1);
        SkipsGap(s, i + 1, g[1..]);
      } else {
        CommentSkips(s, i, g);
        var j := LineTail(g, 1);
        HereDrops(s, i, g, j);
        SkipsGap(s, i + j, g[j..]);
      }
    }
  }

  lemma BlankSkips(s: string, i: nat, g: string)
    requires Here(s, i, g) && g != "" && Blank(g[0])
    ensures Skip(s, i) == Skip(s, i + 1)
  {
    assert s[i] == s[i..i + |g|][0];
  }

  /** What may follow an atom: the end, or a character no atom holds. */
  predicate Bounded(s: string, i: nat)
    requires i <= |s|
  {
    i < |s| ==> !InAtom(s[i])
  }

  /** The token at i is just this word, and ends at n. */
  ghost predicate Stands(s: string, i: nat, w: Word, line: nat, n: nat)
    requires i <= |s|
  {
    && TokenAt(s, i, line).Found?
    && var span := TokenAt(s, i, line).span;
    && span.start <= span.end <= |s| && s[span.start..span.end] == w.text
    && span.quoted == w.quoted && span.line == line && Past(span) == n
  }

  lemma QuotedStands(s: string, i: nat, w: Word, line: nat)
    requires Here(s, i, Spelled(w)) && Printable(w) && w.quoted
    ensures Stands(s, i, w, line, i + |Spelled(w)|) && s[i] == QUOTE
  {
    var g := Spelled(w);
    forall k | 0 <= k < |g| ensures s[i + k] == g[k] { assert s[i..i + |g|][k] == g[k]; }
    var n := i + 1 + |w.text|;
    assert s[n] == g[1 + |w.text|] && s[i] == g[0];
    forall k | i + 1 <= k < n ensures s[k] == w.text[k - i - 1] { assert s[i + (k - i)] == g[k - i]; }
    UntilIs(s, i + 1, n, Quote);
    assert s[i + 1..n] == w.text;
  }

  lemma AtomStands(s: string, i: nat, w: Word, line: nat)
    requires Here(s, i, w.text) && Atom(w) && Bounded(s, i + |w.text|)
    ensures Stands(s, i, w, line, i + |w.text|) && InAtom(s[i])
  {
    forall k | i <= k < i + |w.text| ensures InAtom(s[k]) { assert s[i..i + |w.text|][k - i] == w.text[k - i]; }
    UntilIs(s, i, i + |w.text|, AtomEnd);
  }

  lemma WordStands(s: string, i: nat, w: Word, line: nat)
    requires Here(s, i, Spelled(w)) && Printable(w) && (Atom(w) ==> Bounded(s, i + |Spelled(w)|))
    ensures Skip(s, i) == i && Stands(s, i, w, line, i + |Spelled(w)|)
  {
    if w.quoted {
      QuotedStands(s, i, w, line);
    } else if Atom(w) {
      AtomStands(s, i, w, line);
    } else {
      assert s[i..i + 1][0] == w.text[0] == s[i];
    }
  }

  lemma HereSplits(s: string, i: nat, a: string, b: string)
    requires Here(s, i, a + b)
    ensures Here(s, i, a) && Here(s, i + |a|, b)
  {
    assert s[i..i + |a|] == (a + b)[..|a|];
    assert s[i + |a|..i + |a| + |b|] == (a + b)[|a|..];
  }

  /** What comes after a piece ends an atom. */
  lemma NextIsBounded(s: string, i: nat, pieces: seq<Piece>, tail: string)
    requires i <= |s| && s[i..] == Printed(pieces) + tail && WellSpaced(pieces)
    requires pieces != [] ==> pieces[0].gap != "" || !Atom(pieces[0].word)
    requires pieces == [] ==> tail == "" || White(tail[0]) || tail[0] == '#'
    ensures Bounded(s, i)
  {
    if i < |s| {
      assert s[i] == s[i..][0];
      if pieces != [] {
        var p := pieces[0];
        var text := p.gap + Spelled(p.word);
        assert s[i] == text[0];
        assert Gap(p.gap);
      }
    }
  }

  lemma {:induction false} SkipSuffix(s: string, i: nat, k: nat)
    requires i <= |s| && k <= |s| - i
    ensures Skip(s, i + k) == i + Skip(s[i..], k)
    decreases |s| - i - k
  {
    var g := s[i..];
    if i + k < |s| {
      assert s[i + k] == g[k];
      if Blank(s[i + k]) {
        SkipSuffix(s, i, k + 1);
      } else if s[i + k] == '#' {
        var j := Until(g, k + 1, LineEnd);
        forall n | i + k + 1 <= n < i + j ensures !LineEnd(s[n]) { assert s[n] == g[n - i]; }
        assert j < |g| ==> s[i + j] == g[j];
        UntilIs(s, i + k + 1, i + j, LineEnd);
        SkipSuffix(s, i, j);
      }
    }
  }

  lemma {:induction false} TailSkips(tail: string)
    requires Tail(tail)
    ensures Skip(tail, 0) == |tail|
    decreases |tail|
  {
    if tail != "" {
      var j := if White(tail[0]) then 1 else LineTail(tail, 1);
      LineTailIs(tail, 1);
      TailSkips(tail[j..]);
      SkipSuffix(tail, j, 0);
    }
  }

  lemma Lands(t: Tokenizer, w: Word, j: nat, n: nat)
    requires t.offset <= |t.source| && Skip(t.source, t.offset) == j
    requires Stands(t.source, j, w, t.line + Newlines(t.source[t.offset..j]), n)
    ensures Lex(t).Found? && TokenOf(t) == Token(w.text, w.quoted, t.line + Newlines(t.source[t.offset..j]))
    ensures t.offset <= n <= |t.source| && Advanced(t) == Tokenizer(t.source, n, t.line + Newlines(t.source[t.offset..n]))
  {
    hide Newlines, Skip, TokenAt;
    assert Advanced(t).offset == Past(Lex(t).span) == n;
  }

  lemma LineOf(s: string, i: nat, n: nat, before: string, text: string)
    requires i <= n <= |s| && s[..i] == before && s[i..n] == text
    ensures s[..n] == before + text && Newlines(before + text) == Newlines(before) + Newlines(text)
  {
    NewlinesSplit(before, text);
    assert s[..n] == s[..i] + s[i..n];
  }

  lemma PieceText(s: string, i: nat, gap: string, text: string)
    requires Here(s, i, gap) && Here(s, i + |gap|, text)
    ensures s[i..i + |gap|] == gap && s[i..i + |gap| + |text|] == gap + text
  {
    var j := i + |gap|;
    assert s[i..j + |text|] == s[i..j] + s[j..j + |text|];
  }

  /** The printed text splits into its first piece and what follows. */
  lemma PrintedSplits(s: string, i: nat, p: Piece, rest: seq<Piece>, tail: string)
    requires i <= |s| && s[i..] == Printed([p] + rest) + tail
    ensures Here(s, i, p.gap) && Here(s, i + |p.gap|, Spelled(p.word))
    ensures var n := i + |p.gap| + |Spelled(p.word)|; n <= |s| && s[n..] == Printed(rest) + tail
  {
    var text := Spelled(p.word);
    assert ([p] + rest)[0] == p && ([p] + rest)[1..] == rest;
    assert s[i..] == (p.gap + text) + (Printed(rest) + tail);
    assert s[i..i + |s[i..]|] == s[i..];
    hide Printed, Spelled;
    HereSplits(s, i, p.gap + text, Printed(rest) + tail);
    HereSplits(s, i, p.gap, text);
    assert s[i + |p.gap + text|..] == s[i..][|p.gap + text|..];
  }

  lemma WellSpacedRest(p: Piece, rest: seq<Piece>)
    requires WellSpaced([p] + rest)
    ensures WellSpaced(rest) && Gap(p.gap) && Printable(p.word)
    ensures Atom(p.word) && rest != [] ==> rest[0].gap != "" || !Atom(rest[0].word)
  {
    var all := [p] + rest;
    assert all[0] == p && forall k :: 0 <= k < |rest| ==> rest[k] == all[k + 1];
    hide Gap, Printable;
    assert Gap(all[0].gap) && Printable(all[0].word);
    if rest != [] { assert all[1] == rest[0]; }
    forall k | 0 <= k < |rest| ensures Gap(rest[k].gap) && Printable(rest[k].word) { assert Gap(all[k + 1].gap); }
  }

  lemma TailStarts(tail: string)
    requires Tail(tail)
    ensures tail == "" || White(tail[0]) || tail[0] == '#'
  {
  }

  /** One printed piece is one token: its own text, on its own line. */
  lemma PieceLexes(t: Tokenizer, before: string, p: Piece, rest: seq<Piece>, tail: string)
    requires t.offset <= |t.source| && t.source[..t.offset] == before && t.line == 1 + Newlines(before)
    requires t.source[t.offset..] == Printed([p] + rest) + tail && WellSpaced([p] + rest) && Tail(tail)
    ensures Lex(t).Found? && TokenOf(t) == Token(p.word.text, p.word.quoted, 1 + Newlines(before + p.gap))
    ensures var u, past := Advanced(t), before + p.gap + Spelled(p.word);
      && u.source == t.source && u.source[..u.offset] == past && u.line == 1 + Newlines(past)
      && u.source[u.offset..] == Printed(rest) + tail
  {
    hide Printed, Newlines, Until, Spelled, WellSpaced, Gap, Skip, TokenAt, Printable, Stands, Lex, Advanced, TokenOf, Tail, Here, Atom;
    var s, i, text := t.source, t.offset, Spelled(p.word);
    var j := i + |p.gap|;
    var n := j + |text|;
    PrintedSplits(s, i, p, rest, tail);
    WellSpacedRest(p, rest);
    TailStarts(tail);
    if Atom(p.word) { NextIsBounded(s, n, rest, tail); }
    SkipsGap(s, i, p.gap);
    WordStands(s, j, p.word, t.line + Newlines(s[i..j]));
    Lands(t, p.word, j, n);
    PieceText(s, i, p.gap, text);
    LineOf(s, i, j, before, p.gap);
    LineOf(s, i, n, before, p.gap + text);
    assert before + p.gap + text == before + (p.gap + text);
  }

  lemma ScanStep(t: Tokenizer)
    requires t.offset <= |t.source|
    ensures Lex(t).Found? ==>
      Scan(t) == Scanned([TokenOf(t)] + Scan(Advanced(t)).tokens, Scan(Advanced(t)).broken)
  {
  }

  lemma ExpectedStep(before: string, p: Piece, rest: seq<Piece>)
    ensures Expected(before, [p] + rest)
      == [Token(p.word.text, p.word.quoted, 1 + Newlines(before + p.gap))] + Expected(before + p.gap + Spelled(p.word), rest)
  {
    hide Newlines, Spelled;
    assert ([p] + rest)[0] == p && ([p] + rest)[1..] == rest;
  }

  lemma NothingLeft(t: Tokenizer, tail: string)
    requires t.offset <= |t.source| && t.source[t.offset..] == tail && Tail(tail)
    ensures Lex(t) == Finished
  {
    SkipSuffix(t.source, t.offset, 0);
    TailSkips(tail);
  }

  /** Printing, then lexing, returns the words, each with the line it was printed
      on, whatever whitespace and comments were put between them. */
  lemma {:induction false} PrintedLexes(t: Tokenizer, before: string, pieces: seq<Piece>, tail: string)
    requires t.offset <= |t.source| && t.source[..t.offset] == before && t.line == 1 + Newlines(before)
    requires t.source[t.offset..] == Printed(pieces) + tail && WellSpaced(pieces) && Tail(tail)
    ensures Scan(t) == Scanned(Expected(before, pieces), None)
    decreases |pieces|
  {
    if pieces == [] {
      hide Lex, Newlines, Tail;
      assert t.source[t.offset..] == tail;
      NothingLeft(t, tail);
    } else {
      hide Printed, Newlines, WellSpaced, Lex, Advanced, TokenOf, Tail, Spelled, Scan, Expected;
      var p, rest := pieces[0], pieces[1..];
      assert [p] + rest == pieces;
      ScanStep(t);
      ExpectedStep(before, p, rest);
      PieceLexes(t, before, p, rest, tail);
      WellSpacedRest(p, rest);
      PrintedLexes(Advanced(t), before + p.gap + Spelled(p.word), rest, tail);
    }
  }

  /** The same for a whole file. */
  lemma FileRoundTrip(pieces: seq<Piece>, tail: string)
    requires WellSpaced(pieces) && Tail(tail)
    ensures Scan(Opened(Printed(pieces) + tail)) == Scanned(Expected("", pieces), None)
  {
    PrintedLexes(Opened(Printed(pieces) + tail), "", pieces, tail);
  }
}
