/** Whole scenes: a tree of files including one another reads as the flattened
    list of its directives, and reading always comes to an end. */
module PbrtPrograms {

  import opened Options
  import opened PbrtLexer
  import opened PbrtStream
  import opened PbrtGrammar
  import opened PbrtParser

  // ---------------------------------------------------------------- reading uses tokens up

  lemma PullSuffix(flat: seq<Item>)
    requires Pull(flat).Pulled?
    ensures Suffix(Pull(flat).rest, flat)
  {
    PullCosts(0, flat);
  }

  lemma {:induction false} NumbersSuffix(disk: Disk, flat: seq<Item>, site: Site, n: nat)
    requires TakeNumbers(disk, flat, site, n).Yes?
    ensures Suffix(TakeNumbers(disk, flat, site, n).rest, flat)
    decreases n
  {
    if n > 0 {
      hide Pull, Suffix;
      PullSuffix(flat);
      NumbersSuffix(disk, Pull(flat).rest, site, n - 1);
      SuffixTrans(TakeNumbers(disk, flat, site, n).rest, Pull(flat).rest, flat);
    }
  }

  lemma ParseNumbersSuffix(disk: Disk, flat: seq<Item>, site: Site, n: nat)
    requires ParseNumbers(disk, flat, site, n).Yes? && n > 0
    ensures Suffix(ParseNumbers(disk, flat, site, n).rest, flat)
  {
    assert TakeNumbers(disk, [], site, n).No?;
    hide Pull, TakeNumbers, Suffix;
    var p, end := Pull(flat), ParseNumbers(disk, flat, site, n).rest;
    if Is(p.lexeme, "[") {
      PullSuffix(flat);
      NumbersSuffix(disk, p.rest, site, n);
      var after := TakeNumbers(disk, p.rest, site, n).rest;
      SuffixTrans(after, p.rest, flat);
      PullSuffix(after);
      SuffixTrans(end, after, flat);
    } else {
      SettledIsSuffix(flat);
      NumbersSuffix(disk, Settled(flat), site, n);
      SuffixTrans(end, Settled(flat), flat);
    }
  }

  lemma {:induction false} ValuesSuffix(disk: Disk, flat: seq<Item>, site: Site, value: Option<Value>)
    requires TakeValues(disk, flat, site, value).Yes?
    ensures Suffix(TakeValues(disk, flat, site, value).rest, flat)
    decreases |flat|
  {
    hide Pull, Suffix, Push;
    PullSuffix(flat);
    var l, rest := Pull(flat).lexeme, Pull(flat).rest;
    if !Is(l, "]") {
      ValuesSuffix(disk, rest, site, Some(Push(disk, value, l).value));
      SuffixTrans(TakeValues(disk, flat, site, value).rest, rest, flat);
    }
  }

  lemma ValueSuffix(disk: Disk, flat: seq<Item>, site: Site)
    requires ParseValue(disk, flat, site).Yes?
    ensures Suffix(ParseValue(disk, flat, site).rest, flat)
  {
    hide Pull, Suffix, Push, TakeValues;
    PullSuffix(flat);
    var rest := Pull(flat).rest;
    if Is(Pull(flat).lexeme, "[") {
      ValuesSuffix(disk, rest, site, None);
      SuffixTrans(ParseValue(disk, flat, site).rest, rest, flat);
    }
  }

  lemma EmptySuffix(flat: seq<Item>)
    ensures Suffix([], flat)
  {
  }

  lemma {:induction false} ParamsSuffix(disk: Disk, flat: seq<Item>, site: Site)
    requires ParseParams(disk, flat, site).Yes?
    ensures Suffix(ParseParams(disk, flat, site).rest, flat)
    decreases |flat|
  {
    hide Pull, Suffix, ParseValue, Words, Declares;
    var p, end := Pull(flat), ParseParams(disk, flat, site).rest;
    if p.Dry? {
      EmptySuffix(flat);
    } else if !Declares(p.lexeme) {
      SettledIsSuffix(flat);
    } else {
      PullSuffix(flat);
      ValueSuffix(disk, p.rest, site);
      var after := ParseValue(disk, p.rest, site).rest;
      ParamsSuffix(disk, after, site);
      SuffixTrans(end, after, p.rest);
      SuffixTrans(end, p.rest, flat);
    }
  }

  lemma ArgumentsSuffix(disk: Disk, l: Lexeme, arity: Arity, flat: seq<Item>)
    requires ParseArguments(disk, l, arity, flat).Yes? && (arity.ManyNumbers? ==> arity.count > 0)
    ensures Suffix(ParseArguments(disk, l, arity, flat).rest, flat)
  {
    hide ParseNumbers, ParseNames, ParseParams;
    var site := SiteOf(l);
    match arity {
      case Bare => assert flat == flat[0..];
      case ManyNumbers(n) => ParseNumbersSuffix(disk, flat, site, n);
      case ManyNames(n) => NamesCost(0, flat, site, n);
      case NamesParams(n) =>
        NamesCost(0, flat, site, n);
        var after := ParseNames(flat, site, n).rest;
        ParamsSuffix(disk, after, site);
        SuffixTrans(ParseParams(disk, after, site).rest, after, flat);
    }
  }

  lemma FuelIsPositive(longest: nat, k: nat)
    ensures Fuel(longest, k) > 0
  {
  }

  /** A directive read leaves less work than there was. */
  lemma DirectiveShrinks(disk: Disk, longest: nat, flat: seq<Item>)
    requires ParseOne(disk, flat).Yes? && ParseOne(disk, flat).value.Some?
    ensures Potential(longest, ParseOne(disk, flat).rest) < Potential(longest, flat)
  {
    hide Pull, Suffix, ArityOf, ParseArguments, Potential, Fuel, Bracket, Depth, Left;
    PullCosts(longest, flat);
    var l, rest := Pull(flat).lexeme, Pull(flat).rest;
    TableIsTheGrammar(l.text);
    ArgumentsSuffix(disk, l, ArityOf(l.text).value, rest);
    PotentialFalls(longest, ParseOne(disk, flat).rest, rest);
    FuelIsPositive(longest, Left(Depth(rest)));
  }

  // ---------------------------------------------------------------- the whole stream

  /** Every directive up to the end, or up to the first error. */
  datatype Reading = Reading(directives: seq<Directive>, error: Option<Error>)

  function Before(first: seq<Directive>, r: Reading): Reading { r.(directives := first + r.directives) }

  ghost function ReadAll(disk: Disk, flat: seq<Item>): Reading
    decreases Potential(Longest(disk, disk.files.Keys), flat)
  {
    match ParseOne(disk, flat)
    case No(e) => Reading([], Some(e))
    case Yes(None, _) => Reading([], None)
    case Yes(Some(d), rest) =>
      if !Splices(d.keyword) then
        DirectiveShrinks(disk, Longest(disk, disk.files.Keys), flat);
        Before([d], ReadAll(disk, rest))
      else
        match Spliced(disk, d, rest)
        case No(e) => Reading([], Some(e))
        case Yes(_, flat') =>
          SpliceShrinks(disk, flat);
          ReadAll(disk, flat')
  }

  lemma SettledOne(disk: Disk, flat: seq<Item>)
    ensures ParseOne(disk, Settled(flat)) == ParseOne(disk, flat)
  {
    hide ParseArguments, ArityOf, Bracket;
    SettledPull(flat);
  }

  lemma SettledReads(disk: Disk, flat: seq<Item>)
    ensures ReadAll(disk, Settled(flat)) == ReadAll(disk, flat)
  {
    hide ParseOne, Spliced, Potential, Longest, Splices, Settled;
    SettledOne(disk, flat);
  }

  // ---------------------------------------------------------------- trees of files

  /** A statement of a scene: a directive, or an include and what its file says. */
  datatype Statement = Plain(d: Directive) | Included(d: Directive, body: seq<Statement>)

  function Flatten(program: seq<Statement>): seq<Directive> {
    if program == [] then []
    else
      (match program[0] case Plain(d) => [d] case Included(_, body) => Flatten(body)) + Flatten(program[1..])
  }

  /** How deep its includes nest. */
  function Height(program: seq<Statement>): nat {
    if program == [] then 0
    else
      var here := match program[0] case Plain(_) => 0 case Included(_, body) => 1 + Height(body);
      var later := Height(program[1..]);
      if here > later then here else later
  }

  ghost predicate SpellsProgram(disk: Disk, ls: seq<Lexeme>, program: seq<Statement>)
    decreases program, 0
  {
    if program == [] then ls == []
    else exists k :: 0 < k <= |ls| && StatementEnds(disk, ls, program[0], k) && SpellsProgram(disk, ls[k..], program[1..])
  }

  ghost predicate StatementEnds(disk: Disk, ls: seq<Lexeme>, s: Statement, k: nat)
    requires k <= |ls|
    decreases s, 1
  {
    && SpellsDirective(disk, ls[..k], s.d)
    && match s
       case Plain(d) => !NamesAFile(d.keyword)
       case Included(d, body) => NamesAFile(d.keyword) && |d.names| == 1 && FileSays(disk, disk.resolve(d.names[0]), body)
  }

  ghost predicate FileSays(disk: Disk, path: string, body: seq<Statement>)
    decreases body, 1
  {
    && path in disk.files
    && exists ls :: WholeFile(disk, path) == Toks(ls) + [End] && SpellsProgram(disk, ls, body)
  }

  // ---------------------------------------------------------------- reading a tree

  lemma {:induction false} ToksAreNotEnds(ls: seq<Lexeme>, rest: seq<Item>)
    ensures Depth(Toks(ls) + rest) == Depth(rest)
  {
    if ls == [] {
      NoToks(rest);
    } else {
      assert (Toks(ls) + rest)[1..] == Toks(ls[1..]) + rest;
      ToksAreNotEnds(ls[1..], rest);
    }
  }

  /** A statement begins with a bare keyword, which declares no parameter. */
  lemma CleanAhead(disk: Disk, ls: seq<Lexeme>, program: seq<Statement>, rest: seq<Item>)
    requires SpellsProgram(disk, ls, program) && Clean(rest)
    ensures Clean(Toks(ls) + rest)
  {
    if program == [] {
      NoToks(rest);
    } else {
      var k :| 0 < k <= |ls| && StatementEnds(disk, ls, program[0], k) && SpellsProgram(disk, ls[k..], program[1..]);
      StartsBare(disk, ls[..k], program[0].d);
      assert ls[..k][0] == ls[0];
      hide Pull, Toks;
      PullTok(ls, rest);
    }
  }

  lemma StartsBare(disk: Disk, ls: seq<Lexeme>, d: Directive)
    requires SpellsDirective(disk, ls, d)
    ensures ls != [] && !ls[0].quoted && !Declares(ls[0])
  {
  }

  lemma FileNamersTakeAName(keyword: string)
    requires NamesAFile(keyword)
    ensures ShapeOf(keyword) == Some(Shape(1, 0, false))
  {
    IncludesTakeAName(keyword);
    TableIsTheGrammar(keyword);
  }

  lemma OneStatement(disk: Disk, ls: seq<Lexeme>, s: Statement, k: nat, rest: seq<Item>)
    requires 0 < k <= |ls| && SpellsDirective(disk, ls[..k], s.d) && Clean(Toks(ls[k..]) + rest)
    ensures var r := ParseOne(disk, Toks(ls) + rest);
      r.Yes? && r.value == Some(s.d) && Settled(r.rest) == Settled(Toks(ls[k..]) + rest)
      && (NamesAFile(s.d.keyword) ==> r.rest == Toks(ls[k..]) + rest)
  {
    hide SpellsDirective, Toks, ParseOne, Clean, Settled, ShapeOf;
    assert ls == ls[..k] + ls[k..];
    ToksThen(ls[..k], ls[k..], rest);
    DirectiveReads(disk, ls[..k], s.d, Toks(ls[k..]) + rest);
    SettledPull(Toks(ls[k..]) + rest);
    if NamesAFile(s.d.keyword) { FileNamersTakeAName(s.d.keyword); }
  }

  lemma PlainReads(disk: Disk, ls: seq<Lexeme>, s: Statement, k: nat, rest: seq<Item>)
    requires 0 < k <= |ls| && SpellsDirective(disk, ls[..k], s.d) && Clean(Toks(ls[k..]) + rest) && !NamesAFile(s.d.keyword)
    ensures ReadAll(disk, Toks(ls) + rest) == Before([s.d], ReadAll(disk, Toks(ls[k..]) + rest))
  {
    hide SpellsDirective, Toks, ParseOne, Clean, Settled, Splices, NamesAFile, Longest, Potential, Spliced;
    SplicesIs(s.d.keyword);
    OneStatement(disk, ls, s, k, rest);
    SettledReads(disk, Toks(ls[k..]) + rest);
    SettledReads(disk, ParseOne(disk, Toks(ls) + rest).rest);
  }

  lemma IncludeReads(disk: Disk, ls: seq<Lexeme>, s: Statement, k: nat, rest: seq<Item>)
    requires 0 < k <= |ls| && SpellsDirective(disk, ls[..k], s.d) && Clean(Toks(ls[k..]) + rest)
    requires NamesAFile(s.d.keyword) && |s.d.names| == 1 && disk.resolve(s.d.names[0]) in disk.files
    ensures var r, path := ReadAll(disk, Toks(ls) + rest), disk.resolve(s.d.names[0]);
      if Depth(rest) >= 32 then r.error.Some? && r.error.value.TooDeep?
      else r == ReadAll(disk, WholeFile(disk, path) + (Toks(ls[k..]) + rest))
  {
    hide SpellsDirective, Toks, ParseOne, Clean, Settled, Splices, NamesAFile, Longest, Potential, WholeFile, Depth;
    SplicesIs(s.d.keyword);
    OneStatement(disk, ls, s, k, rest);
    ToksAreNotEnds(ls[k..], rest);
  }

  lemma FileEnd(disk: Disk, rest: seq<Item>)
    requires Clean(rest)
    ensures Clean([End] + rest) && Depth([End] + rest) == 1 + Depth(rest) && ReadAll(disk, [End] + rest) == ReadAll(disk, rest)
  {
    assert ([End] + rest)[1..] == rest;
    hide ReadAll;
    SettledReads(disk, [End] + rest);
    SettledReads(disk, rest);
  }

  /** The includes fit under the limit: files counted from the one at hand. */
  ghost predicate Shallow(program: seq<Statement>, rest: seq<Item>) {
    Height(program) == 0 || Height(program) + Depth(rest) <= 32
  }

  lemma JoinedReadings(a: seq<Directive>, b: seq<Directive>, r: Reading)
    ensures Before(a, Before(b, r)) == Before(a + b, r)
  {
    assert a + (b + r.directives) == a + b + r.directives;
  }

  ghost predicate RefusedAsTooDeep(r: Reading) { r.error.Some? && r.error.value.TooDeep? }

  lemma FileExists(disk: Disk, path: string, body: seq<Statement>)
    requires FileSays(disk, path, body)
    ensures path in disk.files
  {
  }

  /** A tree of files reads as its directives in order, includes flattened where
      they stand, exactly when it nests no deeper than the limit; a deeper one is
      refused. */
  lemma {:induction false} ProgramReads(disk: Disk, ls: seq<Lexeme>, program: seq<Statement>, rest: seq<Item>)
    requires SpellsProgram(disk, ls, program) && Clean(rest)
    ensures Shallow(program, rest) ==> ReadAll(disk, Toks(ls) + rest) == Before(Flatten(program), ReadAll(disk, rest))
    ensures !Shallow(program, rest) ==> RefusedAsTooDeep(ReadAll(disk, Toks(ls) + rest))
    decreases program, 0
  {
    hide ReadAll, Toks, Clean, SpellsDirective, Depth, WholeFile;
    if program == [] {
      NoToks(rest);
      assert [] + ReadAll(disk, rest).directives == ReadAll(disk, rest).directives;
    } else {
      var s, later := program[0], program[1..];
      var k :| 0 < k <= |ls| && StatementEnds(disk, ls, s, k) && SpellsProgram(disk, ls[k..], later);
      CleanAhead(disk, ls[k..], later, rest);
      ProgramReads(disk, ls[k..], later, rest);
      var after := Toks(ls[k..]) + rest;
      match s {
        case Plain(d) =>
          PlainReads(disk, ls, s, k, rest);
          JoinedReadings([d], Flatten(later), ReadAll(disk, rest));
        case Included(d, body) =>
          FileExists(disk, disk.resolve(d.names[0]), body);
          IncludeReads(disk, ls, s, k, rest);
          ToksAreNotEnds(ls[k..], rest);
          BodyReads(disk, disk.resolve(d.names[0]), body, after);
          JoinedReadings(Flatten(body), Flatten(later), ReadAll(disk, rest));
      }
    }
  }

  /** An included file reads as its body, then as what follows the include. */
  lemma {:induction false} BodyReads(disk: Disk, path: string, body: seq<Statement>, after: seq<Item>)
    requires FileSays(disk, path, body) && Clean(after)
    ensures Shallow(body, [End] + after) ==>
      ReadAll(disk, WholeFile(disk, path) + after) == Before(Flatten(body), ReadAll(disk, after))
    ensures !Shallow(body, [End] + after) ==> RefusedAsTooDeep(ReadAll(disk, WholeFile(disk, path) + after))
    ensures Depth([End] + after) == 1 + Depth(after)
    decreases body, 1
  {
    hide ReadAll, Toks, Clean, Depth, SpellsProgram, Shallow, Flatten;
    var ls :| WholeFile(disk, path) == Toks(ls) + [End] && SpellsProgram(disk, ls, body);
    FileEnd(disk, after);
    assert WholeFile(disk, path) + after == Toks(ls) + ([End] + after);
    ProgramReads(disk, ls, body, [End] + after);
  }

  /** The same for a scene read from its top file. */
  lemma SceneReads(disk: Disk, root: string, program: seq<Statement>)
    requires FileSays(disk, root, program)
    ensures var r := ReadAll(disk, WholeFile(disk, root));
      if Height(program) < 32 then r == Reading(Flatten(program), None) else RefusedAsTooDeep(r)
  {
    assert WholeFile(disk, root) + [] == WholeFile(disk, root);
    assert ReadAll(disk, []) == Reading([], None) && Depth([]) == 0;
    hide ReadAll, WholeFile, Flatten, FileSays;
    BodyReads(disk, root, program, []);
    assert Flatten(program) + [] == Flatten(program);
  }

  // ---------------------------------------------------------------- from text to directives

  function LocatedAll(path: string, tokens: seq<Token>): seq<Lexeme> {
    if tokens == [] then [] else [Located(path, tokens[0])] + LocatedAll(path, tokens[1..])
  }

  lemma {:induction false} ItemsAreScanned(path: string, t: Tokenizer)
    requires t.offset <= |t.source| && Scan(t).broken.None?
    ensures Items(path, t) == Toks(LocatedAll(path, Scan(t).tokens)) + [End]
    decreases |t.source| - t.offset
  {
    hide Lex, Advanced, TokenOf;
    if Lex(t).Found? {
      var more := LocatedAll(path, Scan(Advanced(t)).tokens);
      ItemsAreScanned(path, Advanced(t));
      assert Scan(t).tokens == [TokenOf(t)] + Scan(Advanced(t)).tokens;
      assert Scan(t).tokens[1..] == Scan(Advanced(t)).tokens;
      var l := Located(path, TokenOf(t));
      assert LocatedAll(path, Scan(t).tokens) == [l] + more;
      ToksSplit([l], more);
      OneTok(l);
      assert [Tok(l)] + (Toks(more) + [End]) == [Tok(l)] + Toks(more) + [End];
    } else {
      assert Scan(t).tokens == [];
    }
  }

  lemma OneTok(l: Lexeme)
    ensures Toks([l]) == [Tok(l)]
  {
    assert [l][1..] == [];
  }

  /** A file says a program when its text prints words that spell it, with any
      whitespace and comments between them; each directive and parameter is
      placed on the line its word was printed on. */
  lemma PrintedTextSays(disk: Disk, path: string, pieces: seq<Piece>, tail: string, program: seq<Statement>)
    requires path in disk.files && disk.files[path] == Printed(pieces) + tail && WellSpaced(pieces) && Tail(tail)
    requires SpellsProgram(disk, LocatedAll(path, Expected("", pieces)), program)
    ensures FileSays(disk, path, program)
  {
    FileRoundTrip(pieces, tail);
    ItemsAreScanned(path, Opened(disk.files[path]));
    hide SpellsProgram, Toks, Items, Scan, LocatedAll, Expected, Printed, WellSpaced, Tail;
    assert WholeFile(disk, path) == Toks(LocatedAll(path, Expected("", pieces))) + [End];
  }

  // ---------------------------------------------------------------- the parser over a scene

  /** Reading on from the next directive. */
  ghost function FromNext(disk: Disk, p: Parsed<Option<Directive>>): Reading {
    match p
    case No(e) => Reading([], Some(e))
    case Yes(None, _) => Reading([], None)
    case Yes(Some(d), rest) => Before([d], ReadAll(disk, rest))
  }

  /** Reading everything is reading the next directive over and over, and each
      leaves less work than there was. */
  lemma {:induction false} NextByNext(disk: Disk, flat: seq<Item>)
    ensures ReadAll(disk, flat) == FromNext(disk, NextDirective(disk, flat))
    ensures NextDirective(disk, flat).Yes? && NextDirective(disk, flat).value.Some? ==>
      Potential(Longest(disk, disk.files.Keys), NextDirective(disk, flat).rest) < Potential(Longest(disk, disk.files.Keys), flat)
    decreases Potential(Longest(disk, disk.files.Keys), flat)
  {
    hide ParseOne, Spliced, Potential, Longest, Splices;
    var one := ParseOne(disk, flat);
    if one.Yes? && one.value.Some? {
      if !Splices(one.value.value.keyword) {
        DirectiveShrinks(disk, Longest(disk, disk.files.Keys), flat);
      } else if Spliced(disk, one.value.value, one.rest).Yes? {
        SpliceShrinks(disk, flat);
        NextByNext(disk, Spliced(disk, one.value.value, one.rest).rest);
      }
    }
  }

  /** What the importer does: take directives until there are no more. */
  method ReadScene(parser: Parser) returns (r: Reading)
    requires parser.Valid()
    modifies parser
    ensures r == ReadAll(parser.disk, old(parser.Stream()))
  {
    var disk := parser.disk;
    var directives: seq<Directive> := [];
    ghost var whole, longest := ReadAll(disk, parser.Stream()), Longest(disk, disk.files.Keys);
    hide NextDirective, ReadAll, Flat, WellStacked, Potential, Longest, Lex;
    assert whole == Before([], whole) by { assert [] + whole.directives == whole.directives; }
    while true
      invariant parser.Valid() && whole == Before(directives, ReadAll(disk, parser.Stream()))
      decreases Potential(longest, parser.Stream())
    {
      NextByNext(disk, parser.Stream());
      var next := parser.ReadDirective();
      assert directives + [] == directives;
      if next.Fails? { return Reading(directives, Some(next.error)); }
      if next.value.None? { return Reading(directives, None); }
      JoinedReadings(directives, [next.value.value], ReadAll(disk, parser.Stream()));
      directives := directives + [next.value.value];
    }
  }
}
