/** Printing directives as text, with whatever whitespace and comments between the
    words, and reading them back. */
module PbrtPrinting {

  import opened Options
  import opened PbrtLexer
  import opened PbrtStream
  import opened PbrtGrammar
  import opened PbrtDeclarations
  import opened PbrtParser
  import opened PbrtPrograms

  // ---------------------------------------------------------------- what can be printed

  /** A number as one word; a text that reads as a truth value is not one. */
  predicate NumberText(disk: Disk, t: string) {
    disk.isNumber(t) && Atom(Word(t, false)) && t != "true" && t != "false"
  }

  /** A name or a string goes between quotes as it is. */
  predicate Quotable(t: string) { '\"' !in t }

  /** Half of a declaration: it has letters, and no whitespace would split it. */
  predicate Plainly(t: string) { t != "" && Quotable(t) && forall i :: 0 <= i < |t| ==> !White(t[i]) }

  predicate GoodValue(disk: Disk, v: Value) {
    match v
    case Strings(s) => s != [] && forall i :: 0 <= i < |s| ==> Quotable(s[i])
    case Bools(b) => b != []
    case Numbers(n) => forall i :: 0 <= i < |n| ==> NumberText(disk, n[i])
  }

  predicate GoodParam(disk: Disk, p: Param) { Plainly(p.ty) && Plainly(p.name) && GoodValue(disk, p.value) }

  predicate GoodNames(names: seq<string>) { forall i :: 0 <= i < |names| ==> Quotable(names[i]) }

  /** A directive the grammar has a spelling for. */
  predicate WellFormed(disk: Disk, d: Directive) {
    && ShapeOf(d.keyword).Some? && GoodNames(d.names)
    && (forall i :: 0 <= i < |d.numbers| ==> NumberText(disk, d.numbers[i]))
    && (forall i :: 0 <= i < |d.params| ==> GoodParam(disk, d.params[i]))
    && var shape := ShapeOf(d.keyword).value;
    |d.names| == shape.names && |d.numbers| == shape.numbers && (d.params != [] ==> shape.params)
  }

  predicate AllWellFormed(disk: Disk, ds: seq<Directive>) { forall i :: 0 <= i < |ds| ==> WellFormed(disk, ds[i]) }

  // ---------------------------------------------------------------- the words of a directive

  /** Brackets are optional around a directive's numbers and around a single value. */
  datatype Style = Style(bracketNumbers: bool, bareSingles: bool)

  const OPEN := Word("[", false)

  const CLOSE := Word("]", false)

  function NumberWords(numbers: seq<string>): (r: seq<Word>)
    ensures |r| == |numbers| && forall i :: 0 <= i < |r| ==> r[i] == Word(numbers[i], false)
  {
    seq(|numbers|, i requires 0 <= i < |numbers| => Word(numbers[i], false))
  }

  function QuotedWords(names: seq<string>): (r: seq<Word>)
    ensures |r| == |names| && forall i :: 0 <= i < |r| ==> r[i] == Word(names[i], true)
  {
    seq(|names|, i requires 0 <= i < |names| => Word(names[i], true))
  }

  function BoolWords(bools: seq<bool>): (r: seq<Word>)
    ensures |r| == |bools| && forall i :: 0 <= i < |r| ==> r[i] == Word(if bools[i] then "true" else "false", false)
  {
    seq(|bools|, i requires 0 <= i < |bools| => Word(if bools[i] then "true" else "false", false))
  }

  function ItemWords(v: Value): seq<Word> {
    match v
    case Strings(s) => QuotedWords(s)
    case Bools(b) => BoolWords(b)
    case Numbers(n) => NumberWords(n)
  }

  function Within(words: seq<Word>): (r: seq<Word>)
    ensures |r| == |words| + 2 && r[0] == OPEN && r[|r| - 1] == CLOSE && r[1..|r| - 1] == words
  {
    [OPEN] + words + [CLOSE]
  }

  function ValueWords(v: Value, style: Style): seq<Word> {
    var items := ItemWords(v);
    if style.bareSingles && |items| == 1 then items else Within(items)
  }

  function ParamWords(p: Param, style: Style): (r: seq<Word>)
    ensures |r| > 0 && r[1..] == ValueWords(p.value, style) && r[0] == Word(p.ty + " " + p.name, true)
  {
    [Word(p.ty + " " + p.name, true)] + ValueWords(p.value, style)
  }

  function ParamsWords(params: seq<Param>, style: Style): seq<Word> {
    if params == [] then [] else ParamWords(params[0], style) + ParamsWords(params[1..], style)
  }

  function NumberPart(d: Directive, style: Style): seq<Word> {
    if style.bracketNumbers && d.numbers != [] then Within(NumberWords(d.numbers)) else NumberWords(d.numbers)
  }

  /** What stands after the keyword. */
  function ArgumentWords(d: Directive, style: Style): seq<Word> {
    QuotedWords(d.names) + NumberPart(d, style) + ParamsWords(d.params, style)
  }

  function DirectiveWords(d: Directive, style: Style): (r: seq<Word>)
    ensures |r| > 0 && r[0] == Word(d.keyword, false) && r[1..] == ArgumentWords(d, style)
  {
    [Word(d.keyword, false)] + ArgumentWords(d, style)
  }

  function AllWords(ds: seq<Directive>, style: Style): seq<Word> {
    if ds == [] then [] else DirectiveWords(ds[0], style) + AllWords(ds[1..], style)
  }

  // ---------------------------------------------------------------- every word can be printed

  ghost predicate AllPrintable(words: seq<Word>) { forall i :: 0 <= i < |words| ==> Printable(words[i]) }

  lemma ValuePrints(disk: Disk, v: Value, style: Style)
    requires GoodValue(disk, v)
    ensures AllPrintable(ValueWords(v, style))
  {
    assert Atom(Word("true", false)) && Atom(Word("false", false));
    assert AllPrintable(ItemWords(v)) by {
      forall i | 0 <= i < |ItemWords(v)| ensures Printable(ItemWords(v)[i]) {
        match v {
          case Strings(s) => assert Quotable(s[i]);
          case Bools(b) => assert Printable(Word("true", false)) && Printable(Word("false", false));
          case Numbers(n) => assert NumberText(disk, n[i]);
        }
      }
    }
    hide Printable;
    assert AllPrintable([OPEN]) && AllPrintable([CLOSE]) by { assert Printable(OPEN) && Printable(CLOSE) by { PrintableBrackets(); } }
  }

  lemma PrintableBrackets()
    ensures Printable(OPEN) && Printable(CLOSE)
  {}

  lemma {:induction false} ParamsPrint(disk: Disk, params: seq<Param>, style: Style)
    requires forall i :: 0 <= i < |params| ==> GoodParam(disk, params[i])
    ensures AllPrintable(ParamsWords(params, style))
  {
    if params != [] {
      var p := params[0];
      assert GoodParam(disk, p);
      ValuePrints(disk, p.value, style);
      ParamsPrint(disk, params[1..], style);
      assert Printable(Word(p.ty + " " + p.name, true));
      hide ValueWords, Printable;
    }
  }

  predicate Letter(c: char) { 'A' <= c <= 'Z' || 'a' <= c <= 'z' }

  ghost predicate Lettered(s: string) { s != "" && forall k :: 0 <= k < |s| ==> Letter(s[k]) }

  lemma BareIsLettered(keyword: string)
    requires keyword in ALONE
    ensures Lettered(keyword)
  {}

  lemma NamedIsLettered(keyword: string)
    requires keyword in NAMING
    ensures Lettered(keyword)
  {}

  lemma ParametricIsLettered(keyword: string)
    requires keyword in TYPED
    ensures Lettered(keyword)
  {
    hide Lettered;
    if keyword in TYPED[..7] { EarlyIsLettered(keyword); } else { LateIsLettered(keyword); }
  }

  lemma EarlyIsLettered(keyword: string)
    requires keyword in TYPED[..7]
    ensures Lettered(keyword)
  {}

  lemma LateIsLettered(keyword: string)
    requires keyword in TYPED[7..]
    ensures Lettered(keyword)
  {}

  lemma OthersAreLettered(keyword: string)
    requires keyword in ["Translate", "Scale", "Rotate", "LookAt", "Transform", "ConcatTransform", "TransformTimes", "MediumInterface", "Texture"]
    ensures Lettered(keyword)
  {}

  /** Every keyword of the grammar is a bare word. */
  lemma KeywordIsAtom(keyword: string)
    requires ShapeOf(keyword).Some?
    ensures Atom(Word(keyword, false))
  {
    hide Lettered;
    if keyword in ALONE { BareIsLettered(keyword); }
    else if keyword in NAMING { NamedIsLettered(keyword); }
    else if keyword in TYPED { ParametricIsLettered(keyword); }
    else { OthersAreLettered(keyword); }
    LettersAreAtom(keyword);
  }

  lemma LettersAreAtom(s: string)
    requires Lettered(s)
    ensures Atom(Word(s, false))
  {
    forall k | 0 <= k < |s| ensures Ordinary(s[k]) { assert Letter(s[k]); }
  }

  lemma NamesPrint(names: seq<string>)
    requires GoodNames(names)
    ensures AllPrintable(QuotedWords(names))
  {}

  lemma NumbersPrint(disk: Disk, d: Directive, style: Style)
    requires forall i :: 0 <= i < |d.numbers| ==> NumberText(disk, d.numbers[i])
    ensures AllPrintable(NumberPart(d, style))
  {
    PrintableBrackets();
    forall i | 0 <= i < |d.numbers| ensures Printable(NumberWords(d.numbers)[i]) { assert NumberText(disk, d.numbers[i]); }
    hide Printable;
  }

  lemma DirectivePrints(disk: Disk, d: Directive, style: Style)
    requires WellFormed(disk, d)
    ensures AllPrintable(DirectiveWords(d, style))
  {
    hide ShapeOf, ParamsWords, NumberPart;
    KeywordIsAtom(d.keyword);
    ParamsPrint(disk, d.params, style);
    NamesPrint(d.names);
    NumbersPrint(disk, d, style);
    assert Printable(Word(d.keyword, false));
    hide Printable, GoodNames, NumberText, GoodParam;
  }

  lemma {:induction false} AllPrint(disk: Disk, ds: seq<Directive>, style: Style)
    requires AllWellFormed(disk, ds)
    ensures AllPrintable(AllWords(ds, style))
  {
    hide DirectiveWords, Printable, WellFormed;
    if ds != [] {
      DirectivePrints(disk, ds[0], style);
      AllPrint(disk, ds[1..], style);
    }
  }

  // ---------------------------------------------------------------- the words spell the directive

  /** The tokens are these words, wherever they stand. */
  ghost predicate Says(ls: seq<Lexeme>, words: seq<Word>) {
    |ls| == |words| && forall i :: 0 <= i < |ls| ==> ls[i].text == words[i].text && ls[i].quoted == words[i].quoted
  }

  lemma SaysPart(ls: seq<Lexeme>, words: seq<Word>, i: nat, j: nat)
    requires Says(ls, words) && i <= j <= |words|
    ensures Says(ls[i..j], words[i..j])
  {}

  lemma SaysSplit(ls: seq<Lexeme>, a: seq<Word>, b: seq<Word>)
    requires Says(ls, a + b)
    ensures Says(ls[..|a|], a) && Says(ls[|a|..], b)
  {
    SaysPart(ls, a + b, 0, |a|);
    SaysPart(ls, a + b, |a|, |a + b|);
    assert (a + b)[0..|a|] == a && (a + b)[|a|..|a + b|] == b;
    assert ls[0..|a|] == ls[..|a|] && ls[|a|..|a + b|] == ls[|a|..];
  }

  lemma SaysNumbers(disk: Disk, ls: seq<Lexeme>, numbers: seq<string>)
    requires Says(ls, NumberWords(numbers)) && forall i :: 0 <= i < |numbers| ==> NumberText(disk, numbers[i])
    ensures BareNumbers(disk, ls, numbers) && (ls != [] ==> !Is(ls[0], "["))
  {
    if ls != [] { assert NumberText(disk, numbers[0]) && Ordinary(numbers[0][0]); }
  }

  lemma SaysWithin(ls: seq<Lexeme>, words: seq<Word>)
    requires Says(ls, Within(words))
    ensures Bracketed(ls) && Says(ls[1..|ls| - 1], words)
  {
    SaysPart(ls, Within(words), 1, |ls| - 1);
    assert ls[0].text == OPEN.text && ls[|ls| - 1].text == CLOSE.text;
  }

  lemma NumbersSpelled(disk: Disk, ls: seq<Lexeme>, numbers: seq<string>, style: Style)
    requires forall i :: 0 <= i < |numbers| ==> NumberText(disk, numbers[i])
    requires Says(ls, if style.bracketNumbers && numbers != [] then Within(NumberWords(numbers)) else NumberWords(numbers))
    ensures SpellsNumbers(disk, ls, numbers)
  {
    hide NumberText, BareNumbers;
    if style.bracketNumbers && numbers != [] {
      SaysWithin(ls, NumberWords(numbers));
      SaysNumbers(disk, ls[1..|ls| - 1], numbers);
    } else {
      SaysNumbers(disk, ls, numbers);
    }
  }

  lemma NamesSpelled(ls: seq<Lexeme>, names: seq<string>)
    requires Says(ls, QuotedWords(names))
    ensures SpellsNames(ls, names)
  {}

  lemma ItemsHold(disk: Disk, ls: seq<Lexeme>, v: Value)
    requires GoodValue(disk, v) && Says(ls, ItemWords(v))
    ensures Holds(disk, ls, v) && forall i :: 0 <= i < |ls| ==> !Bracket(ls[i])
  {
    match v {
      case Strings(_) =>
      case Bools(_) =>
      case Numbers(n) =>
        forall i | 0 <= i < |n| ensures n[i] != "[" && n[i] != "]" && disk.isNumber(n[i]) && n[i] != "true" && n[i] != "false" {
          assert NumberText(disk, n[i]) && Ordinary(n[i][0]);
        }
    }
  }

  lemma ValueSpelled(disk: Disk, ls: seq<Lexeme>, v: Value, style: Style)
    requires GoodValue(disk, v) && Says(ls, ValueWords(v, style))
    ensures SpellsValue(disk, ls, v)
  {
    hide GoodValue, Holds, ItemWords;
    if style.bareSingles && |ItemWords(v)| == 1 {
      ItemsHold(disk, ls, v);
    } else {
      SaysWithin(ls, ItemWords(v));
      ItemsHold(disk, ls[1..|ls| - 1], v);
    }
  }

  // ---------------------------------------------------------------- declarations

  /** A declaration is its type and its name. */
  lemma DeclarationSays(ty: string, name: string)
    requires Plainly(ty) && Plainly(name)
    ensures Declaration(ty + " " + name, ty, name)
  {
    var s, n := ty + " " + name, |ty|;
    assert s[0..n] == ty && s[n..n + 1] == " " && s[n + 1..|s|] == name && s[..0] == "" && s[|s|..] == "";
    assert DeclaredAt(s, ty, name, 0, n, n + 1, |s|);
  }

  // ---------------------------------------------------------------- directives, placed

  function PlacedParam(p: Param, l: Lexeme): Param { p.(path := l.path, line := l.line) }

  /** Parameters on the lines their declarations were printed on. */
  function PlacedParams(params: seq<Param>, style: Style, ls: seq<Lexeme>): (r: seq<Param>)
    requires |ls| == |ParamsWords(params, style)|
    ensures |r| == |params|
  {
    if params == [] then []
    else
      [PlacedParam(params[0], ls[0])] + PlacedParams(params[1..], style, ls[|ParamWords(params[0], style)|..])
  }

  function ParamsFrom(d: Directive, style: Style): (k: nat)
    ensures k + |ParamsWords(d.params, style)| == |DirectiveWords(d, style)|
  {
    1 + |d.names| + |NumberPart(d, style)|
  }

  /** A directive on the line its keyword was printed on. */
  function Placed(d: Directive, style: Style, ls: seq<Lexeme>): Directive
    requires |ls| == |DirectiveWords(d, style)|
  {
    d.(path := ls[0].path, line := ls[0].line, params := PlacedParams(d.params, style, ls[ParamsFrom(d, style)..]))
  }

  lemma {:induction false} ParamsSpelled(disk: Disk, ls: seq<Lexeme>, params: seq<Param>, style: Style)
    requires (forall i :: 0 <= i < |params| ==> GoodParam(disk, params[i])) && Says(ls, ParamsWords(params, style))
    ensures SpellsParams(disk, ls, PlacedParams(params, style, ls))
    decreases |params|
  {
    if params != [] {
      var p, rest := params[0], params[1..];
      var words := ParamWords(p, style);
      var k := |words|;
      var placed := PlacedParams(params, style, ls);
      assert GoodParam(disk, p);
      SaysSplit(ls, words, ParamsWords(rest, style));
      ParamsSpelled(disk, ls[k..], rest, style);
      ParamSpelled(disk, ls[..k], p, style);
      assert placed[0] == PlacedParam(p, ls[..k][0]);
      assert ParamEnds(disk, ls, placed, k);
      assert placed[1..] == PlacedParams(rest, style, ls[k..]);
    }
  }

  lemma ParamSpelled(disk: Disk, ls: seq<Lexeme>, p: Param, style: Style)
    requires GoodParam(disk, p) && Says(ls, ParamWords(p, style))
    ensures SpellsParam(disk, ls, PlacedParam(p, ls[0]))
  {
    var words := ParamWords(p, style);
    assert ls[0].text == words[0].text && ls[0].quoted == words[0].quoted;
    DeclarationSays(p.ty, p.name);
    SaysPart(ls, words, 1, |words|);
    assert ls[1..|words|] == ls[1..] && words[1..|words|] == words[1..];
    hide Declaration, GoodValue, ValueWords, SpellsValue, ParamWords;
    ValueSpelled(disk, ls[1..], p.value, style);
  }

  lemma ThreeParts(ls: seq<Lexeme>, a: seq<Word>, b: seq<Word>, c: seq<Word>)
    requires Says(ls, a + b + c)
    ensures |ls| == |a| + |b| + |c|
    ensures Says(ls[..|a|], a) && Says(ls[|a|..|a| + |b|], b) && Says(ls[|a| + |b|..], c)
  {
    var k := |a| + |b|;
    SaysSplit(ls, a + b, c);
    SaysSplit(ls[..k], a, b);
    assert ls[..k][..|a|] == ls[..|a|] && ls[..k][|a|..] == ls[|a|..k];
  }

  lemma DirectiveParts(d: Directive, style: Style, ls: seq<Lexeme>)
    requires Says(ls, DirectiveWords(d, style))
    ensures var n, k := |d.names|, ParamsFrom(d, style) - 1;
      var rest := ls[1..];
      && n <= k <= |rest| && rest[k..] == ls[k + 1..]
      && Says(rest[..n], QuotedWords(d.names)) && Says(rest[n..k], NumberPart(d, style)) && Says(rest[k..], ParamsWords(d.params, style))
      && ls[0].text == d.keyword && !ls[0].quoted
  {
    var words := DirectiveWords(d, style);
    assert ls[0].text == words[0].text && ls[0].quoted == words[0].quoted;
    SaysPart(ls, words, 1, |words|);
    assert ls[1..|words|] == ls[1..] && words[1..|words|] == ArgumentWords(d, style);
    hide Says, NumberPart, ParamsWords;
    ThreeParts(ls[1..], QuotedWords(d.names), NumberPart(d, style), ParamsWords(d.params, style));
  }

  /** The words of a well-formed directive spell it, placed where they stand. */
  lemma DirectiveSpelled(disk: Disk, ls: seq<Lexeme>, d: Directive, style: Style)
    requires WellFormed(disk, d) && Says(ls, DirectiveWords(d, style))
    ensures SpellsDirective(disk, ls, Placed(d, style, ls))
  {
    var k, rest := ParamsFrom(d, style) - 1, ls[1..];
    DirectiveParts(d, style, ls);
    KeywordIsNoBracket(ls[0]);
    NamesSpelled(rest[..|d.names|], d.names);
    NumbersSpelled(disk, rest[|d.names|..k], d.numbers, style);
    ParamsSpelled(disk, rest[k..], d.params, style);
    ArgumentsSpelled(disk, rest, d, style, Placed(d, style, ls), k);
  }

  lemma KeywordIsNoBracket(l: Lexeme)
    requires ShapeOf(l.text).Some? && !l.quoted
    ensures !Bracket(l)
  {
    KeywordIsAtom(l.text);
    assert Ordinary(l.text[0]);
  }

  lemma ArgumentsSpelled(disk: Disk, rest: seq<Lexeme>, d: Directive, style: Style, placed: Directive, k: nat)
    requires WellFormed(disk, d) && placed == d.(path := placed.path, line := placed.line, params := placed.params)
    requires |placed.params| == |d.params| && |d.names| <= k <= |rest| && k + 1 == ParamsFrom(d, style)
    requires |rest| == k + |ParamsWords(d.params, style)|
    requires SpellsNames(rest[..|d.names|], d.names) && SpellsNumbers(disk, rest[|d.names|..k], d.numbers)
    requires SpellsParams(disk, rest[k..], placed.params)
    ensures SpellsArguments(disk, rest, ShapeOf(d.keyword).value, placed)
  {
    hide ShapeOf, SpellsNames, SpellsNumbers, SpellsParams, ParamsWords, GoodNames;
    var n := |d.names|;
    ShapesApart(d.keyword);
    NoParams(style);
    if ShapeOf(d.keyword).value.params { assert k == n; }
    else { assert rest[n..k] == rest[n..]; }
  }

  /** No directive takes both numbers and parameters. */
  lemma ShapesApart(keyword: string)
    ensures ShapeOf(keyword).Some? && ShapeOf(keyword).value.params ==> ShapeOf(keyword).value.numbers == 0
  {}

  lemma NoParams(style: Style)
    ensures ParamsWords([], style) == []
  {}

  // ---------------------------------------------------------------- programs

  /** The directives of one file, includes among them, as they stand. */
  function Heads(program: seq<Statement>): (r: seq<Directive>)
    ensures |r| == |program| && forall i :: 0 <= i < |r| ==> r[i] == program[i].d
  {
    seq(|program|, i requires 0 <= i < |program| => program[i].d)
  }

  /** Each include stands for a file that says its body. */
  ghost predicate Sourced(disk: Disk, program: seq<Statement>) {
    forall i :: 0 <= i < |program| ==>
      match program[i]
      case Plain(d) => !NamesAFile(d.keyword)
      case Included(d, body) => NamesAFile(d.keyword) && |d.names| == 1 && FileSays(disk, disk.resolve(d.names[0]), body)
  }

  function PlacedProgram(program: seq<Statement>, style: Style, ls: seq<Lexeme>): (r: seq<Statement>)
    requires |ls| == |AllWords(Heads(program), style)|
    ensures |r| == |program|
  {
    if program == [] then []
    else
      var s := program[0];
      assert Heads(program)[1..] == Heads(program[1..]);
      var k := |DirectiveWords(s.d, style)|;
      var d := Placed(s.d, style, ls[..k]);
      [match s case Plain(_) => Plain(d) case Included(_, body) => Included(d, body)]
        + PlacedProgram(program[1..], style, ls[k..])
  }

  lemma {:induction false} ProgramSpelled(disk: Disk, ls: seq<Lexeme>, program: seq<Statement>, style: Style)
    requires AllWellFormed(disk, Heads(program)) && Sourced(disk, program) && Says(ls, AllWords(Heads(program), style))
    ensures SpellsProgram(disk, ls, PlacedProgram(program, style, ls))
    decreases |program|
  {
    hide WellFormed, DirectiveWords, Placed, SpellsDirective, FileSays, NamesAFile;
    if program != [] {
      var s, later := program[0], program[1..];
      var words := DirectiveWords(s.d, style);
      var k := |words|;
      assert Heads(program)[1..] == Heads(later);
      assert WellFormed(disk, Heads(program)[0]);
      SaysSplit(ls, words, AllWords(Heads(later), style));
      forall i | 0 <= i < |later| ensures WellFormed(disk, Heads(later)[i]) { assert Heads(later)[i] == Heads(program)[i + 1]; }
      assert Sourced(disk, later) by { SourcedRest(disk, program); }
      ProgramSpelled(disk, ls[k..], later, style);
      DirectiveSpelled(disk, ls[..k], s.d, style);
      var placed := PlacedProgram(program, style, ls);
      assert placed[1..] == PlacedProgram(later, style, ls[k..]);
      StatementSpelled(disk, ls, program, style, k);
      assert StatementEnds(disk, ls, placed[0], k);
    }
  }

  lemma SourcedRest(disk: Disk, program: seq<Statement>)
    requires program != [] && Sourced(disk, program)
    ensures Sourced(disk, program[1..])
  {
    forall i | 0 <= i < |program| - 1 ensures program[1..][i] == program[i + 1] {}
  }

  lemma PlacedKeeps(d: Directive, style: Style, ls: seq<Lexeme>)
    requires |ls| == |DirectiveWords(d, style)|
    ensures var p := Placed(d, style, ls); p.keyword == d.keyword && p.names == d.names && p.numbers == d.numbers
  {}

  lemma StatementSpelled(disk: Disk, ls: seq<Lexeme>, program: seq<Statement>, style: Style, k: nat)
    requires program != [] && Sourced(disk, program) && |ls| == |AllWords(Heads(program), style)|
    requires k == |DirectiveWords(program[0].d, style)| <= |ls| && SpellsDirective(disk, ls[..k], Placed(program[0].d, style, ls[..k]))
    ensures StatementEnds(disk, ls, PlacedProgram(program, style, ls)[0], k)
  {
    PlacedKeeps(program[0].d, style, ls[..k]);
    hide SpellsDirective, Placed, DirectiveWords, FileSays;
  }

  // ---------------------------------------------------------------- text

  /** The words with something before each. */
  function Spaced(words: seq<Word>, gaps: seq<string>): (r: seq<Piece>)
    requires |gaps| == |words|
    ensures |r| == |words| && forall i :: 0 <= i < |r| ==> r[i] == Piece(gaps[i], words[i])
  {
    seq(|words|, i requires 0 <= i < |words| => Piece(gaps[i], words[i]))
  }

  /** Whitespace and comments between words: any, so long as two bare words in a
      row do not touch. */
  ghost predicate Gaps(words: seq<Word>, gaps: seq<string>) {
    |gaps| == |words| && (forall i :: 0 <= i < |gaps| ==> Gap(gaps[i])) && Separated(Spaced(words, gaps))
  }

  /** The file that prints these directives. */
  function Print(ds: seq<Directive>, style: Style, gaps: seq<string>, tail: string): string
    requires |gaps| == |AllWords(ds, style)|
  {
    Printed(Spaced(AllWords(ds, style), gaps)) + tail
  }

  lemma {:induction false} ExpectedSays(path: string, before: string, pieces: seq<Piece>)
    ensures var ls := LocatedAll(path, Expected(before, pieces));
      |ls| == |pieces| && forall i :: 0 <= i < |ls| ==>
        ls[i].text == pieces[i].word.text && ls[i].quoted == pieces[i].word.quoted && ls[i].path == path
    decreases |pieces|
  {
    hide Newlines, PbrtLexer.Spelled;
    if pieces != [] {
      var p := pieces[0];
      ExpectedSays(path, before + p.gap + PbrtLexer.Spelled(p.word), pieces[1..]);
      var first := Token(p.word.text, p.word.quoted, 1 + Newlines(before + p.gap));
      var later := Expected(before + p.gap + PbrtLexer.Spelled(p.word), pieces[1..]);
      assert Expected(before, pieces) == [first] + later;
      assert ([first] + later)[1..] == later;
    }
  }

  /** Where each printed word is found: on the line one more than the newlines
      before it. */
  function PrintedAt(path: string, ds: seq<Directive>, style: Style, gaps: seq<string>): seq<Lexeme>
    requires |gaps| == |AllWords(ds, style)|
  {
    LocatedAll(path, Expected("", Spaced(AllWords(ds, style), gaps)))
  }

  lemma PrintedAtSays(path: string, ds: seq<Directive>, style: Style, gaps: seq<string>)
    requires |gaps| == |AllWords(ds, style)|
    ensures Says(PrintedAt(path, ds, style, gaps), AllWords(ds, style))
  {
    ExpectedSays(path, "", Spaced(AllWords(ds, style), gaps));
    hide Expected, LocatedAll, AllWords;
  }

  lemma PrintIsWellSpaced(disk: Disk, ds: seq<Directive>, style: Style, gaps: seq<string>)
    requires AllWellFormed(disk, ds) && Gaps(AllWords(ds, style), gaps)
    ensures WellSpaced(Spaced(AllWords(ds, style), gaps))
  {
    AllPrint(disk, ds, style);
    hide AllWords, Printable, Gap, WellFormed, Separated;
  }

  /** Printing a program's file and reading it back: a file printed from
      well-formed directives, in either style, with any whitespace and comments,
      says that program, every directive and parameter on the line it was
      printed on. */
  lemma PrintedSays(disk: Disk, path: string, program: seq<Statement>, style: Style, gaps: seq<string>, tail: string)
    requires AllWellFormed(disk, Heads(program)) && Sourced(disk, program)
    requires Gaps(AllWords(Heads(program), style), gaps) && Tail(tail)
    requires path in disk.files && disk.files[path] == Print(Heads(program), style, gaps, tail)
    ensures var ls := PrintedAt(path, Heads(program), style, gaps);
      |ls| == |AllWords(Heads(program), style)| && FileSays(disk, path, PlacedProgram(program, style, ls))
  {
    var ds := Heads(program);
    PrintIsWellSpaced(disk, ds, style, gaps);
    PrintedAtSays(path, ds, style, gaps);
    hide AllWords, WellSpaced, Printed, Tail, LocatedAll, Expected, SpellsProgram, FileSays, PlacedProgram, Sourced, WellFormed, Gaps;
    var ls := PrintedAt(path, ds, style, gaps);
    ProgramSpelled(disk, ls, program, style);
    PrintedTextSays(disk, path, Spaced(AllWords(ds, style), gaps), tail, PlacedProgram(program, style, ls));
  }

  function Plains(ds: seq<Directive>): (r: seq<Statement>)
    ensures |r| == |ds| && forall i :: 0 <= i < |r| ==> r[i] == Plain(ds[i])
  {
    seq(|ds|, i requires 0 <= i < |ds| => Plain(ds[i]))
  }

  /** Each directive on the line its keyword, each parameter on the line its
      declaration was printed on; nothing else differs. */
  function PlacedAll(ds: seq<Directive>, style: Style, ls: seq<Lexeme>): (r: seq<Directive>)
    requires |ls| == |AllWords(ds, style)|
    ensures |r| == |ds|
  {
    if ds == [] then []
    else
      var k := |DirectiveWords(ds[0], style)|;
      [Placed(ds[0], style, ls[..k])] + PlacedAll(ds[1..], style, ls[k..])
  }

  lemma {:induction false} PlainsFlatten(ds: seq<Directive>, style: Style, ls: seq<Lexeme>)
    requires |ls| == |AllWords(ds, style)|
    ensures Heads(Plains(ds)) == ds
    ensures var p := PlacedProgram(Plains(ds), style, ls); Flatten(p) == PlacedAll(ds, style, ls) && Height(p) == 0
    decreases |ds|
  {
    hide DirectiveWords, Placed;
    assert Heads(Plains(ds)) == ds;
    if ds != [] {
      var k := |DirectiveWords(ds[0], style)|;
      assert Plains(ds)[1..] == Plains(ds[1..]);
      PlainsFlatten(ds[1..], style, ls[k..]);
      var p := PlacedProgram(Plains(ds), style, ls);
      assert p[1..] == PlacedProgram(Plains(ds[1..]), style, ls[k..]);
      assert p[0] == Plain(Placed(ds[0], style, ls[..k]));
    }
  }

  /** The round trip: any list of well-formed directives without includes, printed
      in either style with any whitespace and comments, reads back as the same
      list, with the lines it was printed on and no error. */
  lemma PrintedReads(disk: Disk, path: string, ds: seq<Directive>, style: Style, gaps: seq<string>, tail: string)
    requires AllWellFormed(disk, ds) && forall i :: 0 <= i < |ds| ==> !NamesAFile(ds[i].keyword)
    requires Gaps(AllWords(ds, style), gaps) && Tail(tail)
    requires path in disk.files && disk.files[path] == Print(ds, style, gaps, tail)
    ensures var ls := PrintedAt(path, ds, style, gaps);
      |ls| == |AllWords(ds, style)| && ReadAll(disk, WholeFile(disk, path)) == Reading(PlacedAll(ds, style, ls), None)
  {
    var program, ls := Plains(ds), PrintedAt(path, ds, style, gaps);
    PrintedAtSays(path, ds, style, gaps);
    PlainsFlatten(ds, style, ls);
    assert Sourced(disk, program);
    hide AllWords, WellFormed, Gaps, Tail, Print, PrintedAt, Sourced, FileSays, PlacedProgram, PlacedAll, Flatten, Height, ReadAll, WholeFile;
    PrintedSays(disk, path, program, style, gaps, tail);
    SceneReads(disk, path, PlacedProgram(program, style, ls));
  }

  /** And every list can be printed: a space before each word will do. */
  lemma AnythingPrints(words: seq<Word>) returns (gaps: seq<string>)
    ensures Gaps(words, gaps) && Tail("")
  {
    gaps := seq(|words|, i => " ");
    forall i | 0 <= i < |gaps| ensures Gap(gaps[i]) { assert " "[1..] == "" && White(' '); }
  }

  function UnplacedParam(p: Param): Param { p.(path := "", line := 0) }

  /** A directive without its places. */
  function Unplaced(d: Directive): Directive {
    d.(path := "", line := 0, params := seq(|d.params|, i requires 0 <= i < |d.params| => UnplacedParam(d.params[i])))
  }

  lemma {:induction false} PlacedParamsKeep(params: seq<Param>, style: Style, ls: seq<Lexeme>)
    requires |ls| == |ParamsWords(params, style)|
    ensures var placed := PlacedParams(params, style, ls);
      forall i :: 0 <= i < |params| ==> UnplacedParam(placed[i]) == UnplacedParam(params[i])
    decreases |params|
  {
    if params != [] {
      var rest := ls[|ParamWords(params[0], style)|..];
      hide ParamWords;
      PlacedParamsKeep(params[1..], style, rest);
    }
  }

  lemma PlacedKeepsAll(d: Directive, style: Style, ls: seq<Lexeme>)
    requires |ls| == |DirectiveWords(d, style)|
    ensures Unplaced(Placed(d, style, ls)) == Unplaced(d)
  {
    PlacedParamsKeep(d.params, style, ls[ParamsFrom(d, style)..]);
  }

  /** Placing changes places and nothing else. */
  lemma {:induction false} PlacingKeeps(ds: seq<Directive>, style: Style, ls: seq<Lexeme>)
    requires |ls| == |AllWords(ds, style)|
    ensures var placed := PlacedAll(ds, style, ls); forall i :: 0 <= i < |ds| ==> Unplaced(placed[i]) == Unplaced(ds[i])
    decreases |ds|
  {
    hide DirectiveWords, Placed, Unplaced;
    if ds != [] {
      var k := |DirectiveWords(ds[0], style)|;
      PlacedKeepsAll(ds[0], style, ls[..k]);
      PlacingKeeps(ds[1..], style, ls[k..]);
    }
  }
}
