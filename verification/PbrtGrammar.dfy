/** The grammar of the directive stream, said on its own, and what the parser
    makes of a tree of files spelled by it. */
module PbrtGrammar {

  import opened Options
  import opened PbrtLexer
  import opened PbrtStream
  import opened PbrtDeclarations

  // ---------------------------------------------------------------- the grammar

  /** Numbers as texts, one token each. */
  predicate BareNumbers(disk: Disk, ls: seq<Lexeme>, numbers: seq<string>) {
    |ls| == |numbers| && forall i :: 0 <= i < |ls| ==> ls[i].text == numbers[i] && disk.isNumber(numbers[i])
  }

  predicate Bracketed(ls: seq<Lexeme>) { |ls| >= 2 && Is(ls[0], "[") && Is(ls[|ls| - 1], "]") }

  predicate SpellsNumbers(disk: Disk, ls: seq<Lexeme>, numbers: seq<string>) {
    || (BareNumbers(disk, ls, numbers) && (ls != [] ==> !Is(ls[0], "[")))
    || (Bracketed(ls) && BareNumbers(disk, ls[1..|ls| - 1], numbers))
  }

  predicate Delimits(l: Lexeme) { !l.quoted && (l.text == "[" || l.text == "]") }

  predicate SpellsNames(ls: seq<Lexeme>, names: seq<string>) {
    |ls| == |names| && forall i :: 0 <= i < |ls| ==> ls[i].text == names[i] && !Delimits(ls[i])
  }

  predicate Boolean(l: Lexeme) { !l.quoted && (l.text == "true" || l.text == "false") }

  /** A homogeneous list; only an empty one has no kind of its own. */
  predicate Holds(disk: Disk, ls: seq<Lexeme>, value: Value) {
    match value
    case Strings(s) => ls != [] && |s| == |ls| && forall i :: 0 <= i < |ls| ==> ls[i].quoted && ls[i].text == s[i]
    case Bools(b) => ls != [] && |b| == |ls| && forall i :: 0 <= i < |ls| ==> Boolean(ls[i]) && b[i] == (ls[i].text == "true")
    case Numbers(n) =>
      && |n| == |ls| && (ls != [] ==> !Boolean(ls[0]))
      && forall i :: 0 <= i < |ls| ==> !ls[i].quoted && ls[i].text == n[i] && disk.isNumber(n[i])
  }

  predicate SpellsValue(disk: Disk, ls: seq<Lexeme>, value: Value) {
    || (|ls| == 1 && !Is(ls[0], "[") && Holds(disk, ls, value))
    || (Bracketed(ls) && Holds(disk, ls[1..|ls| - 1], value) && forall i :: 0 < i < |ls| - 1 ==> !Delimits(ls[i]))
  }

  ghost predicate SpellsParam(disk: Disk, ls: seq<Lexeme>, p: Param) {
    && ls != [] && ls[0].quoted && Declaration(ls[0].text, p.ty, p.name)
    && p.path == ls[0].path && p.line == ls[0].line
    && SpellsValue(disk, ls[1..], p.value)
  }

  ghost predicate SpellsParams(disk: Disk, ls: seq<Lexeme>, params: seq<Param>)
    decreases |params|
  {
    if params == [] then ls == []
    else exists k :: 0 < k <= |ls| && ParamEnds(disk, ls, params, k) && SpellsParams(disk, ls[k..], params[1..])
  }

  ghost predicate ParamEnds(disk: Disk, ls: seq<Lexeme>, params: seq<Param>, k: nat)
    requires params != [] && k <= |ls|
  {
    SpellsParam(disk, ls[..k], params[0])
  }

  /** What stands after a keyword: names, then numbers, then perhaps parameters. */
  datatype Shape = Shape(names: nat, numbers: nat, params: bool)

  const ALONE := ["WorldBegin", "WorldEnd", "AttributeBegin", "AttributeEnd", "TransformBegin", "TransformEnd",
                  "ObjectEnd", "ReverseOrientation", "Identity"]

  const NAMING := ["Include", "Import", "ObjectBegin", "ObjectInstance", "NamedMaterial", "CoordinateSystem",
                   "CoordSysTransform", "ColorSpace", "ActiveTransform"]

  const TYPED := ["Shape", "Material", "MakeNamedMaterial", "MakeNamedMedium", "LightSource", "AreaLightSource",
                  "Camera", "Film", "Sampler", "Integrator", "PixelFilter", "Accelerator", "Option", "Attribute"]

  /** The directives there are. A translation or a scale is three numbers, a
      rotation an angle and an axis, a view three points, a matrix sixteen numbers,
      a shutter interval two; a medium interface names two media, and a texture
      itself, its type and its class. */
  function ShapeOf(keyword: string): Option<Shape> {
    if keyword in ALONE then Some(Shape(0, 0, false))
    else if keyword == "Translate" || keyword == "Scale" then Some(Shape(0, 3, false))
    else if keyword == "Rotate" then Some(Shape(0, 1 + 3, false))
    else if keyword == "LookAt" then Some(Shape(0, 3 * 3, false))
    else if keyword == "Transform" || keyword == "ConcatTransform" then Some(Shape(0, 4 * 4, false))
    else if keyword == "TransformTimes" then Some(Shape(0, 2, false))
    else if keyword in NAMING then Some(Shape(1, 0, false))
    else if keyword == "MediumInterface" then Some(Shape(2, 0, false))
    else if keyword == "Texture" then Some(Shape(3, 0, true))
    else if keyword in TYPED then Some(Shape(1, 0, true))
    else None
  }

  ghost predicate SpellsArguments(disk: Disk, ls: seq<Lexeme>, shape: Shape, d: Directive) {
    && |d.names| == shape.names <= |ls| && SpellsNames(ls[..shape.names], d.names) && |d.numbers| == shape.numbers
    && var rest := ls[shape.names..];
    if shape.params then SpellsParams(disk, rest, d.params)
    else d.params == [] && if shape.numbers == 0 then rest == [] else SpellsNumbers(disk, rest, d.numbers)
  }

  ghost predicate SpellsDirective(disk: Disk, ls: seq<Lexeme>, d: Directive) {
    && ls != [] && !ls[0].quoted && !Delimits(ls[0])
    && d.keyword == ls[0].text && d.path == ls[0].path && d.line == ls[0].line
    && ShapeOf(d.keyword).Some? && SpellsArguments(disk, ls[1..], ShapeOf(d.keyword).value, d)
  }

  /** Two directives name a file whose directives stand in their place. */
  predicate NamesAFile(keyword: string) { keyword == "Include" || keyword == "Import" }

  lemma SplicesIs(keyword: string)
    ensures Splices(keyword) <==> NamesAFile(keyword)
  {}

  function Shaped(arity: Arity): Shape {
    match arity
    case Bare => Shape(0, 0, false)
    case ManyNumbers(n) => Shape(0, n, false)
    case ManyNames(n) => Shape(n, 0, false)
    case NamesParams(n) => Shape(n, 0, true)
  }

  /** The parser's table is this one, keyword for keyword: it refuses just the
      keywords that are not directives, and where it counts numbers there are some. */
  lemma TableIsTheGrammar(keyword: string)
    ensures ArityOf(keyword).None? <==> ShapeOf(keyword).None?
    ensures ArityOf(keyword).Some? ==> Shaped(ArityOf(keyword).value) == ShapeOf(keyword).value
    ensures ArityOf(keyword).Some? && ArityOf(keyword).value.ManyNumbers? ==> ArityOf(keyword).value.count > 0
  {}

  // ---------------------------------------------------------------- reading what is spelled

  function Toks(ls: seq<Lexeme>): (items: seq<Item>)
    ensures |items| == |ls|
  {
    if ls == [] then [] else [Tok(ls[0])] + Toks(ls[1..])
  }

  lemma {:induction false} ToksSplit(a: seq<Lexeme>, b: seq<Lexeme>)
    ensures Toks(a + b) == Toks(a) + Toks(b)
  {
    if a == [] {
      assert a + b == b;
    } else {
      assert (a + b)[1..] == a[1..] + b;
      ToksSplit(a[1..], b);
    }
  }

  lemma ToksThen(a: seq<Lexeme>, b: seq<Lexeme>, rest: seq<Item>)
    ensures Toks(a + b) + rest == Toks(a) + (Toks(b) + rest)
  {
    ToksSplit(a, b);
    hide Toks;
    assert Toks(a) + Toks(b) + rest == Toks(a) + (Toks(b) + rest);
  }

  lemma PullTok(ls: seq<Lexeme>, rest: seq<Item>)
    requires ls != []
    ensures Pull(Toks(ls) + rest) == Pulled(ls[0], Toks(ls[1..]) + rest)
    ensures Settled(Toks(ls) + rest) == Toks(ls) + rest
  {
    assert (Toks(ls) + rest)[1..] == Toks(ls[1..]) + rest;
  }

  lemma NoToks(rest: seq<Item>)
    ensures Toks([]) + rest == rest
  {
  }

  lemma {:induction false} NumbersRead(disk: Disk, ls: seq<Lexeme>, numbers: seq<string>, rest: seq<Item>, site: Site)
    requires BareNumbers(disk, ls, numbers)
    ensures TakeNumbers(disk, Toks(ls) + rest, site, |numbers|) == Yes(numbers, rest)
    decreases |ls|
  {
    if ls == [] {
      NoToks(rest);
    } else {
      PullTok(ls, rest);
      NumbersRead(disk, ls[1..], numbers[1..], rest, site);
      assert [numbers[0]] + numbers[1..] == numbers;
    }
  }

  /** A bracketed spelling: the open bracket, the body, the close bracket. */
  lemma BracketsRead(ls: seq<Lexeme>, rest: seq<Item>)
    requires Bracketed(ls)
    ensures var body, close := ls[1..|ls| - 1], ls[|ls| - 1];
      && Pull(Toks(ls) + rest) == Pulled(ls[0], Toks(body) + (Toks([close]) + rest))
      && Pull(Toks([close]) + rest) == Pulled(close, rest)
  {
    hide Pull, Toks;
    var body, close := ls[1..|ls| - 1], ls[|ls| - 1];
    LastOf(ls);
    PullTok(ls, rest);
    PullTok([close], rest);
    ToksThen(body, [close], rest);
    NoToks(rest);
  }

  lemma LastOf(ls: seq<Lexeme>)
    requires |ls| >= 2
    ensures ls[1..] == ls[1..|ls| - 1] + [ls[|ls| - 1]]
  {
  }

  lemma BracketedNumbersRead(disk: Disk, ls: seq<Lexeme>, numbers: seq<string>, rest: seq<Item>, site: Site)
    requires Bracketed(ls) && BareNumbers(disk, ls[1..|ls| - 1], numbers)
    ensures ParseNumbers(disk, Toks(ls) + rest, site, |numbers|) == Yes(numbers, rest)
  {
    hide Pull, Toks, BareNumbers, TakeNumbers;
    BracketsRead(ls, rest);
    NumbersRead(disk, ls[1..|ls| - 1], numbers, Toks([ls[|ls| - 1]]) + rest, site);
  }

  lemma ParseNumbersRead(disk: Disk, ls: seq<Lexeme>, numbers: seq<string>, rest: seq<Item>, site: Site)
    requires SpellsNumbers(disk, ls, numbers) && numbers != []
    ensures ParseNumbers(disk, Toks(ls) + rest, site, |numbers|) == Yes(numbers, rest)
  {
    if Bracketed(ls) && BareNumbers(disk, ls[1..|ls| - 1], numbers) {
      BracketedNumbersRead(disk, ls, numbers, rest, site);
    } else {
      PullTok(ls, rest);
      NumbersRead(disk, ls, numbers, rest, site);
    }
  }

  lemma {:induction false} NamesRead(ls: seq<Lexeme>, names: seq<string>, rest: seq<Item>, site: Site)
    requires SpellsNames(ls, names)
    ensures ParseNames(Toks(ls) + rest, site, |names|) == Yes(names, rest)
    decreases |ls|
  {
    if ls == [] {
      NoToks(rest);
    } else {
      PullTok(ls, rest);
      NamesRead(ls[1..], names[1..], rest, site);
      assert [names[0]] + names[1..] == names;
    }
  }

  /** The first n values of a list, as the parser holds them. */
  function FirstOf(value: Value, n: nat): Option<Value> {
    if n == 0 then None
    else
      match value
      case Strings(s) => if n <= |s| then Some(Strings(s[..n])) else None
      case Bools(b) => if n <= |b| then Some(Bools(b[..n])) else None
      case Numbers(m) => if n <= |m| then Some(Numbers(m[..n])) else None
  }

  lemma PushNext(disk: Disk, ls: seq<Lexeme>, value: Value, i: nat)
    requires Holds(disk, ls, value) && i < |ls|
    ensures Push(disk, FirstOf(value, i), ls[i]) == Fine(FirstOf(value, i + 1).value) && FirstOf(value, i + 1).Some?
  {
    match value {
      case Strings(s) => assert s[..i + 1] == s[..i] + [s[i]];
      case Bools(b) => assert b[..i + 1] == b[..i] + [b[i]];
      case Numbers(n) => assert n[..i + 1] == n[..i] + [n[i]];
    }
  }

  lemma {:induction false} ListRead(disk: Disk, body: seq<Lexeme>, close: Lexeme, value: Value, i: nat, rest: seq<Item>, site: Site)
    requires Holds(disk, body, value) && Is(close, "]") && i <= |body|
    requires forall j :: 0 <= j < |body| ==> !Bracket(body[j])
    ensures TakeValues(disk, Toks(body[i..] + [close]) + rest, site, FirstOf(value, i)) == Yes(value, rest)
    decreases |body| - i
  {
    var ls := body[i..] + [close];
    PullTok(ls, rest);
    if i == |body| {
      assert ls[1..] == [];
      NoToks(rest);
      match value {
        case Strings(s) => assert s[..|s|] == s;
        case Bools(b) => assert b[..|b|] == b;
        case Numbers(n) => assert n[..|n|] == n;
      }
    } else {
      assert ls[0] == body[i] && ls[1..] == body[i + 1..] + [close];
      PushNext(disk, body, value, i);
      ListRead(disk, body, close, value, i + 1, rest, site);
    }
  }

  lemma ValueRead(disk: Disk, ls: seq<Lexeme>, value: Value, rest: seq<Item>, site: Site)
    requires SpellsValue(disk, ls, value)
    ensures ParseValue(disk, Toks(ls) + rest, site) == Yes(value, rest)
  {
    PullTok(ls, rest);
    if Bracketed(ls) && Holds(disk, ls[1..|ls| - 1], value) && forall i :: 0 < i < |ls| - 1 ==> !Bracket(ls[i]) {
      var body := ls[1..|ls| - 1];
      assert ls[1..] == body[0..] + [ls[|ls| - 1]];
      ListRead(disk, body, ls[|ls| - 1], value, 0, rest, site);
    } else {
      SingleRead(disk, ls[0], value);
      assert ls[1..] == [];
      NoToks(rest);
    }
  }

  lemma SingleRead(disk: Disk, l: Lexeme, value: Value)
    requires Holds(disk, [l], value)
    ensures Push(disk, None, l) == Fine(value)
  {
    PushNext(disk, [l], value, 0);
    match value {
      case Strings(s) => assert s[..1] == s;
      case Bools(b) => assert b[..1] == b;
      case Numbers(n) => assert n[..1] == n;
    }
  }

  /** What may follow a parameter list: the end, or a token that declares none. */
  predicate Clean(rest: seq<Item>) {
    match Pull(rest)
    case Dry => true
    case Broken(_) => false
    case Pulled(l, _) => !Declares(l)
  }

  lemma {:induction false} ParamsRead(disk: Disk, ls: seq<Lexeme>, params: seq<Param>, rest: seq<Item>, site: Site)
    requires SpellsParams(disk, ls, params) && Clean(rest)
    ensures ParseParams(disk, Toks(ls) + rest, site) == Yes(params, Settled(rest))
    decreases |params|
  {
    if params == [] {
      NoToks(rest);
    } else {
      hide ParseParams, Toks, ParamEnds, Clean, Settled;
      var k :| 0 < k <= |ls| && ParamEnds(disk, ls, params, k) && SpellsParams(disk, ls[k..], params[1..]);
      ParamsRead(disk, ls[k..], params[1..], rest, site);
      ParamsStep(disk, ls, params, k, rest, site);
    }
  }

  lemma ParamsStep(disk: Disk, ls: seq<Lexeme>, params: seq<Param>, k: nat, rest: seq<Item>, site: Site)
    requires params != [] && 0 < k <= |ls| && ParamEnds(disk, ls, params, k)
    requires ParseParams(disk, Toks(ls[k..]) + rest, site) == Yes(params[1..], Settled(rest))
    ensures ParseParams(disk, Toks(ls) + rest, site) == Yes(params, Settled(rest))
  {
    hide SpellsParam, Words, Declares, ParseValue, Toks, Pull, ParamEnds, Settled;
    ParamRead(disk, ls, params, k, rest, site);
    assert [params[0]] + params[1..] == params;
  }

  lemma ParamTail(ls: seq<Lexeme>, k: nat)
    requires 0 < k <= |ls|
    ensures ls[1..] == ls[..k][1..] + ls[k..] && ls[..k][0] == ls[0]
  {
  }

  lemma ParamRead(disk: Disk, ls: seq<Lexeme>, params: seq<Param>, k: nat, rest: seq<Item>, site: Site)
    requires params != [] && 0 < k <= |ls| && ParamEnds(disk, ls, params, k)
    ensures Pull(Toks(ls) + rest) == Pulled(ls[0], Toks(ls[1..]) + rest)
    ensures Declares(ls[0]) && Words(ls[0].text) == [params[0].ty, params[0].name]
    ensures params[0].path == ls[0].path && params[0].line == ls[0].line
    ensures ParseValue(disk, Toks(ls[1..]) + rest, site) == Yes(params[0].value, Toks(ls[k..]) + rest)
  {
    hide Pull, Toks, SpellsValue, ParseValue, Words, Declares, Declaration;
    DeclarationReads(ls[0], params[0].ty, params[0].name);
    PullTok(ls, rest);
    ParamTail(ls, k);
    ToksThen(ls[..k][1..], ls[k..], rest);
    ValueRead(disk, ls[..k][1..], params[0].value, Toks(ls[k..]) + rest, site);
  }

  /** Where reading goes on: after a parameter list, past finished files. */
  function After(shape: Shape, rest: seq<Item>): seq<Item> {
    if shape.params then Settled(rest) else rest
  }

  lemma ArgumentsRead(disk: Disk, l: Lexeme, arity: Arity, ls: seq<Lexeme>, d: Directive, rest: seq<Item>)
    requires SpellsArguments(disk, ls, Shaped(arity), d) && (Shaped(arity).params ==> Clean(rest)) && (arity.ManyNumbers? ==> arity.count > 0)
    requires d.keyword == l.text && d.path == l.path && d.line == l.line
    ensures ParseArguments(disk, l, arity, Toks(ls) + rest) == Yes(d, After(Shaped(arity), rest))
  {
    hide SpellsNumbers, SpellsNames, SpellsParams, ParseNumbers, ParseNames, ParseParams, Toks, Settled, Clean;
    var site := SiteOf(l);
    assert ls[..0] == [] && ls[0..] == ls;
    match arity {
      case Bare => NoToks(rest);
      case ManyNumbers(_) => ParseNumbersRead(disk, ls, d.numbers, rest, site);
      case ManyNames(n) =>
        assert ls[..n] == ls;
        NamesRead(ls, d.names, rest, site);
      case NamesParams(n) =>
        assert ls == ls[..n] + ls[n..];
        ToksThen(ls[..n], ls[n..], rest);
        NamesRead(ls[..n], d.names, Toks(ls[n..]) + rest, site);
        ParamsRead(disk, ls[n..], d.params, rest, site);
    }
  }

  /** Every directive the grammar spells is read as itself, and nothing of what
      follows is taken. */
  lemma DirectiveReads(disk: Disk, ls: seq<Lexeme>, d: Directive, rest: seq<Item>)
    requires SpellsDirective(disk, ls, d) && (ShapeOf(d.keyword).value.params ==> Clean(rest))
    ensures ParseOne(disk, Toks(ls) + rest) == Yes(Some(d), After(ShapeOf(d.keyword).value, rest))
  {
    TableIsTheGrammar(d.keyword);
    hide ArityOf, ShapeOf, SpellsArguments, ParseArguments, After, Clean, Shaped;
    PullTok(ls, rest);
    ArgumentsRead(disk, ls[0], ArityOf(d.keyword).value, ls[1..], d, rest);
  }

  /** No token list spells two directives. */
  lemma GrammarIsUnambiguous(disk: Disk, ls: seq<Lexeme>, d: Directive, e: Directive)
    requires SpellsDirective(disk, ls, d) && SpellsDirective(disk, ls, e)
    ensures d == e
  {
    hide SpellsDirective, ShapeOf, ParseOne;
    DirectiveReads(disk, ls, d, []);
    DirectiveReads(disk, ls, e, []);
  }

  // ---------------------------------------------------------------- what is read was spelled

  /** The tokens of a stream, file ends left out. */
  function Lexemes(flat: seq<Item>): seq<Lexeme> {
    if flat == [] then [] else (if flat[0].Tok? then [flat[0].lexeme] else []) + Lexemes(flat[1..])
  }

  lemma {:induction false} SettledLexemes(flat: seq<Item>)
    ensures Lexemes(Settled(flat)) == Lexemes(flat)
  {
    if flat != [] && flat[0].End? { SettledLexemes(flat[1..]); }
  }

  lemma PullLexemes(flat: seq<Item>)
    ensures Pull(flat).Pulled? ==> Lexemes(flat) == [Pull(flat).lexeme] + Lexemes(Pull(flat).rest)
    ensures Pull(flat).Dry? ==> Lexemes(flat) == []
  {
    SettledLexemes(flat);
  }

  lemma {:induction false} NumbersSound(disk: Disk, flat: seq<Item>, site: Site, n: nat) returns (ls: seq<Lexeme>)
    requires TakeNumbers(disk, flat, site, n).Yes?
    ensures var r := TakeNumbers(disk, flat, site, n);
      |r.value| == n && BareNumbers(disk, ls, r.value) && Lexemes(flat) == ls + Lexemes(r.rest)
    decreases n
  {
    if n == 0 {
      ls := [];
    } else {
      hide Pull, Lexemes;
      PullLexemes(flat);
      var p := Pull(flat);
      var more := NumbersSound(disk, p.rest, site, n - 1);
      ls := [p.lexeme] + more;
      assert forall i :: 0 < i < |ls| ==> ls[i] == more[i - 1];
    }
  }

  lemma ParseNumbersSound(disk: Disk, flat: seq<Item>, site: Site, n: nat) returns (ls: seq<Lexeme>)
    requires ParseNumbers(disk, flat, site, n).Yes? && n > 0
    ensures var r := ParseNumbers(disk, flat, site, n);
      |r.value| == n && SpellsNumbers(disk, ls, r.value) && Lexemes(flat) == ls + Lexemes(r.rest)
  {
    assert TakeNumbers(disk, [], site, n).No?;
    hide Lexemes, TakeNumbers, Pull;
    PullLexemes(flat);
    var p := Pull(flat);
    if Is(p.lexeme, "[") {
      var body := NumbersSound(disk, p.rest, site, n);
      var after := TakeNumbers(disk, p.rest, site, n).rest;
      PullLexemes(after);
      ls := [p.lexeme] + body + [Pull(after).lexeme];
      assert ls[1..|ls| - 1] == body;
    } else {
      SettledLexemes(flat);
      ls := NumbersSound(disk, Settled(flat), site, n);
      assert ls[0] == Lexemes(flat)[0] == p.lexeme;
    }
  }

  lemma {:induction false} NamesSound(flat: seq<Item>, site: Site, n: nat) returns (ls: seq<Lexeme>)
    requires ParseNames(flat, site, n).Yes?
    ensures var r := ParseNames(flat, site, n);
      |r.value| == n && SpellsNames(ls, r.value) && Lexemes(flat) == ls + Lexemes(r.rest)
    decreases n
  {
    if n == 0 {
      ls := [];
    } else {
      hide Pull, Lexemes, Bracket;
      PullLexemes(flat);
      var p := Pull(flat);
      var more := NamesSound(p.rest, site, n - 1);
      ls := [p.lexeme] + more;
      assert forall i :: 0 < i < |ls| ==> ls[i] == more[i - 1];
    }
  }

  /** The tokens taken so far spell the value held so far. */
  predicate Held(disk: Disk, held: seq<Lexeme>, value: Option<Value>) {
    && (if value.None? then held == [] else held != [] && Holds(disk, held, value.value))
    && forall i :: 0 <= i < |held| ==> !Bracket(held[i])
  }

  lemma HeldMore(disk: Disk, held: seq<Lexeme>, value: Option<Value>, l: Lexeme)
    requires Held(disk, held, value) && !Bracket(l) && Push(disk, value, l).Fine?
    ensures Held(disk, held + [l], Some(Push(disk, value, l).value))
  {
  }

  lemma {:induction false} ListSound(disk: Disk, flat: seq<Item>, site: Site, value: Option<Value>, held: seq<Lexeme>)
    returns (ls: seq<Lexeme>, close: Lexeme)
    requires TakeValues(disk, flat, site, value).Yes? && Held(disk, held, value)
    ensures var r := TakeValues(disk, flat, site, value);
      && Is(close, "]") && Holds(disk, held + ls, r.value) && Lexemes(flat) == ls + [close] + Lexemes(r.rest)
      && forall i :: 0 <= i < |held + ls| ==> !Bracket((held + ls)[i])
    decreases |flat|
  {
    hide Pull, Lexemes, Push;
    PullLexemes(flat);
    var l, rest := Pull(flat).lexeme, Pull(flat).rest;
    if Is(l, "]") {
      ls, close := [], l;
      assert held + [] == held;
    } else {
      HeldMore(disk, held, value, l);
      var more;
      more, close := ListSound(disk, rest, site, Some(Push(disk, value, l).value), held + [l]);
      ls := [l] + more;
      assert held + [l] + more == held + ls;
      assert [l] + (more + [close] + Lexemes(TakeValues(disk, flat, site, value).rest))
        == ls + [close] + Lexemes(TakeValues(disk, flat, site, value).rest);
    }
  }

  lemma SingleSound(disk: Disk, l: Lexeme)
    requires Push(disk, None, l).Fine?
    ensures Holds(disk, [l], Push(disk, None, l).value)
  {
  }

  lemma ValueSound(disk: Disk, flat: seq<Item>, site: Site) returns (ls: seq<Lexeme>)
    requires ParseValue(disk, flat, site).Yes?
    ensures var r := ParseValue(disk, flat, site);
      SpellsValue(disk, ls, r.value) && Lexemes(flat) == ls + Lexemes(r.rest)
  {
    hide Pull, Lexemes, Push, TakeValues, Holds;
    PullLexemes(flat);
    var first, rest := Pull(flat).lexeme, Pull(flat).rest;
    if Is(first, "[") {
      var body, close := ListSound(disk, rest, site, None, []);
      assert [] + body == body;
      ls := [first] + body + [close];
      assert ls[1..|ls| - 1] == body;
      forall i | 0 < i < |ls| - 1 ensures !Bracket(ls[i]) { assert ls[i] == body[i - 1]; }
    } else {
      SingleSound(disk, first);
      ls := [first];
    }
  }

  lemma {:induction false} ParamsSound(disk: Disk, flat: seq<Item>, site: Site) returns (ls: seq<Lexeme>)
    requires ParseParams(disk, flat, site).Yes?
    ensures var r := ParseParams(disk, flat, site);
      SpellsParams(disk, ls, r.value) && Lexemes(flat) == ls + Lexemes(r.rest)
    decreases |flat|
  {
    hide Pull, Lexemes, ParseValue, Words, Declares, SpellsValue, Declaration;
    PullLexemes(flat);
    var p := Pull(flat);
    if p.Dry? {
      ls := [];
      NoLexemes();
    } else if !Declares(p.lexeme) {
      ls := [];
      SettledLexemes(flat);
    } else {
      var value := ValueSound(disk, p.rest, site);
      var after := ParseValue(disk, p.rest, site).rest;
      var more := ParamsSound(disk, after, site);
      var params, tail := ParseParams(disk, flat, site).value, Lexemes(ParseParams(disk, flat, site).rest);
      var words := Words(p.lexeme.text);
      assert words == [words[0], words[1]];
      DeclarationFound(p.lexeme, words[0], words[1]);
      ls := [p.lexeme] + value + more;
      assert [p.lexeme] + (value + (more + tail)) == ls + tail;
      FirstParamEnds(disk, p.lexeme, value, more, params);
      assert params[1..] == ParseParams(disk, after, site).value;
    }
  }

  lemma NoLexemes()
    ensures Lexemes([]) == []
  {
  }

  lemma FirstParamEnds(disk: Disk, l: Lexeme, value: seq<Lexeme>, more: seq<Lexeme>, params: seq<Param>)
    requires params != [] && SpellsParam(disk, [l] + value, params[0])
    ensures var ls := [l] + value + more;
      ParamEnds(disk, ls, params, 1 + |value|) && ls[1 + |value|..] == more
  {
    assert ([l] + value + more)[..1 + |value|] == [l] + value;
  }

  lemma ArgumentsSound(disk: Disk, l: Lexeme, arity: Arity, flat: seq<Item>) returns (ls: seq<Lexeme>)
    requires ParseArguments(disk, l, arity, flat).Yes? && (arity.ManyNumbers? ==> arity.count > 0)
    ensures var r := ParseArguments(disk, l, arity, flat);
      SpellsArguments(disk, ls, Shaped(arity), r.value) && Lexemes(flat) == ls + Lexemes(r.rest)
  {
    hide Lexemes, ParseNumbers, ParseNames, ParseParams, SpellsNumbers, SpellsNames, SpellsParams;
    var site := SiteOf(l);
    match arity {
      case Bare =>
        ls := [];
        NoNames();
      case ManyNumbers(n) =>
        ls := ParseNumbersSound(disk, flat, site, n);
        NoNames();
        assert ls[..0] == [] && ls[0..] == ls;
      case ManyNames(n) =>
        ls := NamesSound(flat, site, n);
        NamesCount(ls, ParseNames(flat, site, n).value);
        assert ls[..n] == ls;
      case NamesParams(n) =>
        var names := NamesSound(flat, site, n);
        var after := ParseNames(flat, site, n).rest;
        NamesCount(names, ParseNames(flat, site, n).value);
        var params := ParamsSound(disk, after, site);
        ls := names + params;
        assert ls[..n] == names && ls[n..] == params;
        var tail := Lexemes(ParseParams(disk, after, site).rest);
        assert names + (params + tail) == ls + tail;
    }
  }

  lemma NoNames()
    ensures SpellsNames([], [])
  {}

  lemma NamesCount(ls: seq<Lexeme>, names: seq<string>)
    requires SpellsNames(ls, names)
    ensures |ls| == |names|
  {
  }

  lemma ArgumentsKeepSite(disk: Disk, l: Lexeme, arity: Arity, flat: seq<Item>)
    requires ParseArguments(disk, l, arity, flat).Yes?
    ensures var d := ParseArguments(disk, l, arity, flat).value; d.keyword == l.text && d.path == l.path && d.line == l.line
  {
  }

  lemma OneIsArguments(disk: Disk, flat: seq<Item>)
    requires ParseOne(disk, flat).Yes? && ParseOne(disk, flat).value.Some?
    ensures Pull(flat).Pulled?
    ensures var l, rest := Pull(flat).lexeme, Pull(flat).rest;
      && !l.quoted && !Delimits(l) && ArityOf(l.text).Some?
      && var r := ParseArguments(disk, l, ArityOf(l.text).value, rest);
      r.Yes? && ParseOne(disk, flat) == Yes(Some(r.value), r.rest)
  {}

  /** Whatever directive the parser reads was spelled by the tokens it took, in
      order, none skipped. */
  lemma DirectiveSound(disk: Disk, flat: seq<Item>) returns (ls: seq<Lexeme>)
    requires ParseOne(disk, flat).Yes? && ParseOne(disk, flat).value.Some?
    ensures var r := ParseOne(disk, flat);
      SpellsDirective(disk, ls, r.value.value) && Lexemes(flat) == ls + Lexemes(r.rest)
  {
    hide Lexemes, Pull, ArityOf, ShapeOf, Shaped, ParseArguments, SpellsArguments, Delimits, ParseOne;
    PullLexemes(flat);
    OneIsArguments(disk, flat);
    var l, rest := Pull(flat).lexeme, Pull(flat).rest;
    TableIsTheGrammar(l.text);
    var arity := ArityOf(l.text).value;
    ArgumentsKeepSite(disk, l, arity, rest);
    var arguments := ArgumentsSound(disk, l, arity, rest);
    ls := [l] + arguments;
    assert ls[1..] == arguments;
    assert [l] + (arguments + Lexemes(ParseOne(disk, flat).rest)) == ls + Lexemes(ParseOne(disk, flat).rest);
  }
}
