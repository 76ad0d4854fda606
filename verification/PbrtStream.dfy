/** The directive stream over a flat list of tokens: what the parser's stack of
    open files stands for. An include puts a file's tokens in front of the rest;
    every open file ends in a marker, and the markers left count the open files. */
module PbrtStream {

  import opened Options
  import opened PbrtLexer

  /** A token and the file it came from. */
  datatype Lexeme = Lexeme(text: string, quoted: bool, line: nat, path: string)

  /** A token, the end of a file, or the place where a string was left open. */
  datatype Item = Tok(lexeme: Lexeme) | End | Bad(path: string, line: nat)

  datatype Error =
    | LeftOpen(path: string, line: nat)
    | Wrong(what: string, found: Lexeme)
    | EndsEarly(site: Site, expected: string)
    | TooDeep(site: Site)
    | Unreadable(path: string)

  /** The directive being read, for diagnostics. */
  datatype Site = Site(keyword: string, path: string, line: nat)

  datatype Value = Numbers(numbers: seq<string>) | Strings(strings: seq<string>) | Bools(bools: seq<bool>)

  datatype Param = Param(ty: string, name: string, value: Value, path: string, line: nat)

  datatype Directive = Directive(
    keyword: string, names: seq<string>, numbers: seq<string>, params: seq<Param>, path: string, line: nat)

  /** The files there are, how names resolve to paths, and which texts are
      numbers; a number is kept as its text. */
  datatype Disk = Disk(files: map<string, string>, resolve: string -> string, isNumber: string -> bool)

  const MAX_INCLUDE_DEPTH := 32

  // ---------------------------------------------------------------- files as lists

  function Located(path: string, token: Token): Lexeme { Lexeme(token.text, token.quoted, token.line, path) }

  /** The items of a file from a place on. */
  function Items(path: string, t: Tokenizer): (items: seq<Item>)
    requires t.offset <= |t.source|
    ensures items != []
    decreases |t.source| - t.offset
  {
    match Lex(t)
    case Finished => [End]
    case Unterminated(line) => [Bad(path, line), End]
    case Found(_) => [Tok(Located(path, TokenOf(t)))] + Items(path, Advanced(t))
  }

  function WholeFile(disk: Disk, path: string): seq<Item>
    requires path in disk.files
  {
    Items(path, Opened(disk.files[path]))
  }

  /** How many files are open. */
  function Depth(flat: seq<Item>): nat {
    if flat == [] then 0 else (if flat[0].End? then 1 else 0) + Depth(flat[1..])
  }

  // ---------------------------------------------------------------- single tokens

  datatype Pulled = Pulled(lexeme: Lexeme, rest: seq<Item>) | Dry | Broken(error: Error)

  /** Past the ends of finished files. */
  function Settled(flat: seq<Item>): (r: seq<Item>)
    ensures |r| <= |flat|
    ensures r != [] ==> !r[0].End?
  {
    if flat != [] && flat[0].End? then Settled(flat[1..]) else flat
  }

  function Pull(flat: seq<Item>): (p: Pulled)
    ensures p.Pulled? ==> |p.rest| < |flat|
  {
    var r := Settled(flat);
    if r == [] then Dry
    else if r[0].Bad? then Broken(LeftOpen(r[0].path, r[0].line))
    else Pulled(r[0].lexeme, r[1..])
  }

  predicate Is(l: Lexeme, text: string) { !l.quoted && l.text == text }

  // ---------------------------------------------------------------- arguments

  datatype Parsed<T> = Yes(value: T, rest: seq<Item>) | No(error: Error)

  function TakeNumbers(disk: Disk, flat: seq<Item>, site: Site, n: nat): (r: Parsed<seq<string>>)
    ensures r.Yes? ==> |r.rest| <= |flat|
    decreases n
  {
    if n == 0 then Yes([], flat)
    else
      match Pull(flat)
      case Dry => No(EndsEarly(site, "more numbers"))
      case Broken(e) => No(e)
      case Pulled(l, rest) =>
        if !disk.isNumber(l.text) then No(Wrong("expects numbers", l))
        else
          match TakeNumbers(disk, rest, site, n - 1)
          case No(e) => No(e)
          case Yes(more, end) => Yes([l.text] + more, end)
  }

  /** So many numbers, with one optional level of brackets around them. */
  function ParseNumbers(disk: Disk, flat: seq<Item>, site: Site, n: nat): (r: Parsed<seq<string>>)
    ensures r.Yes? ==> |r.rest| <= |flat|
  {
    match Pull(flat)
    case Broken(e) => No(e)
    case Dry => TakeNumbers(disk, [], site, n)
    case Pulled(first, rest) =>
      if !Is(first, "[") then TakeNumbers(disk, Settled(flat), site, n)
      else
        match TakeNumbers(disk, rest, site, n)
        case No(e) => No(e)
        case Yes(numbers, after) =>
          match Pull(after)
          case Dry => No(EndsEarly(site, "]"))
          case Broken(e) => No(e)
          case Pulled(last, end) => if Is(last, "]") then Yes(numbers, end) else No(Wrong("expected ]", last))
  }

  predicate Bracket(l: Lexeme) { Is(l, "[") || Is(l, "]") }

  function ParseNames(flat: seq<Item>, site: Site, n: nat): (r: Parsed<seq<string>>)
    ensures r.Yes? ==> |r.rest| <= |flat| && |r.value| == n
    decreases n
  {
    if n == 0 then Yes([], flat)
    else
      match Pull(flat)
      case Dry => No(EndsEarly(site, "a name"))
      case Broken(e) => No(e)
      case Pulled(l, rest) =>
        if Bracket(l) then No(Wrong("expected a name", l))
        else
          match ParseNames(rest, site, n - 1)
          case No(e) => No(e)
          case Yes(more, end) => Yes([l.text] + more, end)
  }

  // ---------------------------------------------------------------- parameters

  /** The Unicode whitespace characters of the basic plane. */
  predicate Space(c: char) {
    9 as char <= c <= 13 as char || c == ' ' || c == 0x85 as char || c == 0xa0 as char || c == 0x1680 as char
    || 0x2000 as char <= c <= 0x200a as char || c == 0x2028 as char || c == 0x2029 as char
    || c == 0x202f as char || c == 0x205f as char || c == 0x3000 as char
  }

  predicate Declares(l: Lexeme) { l.quoted && exists i :: 0 <= i < |l.text| && Space(l.text[i]) }

  function Nonblank(c: char): bool { !Blank(c) }

  /** The words between ASCII whitespace. */
  function Words(s: string): seq<string>
    decreases |s|
  {
    var i := Until(s, 0, Nonblank);
    var j := Until(s, i, Blank);
    if i == |s| then [] else [s[i..j]] + Words(s[j..])
  }

  function KindOf(l: Lexeme): Value {
    if l.quoted then Strings([]) else if l.text == "true" || l.text == "false" then Bools([]) else Numbers([])
  }

  datatype Pushed = Fine(value: Value) | Refused(error: Error)

  /** One more value; the first decides the kind of all. */
  function Push(disk: Disk, value: Option<Value>, l: Lexeme): Pushed {
    match if value.Some? then value.value else KindOf(l)
    case Strings(s) => if l.quoted then Fine(Strings(s + [l.text])) else Refused(Wrong("mixed value types in one parameter", l))
    case Bools(b) =>
      if !l.quoted && (l.text == "true" || l.text == "false") then Fine(Bools(b + [l.text == "true"]))
      else Refused(Wrong("mixed value types in one parameter", l))
    case Numbers(n) =>
      if l.quoted then Refused(Wrong("mixed value types in one parameter", l))
      else if disk.isNumber(l.text) then Fine(Numbers(n + [l.text]))
      else Refused(Wrong("expects numbers", l))
  }

  function TakeValues(disk: Disk, flat: seq<Item>, site: Site, value: Option<Value>): (r: Parsed<Value>)
    ensures r.Yes? ==> |r.rest| < |flat|
    decreases |flat|
  {
    match Pull(flat)
    case Dry => No(EndsEarly(site, "]"))
    case Broken(e) => No(e)
    case Pulled(l, rest) =>
      if Is(l, "]") then Yes(if value.Some? then value.value else Numbers([]), rest)
      else if Is(l, "[") then No(Wrong("nested brackets", l))
      else
        match Push(disk, value, l)
        case Refused(e) => No(e)
        case Fine(more) => TakeValues(disk, rest, site, Some(more))
  }

  /** A bracketed homogeneous list or a single bare value. */
  function ParseValue(disk: Disk, flat: seq<Item>, site: Site): (r: Parsed<Value>)
    ensures r.Yes? ==> |r.rest| < |flat|
  {
    match Pull(flat)
    case Dry => No(EndsEarly(site, "a parameter value"))
    case Broken(e) => No(e)
    case Pulled(first, rest) =>
      if Is(first, "[") then TakeValues(disk, rest, site, None)
      else
        match Push(disk, None, first)
        case Refused(e) => No(e)
        case Fine(value) => Yes(value, rest)
  }

  /** Parameters, until a token that declares none. */
  function ParseParams(disk: Disk, flat: seq<Item>, site: Site): (r: Parsed<seq<Param>>)
    ensures r.Yes? ==> |r.rest| <= |flat|
    decreases |flat|
  {
    match Pull(flat)
    case Dry => Yes([], [])
    case Broken(e) => No(e)
    case Pulled(l, rest) =>
      if !Declares(l) then Yes([], Settled(flat))
      else
        var words := Words(l.text);
        if |words| != 2 then No(Wrong("expected a type name declaration", l))
        else
          match ParseValue(disk, rest, site)
          case No(e) => No(e)
          case Yes(value, after) =>
            match ParseParams(disk, after, site)
            case No(e) => No(e)
            case Yes(more, end) => Yes([Param(words[0], words[1], value, l.path, l.line)] + more, end)
  }

  // ---------------------------------------------------------------- directives

  datatype Arity = Bare | ManyNumbers(count: nat) | ManyNames(count: nat) | NamesParams(count: nat)

  const BARE := ["WorldBegin", "WorldEnd", "AttributeBegin", "AttributeEnd", "TransformBegin", "TransformEnd",
                 "ObjectEnd", "ReverseOrientation", "Identity"]

  const NAMED := ["Include", "Import", "ObjectBegin", "ObjectInstance", "NamedMaterial", "CoordinateSystem",
                  "CoordSysTransform", "ColorSpace", "ActiveTransform"]

  const PARAMETRIC := ["Shape", "Material", "MakeNamedMaterial", "MakeNamedMedium", "LightSource", "AreaLightSource",
                       "Camera", "Film", "Sampler", "Integrator", "PixelFilter", "Accelerator", "Option", "Attribute"]

  /** How many positional arguments a directive takes: the grammar. */
  function ArityOf(keyword: string): Option<Arity> {
    if keyword in BARE then Some(Bare)
    else if keyword == "Translate" || keyword == "Scale" then Some(ManyNumbers(3))
    else if keyword == "Rotate" then Some(ManyNumbers(4))
    else if keyword == "LookAt" then Some(ManyNumbers(9))
    else if keyword == "Transform" || keyword == "ConcatTransform" then Some(ManyNumbers(16))
    else if keyword == "TransformTimes" then Some(ManyNumbers(2))
    else if keyword in NAMED then Some(ManyNames(1))
    else if keyword == "MediumInterface" then Some(ManyNames(2))
    else if keyword == "Texture" then Some(NamesParams(3))
    else if keyword in PARAMETRIC then Some(NamesParams(1))
    else None
  }

  predicate Splices(keyword: string) { keyword == "Include" || keyword == "Import" }

  function SiteOf(l: Lexeme): Site { Site(l.text, l.path, l.line) }

  function Blankly(l: Lexeme): Directive { Directive(l.text, [], [], [], l.path, l.line) }

  /** A directive's arguments, after its keyword. */
  function ParseArguments(disk: Disk, l: Lexeme, arity: Arity, flat: seq<Item>): (r: Parsed<Directive>)
    ensures r.Yes? ==> |r.rest| <= |flat| && r.value.keyword == l.text
    ensures r.Yes? && arity.ManyNames? ==> |r.value.names| == arity.count
  {
    var d, site := Blankly(l), SiteOf(l);
    match arity
    case Bare => Yes(d, flat)
    case ManyNumbers(n) =>
      (match ParseNumbers(disk, flat, site, n)
       case No(e) => No(e)
       case Yes(numbers, rest) => Yes(d.(numbers := numbers), rest))
    case ManyNames(n) =>
      (match ParseNames(flat, site, n)
       case No(e) => No(e)
       case Yes(names, rest) => Yes(d.(names := names), rest))
    case NamesParams(n) =>
      (match ParseNames(flat, site, n)
       case No(e) => No(e)
       case Yes(names, after) =>
         match ParseParams(disk, after, site)
         case No(e) => No(e)
         case Yes(params, rest) => Yes(d.(names := names, params := params), rest))
  }

  /** One directive as it stands in the text, an include among them. */
  function ParseOne(disk: Disk, flat: seq<Item>): (r: Parsed<Option<Directive>>)
    ensures r.Yes? && r.value.Some? ==> |r.rest| < |flat|
    ensures r.Yes? && r.value.Some? && Splices(r.value.value.keyword) ==> |r.value.value.names| == 1
  {
    match Pull(flat)
    case Dry => Yes(None, [])
    case Broken(e) => No(e)
    case Pulled(l, rest) =>
      if l.quoted || Bracket(l) then No(Wrong("expected a directive keyword", l))
      else if ArityOf(l.text).None? then No(Wrong("unknown directive", l))
      else
        match ParseArguments(disk, l, ArityOf(l.text).value, rest)
        case No(e) => No(e)
        case Yes(d, end) => Yes(Some(d), end)
  }

  /** What an include puts in front of the rest, or why it may not. */
  function Spliced(disk: Disk, d: Directive, rest: seq<Item>): Parsed<()>
    requires |d.names| == 1
  {
    if Depth(rest) >= MAX_INCLUDE_DEPTH then No(TooDeep(Site(d.keyword, d.path, d.line)))
    else
      var path := disk.resolve(d.names[0]);
      if path !in disk.files then No(Unreadable(path)) else Yes((), WholeFile(disk, path) + rest)
  }

  // ---------------------------------------------------------------- why includes end

  /** No file has more items than this. */
  ghost function Longest(disk: Disk, paths: set<string>): nat
    requires paths <= disk.files.Keys
    ensures forall p :: p in paths ==> |WholeFile(disk, p)| <= Longest(disk, paths)
  {
    if paths == {} then 0
    else
      var p :| p in paths;
      var n, m := |WholeFile(disk, p)|, Longest(disk, paths - {p});
      if n > m then n else m
  }

  /** n tokens' worth of work. */
  ghost function Work(n: nat, each: nat): nat {
    if n == 0 then 0 else each + Work(n - 1, each)
  }

  lemma {:induction false} WorkGrows(n: nat, m: nat, each: nat)
    requires n <= m
    ensures Work(n, each) <= Work(m, each)
    decreases m
  {
    if n < m { WorkGrows(n, m - 1, each); }
  }

  /** The work one token may cause with so many more includes allowed. */
  ghost function Fuel(longest: nat, k: nat): nat {
    if k == 0 then 1 else 1 + Work(longest, Fuel(longest, k - 1))
  }

  ghost function Left(depth: nat): nat { if depth >= MAX_INCLUDE_DEPTH then 0 else MAX_INCLUDE_DEPTH - depth }

  /** All the work left: each token counted by what it may still cause. */
  ghost function Potential(longest: nat, flat: seq<Item>): nat {
    if flat == [] then 0
    else (if flat[0].Tok? then Fuel(longest, Left(Depth(flat))) else 0) + Potential(longest, flat[1..])
  }

  ghost predicate Suffix(rest: seq<Item>, flat: seq<Item>) {
    |rest| <= |flat| && rest == flat[|flat| - |rest|..]
  }

  lemma SuffixTrans(a: seq<Item>, b: seq<Item>, c: seq<Item>)
    requires Suffix(a, b) && Suffix(b, c)
    ensures Suffix(a, c)
  {
  }

  lemma {:induction false} PotentialFalls(longest: nat, rest: seq<Item>, flat: seq<Item>)
    requires Suffix(rest, flat)
    ensures Potential(longest, rest) <= Potential(longest, flat)
    decreases |flat|
  {
    if |rest| < |flat| {
      assert rest == flat[1..][|flat| - 1 - |rest|..];
      PotentialFalls(longest, rest, flat[1..]);
    } else {
      assert rest == flat;
    }
  }

  lemma {:induction false} SettledIsSuffix(flat: seq<Item>)
    ensures Suffix(Settled(flat), flat)
  {
    if flat != [] && flat[0].End? { SettledIsSuffix(flat[1..]); }
  }

  /** A token taken is its own worth of work done. */
  lemma PullCosts(longest: nat, flat: seq<Item>)
    requires Pull(flat).Pulled?
    ensures Suffix(Pull(flat).rest, flat)
    ensures Potential(longest, Pull(flat).rest) + Fuel(longest, Left(Depth(Pull(flat).rest))) <= Potential(longest, flat)
  {
    SettledIsSuffix(flat);
    var r := Settled(flat);
    PotentialFalls(longest, r, flat);
    assert Suffix(r[1..], r);
    SuffixTrans(r[1..], r, flat);
  }

  lemma {:induction false} NamesCost(longest: nat, flat: seq<Item>, site: Site, n: nat)
    requires ParseNames(flat, site, n).Yes?
    ensures Suffix(ParseNames(flat, site, n).rest, flat)
  {
    if n == 0 {
      assert flat == flat[0..];
    } else {
      PullCosts(longest, flat);
      NamesCost(longest, Pull(flat).rest, site, n - 1);
      SuffixTrans(ParseNames(flat, site, n).rest, Pull(flat).rest, flat);
    }
  }

  lemma {:induction false} FileDepth(path: string, t: Tokenizer, rest: seq<Item>)
    requires t.offset <= |t.source|
    ensures Depth(Items(path, t) + rest) == 1 + Depth(rest)
    decreases |t.source| - t.offset
  {
    var items := Items(path, t) + rest;
    match Lex(t)
    case Finished => assert items[1..] == rest;
    case Unterminated(_) => assert items[1..] == [End] + rest; assert items[1..][1..] == rest;
    case Found(_) =>
      assert items[1..] == Items(path, Advanced(t)) + rest;
      FileDepth(path, Advanced(t), rest);
  }

  lemma PotentialStep(longest: nat, item: Item, rest: seq<Item>)
    ensures Potential(longest, [item] + rest)
      == (if item.Tok? then Fuel(longest, Left(Depth([item] + rest))) else 0) + Potential(longest, rest)
  {
    assert ([item] + rest)[1..] == rest;
  }

  lemma {:induction false} FilePotential(longest: nat, path: string, t: Tokenizer, rest: seq<Item>)
    requires t.offset <= |t.source|
    ensures Potential(longest, Items(path, t) + rest)
      <= Work(|Items(path, t)|, Fuel(longest, Left(1 + Depth(rest)))) + Potential(longest, rest)
    decreases |t.source| - t.offset
  {
    hide Lex, Advanced, TokenOf, Fuel, Potential, Depth;
    FileDepth(path, t, rest);
    match Lex(t)
    case Finished =>
      PotentialStep(longest, End, rest);
    case Unterminated(line) =>
      assert [Bad(path, line), End] + rest == [Bad(path, line)] + ([End] + rest);
      PotentialStep(longest, Bad(path, line), [End] + rest);
      PotentialStep(longest, End, rest);
    case Found(_) =>
      var l, more := Tok(Located(path, TokenOf(t))), Items(path, Advanced(t));
      assert Items(path, t) + rest == [l] + (more + rest);
      PotentialStep(longest, l, more + rest);
      FilePotential(longest, path, Advanced(t), rest);
  }

  lemma IncludesTakeAName(keyword: string)
    requires Splices(keyword)
    ensures ArityOf(keyword) == Some(ManyNames(1))
  {
    assert "Include" == NAMED[0] && "Import" == NAMED[1];
    assert forall i :: 0 <= i < |BARE| ==> |BARE[i]| >= 8;
    assert "Include" !in BARE && "Import" !in BARE;
  }

  /** An include's keyword and name are two tokens of the stream, the name the
      last one taken. */
  lemma IncludeCosts(disk: Disk, longest: nat, flat: seq<Item>)
    requires ParseOne(disk, flat).Yes? && ParseOne(disk, flat).value.Some? && Splices(ParseOne(disk, flat).value.value.keyword)
    ensures var rest := ParseOne(disk, flat).rest;
      Potential(longest, rest) + Fuel(longest, Left(Depth(rest))) <= Potential(longest, flat)
  {
    PullCosts(longest, flat);
    var l, args := Pull(flat).lexeme, Pull(flat).rest;
    IncludesTakeAName(ParseOne(disk, flat).value.value.keyword);
    hide ArityOf, Pull, Potential, Fuel, Depth;
    PullCosts(longest, args);
    assert ParseNames(Pull(args).rest, SiteOf(l), 0) == Yes([], Pull(args).rest);
    assert ParseOne(disk, flat).rest == Pull(args).rest;
  }

  lemma FuelStep(longest: nat, k: nat)
    ensures Fuel(longest, k + 1) == 1 + Work(longest, Fuel(longest, k))
  {
  }

  lemma FileFits(longest: nat, path: string, t: Tokenizer, rest: seq<Item>)
    requires t.offset <= |t.source| && |Items(path, t)| <= longest && Depth(rest) < MAX_INCLUDE_DEPTH
    ensures Potential(longest, Items(path, t) + rest) < Potential(longest, rest) + Fuel(longest, Left(Depth(rest)))
  {
    hide Potential, Depth, Items, Work, Fuel;
    FilePotential(longest, path, t, rest);
    var k := Left(1 + Depth(rest));
    assert Left(Depth(rest)) == k + 1;
    FuelStep(longest, k);
    WorkGrows(|Items(path, t)|, longest, Fuel(longest, k));
  }

  lemma LongestHolds(disk: Disk, path: string)
    requires path in disk.files
    ensures |WholeFile(disk, path)| <= Longest(disk, disk.files.Keys)
  {
    hide WholeFile;
  }

  /** An include, its file spliced in, leaves less work than there was before it. */
  lemma SpliceShrinks(disk: Disk, flat: seq<Item>)
    requires ParseOne(disk, flat).Yes? && ParseOne(disk, flat).value.Some? && Splices(ParseOne(disk, flat).value.value.keyword)
    requires Spliced(disk, ParseOne(disk, flat).value.value, ParseOne(disk, flat).rest).Yes?
    ensures var longest := Longest(disk, disk.files.Keys);
      Potential(longest, Spliced(disk, ParseOne(disk, flat).value.value, ParseOne(disk, flat).rest).rest) < Potential(longest, flat)
  {
    hide ParseOne, Potential, Depth, Items, Longest, Fuel, Left, Splices;
    var longest := Longest(disk, disk.files.Keys);
    IncludeCosts(disk, longest, flat);
    var d, rest := ParseOne(disk, flat).value.value, ParseOne(disk, flat).rest;
    var path := disk.resolve(d.names[0]);
    LongestHolds(disk, path);
    FileFits(longest, path, Opened(disk.files[path]), rest);
  }

  // ---------------------------------------------------------------- the stream

  /** The next directive, includes spliced on the way. */
  ghost function NextDirective(disk: Disk, flat: seq<Item>): (r: Parsed<Option<Directive>>)
    decreases Potential(Longest(disk, disk.files.Keys), flat)
  {
    match ParseOne(disk, flat)
    case No(e) => No(e)
    case Yes(None, rest) => Yes(None, rest)
    case Yes(Some(d), rest) =>
      if !Splices(d.keyword) then Yes(Some(d), rest)
      else
        match Spliced(disk, d, rest)
        case No(e) => No(e)
        case Yes(_, flat') =>
          SpliceShrinks(disk, flat);
          NextDirective(disk, flat')
  }
}
