/** The parser itself: a stack of open files, one token of lookahead, and methods
    that read directives off it just as the flat stream says. */
module PbrtParser {

  import opened Options
  import opened PbrtLexer
  import opened PbrtStream

  datatype SourceFile = SourceFile(path: string, tokenizer: Tokenizer, peeked: Option<Span>)

  predicate Inside(f: SourceFile, span: Span) { span.start <= span.end <= |f.tokenizer.source| }

  predicate Sound(f: SourceFile) {
    f.tokenizer.offset <= |f.tokenizer.source| && (f.peeked.Some? ==> Inside(f, f.peeked.value))
  }

  function Read(f: SourceFile, span: Span): Lexeme
    requires Inside(f, span)
  {
    Lexeme(TextOf(f.tokenizer, span), span.quoted, span.line, f.path)
  }

  /** What is left of one file. */
  function FileRest(f: SourceFile): seq<Item>
    requires Sound(f)
  {
    (if f.peeked.Some? then [Tok(Read(f, f.peeked.value))] else []) + Items(f.path, f.tokenizer)
  }

  /** Only the top file ever holds a token looked ahead at. */
  predicate WellStacked(stack: seq<SourceFile>) {
    && (forall i :: 0 <= i < |stack| ==> Sound(stack[i]))
    && (forall i :: 0 <= i < |stack| - 1 ==> stack[i].peeked.None?)
  }

  /** The stack as one stream, the top file first. */
  function Flat(stack: seq<SourceFile>): seq<Item>
    requires WellStacked(stack)
  {
    if stack == [] then []
    else
      var top := |stack| - 1;
      FileRest(stack[top]) + Flat(stack[..top])
  }

  lemma NothingOpen()
    ensures Flat([]) == []
  {
  }

  lemma FlatTop(stack: seq<SourceFile>)
    requires WellStacked(stack) && stack != []
    ensures WellStacked(stack[..|stack| - 1])
    ensures Flat(stack) == FileRest(stack[|stack| - 1]) + Flat(stack[..|stack| - 1])
  {
    hide FileRest, Sound, Items;
  }

  lemma NewFileRest(f: SourceFile)
    requires Sound(f) && f.peeked.None?
    ensures FileRest(f) == Items(f.path, f.tokenizer)
  {
  }

  lemma Topped(stack: seq<SourceFile>, f: SourceFile)
    requires WellStacked(stack) && stack != [] && Sound(f)
    ensures var less := stack[|stack| - 1 := f];
      WellStacked(less) && Flat(less) == FileRest(f) + Flat(stack[..|stack| - 1])
  {
    hide Sound, FileRest;
    var less := stack[|stack| - 1 := f];
    assert less[..|stack| - 1] == stack[..|stack| - 1];
  }

  lemma PullFirst(l: Lexeme, rest: seq<Item>)
    ensures Pull([Tok(l)] + rest) == Pulled(l, rest) && Settled([Tok(l)] + rest) == [Tok(l)] + rest
  {
    assert ([Tok(l)] + rest)[1..] == rest;
  }

  lemma PeekedRest(f: SourceFile)
    requires Sound(f) && f.peeked.Some?
    ensures FileRest(f) == [Tok(Read(f, f.peeked.value))] + FileRest(f.(peeked := None))
  {
  }

  lemma FoundRest(f: SourceFile)
    requires Sound(f) && f.peeked.None? && Lex(f.tokenizer).Found?
    ensures Inside(f, Lex(f.tokenizer).span)
    ensures FileRest(f) == [Tok(Read(f, Lex(f.tokenizer).span))] + FileRest(f.(tokenizer := Advanced(f.tokenizer)))
  {
    SpanInside(f.tokenizer);
    hide Lex, Advanced;
  }

  /** A file counts as open until it is popped, even with nothing left in it. */
  lemma {:induction false} DepthIsStackHeight(stack: seq<SourceFile>)
    requires WellStacked(stack)
    ensures Depth(Flat(stack)) == |stack|
  {
    if stack != [] {
      var f, below := stack[|stack| - 1], Flat(stack[..|stack| - 1]);
      FlatTop(stack);
      DepthIsStackHeight(stack[..|stack| - 1]);
      hide Flat, WellStacked, Items;
      RestDepth(f, below);
    }
  }

  lemma RestDepth(f: SourceFile, below: seq<Item>)
    requires Sound(f)
    ensures Depth(FileRest(f) + below) == 1 + Depth(below)
  {
    FileDepth(f.path, f.tokenizer, below);
    if f.peeked.Some? {
      var rest := Items(f.path, f.tokenizer) + below;
      hide Items;
      assert FileRest(f) + below == [Tok(Read(f, f.peeked.value))] + rest;
      assert ([Tok(Read(f, f.peeked.value))] + rest)[1..] == rest;
    } else {
      assert FileRest(f) == Items(f.path, f.tokenizer);
    }
  }

  lemma PeekedFirst(stack: seq<SourceFile>)
    requires WellStacked(stack) && stack != [] && stack[|stack| - 1].peeked.Some?
    ensures var f := stack[|stack| - 1];
      var less := stack[|stack| - 1 := f.(peeked := None)];
      && WellStacked(less) && Pull(Flat(stack)) == Pulled(Read(f, f.peeked.value), Flat(less))
  {
    hide Flat, FileRest, Pull, Items;
    FlatTop(stack);
    var f, below := stack[|stack| - 1], Flat(stack[..|stack| - 1]);
    Topped(stack, f.(peeked := None));
    PeekedRest(f);
    var more := FileRest(f.(peeked := None)) + below;
    assert Flat(stack) == [Tok(Read(f, f.peeked.value))] + more;
    PullFirst(Read(f, f.peeked.value), more);
  }

  lemma TokenFirst(stack: seq<SourceFile>)
    requires WellStacked(stack) && stack != [] && stack[|stack| - 1].peeked.None? && Lex(stack[|stack| - 1].tokenizer).Found?
    ensures var f := stack[|stack| - 1];
      var less := stack[|stack| - 1 := f.(tokenizer := Advanced(f.tokenizer))];
      && WellStacked(less) && Inside(f, Lex(f.tokenizer).span)
      && Pull(Flat(stack)) == Pulled(Read(f, Lex(f.tokenizer).span), Flat(less))
  {
    hide Flat, FileRest, Pull, Lex, Items, Inside;
    FlatTop(stack);
    var f, below := stack[|stack| - 1], Flat(stack[..|stack| - 1]);
    var moved := f.(tokenizer := Advanced(f.tokenizer));
    Topped(stack, moved);
    FoundRest(f);
    var more := FileRest(moved) + below;
    assert Flat(stack) == [Tok(Read(f, Lex(f.tokenizer).span))] + more;
    PullFirst(Read(f, Lex(f.tokenizer).span), more);
  }

  lemma DoneRest(f: SourceFile, below: seq<Item>)
    requires Sound(f) && f.peeked.None?
    ensures Lex(f.tokenizer).Finished? ==> Settled(FileRest(f) + below) == Settled(below)
    ensures Lex(f.tokenizer).Unterminated? ==> Pull(FileRest(f) + below) == Broken(LeftOpen(f.path, Lex(f.tokenizer).line))
  {
    hide Lex;
    if Lex(f.tokenizer).Finished? {
      assert ([End] + below)[1..] == below;
    }
  }

  lemma FileFinished(stack: seq<SourceFile>)
    requires WellStacked(stack) && stack != [] && stack[|stack| - 1].peeked.None? && Lex(stack[|stack| - 1].tokenizer).Finished?
    ensures WellStacked(stack[..|stack| - 1]) && Settled(Flat(stack)) == Settled(Flat(stack[..|stack| - 1]))
  {
    hide Lex, FileRest, Flat, Settled;
    FlatTop(stack);
    DoneRest(stack[|stack| - 1], Flat(stack[..|stack| - 1]));
  }

  lemma FileBroken(stack: seq<SourceFile>)
    requires WellStacked(stack) && stack != [] && stack[|stack| - 1].peeked.None? && Lex(stack[|stack| - 1].tokenizer).Unterminated?
    ensures var f := stack[|stack| - 1];
      Pull(Flat(stack)) == Broken(LeftOpen(f.path, Lex(f.tokenizer).line))
  {
    hide Lex, FileRest, Flat, Pull;
    FlatTop(stack);
    DoneRest(stack[|stack| - 1], Flat(stack[..|stack| - 1]));
  }

  datatype Outcome<T> = Done(value: T) | Fails(error: Error)

  /** A list read in two parts. */
  function Joined<T>(first: seq<T>, p: Parsed<seq<T>>): Parsed<seq<T>> {
    if p.No? then p else Yes(first + p.value, p.rest)
  }

  lemma JoinedNone<T>(p: Parsed<seq<T>>)
    ensures Joined([], p) == p
  {
    if p.Yes? { assert [] + p.value == p.value; }
  }

  lemma JoinedMore<T>(first: seq<T>, x: T, p: Parsed<seq<T>>)
    ensures Joined(first, Joined([x], p)) == Joined(first + [x], p)
  {
    if p.Yes? { assert first + ([x] + p.value) == first + [x] + p.value; }
  }

  function NumbersFrom(disk: Disk, flat: seq<Item>, site: Site, n: nat): Parsed<seq<string>>
    requires n > 0
  {
    match Pull(flat)
    case Dry => No(EndsEarly(site, "more numbers"))
    case Broken(e) => No(e)
    case Pulled(l, rest) =>
      if !disk.isNumber(l.text) then No(Wrong("expects numbers", l))
      else Joined([l.text], TakeNumbers(disk, rest, site, n - 1))
  }

  lemma NumbersStep(disk: Disk, flat: seq<Item>, site: Site, n: nat)
    requires n > 0
    ensures TakeNumbers(disk, flat, site, n) == NumbersFrom(disk, flat, site, n)
  {
  }

  function OneName(flat: seq<Item>, site: Site): Parsed<string> {
    match Pull(flat)
    case Dry => No(EndsEarly(site, "a name"))
    case Broken(e) => No(e)
    case Pulled(l, rest) => if Bracket(l) then No(Wrong("expected a name", l)) else Yes(l.text, rest)
  }

  function NamesFrom(flat: seq<Item>, site: Site, n: nat): Parsed<seq<string>>
    requires n > 0
  {
    match OneName(flat, site)
    case No(e) => No(e)
    case Yes(name, rest) => Joined([name], ParseNames(rest, site, n - 1))
  }

  lemma NamesStep(flat: seq<Item>, site: Site, n: nat)
    requires n > 0
    ensures ParseNames(flat, site, n) == NamesFrom(flat, site, n)
  {
  }

  function ValuesFrom(disk: Disk, flat: seq<Item>, site: Site, value: Option<Value>): Parsed<Value>
  {
    match Pull(flat)
    case Dry => No(EndsEarly(site, "]"))
    case Broken(e) => No(e)
    case Pulled(l, rest) =>
      if Is(l, "]") then Yes(if value.Some? then value.value else Numbers([]), rest)
      else if Is(l, "[") then No(Wrong("nested brackets", l))
      else
        match Push(disk, value, l)
        case Refused(e) => No(e)
        case Fine(more) => TakeValues(disk, rest, site, Some(more))
  }

  lemma ValuesStep(disk: Disk, flat: seq<Item>, site: Site, value: Option<Value>)
    ensures TakeValues(disk, flat, site, value) == ValuesFrom(disk, flat, site, value)
  {
  }

  function ParamsFrom(disk: Disk, flat: seq<Item>, site: Site): Parsed<seq<Param>>
  {
    match Pull(flat)
    case Dry => Yes([], [])
    case Broken(e) => No(e)
    case Pulled(l, rest) =>
      if !Declares(l) then Yes([], Settled(flat))
      else
        var words := PbrtStream.Words(l.text);
        if |words| != 2 then No(Wrong("expected a type name declaration", l))
        else
          match ParseValue(disk, rest, site)
          case No(e) => No(e)
          case Yes(value, after) => Joined([Param(words[0], words[1], value, l.path, l.line)], ParseParams(disk, after, site))
  }

  lemma ParamsStep(disk: Disk, flat: seq<Item>, site: Site)
    ensures ParseParams(disk, flat, site) == ParamsFrom(disk, flat, site)
  {
  }

  lemma SettledPull(flat: seq<Item>)
    ensures Settled(Settled(flat)) == Settled(flat) && Pull(Settled(flat)) == Pull(flat)
  {
    SettledTwice(flat);
  }

  lemma {:induction false} SettledTwice(flat: seq<Item>)
    ensures Settled(Settled(flat)) == Settled(flat)
  {
    if flat != [] && flat[0].End? { SettledTwice(flat[1..]); }
  }

  datatype Fetched = Taken(span: Span) | AtEnd | Failed(error: Error)

  class Parser {
    const disk: Disk
    const root: string
    var stack: seq<SourceFile>

    constructor (disk: Disk, root: string)
      ensures this.disk == disk && this.root == root && Valid() && stack == []
    {
      this.disk := disk;
      this.root := root;
      stack := [];
    }

    predicate Valid() reads this { WellStacked(stack) }

    /** Nothing has been looked ahead at. */
    predicate Ready() reads this { stack != [] && stack[|stack| - 1].peeked.None? }

    function Stream(): seq<Item>
      requires Valid()
      reads this
    {
      Flat(stack)
    }

    /** A span is in hand while the file it came from is on top. */
    predicate InHand(span: Span)
      reads this
    {
      stack != [] && Inside(stack[|stack| - 1], span)
    }

    function Seen(span: Span): Lexeme
      requires InHand(span)
      reads this
    {
      Read(stack[|stack| - 1], span)
    }

    /** A token as the stream gives it, its span read against the top file. */
    ghost predicate Delivers(r: Fetched, p: Pulled)
      reads this
    {
      match p
      case Pulled(l, _) => r.Taken? && InHand(r.span) && Seen(r.span) == l
      case Dry => r == AtEnd
      case Broken(e) => r == Failed(e)
    }

    method OpenFile(path: string) returns (ok: bool)
      requires Valid() && (stack == [] || Ready())
      modifies this
      ensures Valid() && (ok <==> path in disk.files)
      ensures Stream() == if ok then WholeFile(disk, path) + old(Stream()) else old(Stream())
    {
      ok := path in disk.files;
      if ok {
        hide Flat, FileRest, Items, Lex;
        ghost var below := stack;
        var file := SourceFile(path, Opened(disk.files[path]), None);
        NewFileRest(file);
        stack := stack + [file];
        assert stack[..|stack| - 1] == below;
        FlatTop(stack);
      }
    }

    /** Start over from the top of the scene file; if that cannot be opened the
        stack stays as it was. */
    method Rewind() returns (ok: bool)
      requires Valid()
      modifies this
      ensures Valid() && (ok <==> root in disk.files)
      ensures if ok then Stream() == WholeFile(disk, root) else stack == old(stack)
    {
      ok := root in disk.files;
      if ok {
        stack := [];
        ok := OpenFile(root);
      }
    }

    /** The next token, popping finished files. */
    method Next() returns (r: Fetched)
      requires Valid()
      modifies this
      ensures Valid() && Delivers(r, Pull(old(Stream())))
      ensures r.Taken? ==> Stream() == Pull(old(Stream())).rest && Ready()
      ensures r.AtEnd? ==> Stream() == []
    {
      hide Lex, Advanced, Flat, FileRest, Items;
      while stack != []
        invariant Valid() && Settled(Stream()) == Settled(old(Stream()))
        decreases |stack|
      {
        var top := |stack| - 1;
        var file := stack[top];
        if file.peeked.Some? {
          PeekedFirst(stack);
          stack := stack[top := file.(peeked := None)];
          return Taken(file.peeked.value);
        }
        var lexed, moved := NextSpan(file.tokenizer);
        match lexed {
          case Found(span) =>
            TokenFirst(stack);
            stack := stack[top := file.(tokenizer := moved)];
            return Taken(span);
          case Finished =>
            FileFinished(stack);
            stack := stack[..top];
          case Unterminated(line) =>
            FileBroken(stack);
            return Failed(LeftOpen(file.path, line));
        }
      }
      NothingOpen();
      return AtEnd;
    }

    /** The next token, left to be taken again. */
    method Peek() returns (r: Fetched)
      requires Valid()
      modifies this
      ensures Valid() && Delivers(r, Pull(old(Stream())))
      ensures r.Taken? ==> Stream() == Settled(old(Stream())) && Stream() == [Tok(Seen(r.span))] + Pull(old(Stream())).rest
      ensures r.AtEnd? ==> Stream() == []
    {
      r := Next();
      if r.Taken? && stack != [] {
        var top := |stack| - 1;
        ghost var less := stack;
        stack := stack[top := stack[top].(peeked := Some(r.span))];
        assert stack[..top] == less[..top];
        assert Stream() == [Tok(Seen(r.span))] + Flat(less);
      }
    }

    ghost predicate Yields<T(!new)>(r: Outcome<T>, p: Parsed<T>)
      reads this
    {
      Valid() && match p case Yes(v, rest) => r == Done(v) && Stream() == rest case No(e) => r == Fails(e)
    }

    method ReadNumbers(site: Site, count: nat) returns (r: Outcome<seq<string>>)
      requires Valid()
      modifies this
      ensures Yields(r, TakeNumbers(disk, old(Stream()), site, count))
    {
      var numbers: seq<string> := [];
      ghost var whole := TakeNumbers(disk, Stream(), site, count);
      JoinedNone(whole);
      hide TakeNumbers, Pull, Flat, WellStacked;
      for i := 0 to count
        invariant Valid() && whole == Joined(numbers, TakeNumbers(disk, Stream(), site, count - i))
      {
        NumbersStep(disk, Stream(), site, count - i);
        var next := Next();
        match next {
          case AtEnd => return Fails(EndsEarly(site, "more numbers"));
          case Failed(e) => return Fails(e);
          case Taken(span) =>
            var l := Seen(span);
            if !disk.isNumber(l.text) { return Fails(Wrong("expects numbers", l)); }
            JoinedMore(numbers, l.text, TakeNumbers(disk, Stream(), site, count - i - 1));
            numbers := numbers + [l.text];
        }
      }
      NoneLeft(disk, Stream(), site);
      assert numbers + [] == numbers;
      r := Done(numbers);
    }

    /** So many numbers, with one optional level of brackets around them. */
    method ReadBracketed(site: Site, count: nat) returns (r: Outcome<seq<string>>)
      requires Valid()
      modifies this
      ensures Yields(r, ParseNumbers(disk, old(Stream()), site, count))
    {
      SettledPull(Stream());
      var peeked := Peek();
      if peeked.Failed? { return Fails(peeked.error); }
      var bracketed := peeked.Taken? && Is(Seen(peeked.span), "[");
      if bracketed {
        PullFirst(Seen(peeked.span), Pull(old(Stream())).rest);
        var _ := Next();
      }
      r := ReadNumbers(site, count);
      if r.Fails? || !bracketed { return; }
      var closing := Next();
      match closing {
        case AtEnd => r := Fails(EndsEarly(site, "]"));
        case Failed(e) => r := Fails(e);
        case Taken(span) => if !Is(Seen(span), "]") { r := Fails(Wrong("expected ]", Seen(span))); }
      }
    }

    method ReadName(site: Site) returns (r: Outcome<string>)
      requires Valid()
      modifies this
      ensures Yields(r, OneName(old(Stream()), site)) && (r.Done? ==> Ready())
    {
      hide Flat, WellStacked, Pull;
      var next := Next();
      match next {
        case AtEnd => r := Fails(EndsEarly(site, "a name"));
        case Failed(e) => r := Fails(e);
        case Taken(span) =>
          var l := Seen(span);
          r := if Bracket(l) then Fails(Wrong("expected a name", l)) else Done(l.text);
      }
    }

    method ReadNames(site: Site, count: nat) returns (r: Outcome<seq<string>>)
      requires Valid()
      modifies this
      ensures Yields(r, ParseNames(old(Stream()), site, count))
      ensures count > 0 && r.Done? ==> Ready()
    {
      var names: seq<string> := [];
      ghost var whole := ParseNames(Stream(), site, count);
      JoinedNone(whole);
      hide ParseNames, Flat, WellStacked, OneName, Inside, FileRest, Sound, Settled, Pull;
      for i := 0 to count
        invariant Valid() && whole == Joined(names, ParseNames(Stream(), site, count - i))
        invariant i > 0 ==> Ready()
      {
        NamesStep(Stream(), site, count - i);
        var name := ReadName(site);
        if name.Fails? { return Fails(name.error); }
        JoinedMore(names, name.value, ParseNames(Stream(), site, count - i - 1));
        names := names + [name.value];
      }
      NoNamesLeft(Stream(), site);
      assert names + [] == names;
      r := Done(names);
    }

    /** A bracketed homogeneous list or a single bare value. */
    method ReadValue(site: Site) returns (r: Outcome<Value>)
      requires Valid()
      modifies this
      ensures Yields(r, ParseValue(disk, old(Stream()), site))
    {
      hide Flat, WellStacked, Push, TakeValues, Pull;
      var first := Next();
      if first.AtEnd? { return Fails(EndsEarly(site, "a parameter value")); }
      if first.Failed? { return Fails(first.error); }
      if !Is(Seen(first.span), "[") {
        var pushed := Push(disk, None, Seen(first.span));
        return if pushed.Fine? then Done(pushed.value) else Fails(pushed.error);
      }
      r := ReadList(site);
    }

    method ReadList(site: Site) returns (r: Outcome<Value>)
      requires Valid()
      modifies this
      ensures Yields(r, TakeValues(disk, old(Stream()), site, None))
    {
      var value: Option<Value> := None;
      ghost var whole := TakeValues(disk, Stream(), site, None);
      hide Flat, WellStacked, Push, Pull, TakeValues;
      while true
        invariant Valid() && whole == TakeValues(disk, Stream(), site, value)
        decreases |Stream()|
      {
        ghost var before := Stream();
        ValuesStep(disk, before, site, value);
        var next := Next();
        if next.AtEnd? { return Fails(EndsEarly(site, "]")); }
        if next.Failed? { return Fails(next.error); }
        var l := Seen(next.span);
        if Is(l, "]") { return Done(if value.Some? then value.value else Numbers([])); }
        if Is(l, "[") { return Fails(Wrong("nested brackets", l)); }
        var pushed := Push(disk, value, l);
        if pushed.Refused? { return Fails(pushed.error); }
        value := Some(pushed.value);
      }
    }

    /** Parameters, until a token that declares none is seen ahead. */
    method ReadParams(site: Site) returns (r: Outcome<seq<Param>>)
      requires Valid()
      modifies this
      ensures Yields(r, ParseParams(disk, old(Stream()), site))
    {
      var params: seq<Param> := [];
      ghost var whole := ParseParams(disk, Stream(), site);
      JoinedNone(whole);
      hide Flat, WellStacked, Pull, ParseValue, ParseParams, PbrtStream.Words, Declares;
      while true
        invariant Valid() && whole == Joined(params, ParseParams(disk, Stream(), site))
        decreases |Stream()|
      {
        ghost var before := Stream();
        ParamsStep(disk, before, site);
        SettledPull(before);
        var peeked := Peek();
        if peeked.AtEnd? {
          assert params + [] == params;
          return Done(params);
        }
        if peeked.Failed? { return Fails(peeked.error); }
        var l := Seen(peeked.span);
        if !Declares(l) {
          assert params + [] == params;
          return Done(params);
        }
        PullFirst(l, Pull(before).rest);
        var _ := Next();
        var words := PbrtStream.Words(l.text);
        if |words| != 2 { return Fails(Wrong("expected a type name declaration", l)); }
        var value := ReadValue(site);
        if value.Fails? { return Fails(value.error); }
        var param := Param(words[0], words[1], value.value, l.path, l.line);
        JoinedMore(params, param, ParseParams(disk, Stream(), site));
        params := params + [param];
      }
    }

    /** A directive's arguments, after its keyword. */
    method ReadArguments(l: Lexeme, arity: Arity) returns (r: Outcome<Directive>)
      requires Valid() && Ready()
      modifies this
      ensures Yields(r, ParseArguments(disk, l, arity, old(Stream())))
      ensures arity.ManyNames? && arity.count > 0 && r.Done? ==> Ready()
    {
      hide Flat, WellStacked, ParseNumbers, ParseNames, ParseParams;
      var d, site := Blankly(l), SiteOf(l);
      match arity {
        case Bare => r := Done(d);
        case ManyNumbers(count) =>
          var numbers := ReadBracketed(site, count);
          r := if numbers.Done? then Done(d.(numbers := numbers.value)) else Fails(numbers.error);
        case ManyNames(count) =>
          var names := ReadNames(site, count);
          r := if names.Done? then Done(d.(names := names.value)) else Fails(names.error);
        case NamesParams(count) =>
          var names := ReadNames(site, count);
          if names.Fails? { return Fails(names.error); }
          var params := ReadParams(site);
          r := if params.Done? then Done(d.(names := names.value, params := params.value)) else Fails(params.error);
      }
    }

    /** One directive as it stands in the text. */
    method ReadOne() returns (r: Outcome<Option<Directive>>)
      requires Valid()
      modifies this
      ensures Yields(r, ParseOne(disk, old(Stream())))
      ensures r.Done? && r.value.Some? && Splices(r.value.value.keyword) ==> Ready()
    {
      hide Flat, WellStacked, ParseArguments, ArityOf, Bracket;
      var next := Next();
      if next.AtEnd? { return Done(None); }
      if next.Failed? { return Fails(next.error); }
      var l := Seen(next.span);
      if l.quoted || Bracket(l) { return Fails(Wrong("expected a directive keyword", l)); }
      var arity := ArityOf(l.text);
      if arity.None? { return Fails(Wrong("unknown directive", l)); }
      var d := ReadArguments(l, arity.value);
      if d.Fails? { return Fails(d.error); }
      if Splices(l.text) { IncludesTakeAName(l.text); }
      r := Done(Some(d.value));
    }

    /** The next directive, includes spliced on the way. It always comes to an
        end: an include costs more than the file it opens, cycles or not. */
    method ReadDirective() returns (r: Outcome<Option<Directive>>)
      requires Valid()
      modifies this
      ensures Yields(r, NextDirective(disk, old(Stream())))
    {
      ghost var longest := Longest(disk, disk.files.Keys);
      hide Flat, WellStacked, ParseOne, Depth, Longest, Potential, Items;
      while true
        invariant Valid() && NextDirective(disk, Stream()) == NextDirective(disk, old(Stream()))
        decreases Potential(longest, Stream())
      {
        ghost var before := Stream();
        var one := ReadOne();
        if one.Fails? { return Fails(one.error); }
        if one.value.None? || !Splices(one.value.value.keyword) { return one; }
        var d := one.value.value;
        DepthIsStackHeight(stack);
        if |stack| >= MAX_INCLUDE_DEPTH { return Fails(TooDeep(Site(d.keyword, d.path, d.line))); }
        var path := disk.resolve(d.names[0]);
        var ok := OpenFile(path);
        if !ok { return Fails(Unreadable(path)); }
        SpliceShrinks(disk, before);
      }
    }
  }

  lemma NoneLeft(disk: Disk, flat: seq<Item>, site: Site)
    ensures TakeNumbers(disk, flat, site, 0) == Yes([], flat)
  {
  }

  lemma NoNamesLeft(flat: seq<Item>, site: Site)
    ensures ParseNames(flat, site, 0) == Yes([], flat)
  {
  }

}
