/** Whole wire values as trees of writer calls, and why their bytes are uniquely
    decodable. */
module WireValues {

  import opened MessagePack
  import opened Options

  /** The shapes the encoders produce: a one-entry map is a named variant. */
  datatype Wire =
    | Nil
    | Bool(b: bool)
    | Number(n: nat)
    | Single(bits: nat)
    | Text(text: Bytes)
    | Items(items: seq<Wire>)
    | Variant(name: Bytes, body: Wire)

  function Encoding(w: Wire): Bytes {
    match w
    case Nil => [0xc0]
    case Bool(b) => Boolean(b)
    case Number(n) => UInt(n)
    case Single(bits) => F32(bits)
    case Text(s) => Str(s)
    case Items(items) => Header(ARRAY, |items|) + Encodings(items)
    case Variant(name, body) => Header(MAP, 1) + Str(name) + Encoding(body)
  }

  function Encodings(items: seq<Wire>): Bytes {
    if items == [] then [] else Encoding(items[0]) + Encodings(items[1..])
  }

  /** Numbers fit their widths and lengths fit their headers. */
  predicate Fits(w: Wire) {
    match w
    case Nil => true
    case Bool(_) => true
    case Number(n) => n < U64
    case Single(bits) => bits < U32
    case Text(s) => |s| < U32
    case Items(items) => |items| < U32 && forall i :: 0 <= i < |items| ==> Fits(items[i])
    case Variant(name, body) => |name| < U32 && Fits(body)
  }

  /** Write a value by the writer's own calls. */
  method Put(writer: Writer, w: Wire)
    modifies writer
    ensures writer.buffer == old(writer.buffer) + Encoding(w)
    decreases w
  {
    hide Header, Str, UInt, F32, Boolean;
    match w {
      case Nil => writer.PutNil();
      case Bool(b) => writer.PutBoolean(b);
      case Number(n) => writer.PutUInt(n);
      case Single(bits) => writer.PutF32(bits);
      case Text(s) => writer.PutStr(s);
      case Items(items) =>
        writer.PutArrayHeader(|items|);
        PutAll(writer, items);
      case Variant(name, body) =>
        writer.PutMapHeader(1);
        writer.PutStr(name);
        Put(writer, body);
    }
  }

  method PutAll(writer: Writer, items: seq<Wire>)
    modifies writer
    ensures writer.buffer == old(writer.buffer) + Encodings(items)
    decreases items
  {
    for k := 0 to |items|
      invariant writer.buffer + Encodings(items[k..]) == old(writer.buffer) + Encodings(items)
    {
      ghost var before := writer.buffer;
      Put(writer, items[k]);
      assert items[k..][0] == items[k] && items[k..][1..] == items[k + 1..];
      assert before + Encodings(items[k..]) == before + Encoding(items[k]) + Encodings(items[k + 1..]);
    }
  }

  // ---------------------------------------------------------------- reading any value

  predicate Starts(f: Family, b: byte) { f.base <= b < f.base + f.fixed || f.one == Some(b) || b == f.two || b == f.four }

  /** Whatever value stands at a place, by the format its first byte announces;
      the receiver's generic reader. */
  function ReadTree(p: Bytes, c: nat): (r: Read<Wire>)
    requires c <= |p|
    ensures r.Got? ==> c < r.next <= |p|
    decreases |p| - c, 0
  {
    if c == |p| then Failed(DecodeError("a value", c, None))
    else if p[c] == 0xc0 then Got(Nil, c + 1)
    else if p[c] == 0xc2 then Got(Bool(false), c + 1)
    else if p[c] == 0xc3 then Got(Bool(true), c + 1)
    else if p[c] == 0xca then
      match ReadBigEndian("a single", p, c + 1, 4)
      case Failed(e) => Failed(e)
      case Got(bits, next) => Got(Single(bits), next)
    else if Starts(STR, p[c]) then
      match ReadStr(p, c)
      case Failed(e) => Failed(e)
      case Got(text, next) => StrAccepts(p, c); StrTakes(text); Got(Text(text), next)
    else if Starts(ARRAY, p[c]) then
      match ReadHeader(ARRAY, p, c)
      case Failed(e) => Failed(e)
      case Got(n, next) =>
        HeaderAccepts(ARRAY, p, c);
        HeaderTakes(ARRAY, n);
        match ReadTrees(p, next, n)
        case Failed(e) => Failed(e)
        case Got(items, end) => Got(Items(items), end)
    else if p[c] == 0x81 then
      match ReadStr(p, c + 1)
      case Failed(e) => Failed(e)
      case Got(name, next) =>
        StrAccepts(p, c + 1);
        StrTakes(name);
        match ReadTree(p, next)
        case Failed(e) => Failed(e)
        case Got(body, end) => Got(Variant(name, body), end)
    else
      match ReadUInt(p, c)
      case Failed(e) => Failed(e)
      case Got(n, next) => UIntAccepts(p, c); UIntTakes(n); Got(Number(n), next)
  }

  function ReadTrees(p: Bytes, c: nat, n: nat): (r: Read<seq<Wire>>)
    requires c <= |p|
    ensures r.Got? ==> c <= r.next <= |p| && |r.value| == n
    decreases |p| - c, 1
  {
    if n == 0 then Got([], c)
    else
      match ReadTree(p, c)
      case Failed(e) => Failed(e)
      case Got(first, next) =>
        match ReadTrees(p, next, n - 1)
        case Failed(e) => Failed(e)
        case Got(more, end) => Got([first] + more, end)
  }

  lemma HeaderTakes(f: Family, n: nat)
    requires Known(f)
    ensures |Header(f, n)| > 0
  {}

  lemma StrTakes(s: Bytes)
    ensures |Str(s)| > 0
  {}

  lemma UIntTakes(n: nat)
    ensures |UInt(n)| > 0
  {}

  lemma FirstByte(p: Bytes, c: nat, s: Bytes)
    requires At(p, c, s) && s != []
    ensures c < |p| && p[c] == s[0]
  {
    assert p[c..c + |s|][0] == s[0];
  }

  lemma SingleReadsBack(p: Bytes, c: nat, bits: nat)
    requires At(p, c, F32(bits)) && bits < U32
    ensures ReadTree(p, c) == Got(Single(bits), c + |F32(bits)|)
  {
    Widths();
    BigEndianReadsBack("a single", p, c, 0xca, bits, 4);
  }

  lemma NumberReadsTree(p: Bytes, c: nat, n: nat)
    requires At(p, c, UInt(n)) && n < U64
    ensures ReadTree(p, c) == Got(Number(n), c + |UInt(n)|)
  {
    UIntReadsBack(p, c, n);
    UIntTakes(n);
    FirstByte(p, c, UInt(n));
    assert p[c] <= 0x7f || 0xcc <= p[c] <= 0xcf;
  }

  lemma TextReadsTree(p: Bytes, c: nat, text: Bytes)
    requires At(p, c, Str(text)) && |text| < U32
    ensures ReadTree(p, c) == Got(Text(text), c + |Str(text)|)
  {
    StrReadsBack(p, c, text);
    StrTakes(text);
    FirstByte(p, c, Str(text));
    assert Starts(STR, p[c]);
  }

  lemma ReadsList(p: Bytes, c: nat, n: nat, next: nat, items: seq<Wire>, end: nat)
    requires c < |p| && Starts(ARRAY, p[c]) && ReadHeader(ARRAY, p, c) == Got(n, next)
    requires next <= |p| && ReadTrees(p, next, n) == Got(items, end)
    ensures ReadTree(p, c) == Got(Items(items), end)
  {
    hide ReadTrees, Header, ReadHeader, ReadStr, ReadUInt, ReadBigEndian;
    assert !Starts(STR, p[c]);
  }

  lemma ListReadsTree(p: Bytes, c: nat, items: seq<Wire>)
    requires At(p, c, Encoding(Items(items))) && |items| < U32
    requires var at := c + |Header(ARRAY, |items|)|;
      at <= |p| && ReadTrees(p, at, |items|) == Got(items, at + |Encodings(items)|)
    ensures ReadTree(p, c) == Got(Items(items), c + |Encoding(Items(items))|)
  {
    hide ReadTree, ReadTrees, Encodings, Header, ReadHeader, At, Starts;
    ItemsAt(p, c, items);
    AtSplits(p, c, Header(ARRAY, |items|), Encodings(items));
    HeaderStarts(|items|);
    FirstByte(p, c, Header(ARRAY, |items|));
    var at := c + |Header(ARRAY, |items|)|;
    assert c + |Encoding(Items(items))| == at + |Encodings(items)|;
    hide Encoding;
    ReadsList(p, c, |items|, at, items, at + |Encodings(items)|);
  }

  lemma HeaderStarts(n: nat)
    ensures Header(ARRAY, n) != [] && Starts(ARRAY, Header(ARRAY, n)[0])
  {}

  lemma ReadsVariant(p: Bytes, c: nat, name: Bytes, next: nat, body: Wire, end: nat)
    requires c < |p| && p[c] == 0x81 && ReadStr(p, c + 1) == Got(name, next)
    requires next <= |p| && ReadTree(p, next) == Got(body, end)
    ensures ReadTree(p, c) == Got(Variant(name, body), end)
  {
    hide ReadTrees, Header, ReadHeader, ReadStr, ReadUInt, ReadBigEndian;
    assert !Starts(STR, p[c]) && !Starts(ARRAY, p[c]);
  }

  lemma VariantReadsTree(p: Bytes, c: nat, name: Bytes, body: Wire)
    requires At(p, c, Encoding(Variant(name, body))) && |name| < U32
    requires var at := c + 1 + |Str(name)|;
      at <= |p| && ReadTree(p, at) == Got(body, at + |Encoding(body)|)
    ensures ReadTree(p, c) == Got(Variant(name, body), c + |Encoding(Variant(name, body))|)
  {
    NameAt(p, c, name, body);
    VariantSplits(p, c, name, body);
    FirstByte(p, c, Header(MAP, 1));
    assert p[c] == 0x81;
    hide ReadStr, Str, ReadTree, At, Header;
    assert |Encoding(Variant(name, body))| == 1 + |Str(name)| + |Encoding(body)|;
    hide Encoding;
    var at := c + 1 + |Str(name)|;
    ReadsVariant(p, c, name, at, body, at + |Encoding(body)|);
  }

  lemma MarkReadsTree(p: Bytes, c: nat, w: Wire)
    requires (w.Nil? || w.Bool?) && At(p, c, Encoding(w))
    ensures ReadTree(p, c) == Got(w, c + |Encoding(w)|)
  {
    FirstByte(p, c, Encoding(w));
  }

  /** Any value is read back as itself, wherever it stands in a payload. */
  lemma {:induction false} TreeReadsBack(p: Bytes, c: nat, w: Wire)
    requires Fits(w) && At(p, c, Encoding(w))
    ensures ReadTree(p, c) == Got(w, c + |Encoding(w)|)
    decreases w
  {
    hide ReadTree, ReadTrees, Encodings, Str, UInt, F32, Header, At;
    match w {
      case Nil => MarkReadsTree(p, c, w);
      case Bool(_) => MarkReadsTree(p, c, w);
      case Number(n) => NumberReadsTree(p, c, n);
      case Single(bits) => SingleReadsBack(p, c, bits);
      case Text(text) => TextReadsTree(p, c, text);
      case Items(items) =>
        ItemsAt(p, c, items);
        TreesReadBack(p, c + |Header(ARRAY, |items|)|, items);
        ListReadsTree(p, c, items);
      case Variant(name, body) =>
        NameAt(p, c, name, body);
        TreeReadsBack(p, c + 1 + |Str(name)|, body);
        VariantReadsTree(p, c, name, body);
    }
  }

  lemma {:induction false} TreesReadBack(p: Bytes, c: nat, items: seq<Wire>)
    requires At(p, c, Encodings(items)) && forall i :: 0 <= i < |items| ==> Fits(items[i])
    ensures ReadTrees(p, c, |items|) == Got(items, c + |Encodings(items)|)
    decreases items
  {
    hide ReadTree, Encoding;
    if items != [] {
      var first := Encoding(items[0]);
      AtSplits(p, c, first, Encodings(items[1..]));
      TreeReadsBack(p, c, items[0]);
      TreesReadBack(p, c + |first|, items[1..]);
      assert items == [items[0]] + items[1..];
    }
  }

  lemma VariantSplits(p: Bytes, c: nat, name: Bytes, body: Wire)
    requires At(p, c, Encoding(Variant(name, body)))
    ensures At(p, c, Header(MAP, 1)) && At(p, c + 1, Str(name)) && At(p, c + 1 + |Str(name)|, Encoding(body))
  {
    var tag := Header(MAP, 1);
    AtSplits(p, c, tag + Str(name), Encoding(body));
    AtSplits(p, c, tag, Str(name));
  }

  lemma ItemsAt(p: Bytes, c: nat, items: seq<Wire>)
    requires At(p, c, Encoding(Items(items))) && |items| < U32
    ensures ReadHeader(ARRAY, p, c) == Got(|items|, c + |Header(ARRAY, |items|)|)
    ensures At(p, c + |Header(ARRAY, |items|)|, Encodings(items))
  {
    AtSplits(p, c, Header(ARRAY, |items|), Encodings(items));
    HeaderReadsBack(ARRAY, p, c, |items|);
  }

  lemma NameAt(p: Bytes, c: nat, name: Bytes, body: Wire)
    requires At(p, c, Encoding(Variant(name, body))) && |name| < U32
    ensures c + 1 <= |p| && ReadStr(p, c + 1) == Got(name, c + 1 + |Str(name)|)
    ensures At(p, c + 1 + |Str(name)|, Encoding(body))
  {
    VariantSplits(p, c, name, body);
    StrReadsBack(p, c + 1, name);
  }

  // ---------------------------------------------------------------- unique decoding

  /** Two values whose encodings stand at one place of one payload are the same
      value: the bytes decide where a value ends and what it is. */
  lemma UniqueAt(p: Bytes, c: nat, w: Wire, x: Wire)
    requires Fits(w) && Fits(x) && At(p, c, Encoding(w)) && At(p, c, Encoding(x))
    ensures w == x
  {
    TreeReadsBack(p, c, w);
    TreeReadsBack(p, c, x);
  }

  /** No encoding is a proper prefix of another value's: whatever follows them,
      equal bytes mean equal values and equal rests. */
  lemma PrefixFree(w: Wire, x: Wire, s: Bytes, t: Bytes)
    requires Fits(w) && Fits(x) && Encoding(w) + s == Encoding(x) + t
    ensures w == x && s == t
  {
    var p := Encoding(w) + s;
    assert p[0..0 + |Encoding(w)|] == Encoding(w);
    assert p[0..0 + |Encoding(x)|] == Encoding(x);
    UniqueAt(p, 0, w, x);
    assert s == p[|Encoding(w)|..] && t == p[|Encoding(x)|..];
  }
}
