/** The server's replies: their encoding, the client's strict decoder, and how
    far each undoes the other. */
module Responses {

  import opened Options
  import opened MessagePack
  import opened WireValues

  /** A variant name as the bytes it travels as. */
  function Ascii(s: string): (b: Bytes)
    requires forall i :: 0 <= i < |s| ==> s[i] < 128 as char
    ensures |b| == |s| && forall i :: 0 <= i < |s| ==> b[i] == s[i] as int
  {
    seq(|s|, i requires 0 <= i < |s| => s[i] as int)
  }

  datatype FbDesc = FbDesc(shmName: Bytes, bytes: nat, width: nat, height: nat)

  datatype Response =
    | Welcome(protocol: nat, fb: FbDesc)
    | Ack(rejected: seq<Bytes>, epoch: nat)
    | Resized(fb: FbDesc, epoch: nat)

  /** Every field fits the width its type has on the wire. */
  predicate FbInRange(fb: FbDesc) {
    |fb.shmName| < U32 && fb.bytes < U64 && fb.width < U32 && fb.height < U32
  }

  predicate InRange(r: Response) {
    match r
    case Welcome(protocol, fb) => protocol < U32 && FbInRange(fb)
    case Ack(rejected, epoch) => |rejected| < U32 && epoch < U64 && forall i :: 0 <= i < |rejected| ==> |rejected[i]| < U32
    case Resized(fb, epoch) => FbInRange(fb) && epoch < U64
  }

  // ---------------------------------------------------------------- encoding

  function FbWire(fb: FbDesc): Wire {
    Items([Text(fb.shmName), Number(fb.bytes), Number(fb.width), Number(fb.height)])
  }

  function Texts(s: seq<Bytes>): seq<Wire> { seq(|s|, i requires 0 <= i < |s| => Text(s[i])) }

  function VariantName(r: Response): Bytes {
    match r
    case Welcome(_, _) => Ascii("Welcome")
    case Ack(_, _) => Ascii("Ack")
    case Resized(_, _) => Ascii("Resized")
  }

  function Fields(r: Response): seq<Wire> {
    match r
    case Welcome(protocol, fb) => [Number(protocol), FbWire(fb)]
    case Ack(rejected, epoch) => [Items(Texts(rejected)), Number(epoch)]
    case Resized(fb, epoch) => [FbWire(fb), Number(epoch)]
  }

  function ResponseWire(r: Response): Wire { Variant(VariantName(r), Items(Fields(r))) }

  /** The reply's payload, written by the writer. */
  method Encode(r: Response) returns (payload: Bytes)
    ensures payload == Encoding(ResponseWire(r))
  {
    var writer := new Writer();
    Put(writer, ResponseWire(r));
    payload := writer.buffer;
  }

  // ---------------------------------------------------------------- what the decoder reads

  function ReadU32(p: Bytes, c: nat, what: string): Read<nat>
    requires c <= |p|
  {
    match ReadUInt(p, c)
    case Failed(e) => Failed(e)
    case Got(n, next) => if n > 0xffff_ffff then Failed(DecodeError(what, next, None)) else Got(n, next)
  }

  /** An array header that must announce just so many fields. */
  function ReadFields(p: Bytes, c: nat, n: nat, what: string): Read<nat>
    requires c <= |p|
  {
    match ReadHeader(ARRAY, p, c)
    case Failed(e) => Failed(e)
    case Got(count, next) => if count != n then Failed(DecodeError(what, next, None)) else Got(count, next)
  }

  lemma HeaderNext(f: Family, p: Bytes, c: nat)
    requires Known(f) && c <= |p| && ReadHeader(f, p, c).Got?
    ensures ReadHeader(f, p, c).next <= |p|
  {
    HeaderAccepts(f, p, c);
  }

  lemma UIntNext(p: Bytes, c: nat)
    requires c <= |p| && ReadUInt(p, c).Got?
    ensures ReadUInt(p, c).next <= |p|
  {
    UIntAccepts(p, c);
  }

  lemma StrNext(p: Bytes, c: nat)
    requires c <= |p| && ReadStr(p, c).Got?
    ensures ReadStr(p, c).next <= |p|
  {
    StrAccepts(p, c);
  }

  function ReadFb(p: Bytes, c: nat): (r: Read<FbDesc>)
    requires c <= |p|
    ensures r.Got? ==> r.next <= |p|
  {
    match ReadFields(p, c, 4, "the four FbDesc fields")
    case Failed(e) => Failed(e)
    case Got(_, c0) =>
      HeaderNext(ARRAY, p, c);
      match ReadStr(p, c0)
      case Failed(e) => Failed(e)
      case Got(name, c1) =>
        StrNext(p, c0);
        match ReadUInt(p, c1)
        case Failed(e) => Failed(e)
        case Got(bytes, c2) =>
          UIntNext(p, c1);
          match ReadU32(p, c2, "a width that fits u32")
          case Failed(e) => Failed(e)
          case Got(width, c3) =>
            UIntNext(p, c2);
            match ReadU32(p, c3, "a height that fits u32")
            case Failed(e) => Failed(e)
            case Got(height, c4) =>
              UIntNext(p, c3);
              Got(FbDesc(name, bytes, width, height), c4)
  }

  function ReadWelcome(p: Bytes, c: nat): (r: Read<Response>)
    requires c <= |p|
    ensures r.Got? ==> r.next <= |p|
  {
    match ReadFields(p, c, 2, "the two Welcome fields")
    case Failed(e) => Failed(e)
    case Got(_, c0) =>
      HeaderNext(ARRAY, p, c);
      match ReadU32(p, c0, "a protocol revision that fits u32")
      case Failed(e) => Failed(e)
      case Got(protocol, c1) =>
        UIntNext(p, c0);
        match ReadFb(p, c1)
        case Failed(e) => Failed(e)
        case Got(fb, c2) => Got(Welcome(protocol, fb), c2)
  }

  /** A read of a list whose first elements are already known. */
  function Prepended(texts: seq<Bytes>, r: Read<seq<Bytes>>): Read<seq<Bytes>> {
    if r.Failed? then Failed(r.error) else Got(texts + r.value, r.next)
  }

  /** So many strings in a row. */
  function ReadTexts(p: Bytes, c: nat, n: nat): (r: Read<seq<Bytes>>)
    requires c <= |p|
    ensures r.Got? ==> r.next <= |p|
    decreases n
  {
    if n == 0 then Got([], c)
    else
      match ReadStr(p, c)
      case Failed(e) => Failed(e)
      case Got(text, c0) =>
        StrNext(p, c);
        Prepended([text], ReadTexts(p, c0, n - 1))
  }

  function ReadAck(p: Bytes, c: nat): (r: Read<Response>)
    requires c <= |p|
    ensures r.Got? ==> r.next <= |p|
  {
    match ReadFields(p, c, 2, "the two Ack fields")
    case Failed(e) => Failed(e)
    case Got(_, c0) =>
      HeaderNext(ARRAY, p, c);
      match ReadHeader(ARRAY, p, c0)
      case Failed(e) => Failed(e)
      case Got(count, c1) =>
        HeaderNext(ARRAY, p, c0);
        match ReadTexts(p, c1, count)
        case Failed(e) => Failed(e)
        case Got(rejected, c2) =>
          match ReadUInt(p, c2)
          case Failed(e) => Failed(e)
          case Got(epoch, c3) =>
            UIntNext(p, c2);
            Got(Ack(rejected, epoch), c3)
  }

  function ReadResized(p: Bytes, c: nat): (r: Read<Response>)
    requires c <= |p|
    ensures r.Got? ==> r.next <= |p|
  {
    match ReadFields(p, c, 2, "the two Resized fields")
    case Failed(e) => Failed(e)
    case Got(_, c0) =>
      HeaderNext(ARRAY, p, c);
      match ReadFb(p, c0)
      case Failed(e) => Failed(e)
      case Got(fb, c1) =>
        match ReadUInt(p, c1)
        case Failed(e) => Failed(e)
        case Got(epoch, c2) =>
          UIntNext(p, c1);
          Got(Resized(fb, epoch), c2)
  }

  /** The variant's value, by its name. */
  function ReadBody(p: Bytes, c: nat, name: Bytes): (r: Read<Response>)
    requires c <= |p|
    ensures r.Got? ==> r.next <= |p|
  {
    if name == Ascii("Welcome") then ReadWelcome(p, c)
    else if name == Ascii("Ack") then ReadAck(p, c)
    else if name == Ascii("Resized") then ReadResized(p, c)
    else Failed(DecodeError("a Response variant name", c, None))
  }

  /** One whole reply, before the check that nothing follows it. */
  function ReadResponse(p: Bytes): (r: Read<Response>)
    ensures r.Got? ==> r.next <= |p|
  {
    match ReadHeader(MAP, p, 0)
    case Failed(e) => Failed(e)
    case Got(entries, c0) =>
      HeaderNext(MAP, p, 0);
      if entries != 1 then Failed(DecodeError("a one-entry variant map", c0, None))
      else
        match ReadStr(p, c0)
        case Failed(e) => Failed(e)
        case Got(name, c1) =>
          StrNext(p, c0);
          ReadBody(p, c1, name)
  }

  function Decoded(p: Bytes): Read<Response> {
    match ReadResponse(p)
    case Failed(e) => Failed(e)
    case Got(r, next) => if next != |p| then Failed(DecodeError("no bytes after the message", next, None)) else Got(r, next)
  }

  // ---------------------------------------------------------------- the decoder

  method DecodeU32(reader: Reader, what: string) returns (r: Read<nat>)
    requires reader.Valid()
    modifies reader
    ensures reader.Reads(old(reader.cursor), r, ReadU32(reader.payload, old(reader.cursor), what))
  {
    r := reader.UIntOf();
    if r.Got? && r.value > 0xffff_ffff {
      r := Failed(DecodeError(what, reader.cursor, None));
    }
  }

  method DecodeFields(reader: Reader, n: nat, what: string) returns (r: Read<nat>)
    requires reader.Valid()
    modifies reader
    ensures reader.Reads(old(reader.cursor), r, ReadFields(reader.payload, old(reader.cursor), n, what))
  {
    r := reader.ArrayHeaderOf();
    if r.Got? && r.value != n {
      r := Failed(DecodeError(what, reader.cursor, None));
    }
  }

  method DecodeFb(reader: Reader) returns (r: Read<FbDesc>)
    requires reader.Valid()
    modifies reader
    ensures reader.Reads(old(reader.cursor), r, ReadFb(reader.payload, old(reader.cursor)))
  {
    var fields := DecodeFields(reader, 4, "the four FbDesc fields");
    if fields.Failed? { return Failed(fields.error); }
    var name := reader.StrOf();
    if name.Failed? { return Failed(name.error); }
    var bytes := reader.UIntOf();
    if bytes.Failed? { return Failed(bytes.error); }
    var width := DecodeU32(reader, "a width that fits u32");
    if width.Failed? { return Failed(width.error); }
    var height := DecodeU32(reader, "a height that fits u32");
    if height.Failed? { return Failed(height.error); }
    r := Got(FbDesc(name.value, bytes.value, width.value, height.value), reader.cursor);
  }

  method DecodeWelcome(reader: Reader) returns (r: Read<Response>)
    requires reader.Valid()
    modifies reader
    ensures reader.Reads(old(reader.cursor), r, ReadWelcome(reader.payload, old(reader.cursor)))
  {
    var fields := DecodeFields(reader, 2, "the two Welcome fields");
    if fields.Failed? { return Failed(fields.error); }
    var protocol := DecodeU32(reader, "a protocol revision that fits u32");
    if protocol.Failed? { return Failed(protocol.error); }
    var fb := DecodeFb(reader);
    if fb.Failed? { return Failed(fb.error); }
    r := Got(Welcome(protocol.value, fb.value), reader.cursor);
  }

  lemma PrependedMore(texts: seq<Bytes>, text: Bytes, r: Read<seq<Bytes>>)
    ensures Prepended(texts, Prepended([text], r)) == Prepended(texts + [text], r)
  {
    if r.Got? { assert texts + ([text] + r.value) == texts + [text] + r.value; }
  }

  /** The list of rejections, one string at a time. */
  method DecodeTexts(reader: Reader, count: nat) returns (r: Read<seq<Bytes>>)
    requires reader.Valid()
    modifies reader
    ensures reader.Reads(old(reader.cursor), r, ReadTexts(reader.payload, old(reader.cursor), count))
  {
    var texts: seq<Bytes> := [];
    ghost var whole := ReadTexts(reader.payload, reader.cursor, count);
    if whole.Got? { assert [] + whole.value == whole.value; }
    for index := 0 to count
      invariant reader.Valid()
      invariant whole == Prepended(texts, ReadTexts(reader.payload, reader.cursor, count - index))
    {
      var text := reader.StrOf();
      if text.Failed? { return Failed(text.error); }
      PrependedMore(texts, text.value, ReadTexts(reader.payload, reader.cursor, count - index - 1));
      texts := texts + [text.value];
    }
    assert ReadTexts(reader.payload, reader.cursor, 0) == Got([], reader.cursor) && texts + [] == texts;
    r := Got(texts, reader.cursor);
  }

  method DecodeAck(reader: Reader) returns (r: Read<Response>)
    requires reader.Valid()
    modifies reader
    ensures reader.Reads(old(reader.cursor), r, ReadAck(reader.payload, old(reader.cursor)))
  {
    var fields := DecodeFields(reader, 2, "the two Ack fields");
    if fields.Failed? { return Failed(fields.error); }
    var count := reader.ArrayHeaderOf();
    if count.Failed? { return Failed(count.error); }
    var rejected := DecodeTexts(reader, count.value);
    if rejected.Failed? { return Failed(rejected.error); }
    var epoch := reader.UIntOf();
    if epoch.Failed? { return Failed(epoch.error); }
    r := Got(Ack(rejected.value, epoch.value), reader.cursor);
  }

  method DecodeResized(reader: Reader) returns (r: Read<Response>)
    requires reader.Valid()
    modifies reader
    ensures reader.Reads(old(reader.cursor), r, ReadResized(reader.payload, old(reader.cursor)))
  {
    var fields := DecodeFields(reader, 2, "the two Resized fields");
    if fields.Failed? { return Failed(fields.error); }
    var fb := DecodeFb(reader);
    if fb.Failed? { return Failed(fb.error); }
    var epoch := reader.UIntOf();
    if epoch.Failed? { return Failed(epoch.error); }
    r := Got(Resized(fb.value, epoch.value), reader.cursor);
  }

  method DecodeResponse(payload: Bytes) returns (r: Read<Response>)
    ensures r == Decoded(payload)
  {
    var reader := new Reader(payload);
    var entries := reader.MapHeaderOf();
    if entries.Failed? { return Failed(entries.error); }
    if entries.value != 1 { return Failed(DecodeError("a one-entry variant map", reader.cursor, None)); }
    var name := reader.StrOf();
    if name.Failed? { return Failed(name.error); }
    r := Failed(DecodeError("a Response variant name", reader.cursor, None));
    if name.value == Ascii("Welcome") { r := DecodeWelcome(reader); }
    else if name.value == Ascii("Ack") { r := DecodeAck(reader); }
    else if name.value == Ascii("Resized") { r := DecodeResized(reader); }
    if r.Got? && reader.cursor != |payload| {
      return Failed(DecodeError("no bytes after the message", reader.cursor, None));
    }
  }

  // ---------------------------------------------------------------- decoding what was encoded

  /** The encoding of a list, one value at a time. */
  lemma ListAt(p: Bytes, c: nat, first: Wire, rest: seq<Wire>)
    requires At(p, c, Encodings([first] + rest))
    ensures At(p, c, Encoding(first)) && At(p, c + |Encoding(first)|, Encodings(rest))
    ensures |Encodings([first] + rest)| == |Encoding(first)| + |Encodings(rest)|
  {
    var items := [first] + rest;
    assert items[0] == first && items[1..] == rest;
    AtSplits(p, c, Encoding(first), Encodings(rest));
  }

  /** The fields of an array of known length. */
  lemma FieldsAt(p: Bytes, c: nat, items: seq<Wire>, what: string)
    requires At(p, c, Encoding(Items(items))) && |items| < 16
    ensures ReadFields(p, c, |items|, what) == Got(|items|, c + 1) && At(p, c + 1, Encodings(items))
    ensures |Encoding(Items(items))| == 1 + |Encodings(items)|
  {
    AtSplits(p, c, Header(ARRAY, |items|), Encodings(items));
    HeaderReadsBack(ARRAY, p, c, |items|);
  }

  lemma NumberReadsBack(p: Bytes, c: nat, n: nat, what: string)
    requires At(p, c, Encoding(Number(n))) && n < U64
    ensures ReadUInt(p, c) == Got(n, c + |Encoding(Number(n))|)
    ensures n < U32 ==> ReadU32(p, c, what) == Got(n, c + |Encoding(Number(n))|)
  {
    UIntReadsBack(p, c, n);
  }

  lemma TextReadsBack(p: Bytes, c: nat, s: Bytes)
    requires At(p, c, Encoding(Text(s))) && |s| < U32
    ensures ReadStr(p, c) == Got(s, c + |Encoding(Text(s))|)
  {
    StrReadsBack(p, c, s);
  }

  lemma NoneSize()
    ensures Encodings([]) == []
  {
  }

  lemma FbReadsBack(p: Bytes, c: nat, fb: FbDesc)
    requires FbInRange(fb) && At(p, c, Encoding(FbWire(fb)))
    ensures ReadFb(p, c) == Got(fb, c + |Encoding(FbWire(fb))|)
  {
    var name, bytes, width, height := Text(fb.shmName), Number(fb.bytes), Number(fb.width), Number(fb.height);
    NoneSize();
    hide Encoding, Encodings, At, ReadStr, ReadUInt, ReadU32, ReadFields;
    var items := [name, bytes, width, height];
    FieldsAt(p, c, items, "the four FbDesc fields");
    assert items == [name] + [bytes, width, height];
    ListAt(p, c + 1, name, [bytes, width, height]);
    TextReadsBack(p, c + 1, fb.shmName);
    var c1 := c + 1 + |Encoding(name)|;
    assert [bytes, width, height] == [bytes] + [width, height];
    ListAt(p, c1, bytes, [width, height]);
    NumberReadsBack(p, c1, fb.bytes, "");
    var c2 := c1 + |Encoding(bytes)|;
    assert [width, height] == [width] + [height];
    ListAt(p, c2, width, [height]);
    NumberReadsBack(p, c2, fb.width, "a width that fits u32");
    var c3 := c2 + |Encoding(width)|;
    assert [height] == [height] + [];
    ListAt(p, c3, height, []);
    NumberReadsBack(p, c3, fb.height, "a height that fits u32");
  }

  lemma {:induction false} TextsReadBack(p: Bytes, c: nat, texts: seq<Bytes>)
    requires At(p, c, Encodings(Texts(texts))) && forall i :: 0 <= i < |texts| ==> |texts[i]| < U32
    ensures ReadTexts(p, c, |texts|) == Got(texts, c + |Encodings(Texts(texts))|)
    decreases texts
  {
    if texts == [] {
      assert Texts(texts) == [];
    } else {
      hide Encoding, Encodings, At, ReadStr;
      assert Texts(texts) == [Text(texts[0])] + Texts(texts[1..]);
      ListAt(p, c, Text(texts[0]), Texts(texts[1..]));
      TextReadsBack(p, c, texts[0]);
      TextsReadBack(p, c + |Encoding(Text(texts[0]))|, texts[1..]);
      assert [texts[0]] + texts[1..] == texts;
    }
  }

  lemma PairAt(p: Bytes, c: nat, first: Wire, second: Wire, what: string)
    requires At(p, c, Encoding(Items([first, second])))
    ensures ReadFields(p, c, 2, what) == Got(2, c + 1)
    ensures At(p, c + 1, Encoding(first)) && At(p, c + 1 + |Encoding(first)|, Encoding(second))
    ensures |Encoding(Items([first, second]))| == 1 + |Encoding(first)| + |Encoding(second)|
  {
    FieldsAt(p, c, [first, second], what);
    assert [first, second] == [first] + [second] && [second] == [second] + [];
    ListAt(p, c + 1, first, [second]);
    ListAt(p, c + 1 + |Encoding(first)|, second, []);
  }

  lemma WelcomeReadsBack(p: Bytes, c: nat, r: Response)
    requires r.Welcome? && InRange(r) && At(p, c, Encoding(Items(Fields(r))))
    ensures ReadWelcome(p, c) == Got(r, c + |Encoding(Items(Fields(r)))|)
  {
    hide Encoding, At, ReadFb, ReadU32, FbWire;
    PairAt(p, c, Number(r.protocol), FbWire(r.fb), "the two Welcome fields");
    NumberReadsBack(p, c + 1, r.protocol, "a protocol revision that fits u32");
    FbReadsBack(p, c + 1 + |Encoding(Number(r.protocol))|, r.fb);
  }

  lemma ItemsSize(items: seq<Wire>)
    ensures |Encoding(Items(items))| == |Header(ARRAY, |items|)| + |Encodings(items)|
  {
  }

  lemma AckListReadsBack(p: Bytes, c: nat, texts: seq<Bytes>)
    requires At(p, c, Encoding(Items(Texts(texts)))) && |texts| < U32
    requires forall i :: 0 <= i < |texts| ==> |texts[i]| < U32
    ensures ReadHeader(ARRAY, p, c).Got? && ReadHeader(ARRAY, p, c).value == |texts|
    ensures ReadHeader(ARRAY, p, c).next <= |p|
    ensures ReadTexts(p, ReadHeader(ARRAY, p, c).next, |texts|) == Got(texts, c + |Encoding(Items(Texts(texts)))|)
  {
    ItemsSize(Texts(texts));
    ItemsAt(p, c, Texts(texts));
    hide Encoding, Encodings, At, ReadTexts, ReadHeader, Header;
    TextsReadBack(p, c + |Header(ARRAY, |texts|)|, texts);
  }

  lemma AckReadsBack(p: Bytes, c: nat, r: Response)
    requires r.Ack? && InRange(r) && At(p, c, Encoding(Items(Fields(r))))
    ensures ReadAck(p, c) == Got(r, c + |Encoding(Items(Fields(r)))|)
  {
    hide Encoding, At, ReadTexts, ReadUInt, ReadHeader;
    var list := Items(Texts(r.rejected));
    PairAt(p, c, list, Number(r.epoch), "the two Ack fields");
    AckListReadsBack(p, c + 1, r.rejected);
    NumberReadsBack(p, c + 1 + |Encoding(list)|, r.epoch, "");
  }

  lemma ResizedReadsBack(p: Bytes, c: nat, r: Response)
    requires r.Resized? && InRange(r) && At(p, c, Encoding(Items(Fields(r))))
    ensures ReadResized(p, c) == Got(r, c + |Encoding(Items(Fields(r)))|)
  {
    hide Encoding, At, ReadFb, ReadUInt, FbWire;
    PairAt(p, c, FbWire(r.fb), Number(r.epoch), "the two Resized fields");
    FbReadsBack(p, c + 1, r.fb);
    NumberReadsBack(p, c + 1 + |Encoding(FbWire(r.fb))|, r.epoch, "");
  }

  lemma BodyReadsBack(p: Bytes, c: nat, r: Response)
    requires InRange(r) && At(p, c, Encoding(Items(Fields(r))))
    ensures ReadBody(p, c, VariantName(r)) == Got(r, c + |Encoding(Items(Fields(r)))|)
  {
    match r {
      case Welcome(_, _) => WelcomeReadsBack(p, c, r);
      case Ack(_, _) => AckReadsBack(p, c, r);
      case Resized(_, _) => ResizedReadsBack(p, c, r); assert "Welcome"[0] != "Resized"[0];
    }
  }

  lemma EnvelopeReadsBack(p: Bytes, name: Bytes, body: Wire)
    requires At(p, 0, Encoding(Variant(name, body))) && |name| < U32
    ensures ReadHeader(MAP, p, 0) == Got(1, 1) && 1 <= |p|
    ensures ReadStr(p, 1) == Got(name, 1 + |Str(name)|) && At(p, 1 + |Str(name)|, Encoding(body))
    ensures |Encoding(Variant(name, body))| == 1 + |Str(name)| + |Encoding(body)|
  {
    VariantSplits(p, 0, name, body);
    HeaderReadsBack(MAP, p, 0, 1);
    StrReadsBack(p, 1, name);
  }

  /** Decoding an encoded reply returns it. */
  lemma RoundTrip(r: Response)
    requires InRange(r)
    ensures var payload := Encoding(ResponseWire(r)); Decoded(payload) == Got(r, |payload|)
  {
    var payload, name := Encoding(ResponseWire(r)), VariantName(r);
    assert payload[0..0 + |payload|] == payload;
    EnvelopeReadsBack(payload, name, Items(Fields(r)));
    hide Encoding, At, ReadBody, ReadHeader, ReadStr, Fields, VariantName;
    BodyReadsBack(payload, 1 + |Str(name)|, r);
  }

  // ---------------------------------------------------------------- encoding what was decoded

  lemma FbAccepts(p: Bytes, c: nat)
    requires c <= |p| && ReadFb(p, c).Got?
    ensures var r := ReadFb(p, c); FbInRange(r.value) && c + |Encoding(FbWire(r.value))| <= r.next
  {
    var fb := ReadFb(p, c).value;
    HeaderAccepts(ARRAY, p, c);
    var c0 := ReadHeader(ARRAY, p, c).next;
    StrAccepts(p, c0);
    var c1 := ReadStr(p, c0).next;
    UIntAccepts(p, c1);
    var c2 := ReadUInt(p, c1).next;
    UIntAccepts(p, c2);
    var c3 := ReadUInt(p, c2).next;
    UIntAccepts(p, c3);
    FbSize(fb);
  }

  lemma ListSize(first: Wire, rest: seq<Wire>)
    ensures |Encodings([first] + rest)| == |Encoding(first)| + |Encodings(rest)|
  {
    var items := [first] + rest;
    assert items[0] == first && items[1..] == rest;
  }

  lemma FbSize(fb: FbDesc)
    ensures |Encoding(FbWire(fb))| == 1 + |Str(fb.shmName)| + |UInt(fb.bytes)| + |UInt(fb.width)| + |UInt(fb.height)|
  {
    var name, bytes, width, height := Text(fb.shmName), Number(fb.bytes), Number(fb.width), Number(fb.height);
    ListSize(name, [bytes, width, height]);
    ListSize(bytes, [width, height]);
    ListSize(width, [height]);
    ListSize(height, []);
    assert [name, bytes, width, height] == [name] + [bytes, width, height];
    assert [bytes, width, height] == [bytes] + [width, height];
    assert [width, height] == [width] + [height];
    assert [height] == [height] + [];
  }

  lemma PairSize(first: Wire, second: Wire)
    ensures |Encoding(Items([first, second]))| == 1 + |Encoding(first)| + |Encoding(second)|
  {
    ListSize(first, [second]);
    ListSize(second, []);
    assert [first, second] == [first] + [second] && [second] == [second] + [];
  }

  lemma {:induction false} TextsAccept(p: Bytes, c: nat, n: nat)
    requires c <= |p| && ReadTexts(p, c, n).Got?
    ensures var r := ReadTexts(p, c, n);
      && |r.value| == n && (forall i :: 0 <= i < n ==> |r.value[i]| < U32)
      && c + |Encodings(Texts(r.value))| <= r.next
    decreases n
  {
    if n > 0 {
      StrAccepts(p, c);
      var text, texts := ReadStr(p, c).value, ReadTexts(p, ReadStr(p, c).next, n - 1).value;
      TextsAccept(p, ReadStr(p, c).next, n - 1);
      assert Texts([text] + texts)[0] == Text(text) && Texts([text] + texts)[1..] == Texts(texts);
    }
  }

  lemma WelcomeAccepts(p: Bytes, c: nat)
    requires c <= |p| && ReadWelcome(p, c).Got?
    ensures var r := ReadWelcome(p, c);
      r.value.Welcome? && InRange(r.value) && c + |Encoding(Items(Fields(r.value)))| <= r.next
  {
    HeaderAccepts(ARRAY, p, c);
    var c0 := ReadHeader(ARRAY, p, c).next;
    UIntAccepts(p, c0);
    FbAccepts(p, ReadUInt(p, c0).next);
    var r := ReadWelcome(p, c).value;
    hide Encoding, ReadHeader, ReadUInt, ReadFb, FbWire;
    PairSize(Number(r.protocol), FbWire(r.fb));
    NumberSize(r.protocol);
  }

  lemma NumberSize(n: nat)
    ensures Encoding(Number(n)) == UInt(n)
  {
  }

  lemma AckAccepts(p: Bytes, c: nat)
    requires c <= |p| && ReadAck(p, c).Got?
    ensures var r := ReadAck(p, c);
      r.value.Ack? && InRange(r.value) && c + |Encoding(Items(Fields(r.value)))| <= r.next
  {
    var r := ReadAck(p, c).value;
    HeaderAccepts(ARRAY, p, c);
    var c0 := ReadHeader(ARRAY, p, c).next;
    HeaderAccepts(ARRAY, p, c0);
    var c1, count := ReadHeader(ARRAY, p, c0).next, ReadHeader(ARRAY, p, c0).value;
    TextsAccept(p, c1, count);
    UIntAccepts(p, ReadTexts(p, c1, count).next);
    hide Encoding, Encodings, ReadHeader, ReadUInt, ReadTexts, Header;
    PairSize(Items(Texts(r.rejected)), Number(r.epoch));
    ItemsSize(Texts(r.rejected));
    NumberSize(r.epoch);
  }

  lemma ResizedAccepts(p: Bytes, c: nat)
    requires c <= |p| && ReadResized(p, c).Got?
    ensures var r := ReadResized(p, c);
      r.value.Resized? && InRange(r.value) && c + |Encoding(Items(Fields(r.value)))| <= r.next
  {
    var r := ReadResized(p, c).value;
    HeaderAccepts(ARRAY, p, c);
    var c0 := ReadHeader(ARRAY, p, c).next;
    FbAccepts(p, c0);
    UIntAccepts(p, ReadFb(p, c0).next);
    hide Encoding, ReadHeader, ReadUInt, ReadFb, FbWire;
    PairSize(FbWire(r.fb), Number(r.epoch));
    NumberSize(r.epoch);
  }

  lemma BodyAccepts(p: Bytes, c: nat, name: Bytes)
    requires c <= |p| && ReadBody(p, c, name).Got?
    ensures var r := ReadBody(p, c, name);
      InRange(r.value) && VariantName(r.value) == name && c + |Encoding(Items(Fields(r.value)))| <= r.next
  {
    hide Encoding, ReadWelcome, ReadAck, ReadResized, Fields, InRange;
    if name == Ascii("Welcome") { WelcomeAccepts(p, c); }
    else if name == Ascii("Ack") { AckAccepts(p, c); }
    else { ResizedAccepts(p, c); }
  }

  lemma EnvelopeSize(name: Bytes, body: Wire)
    ensures |Encoding(Variant(name, body))| == |Header(MAP, 1)| + |Str(name)| + |Encoding(body)|
  {
  }

  /** The decoder is strict and the writer's form is the shortest it accepts: an
      accepted payload is used to its last byte, its fields are in range, and
      encoding the result again decodes to the same reply in no more bytes. */
  lemma AcceptedIsInRange(p: Bytes)
    requires Decoded(p).Got?
    ensures var r := Decoded(p).value;
      && Decoded(p).next == |p| && InRange(r)
      && |Encoding(ResponseWire(r))| <= |p|
      && Decoded(Encoding(ResponseWire(r))) == Got(r, |Encoding(ResponseWire(r))|)
  {
    hide Encoding, ReadBody, ReadStr, ReadHeader, Header, Fields;
    HeaderAccepts(MAP, p, 0);
    var c0 := ReadHeader(MAP, p, 0).next;
    StrAccepts(p, c0);
    var name := ReadStr(p, c0);
    EnvelopeSize(name.value, Items(Fields(Decoded(p).value)));
    BodyAccepts(p, name.next, name.value);
    RoundTrip(Decoded(p).value);
  }
}
