/** The MessagePack layer of the wire: the forms the writer picks, the forms the
    reader accepts, and why each undoes the other. */
module MessagePack {

  import opened Options

  type byte = n: int | 0 <= n < 0x100

  type Bytes = seq<byte>

  datatype DecodeError = DecodeError(expected: string, offset: nat, found: Option<byte>)

  /** A read: the value and where the next read begins, or why there is none. */
  datatype Read<T> = Got(value: T, next: nat) | Failed(error: DecodeError)

  const U32: nat := 0x1_0000_0000

  const U64: nat := 0x1_0000_0000_0000_0000

  // ---------------------------------------------------------------- numbers

  function Pow256(n: nat): nat { if n == 0 then 1 else 0x100 * Pow256(n - 1) }

  /** The low n bytes of a number, most significant first. */
  function BigEndian(value: nat, n: nat): Bytes {
    if n == 0 then [] else BigEndian(value / 0x100, n - 1) + [value % 0x100]
  }

  /** A right shift by n bytes. */
  function ShiftedRight(value: nat, n: nat): nat {
    if n == 0 then value else ShiftedRight(value / 0x100, n - 1)
  }

  function FromBigEndian(s: Bytes): nat {
    if s == [] then 0 else FromBigEndian(s[..|s| - 1]) * 0x100 + s[|s| - 1]
  }

  lemma {:induction false} BigEndianSize(value: nat, n: nat)
    ensures |BigEndian(value, n)| == n
  {
    if n > 0 { BigEndianSize(value / 0x100, n - 1); }
  }

  lemma Widths()
    ensures Pow256(1) == 0x100 && Pow256(2) == 0x1_0000 && Pow256(4) == U32 && Pow256(8) == U64
  {
    assert Pow256(3) == 0x100_0000 && Pow256(4) == 0x100 * Pow256(3);
    assert Pow256(5) == 0x100 * Pow256(4) && Pow256(6) == 0x100 * Pow256(5);
    assert Pow256(7) == 0x100 * Pow256(6) && Pow256(8) == 0x100 * Pow256(7);
  }

  lemma {:induction false} BigEndianReads(value: nat, n: nat)
    requires value < Pow256(n)
    ensures FromBigEndian(BigEndian(value, n)) == value
  {
    if n > 0 {
      BigEndianReads(value / 0x100, n - 1);
      var s := BigEndian(value, n);
      assert s[..|s| - 1] == BigEndian(value / 0x100, n - 1);
    }
  }

  lemma {:induction false} FromBigEndianBound(s: Bytes)
    ensures FromBigEndian(s) < Pow256(|s|)
  {
    if s != [] { FromBigEndianBound(s[..|s| - 1]); }
  }

  // ---------------------------------------------------------------- the writer's forms

  /** A family of length-carrying formats: a fixed range holding the length in
      the format byte, and formats with a one-, two- or four-byte length. */
  datatype Family = Family(what: string, base: byte, fixed: nat, one: Option<byte>, two: byte, four: byte)

  const STR := Family("a string", 0xa0, 32, Some(0xd9), 0xda, 0xdb)

  const ARRAY := Family("an array", 0x90, 16, None, 0xdc, 0xdd)

  const MAP := Family("a map", 0x80, 16, None, 0xde, 0xdf)

  ghost predicate Known(f: Family) { f == STR || f == ARRAY || f == MAP }

  /** The shortest header of the family; a length past the widest format loses
      its high bytes. */
  function Header(f: Family, n: nat): Bytes
    requires f.base + f.fixed <= 0x100
  {
    if n < f.fixed then [f.base + n]
    else if f.one.Some? && n <= 0xff then [f.one.value] + BigEndian(n, 1)
    else if n <= 0xffff then [f.two] + BigEndian(n, 2)
    else [f.four] + BigEndian(n, 4)
  }

  function UInt(value: nat): Bytes {
    if value <= 0x7f then [value]
    else if value <= 0xff then [0xcc] + BigEndian(value, 1)
    else if value <= 0xffff then [0xcd] + BigEndian(value, 2)
    else if value <= 0xffff_ffff then [0xce] + BigEndian(value, 4)
    else [0xcf] + BigEndian(value, 8)
  }

  /** The unsigned pattern of a signed 64-bit number. */
  function Cast64(value: int): nat
    requires -0x8000_0000_0000_0000 <= value < 0x8000_0000_0000_0000
  {
    if value >= 0 then value else value + U64
  }

  function SInt(value: int): Bytes
    requires -0x8000_0000_0000_0000 <= value < 0x8000_0000_0000_0000
  {
    if value >= 0 then UInt(value)
    else if value >= -32 then [Cast64(value) % 0x100]
    else if value >= -128 then [0xd0] + BigEndian(Cast64(value), 1)
    else if value >= -32768 then [0xd1] + BigEndian(Cast64(value), 2)
    else if value >= -2147483648 then [0xd2] + BigEndian(Cast64(value), 4)
    else [0xd3] + BigEndian(Cast64(value), 8)
  }

  function F32(bits: nat): Bytes { [0xca] + BigEndian(bits, 4) }

  function Boolean(b: bool): Bytes { [if b then 0xc3 else 0xc2] }

  function Str(s: Bytes): Bytes { Header(STR, |s|) + s }

  // The formats as the MessagePack specification tabulates them.

  /** The least significant byte goes last. */
  lemma LeastByteLast(hi: nat, lo: nat, n: nat)
    requires lo < 0x100
    ensures BigEndian(hi * 0x100 + lo, n + 1) == BigEndian(hi, n) + [lo]
  {
    assert (hi * 0x100 + lo) / 0x100 == hi;
  }

  /** Texts, arrays and maps announce their length. */
  lemma HeadersAreTheStandard(n: nat)
    ensures Header(STR, n) == (
      if n < 32 then [0xa0 + n] else if n < 0x100 then [0xd9] + BigEndian(n, 1)
      else if n < 0x1_0000 then [0xda] + BigEndian(n, 2) else [0xdb] + BigEndian(n, 4))
    ensures Header(ARRAY, n) == (
      if n < 16 then [0x90 + n] else if n < 0x1_0000 then [0xdc] + BigEndian(n, 2) else [0xdd] + BigEndian(n, 4))
    ensures Header(MAP, n) == (
      if n < 16 then [0x80 + n] else if n < 0x1_0000 then [0xde] + BigEndian(n, 2) else [0xdf] + BigEndian(n, 4))
  {}

  /** A number takes the shortest form that holds it, a negative one as its two's
      complement. */
  lemma NumbersAreTheStandard(v: int)
    requires -0x8000_0000_0000_0000 <= v < U64
    ensures v >= 0 ==> (UInt(v) == (
      if v < 0x80 then [v] else if v < 0x100 then [0xcc] + BigEndian(v, 1) else if v < 0x1_0000 then [0xcd] + BigEndian(v, 2)
      else if v < U32 then [0xce] + BigEndian(v, 4) else [0xcf] + BigEndian(v, 8)))
    ensures v < 0 ==> (SInt(v) == (
      if v >= -0x20 then [0x100 + v] else if v >= -0x80 then [0xd0] + BigEndian(U64 + v, 1)
      else if v >= -0x8000 then [0xd1] + BigEndian(U64 + v, 2)
      else if v >= -0x8000_0000 then [0xd2] + BigEndian(U64 + v, 4) else [0xd3] + BigEndian(U64 + v, 8)))
  {
    hide BigEndian;
  }

  // ---------------------------------------------------------------- the reader

  function ReadBigEndian(what: string, p: Bytes, c: nat, n: nat): Read<nat>
    requires c <= |p|
  {
    if |p| - c < n then Failed(DecodeError(what, |p|, None)) else Got(FromBigEndian(p[c..c + n]), c + n)
  }

  function ReadUInt(p: Bytes, c: nat): Read<nat>
    requires c <= |p|
  {
    var what := "an unsigned integer";
    if c == |p| then Failed(DecodeError(what, c, None))
    else if p[c] <= 0x7f then Got(p[c], c + 1)
    else if p[c] == 0xcc then ReadBigEndian(what, p, c + 1, 1)
    else if p[c] == 0xcd then ReadBigEndian(what, p, c + 1, 2)
    else if p[c] == 0xce then ReadBigEndian(what, p, c + 1, 4)
    else if p[c] == 0xcf then ReadBigEndian(what, p, c + 1, 8)
    else Failed(DecodeError(what, c, Some(p[c])))
  }

  function ReadHeader(f: Family, p: Bytes, c: nat): Read<nat>
    requires c <= |p|
  {
    if c == |p| then Failed(DecodeError(f.what, c, None))
    else if f.base <= p[c] < f.base + f.fixed then Got(p[c] - f.base, c + 1)
    else if f.one == Some(p[c]) then ReadBigEndian(f.what, p, c + 1, 1)
    else if p[c] == f.two then ReadBigEndian(f.what, p, c + 1, 2)
    else if p[c] == f.four then ReadBigEndian(f.what, p, c + 1, 4)
    else Failed(DecodeError(f.what, c, Some(p[c])))
  }

  function ReadStr(p: Bytes, c: nat): Read<Bytes>
    requires c <= |p|
  {
    match ReadHeader(STR, p, c)
    case Failed(e) => Failed(e)
    case Got(n, next) =>
      if next <= |p| && n <= |p| - next then Got(p[next..next + n], next + n)
      else Failed(DecodeError(STR.what, |p|, None))
  }

  // ---------------------------------------------------------------- reading back what was written

  /** The bytes s stand at place c of the payload. */
  ghost predicate At(p: Bytes, c: nat, s: Bytes) { c + |s| <= |p| && p[c..c + |s|] == s }

  lemma AtSplits(p: Bytes, c: nat, s: Bytes, t: Bytes)
    requires At(p, c, s + t)
    ensures At(p, c, s) && At(p, c + |s|, t)
  {
    assert p[c..c + |s| + |t|] == s + t;
    assert p[c..c + |s|] == (s + t)[..|s|];
    assert p[c + |s|..c + |s| + |t|] == (s + t)[|s|..];
  }

  lemma BigEndianReadsBack(what: string, p: Bytes, c: nat, format: byte, value: nat, n: nat)
    requires At(p, c, [format] + BigEndian(value, n)) && value < Pow256(n)
    ensures p[c] == format && ReadBigEndian(what, p, c + 1, n) == Got(value, c + 1 + n)
    ensures |[format] + BigEndian(value, n)| == 1 + n
  {
    BigEndianSize(value, n);
    BigEndianReads(value, n);
    AtSplits(p, c, [format], BigEndian(value, n));
    assert p[c..c + 1][0] == format;
  }

  lemma UIntReadsBack(p: Bytes, c: nat, value: nat)
    requires At(p, c, UInt(value)) && value < U64
    ensures ReadUInt(p, c) == Got(value, c + |UInt(value)|)
  {
    Widths();
    var what := "an unsigned integer";
    if value <= 0x7f { assert p[c..c + 1][0] == value; }
    else if value <= 0xff { BigEndianReadsBack(what, p, c, 0xcc, value, 1); }
    else if value <= 0xffff { BigEndianReadsBack(what, p, c, 0xcd, value, 2); }
    else if value <= 0xffff_ffff { BigEndianReadsBack(what, p, c, 0xce, value, 4); }
    else { BigEndianReadsBack(what, p, c, 0xcf, value, 8); }
  }

  lemma HeaderReadsBack(f: Family, p: Bytes, c: nat, n: nat)
    requires Known(f) && At(p, c, Header(f, n)) && n < U32
    ensures ReadHeader(f, p, c) == Got(n, c + |Header(f, n)|)
  {
    Widths();
    if n < f.fixed { assert p[c..c + 1][0] == f.base + n; }
    else if f.one.Some? && n <= 0xff { BigEndianReadsBack(f.what, p, c, f.one.value, n, 1); }
    else if n <= 0xffff { BigEndianReadsBack(f.what, p, c, f.two, n, 2); }
    else { BigEndianReadsBack(f.what, p, c, f.four, n, 4); }
  }

  lemma StrReadsBack(p: Bytes, c: nat, s: Bytes)
    requires At(p, c, Str(s)) && |s| < U32
    ensures ReadStr(p, c) == Got(s, c + |Str(s)|)
  {
    AtSplits(p, c, Header(STR, |s|), s);
    HeaderReadsBack(STR, p, c, |s|);
  }

  // ---------------------------------------------------------------- what an accepted form says

  lemma BigEndianAccepts(what: string, p: Bytes, c: nat, n: nat)
    requires c <= |p| && ReadBigEndian(what, p, c, n).Got?
    ensures var r := ReadBigEndian(what, p, c, n);
      r.value < Pow256(n) && r.next == c + n <= |p|
  {
    FromBigEndianBound(p[c..c + n]);
  }

  /** Whatever form a number was read from, it fits its width and the writer's
      own form is no longer. */
  lemma UIntAccepts(p: Bytes, c: nat)
    requires c <= |p| && ReadUInt(p, c).Got?
    ensures var r := ReadUInt(p, c);
      r.value < U64 && c + |UInt(r.value)| <= r.next <= |p|
  {
    Widths();
    var what, v := "an unsigned integer", ReadUInt(p, c).value;
    if p[c] == 0xcc { BigEndianAccepts(what, p, c + 1, 1); }
    if p[c] == 0xcd { BigEndianAccepts(what, p, c + 1, 2); }
    if p[c] == 0xce { BigEndianAccepts(what, p, c + 1, 4); }
    if p[c] == 0xcf { BigEndianAccepts(what, p, c + 1, 8); }
    BigEndianSize(v, 1);
    BigEndianSize(v, 2);
    BigEndianSize(v, 4);
    BigEndianSize(v, 8);
  }

  lemma HeaderAccepts(f: Family, p: Bytes, c: nat)
    requires Known(f) && c <= |p| && ReadHeader(f, p, c).Got?
    ensures var r := ReadHeader(f, p, c);
      r.value < U32 && c + |Header(f, r.value)| <= r.next <= |p|
  {
    Widths();
    var v := ReadHeader(f, p, c).value;
    if f.one == Some(p[c]) { BigEndianAccepts(f.what, p, c + 1, 1); }
    if p[c] == f.two { BigEndianAccepts(f.what, p, c + 1, 2); }
    if p[c] == f.four { BigEndianAccepts(f.what, p, c + 1, 4); }
    BigEndianSize(v, 1);
    BigEndianSize(v, 2);
    BigEndianSize(v, 4);
  }

  lemma StrAccepts(p: Bytes, c: nat)
    requires c <= |p| && ReadStr(p, c).Got?
    ensures var r := ReadStr(p, c);
      |r.value| < U32 && c + |Str(r.value)| <= r.next <= |p|
  {
    HeaderAccepts(STR, p, c);
  }

  // ---------------------------------------------------------------- the writer

  /** Appends values to a growing payload. */
  class Writer {
    var buffer: Bytes

    constructor ()
      ensures buffer == []
    {
      buffer := [];
    }

    /** A format byte, then the low bytes of the value from the top one down. */
    method PutBigEndian(format: byte, value: nat, count: nat)
      modifies this
      ensures buffer == old(buffer) + [format] + BigEndian(value, count)
    {
      buffer := buffer + [format];
      var left := count;
      while left > 0
        invariant 0 <= left <= count
        invariant buffer + BigEndian(value, left) == old(buffer) + [format] + BigEndian(value, count)
      {
        left := left - 1;
        var shifted := ShiftedRight(value, left);
        TopByte(value, left);
        assert BigEndian(value, left + 1) == [shifted % 0x100] + BigEndian(value, left);
        buffer := buffer + [shifted % 0x100];
      }
    }

    method PutNil()
      modifies this
      ensures buffer == old(buffer) + [0xc0]
    {
      buffer := buffer + [0xc0];
    }

    method PutBoolean(value: bool)
      modifies this
      ensures buffer == old(buffer) + Boolean(value)
    {
      buffer := buffer + [if value then 0xc3 else 0xc2];
    }

    method PutUInt(value: nat)
      modifies this
      ensures buffer == old(buffer) + UInt(value)
    {
      if value <= 0x7f { buffer := buffer + [value]; }
      else if value <= 0xff { PutBigEndian(0xcc, value, 1); }
      else if value <= 0xffff { PutBigEndian(0xcd, value, 2); }
      else if value <= 0xffff_ffff { PutBigEndian(0xce, value, 4); }
      else { PutBigEndian(0xcf, value, 8); }
    }

    method PutSInt(value: int)
      requires -0x8000_0000_0000_0000 <= value < 0x8000_0000_0000_0000
      modifies this
      ensures buffer == old(buffer) + SInt(value)
    {
      if value >= 0 { PutUInt(value); }
      else if value >= -32 { buffer := buffer + [value + 0x100]; }
      else if value >= -128 { PutBigEndian(0xd0, Cast64(value), 1); }
      else if value >= -32768 { PutBigEndian(0xd1, Cast64(value), 2); }
      else if value >= -2147483648 { PutBigEndian(0xd2, Cast64(value), 4); }
      else { PutBigEndian(0xd3, Cast64(value), 8); }
    }

    method PutF32(bits: nat)
      modifies this
      ensures buffer == old(buffer) + F32(bits)
    {
      PutBigEndian(0xca, bits, 4);
    }

    method PutStr(value: Bytes)
      modifies this
      ensures buffer == old(buffer) + Str(value)
    {
      if |value| <= 31 { buffer := buffer + [0xa0 + |value|]; }
      else if |value| <= 0xff { PutBigEndian(0xd9, |value|, 1); }
      else if |value| <= 0xffff { PutBigEndian(0xda, |value|, 2); }
      else { PutBigEndian(0xdb, |value|, 4); }
      buffer := buffer + value;
    }

    method PutArrayHeader(count: nat)
      modifies this
      ensures buffer == old(buffer) + Header(ARRAY, count)
    {
      if count <= 15 { buffer := buffer + [0x90 + count]; }
      else if count <= 0xffff { PutBigEndian(0xdc, count, 2); }
      else { PutBigEndian(0xdd, count, 4); }
    }

    method PutMapHeader(count: nat)
      modifies this
      ensures buffer == old(buffer) + Header(MAP, count)
    {
      if count <= 15 { buffer := buffer + [0x80 + count]; }
      else if count <= 0xffff { PutBigEndian(0xde, count, 2); }
      else { PutBigEndian(0xdf, count, 4); }
    }
  }

  lemma {:induction false} TopByte(value: nat, n: nat)
    ensures BigEndian(value, n + 1) == [ShiftedRight(value, n) % 0x100] + BigEndian(value, n)
  {
    if n > 0 {
      TopByte(value / 0x100, n - 1);
      assert BigEndian(value, n + 1)
        == [ShiftedRight(value / 0x100, n - 1) % 0x100] + BigEndian(value / 0x100, n - 1) + [value % 0x100];
    }
  }

  // ---------------------------------------------------------------- the reader's object

  /** Walks a borrowed payload. */
  class Reader {
    const payload: Bytes
    var cursor: nat

    constructor (bytes: Bytes)
      ensures payload == bytes && cursor == 0
    {
      payload := bytes;
      cursor := 0;
    }

    predicate Valid() reads this { cursor <= |payload| }

    /** What a read promises: its result is the one the payload determines, and
        on success the cursor stands after the value. */
    ghost predicate Reads<T(!new)>(from: nat, r: Read<T>, spec: Read<T>) reads this {
      Valid() && r == spec && (r.Got? ==> cursor == r.next)
    }

    method NextByte(what: string) returns (r: Read<byte>)
      requires Valid()
      modifies this
      ensures Valid()
      ensures r == if old(cursor) == |payload| then Failed(DecodeError(what, old(cursor), None)) else Got(payload[old(cursor)], old(cursor) + 1)
      ensures cursor == if r.Got? then old(cursor) + 1 else old(cursor)
    {
      if cursor == |payload| { return Failed(DecodeError(what, cursor, None)); }
      cursor := cursor + 1;
      r := Got(payload[cursor - 1], cursor);
    }

    method BigEndianOf(what: string, count: nat) returns (r: Read<nat>)
      requires Valid()
      modifies this
      ensures Reads(old(cursor), r, ReadBigEndian(what, payload, old(cursor), count))
    {
      if |payload| - cursor < count { return Failed(DecodeError(what, |payload|, None)); }
      var value: nat, index: nat := 0, 0;
      while index < count
        invariant 0 <= index <= count && cursor == old(cursor) + index && old(cursor) + count <= |payload|
        invariant value == FromBigEndian(payload[old(cursor)..old(cursor) + index])
      {
        ghost var seen := payload[old(cursor)..old(cursor) + index + 1];
        assert seen[..index] == payload[old(cursor)..old(cursor) + index];
        value := value * 0x100 + payload[cursor];
        cursor := cursor + 1;
        index := index + 1;
      }
      r := Got(value, cursor);
    }

    method UIntOf() returns (r: Read<nat>)
      requires Valid()
      modifies this
      ensures Reads(old(cursor), r, ReadUInt(payload, old(cursor)))
    {
      var what, start := "an unsigned integer", cursor;
      var format := NextByte(what);
      if format.Failed? { return Failed(format.error); }
      if format.value <= 0x7f { return Got(format.value, cursor); }
      match format.value {
        case 0xcc => r := BigEndianOf(what, 1);
        case 0xcd => r := BigEndianOf(what, 2);
        case 0xce => r := BigEndianOf(what, 4);
        case 0xcf => r := BigEndianOf(what, 8);
        case _ => r := Failed(DecodeError(what, start, Some(format.value)));
      }
    }

    method StrOf() returns (r: Read<Bytes>)
      requires Valid()
      modifies this
      ensures Reads(old(cursor), r, ReadStr(payload, old(cursor)))
    {
      var what, start := "a string", cursor;
      var format := NextByte(what);
      if format.Failed? { return Failed(format.error); }
      var length: Read<nat>;
      if format.value / 0x20 == 5 { length := Got(format.value % 0x20, cursor); }
      else if format.value == 0xd9 { length := BigEndianOf(what, 1); }
      else if format.value == 0xda { length := BigEndianOf(what, 2); }
      else if format.value == 0xdb { length := BigEndianOf(what, 4); }
      else { return Failed(DecodeError(what, start, Some(format.value))); }
      if length.Failed? { return Failed(length.error); }
      if |payload| - cursor < length.value { return Failed(DecodeError(what, |payload|, None)); }
      var data := payload[cursor..cursor + length.value];
      cursor := cursor + length.value;
      r := Got(data, cursor);
    }

    method ArrayHeaderOf() returns (r: Read<nat>)
      requires Valid()
      modifies this
      ensures Reads(old(cursor), r, ReadHeader(ARRAY, payload, old(cursor)))
    {
      var what, start := "an array", cursor;
      var format := NextByte(what);
      if format.Failed? { return Failed(format.error); }
      if format.value / 0x10 == 9 { return Got(format.value % 0x10, cursor); }
      if format.value == 0xdc { r := BigEndianOf(what, 2); }
      else if format.value == 0xdd { r := BigEndianOf(what, 4); }
      else { r := Failed(DecodeError(what, start, Some(format.value))); }
    }

    method MapHeaderOf() returns (r: Read<nat>)
      requires Valid()
      modifies this
      ensures Reads(old(cursor), r, ReadHeader(MAP, payload, old(cursor)))
    {
      var what, start := "a map", cursor;
      var format := NextByte(what);
      if format.Failed? { return Failed(format.error); }
      if format.value / 0x10 == 8 { return Got(format.value % 0x10, cursor); }
      if format.value == 0xde { r := BigEndianOf(what, 2); }
      else if format.value == 0xdf { r := BigEndianOf(what, 4); }
      else { r := Failed(DecodeError(what, start, Some(format.value))); }
    }
  }
}
