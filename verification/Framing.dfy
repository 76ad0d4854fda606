/** Messages on a byte stream: a four-byte length, least significant byte first,
    then that many bytes of payload. */
module Framing {

  import opened Options
  import opened MessagePack
  import opened WireValues
  import opened Responses
  import opened Requests
  import opened RequestReader

  /** The most bytes one frame may claim. */
  const CAP: nat := 0x4000_0000

  function FramePrefix(n: nat): Bytes {
    [n % 0x100, n / 0x100 % 0x100, n / 0x1_0000 % 0x100, n / 0x100_0000 % 0x100]
  }

  function FramedLength(p: Bytes): nat
    requires |p| == 4
  {
    var (p0: nat, p1: nat, p2: nat, p3: nat) := (p[0], p[1], p[2], p[3]);
    p0 + 0x100 * p1 + 0x1_0000 * p2 + 0x100_0000 * p3
  }

  lemma LengthReadsBack(n: nat)
    requires n < U32
    ensures FramedLength(FramePrefix(n)) == n
  {
  }

  // ---------------------------------------------------------------- one message

  /** What a read brings: a payload, the end of the input (also when it comes in
      the middle of a frame), or a length past the cap. */
  datatype Incoming = Message(payload: Bytes) | Ended | TooLong(length: nat)

  function Frame(payload: Bytes): Bytes { FramePrefix(|payload|) + payload }

  function Next(input: Bytes, at: nat): Incoming
    requires at <= |input|
  {
    if |input| - at < 4 then Ended
    else
      var n := FramedLength(input[at..at + 4]);
      if n > CAP then TooLong(n)
      else if |input| - at - 4 < n then Ended
      else Message(input[at + 4..at + 4 + n])
  }

  class Sink {
    var written: Bytes

    constructor ()
      ensures written == []
    {
      written := [];
    }

    /** A payload past the cap is refused before anything is written. */
    method WriteMessage(payload: Bytes) returns (ok: bool)
      modifies this
      ensures ok <==> |payload| <= 0x4000_0000
      ensures written == if ok then old(written) + Frame(payload) else old(written)
    {
      if |payload| > CAP { return false; }
      written := written + FramePrefix(|payload|);
      written := written + payload;
      ok := true;
    }
  }

  class Source {
    const input: Bytes
    var at: nat

    constructor (bytes: Bytes)
      ensures input == bytes && at == 0
    {
      input := bytes;
      at := 0;
    }

    predicate Valid() reads this { at <= |input| }

    /** Take exactly n bytes, or find the input too short. */
    method ReadExact(n: nat) returns (got: Option<Bytes>)
      requires Valid()
      modifies this
      ensures Valid()
      ensures got == if |input| - old(at) < n then None else Some(input[old(at)..old(at) + n])
      ensures at == if got.Some? then old(at) + n else |input|
    {
      if |input| - at < n {
        at := |input|;
        return None;
      }
      at := at + n;
      got := Some(input[at - n..at]);
    }

    /** A length past the cap is refused with only the length consumed. */
    method ReadMessage() returns (m: Incoming)
      requires Valid()
      modifies this
      ensures Valid() && m == Next(input, old(at))
      ensures m.Message? ==> at == old(at) + 4 + |m.payload|
      ensures m.TooLong? ==> at == old(at) + 4 && m.length > 0x4000_0000
    {
      var prefix := ReadExact(4);
      if prefix.None? { return Ended; }
      var length := FramedLength(prefix.value);
      if length > CAP { return TooLong(length); }
      var payload := ReadExact(length);
      if payload.None? { return Ended; }
      m := Message(payload.value);
    }
  }

  // ---------------------------------------------------------------- whole streams

  function Stream(payloads: seq<Bytes>): Bytes {
    if payloads == [] then [] else Frame(payloads[0]) + Stream(payloads[1..])
  }

  predicate WithinCap(payloads: seq<Bytes>) { forall i :: 0 <= i < |payloads| ==> |payloads[i]| <= 0x4000_0000 }

  /** The messages of a stream, and what the first read that brought none
      brought instead. */
  datatype Conversation = Conversation(payloads: seq<Bytes>, last: Incoming)

  function Prepended(first: seq<Bytes>, c: Conversation): Conversation { c.(payloads := first + c.payloads) }

  function Messages(input: Bytes, at: nat): Conversation
    requires at <= |input|
    decreases |input| - at
  {
    var m := Next(input, at);
    if m.Message? then Prepended([m.payload], Messages(input, at + 4 + |m.payload|)) else Conversation([], m)
  }

  /** Read until the conversation ends. */
  method ReadAll(source: Source) returns (c: Conversation)
    requires source.Valid()
    modifies source
    ensures c == Messages(source.input, old(source.at))
  {
    var payloads: seq<Bytes> := [];
    ghost var place, whole := source.at, Messages(source.input, source.at);
    var m := source.ReadMessage();
    assert whole == Prepended([], whole);
    while m.Message?
      invariant source.Valid() && place <= |source.input| && m == Next(source.input, place)
      invariant m.Message? ==> source.at == place + 4 + |m.payload|
      invariant whole == Prepended(payloads, Messages(source.input, place))
      decreases |source.input| - place, m.Message?
    {
      assert payloads + ([m.payload] + Messages(source.input, source.at).payloads)
        == payloads + [m.payload] + Messages(source.input, source.at).payloads;
      place := source.at;
      payloads := payloads + [m.payload];
      m := source.ReadMessage();
    }
    assert payloads + [] == payloads;
    c := Conversation(payloads, m);
  }

  lemma FrameReadsBack(input: Bytes, at: nat, payload: Bytes)
    requires At(input, at, Frame(payload)) && |payload| <= 0x4000_0000
    ensures Next(input, at) == Message(payload)
  {
    LengthReadsBack(|payload|);
    AtSplits(input, at, FramePrefix(|payload|), payload);
  }

  /** Framed streams split uniquely: reading back what was written returns just
      those messages, then the end of the input. */
  lemma {:induction false} StreamsSplit(input: Bytes, at: nat, payloads: seq<Bytes>)
    requires WithinCap(payloads) && At(input, at, Stream(payloads)) && at + |Stream(payloads)| == |input|
    ensures Messages(input, at) == Conversation(payloads, Ended)
    decreases payloads
  {
    if payloads != [] {
      AtSplits(input, at, Frame(payloads[0]), Stream(payloads[1..]));
      FrameReadsBack(input, at, payloads[0]);
      StreamsSplit(input, at + |Frame(payloads[0])|, payloads[1..]);
      assert payloads == [payloads[0]] + payloads[1..];
    }
  }

  // ---------------------------------------------------------------- conversations

  function RequestPayloads(rs: seq<Request>): seq<Bytes> {
    seq(|rs|, i requires 0 <= i < |rs| => Encoding(OfRequest(rs[i])))
  }

  function ResponsePayloads(rs: seq<Response>): seq<Bytes> {
    seq(|rs|, i requires 0 <= i < |rs| => Encoding(ResponseWire(rs[i])))
  }

  /** Two different conversations never put the same bytes on the socket. */
  lemma ConversationsDiffer(rs: seq<Request>, ts: seq<Request>)
    requires WithinCap(RequestPayloads(rs)) && WithinCap(RequestPayloads(ts))
    requires forall i :: 0 <= i < |rs| ==> Fits(OfRequest(rs[i]))
    requires forall i :: 0 <= i < |ts| ==> Fits(OfRequest(ts[i]))
    requires Stream(RequestPayloads(rs)) == Stream(RequestPayloads(ts))
    ensures rs == ts
  {
    var a, b, input := RequestPayloads(rs), RequestPayloads(ts), Stream(RequestPayloads(rs));
    assert input[0..0 + |input|] == input;
    StreamsSplit(input, 0, a);
    StreamsSplit(input, 0, b);
    assert a == b && |a| == |rs| && |b| == |ts|;
    forall i | 0 <= i < |rs| ensures rs[i] == ts[i] {
      assert a[i] == Encoding(OfRequest(rs[i])) && b[i] == Encoding(OfRequest(ts[i]));
      assert Encoding(OfRequest(rs[i])) + [] == Encoding(OfRequest(ts[i])) + [];
      RequestsAreUniquelyDecodable(rs[i], ts[i], [], []);
    }
  }

  /** The server recovers every request of a conversation, in order, field by field. */
  lemma RequestsArriveInOrder(rs: seq<Request>, i: nat)
    requires WithinCap(RequestPayloads(rs)) && i < |rs| && Fits(OfRequest(rs[i]))
    ensures var c := Messages(Stream(RequestPayloads(rs)), 0);
      && c.last == Ended && |c.payloads| == |rs| && ReadRequest(c.payloads[i]) == Got(rs[i], |c.payloads[i]|)
  {
    var input := Stream(RequestPayloads(rs));
    assert input[0..0 + |input|] == input;
    StreamsSplit(input, 0, RequestPayloads(rs));
    hide ReadRequest, OfRequest, Encoding, Fits;
    RequestsArrive(rs[i]);
  }

  /** The client recovers every reply of a conversation, in order. */
  lemma RepliesArrive(rs: seq<Response>, i: nat)
    requires WithinCap(ResponsePayloads(rs)) && i < |rs| && InRange(rs[i])
    ensures var c := Messages(Stream(ResponsePayloads(rs)), 0);
      && c.last == Ended && |c.payloads| == |rs| && Decoded(c.payloads[i]) == Got(rs[i], |c.payloads[i]|)
  {
    var input := Stream(ResponsePayloads(rs));
    assert input[0..0 + |input|] == input;
    StreamsSplit(input, 0, ResponsePayloads(rs));
    RoundTrip(rs[i]);
  }
}
