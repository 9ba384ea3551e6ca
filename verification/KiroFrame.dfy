/** One frame of the Amazon Event Stream encoding, as parseEventFrame of
    open-sse/executors/kiro.js reads it: a 12-byte prelude (total length, header length, checksum),
    the headers, the payload, and a 4-byte checksum. Checksums are not looked at. */
module KiroFrame {
  import opened Basics
  import opened Bytes
  import KiroFraming

  /** Headers as text; the payload as bytes, empty where there is none. */
  datatype Frame = Frame(headers: map<string, string>, payload: seq<byte>)

  const STRING_TYPE: byte := 7

  // ---------------------------------------------------------------- reading

  /** What a read at `i` gives. The program may read past the end of the frame, and what it finds
      there is `beyond`. */
  function At(data: seq<byte>, beyond: int -> byte, i: nat): byte {
    if i < |data| then data[i] else beyond(i)
  }

  /** One header: its text and where the next one starts; or the reason to stop. */
  datatype Field = Stop | Field(name: string, value: string, next: nat)

  function ReadField(data: seq<byte>, beyond: int -> byte, decode: seq<byte> -> string, offset: nat): (r: Field)
    requires offset < |data|
    ensures r.Field? ==> offset < r.next <= |data|
  {
    var name := offset + 1;
    var kind := name + data[offset];
    if kind > |data| || At(data, beyond, kind) != STRING_TYPE then Stop
    else
      var value := kind + 3;
      var next := value + 256 * (At(data, beyond, kind + 1) as int) + At(data, beyond, kind + 2);
      if next > |data| then Stop else Field(decode(data[name..kind]), decode(data[value..next]), next)
  }

  /** The headers from `offset` on, added to those already found. */
  function Headers(data: seq<byte>, beyond: int -> byte, decode: seq<byte> -> string, offset: nat, end: int,
                   found: map<string, string>): map<string, string>
    decreases |data| - offset
  {
    if offset >= end || offset >= |data| then found
    else
      match ReadField(data, beyond, decode, offset)
      case Stop => found
      case Field(name, value, next) => Headers(data, beyond, decode, next, end, found[name := value])
  }

  function Parse(data: seq<byte>, beyond: int -> byte, decode: seq<byte> -> string): Option<Frame> {
    if |data| < 8 then None
    else
      var headersLength := U32(data, 4);
      var start, end := 12 + headersLength, |data| - 4;
      Some(Frame(Headers(data, beyond, decode, 12, start, map[]), if end > start then data[start..end] else []))
  }

  // ---------------------------------------------------------------- nothing beyond the frame

  /** What lies beyond the frame has no influence: whatever the program reads there, it stops. */
  lemma {:induction false} HeadersInside(data: seq<byte>, a: int -> byte, b: int -> byte, decode: seq<byte> -> string,
                                         offset: nat, end: int, found: map<string, string>)
    ensures Headers(data, a, decode, offset, end, found) == Headers(data, b, decode, offset, end, found)
    decreases |data| - offset
  {
    if offset < end && offset < |data| {
      assert ReadField(data, a, decode, offset) == ReadField(data, b, decode, offset);
      match ReadField(data, a, decode, offset)
      case Stop =>
      case Field(name, value, next) => HeadersInside(data, a, b, decode, next, end, found[name := value]);
    }
  }

  lemma ReadsInside(data: seq<byte>, a: int -> byte, b: int -> byte, decode: seq<byte> -> string)
    ensures Parse(data, a, decode) == Parse(data, b, decode)
  {
    if |data| >= 8 {
      HeadersInside(data, a, b, decode, 12, 12 + U32(data, 4), map[]);
    }
  }

  // ---------------------------------------------------------------- writing

  datatype Header = Header(name: seq<byte>, value: seq<byte>)

  /** A message; the checksums are any 4 bytes. */
  datatype Message = Message(headers: seq<Header>, payload: seq<byte>, preludeCrc: seq<byte>, crc: seq<byte>)

  predicate IsHeader(h: Header) { |h.name| < 256 && |h.value| < TWO16 }

  ghost predicate AreHeaders(hs: seq<Header>) { forall h :: h in hs ==> IsHeader(h) }

  function EncodeHeader(h: Header): (r: seq<byte>)
    requires IsHeader(h)
    ensures |r| == |h.name| + |h.value| + 4
  {
    [|h.name|] + h.name + [STRING_TYPE] + PutU16(|h.value|) + h.value
  }

  function EncodeHeaders(hs: seq<Header>): seq<byte>
    requires AreHeaders(hs)
  {
    if hs == [] then [] else EncodeHeader(hs[0]) + EncodeHeaders(hs[1..])
  }

  /** A message that the encoding can express. */
  ghost predicate IsMessage(m: Message) {
    && AreHeaders(m.headers) && |m.preludeCrc| == 4 && |m.crc| == 4
    && 16 + |EncodeHeaders(m.headers)| + |m.payload| < TWO32
  }

  ghost function Encode(m: Message): seq<byte>
    requires IsMessage(m)
  {
    var hs := EncodeHeaders(m.headers);
    PutU32(16 + |hs| + |m.payload|) + PutU32(|hs|) + m.preludeCrc + hs + m.payload + m.crc
  }

  /** The headers of a message as text; of two with the same name the later counts. */
  function HeaderMap(hs: seq<Header>, decode: seq<byte> -> string, found: map<string, string>): map<string, string> {
    if hs == [] then found else HeaderMap(hs[1..], decode, found[decode(hs[0].name) := decode(hs[0].value)])
  }

  // ---------------------------------------------------------------- round trips

  /** Where one encoded header stands in the data, the parser finds it. */
  lemma FindHeader(data: seq<byte>, beyond: int -> byte, decode: seq<byte> -> string, offset: nat, h: Header)
    requires IsHeader(h) && offset + |EncodeHeader(h)| <= |data|
    requires data[offset..offset + |EncodeHeader(h)|] == EncodeHeader(h)
    ensures ReadField(data, beyond, decode, offset) ==
              Field(decode(h.name), decode(h.value), offset + |EncodeHeader(h)|)
  {
    var e := EncodeHeader(h);
    var next, n := offset + |e|, |h.name|;
    EncodedParts(h);
    assert data[offset] == e[0] && data[offset + 1 + n] == e[1 + n];
    assert data[offset + 2 + n] == e[2 + n] && data[offset + 3 + n] == e[3 + n];
    hide EncodeHeader;
    SubSlice(data, offset, next, 1, 1 + n);
    SubSlice(data, offset, next, 4 + n, |e|);
  }

  lemma EncodedParts(h: Header)
    requires IsHeader(h)
    ensures var e, n := EncodeHeader(h), |h.name|;
            && e[0] == n && e[1..1 + n] == h.name && e[1 + n] == STRING_TYPE
            && 256 * (e[2 + n] as int) + e[3 + n] == |h.value| && e[4 + n..|e|] == h.value
  {
    var e, n := EncodeHeader(h), |h.name|;
    assert e[2 + n] == PutU16(|h.value|)[0] && e[3 + n] == PutU16(|h.value|)[1];
  }

  lemma SplitSlice<T>(data: seq<T>, a: nat, b: nat, x: seq<T>, y: seq<T>)
    requires a <= b <= |data| && data[a..b] == x + y
    ensures a + |x| <= b && data[a..a + |x|] == x && data[a + |x|..b] == y
  {
    assert |x + y| == |data[a..b]|;
    SubSlice(data, a, b, 0, |x|);
    SubSlice(data, a, b, |x|, b - a);
  }

  lemma EncodedFirst(hs: seq<Header>)
    requires AreHeaders(hs) && hs != []
    ensures IsHeader(hs[0]) && AreHeaders(hs[1..]) && EncodeHeader(hs[0]) != []
    ensures EncodeHeaders(hs) == EncodeHeader(hs[0]) + EncodeHeaders(hs[1..])
  {
    assert forall h :: h in hs[1..] ==> h in hs;
  }

  lemma HeadersStep(data: seq<byte>, beyond: int -> byte, decode: seq<byte> -> string, offset: nat, end: int,
                    found: map<string, string>)
    requires offset < end && offset < |data|
    ensures match ReadField(data, beyond, decode, offset)
            case Stop => true
            case Field(name, value, next) =>
              Headers(data, beyond, decode, offset, end, found) ==
                Headers(data, beyond, decode, next, end, found[name := value])
  {
    hide ReadField;
  }

  lemma HeadersFirst(data: seq<byte>, beyond: int -> byte, decode: seq<byte> -> string, offset: nat, end: int,
                     found: map<string, string>, hs: seq<Header>)
    requires AreHeaders(hs) && hs != [] && offset <= end <= |data| && data[offset..end] == EncodeHeaders(hs)
    ensures AreHeaders(hs[1..]) && IsHeader(hs[0])
    ensures var next := offset + |EncodeHeader(hs[0])|;
            && next <= end && data[next..end] == EncodeHeaders(hs[1..])
            && Headers(data, beyond, decode, offset, end, found) ==
                 Headers(data, beyond, decode, next, end, found[decode(hs[0].name) := decode(hs[0].value)])
  {
    hide ReadField, EncodeHeader, EncodeHeaders, Headers, AreHeaders;
    EncodedFirst(hs);
    SplitSlice(data, offset, end, EncodeHeader(hs[0]), EncodeHeaders(hs[1..]));
    FindHeader(data, beyond, decode, offset, hs[0]);
    HeadersStep(data, beyond, decode, offset, end, found);
  }

  lemma {:induction false} HeadersRoundTrip(data: seq<byte>, beyond: int -> byte, decode: seq<byte> -> string,
                                            offset: nat, end: int, found: map<string, string>, hs: seq<Header>)
    requires AreHeaders(hs) && offset <= end <= |data| && data[offset..end] == EncodeHeaders(hs)
    ensures Headers(data, beyond, decode, offset, end, found) == HeaderMap(hs, decode, found)
    decreases |hs|
  {
    hide EncodeHeader, EncodeHeaders, Headers, AreHeaders;
    if hs != [] {
      HeadersFirst(data, beyond, decode, offset, end, found, hs);
      HeadersRoundTrip(data, beyond, decode, offset + |EncodeHeader(hs[0])|, end,
                       found[decode(hs[0].name) := decode(hs[0].value)], hs[1..]);
    } else {
      HeadersNone(data, beyond, decode, offset, end, found);
    }
  }

  lemma HeadersNone(data: seq<byte>, beyond: int -> byte, decode: seq<byte> -> string, offset: nat, end: int,
                    found: map<string, string>)
    requires offset <= end <= |data| && data[offset..end] == EncodeHeaders([])
    ensures Headers(data, beyond, decode, offset, end, found) == found
  {
    assert |data[offset..end]| == 0;
  }

  /** A message's frame parses to the message's headers and payload. */
  lemma RoundTrip(m: Message, beyond: int -> byte, decode: seq<byte> -> string)
    requires IsMessage(m)
    ensures Parse(Encode(m), beyond, decode) == Some(Frame(HeaderMap(m.headers, decode, map[]), m.payload))
  {
    hide Headers, EncodeHeaders, HeaderMap;
    var data, hs := Encode(m), EncodeHeaders(m.headers);
    assert U32(data, 4) == |hs| by {
      assert forall i :: 0 <= i < 4 ==> data[4 + i] == PutU32(|hs|)[i];
    }
    assert data[12..12 + |hs|] == hs;
    assert data[12 + |hs|..|data| - 4] == m.payload;
    HeadersRoundTrip(data, beyond, decode, 12, 12 + |hs|, map[], m.headers);
  }

  // ---------------------------------------------------------------- whole streams

  ghost predicate AreMessages(ms: seq<Message>) { forall m :: m in ms ==> IsMessage(m) }

  ghost function EncodeAll(ms: seq<Message>): seq<seq<byte>>
    requires AreMessages(ms)
  {
    seq(|ms|, i requires 0 <= i < |ms| => Encode(ms[i]))
  }

  lemma EncodedHead(m: Message, more: seq<byte>)
    requires IsMessage(m)
    ensures KiroFraming.Head(Encode(m) + more) == Some(|Encode(m)|)
  {
    var total := 16 + |EncodeHeaders(m.headers)| + |m.payload|;
    hide EncodeHeaders, PutU32;
    assert Encode(m)[..4] == PutU32(total);
    var b := Encode(m) + more;
    assert b[..4] == Encode(m)[..4];
    assert U32(b, 0) == U32(b[..4], 0);
  }

  function Behind(ss: seq<seq<byte>>): seq<byte> { if ss == [] then [] else ss[0] + Behind(ss[1..]) }

  lemma {:induction false} BehindIsFlatten(ss: seq<seq<byte>>)
    ensures Behind(ss) == Flatten(ss)
  {
    if ss != [] {
      BehindIsFlatten(ss[1..]);
      FlattenConcat([ss[0]], ss[1..]);
      FlattenOne(ss[0]);
      assert [ss[0]] + ss[1..] == ss;
    }
  }

  /** The batch parser finds exactly the frames of the messages. */
  lemma {:induction false} GreedyRoundTrip(ms: seq<Message>)
    requires AreMessages(ms)
    ensures KiroFraming.Greedy(Behind(EncodeAll(ms))) == EncodeAll(ms)
  {
    if ms != [] {
      hide KiroFraming.Head, Encode;
      var first, rest := Encode(ms[0]), Behind(EncodeAll(ms[1..]));
      assert EncodeAll(ms) == [first] + EncodeAll(ms[1..]);
      assert EncodeAll(ms)[1..] == EncodeAll(ms[1..]);
      GreedyRoundTrip(ms[1..]);
      EncodedHead(ms[0], rest);
      var all := first + rest;
      assert all[..|first|] == first && all[|first|..] == rest;
    }
  }

  /** End to end: however the bytes of the messages are cut into chunks, the frames given out parse to
      the messages, in order, unless the last call was cut short by the iteration cap; nothing is left
      in the buffer. */
  lemma StreamRoundTrip(ms: seq<Message>, chunks: seq<seq<byte>>, last: seq<byte>, beyond: int -> byte,
                        decode: seq<byte> -> string)
    requires AreMessages(ms) && Flatten(chunks + [last]) == Flatten(EncodeAll(ms))
    requires !KiroFraming.Capped(KiroFraming.ReceiveAll(chunks), last)
    ensures var s := KiroFraming.ReceiveAll(chunks + [last]);
            && s.buffer == []
            && |s.frames| == |ms|
            && forall i :: 0 <= i < |ms| ==>
                 Parse(s.frames[i], beyond, decode) ==
                   Some(Frame(HeaderMap(ms[i].headers, decode, map[]), ms[i].payload))
  {
    hide Parse, Encode, KiroFraming.ReceiveAll, KiroFraming.Greedy, Flatten, KiroFraming.Capped;
    BehindIsFlatten(EncodeAll(ms));
    GreedyRoundTrip(ms);
    KiroFraming.ExactUnlessCapped(chunks, last);
    KiroFraming.Refines(chunks + [last]);
    var s := KiroFraming.ReceiveAll(chunks + [last]);
    assert s.frames == EncodeAll(ms);
    assert Flatten(s.frames) + [] == Flatten(s.frames);
    Cancel(Flatten(s.frames), s.buffer, []);
    forall i | 0 <= i < |ms|
      ensures Parse(s.frames[i], beyond, decode) == Some(Frame(HeaderMap(ms[i].headers, decode, map[]), ms[i].payload))
    {
      RoundTrip(ms[i], beyond, decode);
    }
  }

  // ---------------------------------------------------------------- the program

  /** The body of the header loop. */
  method NextField(data: seq<byte>, beyond: int -> byte, decode: seq<byte> -> string, start: nat) returns (field: Field)
    requires start < |data|
    ensures field == ReadField(data, beyond, decode, start)
  {
    var nameLen := data[start];
    var offset := start + 1;
    if offset + nameLen > |data| { return Stop; }
    var name := decode(data[offset..offset + nameLen]);
    offset := offset + nameLen;
    var headerType := At(data, beyond, offset);
    offset := offset + 1;
    if headerType != STRING_TYPE { return Stop; }
    var valueLen := 256 * (At(data, beyond, offset) as int) + At(data, beyond, offset + 1);
    offset := offset + 2;
    if offset + valueLen > |data| { return Stop; }
    return Field(name, decode(data[offset..offset + valueLen]), offset + valueLen);
  }

  /** parseEventFrame, with its walking offset. */
  method ParseEventFrame(data: seq<byte>, beyond: int -> byte, decode: seq<byte> -> string)
    returns (event: Option<Frame>)
    ensures event == Parse(data, beyond, decode)
  {
    hide ReadField, At;
    if |data| < 8 { return None; }
    var headersLength := U32(data, 4);
    var headers: map<string, string> := map[];
    var offset := 12;
    var headerEnd := 12 + headersLength;
    while offset < headerEnd && offset < |data|
      invariant 12 <= offset
      invariant Headers(data, beyond, decode, offset, headerEnd, headers) ==
                  Headers(data, beyond, decode, 12, headerEnd, map[])
      decreases |data| - offset
    {
      var field := NextField(data, beyond, decode, offset);
      if field.Stop? { break; }
      headers := headers[field.name := field.value];
      offset := field.next;
    }
    var payloadStart, payloadEnd := 12 + headersLength, |data| - 4;
    return Some(Frame(headers, if payloadEnd > payloadStart then data[payloadStart..payloadEnd] else []));
  }
}
