/**
 The upstream wire format, application/vnd.amazon.eventstream (proxy/kiro.go): a frame is a
 12-byte prelude (total length, headers length, CRC), typed headers, a payload and a closing CRC.
 The CRC is a parameter: nothing here depends on which function of the bytes it is.
 */
module EventFrames {
  import opened Text

  type byte = x: int | 0 <= x < 256
  type U32 = x: int | 0 <= x < 0x1_0000_0000
  type Checksum = seq<byte> -> U32

  datatype Result<T, E> = Ok(value: T) | Err(error: E)

  // ---------------------------------------------------------------- integers

  /** Two bytes, most significant first. */
  function Uint16(data: seq<byte>): nat
    requires |data| >= 2
  {
    var high: int, low: int := data[0], data[1];
    high * 0x100 + low
  }

  function PutUint16(x: nat): (data: seq<byte>)
    requires x < 0x1_0000
    ensures |data| == 2 && Uint16(data) == x
  {
    [x / 0x100, x % 0x100]
  }

  /** Four bytes, most significant first. */
  function Uint32(data: seq<byte>): U32
    requires |data| >= 4
  {
    Uint16Bound(data[..2]);
    Uint16Bound(data[2..4]);
    Uint16(data[..2]) * 0x1_0000 + Uint16(data[2..4])
  }

  function PutUint32(x: U32): (data: seq<byte>)
    ensures |data| == 4 && Uint32(data) == x
  {
    var high, low := PutUint16(x / 0x1_0000), PutUint16(x % 0x1_0000);
    assert (high + low)[..2] == high && (high + low)[2..4] == low;
    high + low
  }

  lemma Uint16Bound(data: seq<byte>)
    requires |data| == 2
    ensures Uint16(data) < 0x1_0000 && PutUint16(Uint16(data)) == data
  {
  }

  lemma PutUint32OfUint32(data: seq<byte>)
    requires |data| == 4
    ensures PutUint32(Uint32(data)) == data
  {
    hide Uint16, PutUint16;
    Uint16Bound(data[..2]);
    Uint16Bound(data[2..4]);
    assert data == data[..2] + data[2..4];
  }

  // ---------------------------------------------------------------- headers

  /** A header: its name, its value type and the value's bytes. */
  datatype Header = Header(name: seq<byte>, kind: byte, data: seq<byte>)

  const BYTES_KIND: byte := 6
  const STRING_KIND: byte := 7

  /** The size of a fixed-size value, or -1. */
  function FixedLength(kind: byte): int {
    match kind
    case 0 => 0
    case 1 => 0
    case 2 => 1
    case 3 => 2
    case 4 => 4
    case 5 => 8
    case 8 => 8
    case 9 => 16
    case _ => -1
  }

  predicate IsVariable(kind: byte) {
    kind == BYTES_KIND || kind == STRING_KIND
  }

  predicate ValidHeader(h: Header) {
    && 1 <= |h.name| <= 255
    && if IsVariable(h.kind) then |h.data| < 0x1_0000 else |h.data| == FixedLength(h.kind)
  }

  function EncodeHeader(h: Header): (data: seq<byte>)
    requires ValidHeader(h)
  {
    [|h.name|] + h.name + [h.kind] + (if IsVariable(h.kind) then PutUint16(|h.data|) else []) + h.data
  }

  ghost predicate ValidHeaders(hs: seq<Header>) {
    forall h :: h in hs ==> ValidHeader(h)
  }

  function EncodeHeaders(hs: seq<Header>): seq<byte>
    requires ValidHeaders(hs)
  {
    if hs == [] then [] else EncodeHeader(hs[0]) + EncodeHeaders(hs[1..])
  }

  /** Only string headers are kept; a repeated name keeps its last value. */
  function StringHeaders(hs: seq<Header>): map<seq<byte>, seq<byte>> {
    if hs == [] then map[]
    else
      var h := hs[|hs| - 1];
      var before := StringHeaders(hs[..|hs| - 1]);
      if h.kind == STRING_KIND then before[h.name := h.data] else before
  }

  datatype HeaderError = MalformedName | MalformedVariable | UnsupportedType(kind: byte) | TruncatedValue

  /** The first header of `data` and how many bytes it takes. */
  function DecodeHeader(data: seq<byte>): (r: Result<(Header, nat), HeaderError>)
    requires data != []
    ensures r.Ok? ==> 0 < r.value.1 <= |data|
  {
    var n := data[0];
    if n == 0 || 1 + n >= |data| then Err(MalformedName)
    else
      var name, kind := data[1..1 + n], data[1 + n];
      var at := n + 2;
      if IsVariable(kind) then
        if at + 2 > |data| then Err(MalformedVariable)
        else
          var length := Uint16(data[at..]);
          if at + 2 + length > |data| then Err(TruncatedValue)
          else Ok((Header(name, kind, data[at + 2..at + 2 + length]), at + 2 + length))
      else if FixedLength(kind) < 0 then Err(UnsupportedType(kind))
      else if at + FixedLength(kind) > |data| then Err(TruncatedValue)
      else Ok((Header(name, kind, data[at..at + FixedLength(kind)]), at + FixedLength(kind)))
  }

  function DecodeHeaders(data: seq<byte>): Result<seq<Header>, HeaderError>
    decreases |data|
  {
    if data == [] then Ok([])
    else
      match DecodeHeader(data)
      case Err(e) => Err(e)
      case Ok((h, size)) =>
        Prepend([h], DecodeHeaders(data[size..]))
  }

  /** Reading back what was written, whatever follows it. */
  lemma HeaderRoundTrip(h: Header, rest: seq<byte>)
    requires ValidHeader(h)
    ensures DecodeHeader(EncodeHeader(h) + rest) == Ok((h, |EncodeHeader(h)|))
  {
    var data := EncodeHeader(h) + rest;
    var n := |h.name|;
    assert data[0] == n && data[1..1 + n] == h.name && data[1 + n] == h.kind;
    if IsVariable(h.kind) {
      assert data[n + 2] == PutUint16(|h.data|)[0] && data[n + 3] == PutUint16(|h.data|)[1];
      assert Uint16(data[n + 2..]) == |h.data|;
      assert data[n + 4..n + 4 + |h.data|] == h.data;
    } else {
      assert data[n + 2..n + 2 + |h.data|] == h.data;
    }
  }

  /** And writing back what was read. */
  lemma HeaderReencode(data: seq<byte>)
    requires data != [] && DecodeHeader(data).Ok?
    ensures var (h, size) := DecodeHeader(data).value; ValidHeader(h) && EncodeHeader(h) == data[..size]
  {
    var (h, size) := DecodeHeader(data).value;
    var n: nat := data[0];
    HeaderIsCut(data);
    hide DecodeHeader;
    if IsVariable(h.kind) {
      Uint16Bound(data[n + 2..n + 4]);
      hide Uint16;
      CutInParts(data, n, n + 4, size);
    } else {
      hide Uint16, PutUint16;
      CutInParts(data, n, n + 2, size);
    }
  }

  lemma CutInParts(data: seq<byte>, n: nat, middle: nat, size: nat)
    requires n + 2 <= middle <= size <= |data|
    ensures data[..size]
              == [data[0]] + data[1..1 + n] + [data[1 + n]] + data[n + 2..middle] + data[middle..size]
  {
  }

  /** Where the parts of a header stand in its bytes. */
  lemma HeaderIsCut(data: seq<byte>)
    requires data != [] && DecodeHeader(data).Ok?
    ensures var (h, size) := DecodeHeader(data).value;
            var n := data[0];
            && 0 < n && n + 2 <= size && h.name == data[1..1 + n] && h.kind == data[1 + n]
            && (if IsVariable(h.kind) then
                  && n + 4 <= size && size == n + 4 + Uint16(data[n + 2..n + 4]) && h.data == data[n + 4..size]
                else
                  FixedLength(h.kind) >= 0 && size == n + 2 + FixedLength(h.kind) && h.data == data[n + 2..size])
  {
    var n := data[0];
    if 1 + n < |data| && n + 4 <= |data| { assert Uint16(data[n + 2..]) == Uint16(data[n + 2..n + 4]); }
  }

  lemma {:induction false} HeadersRoundTrip(hs: seq<Header>)
    requires ValidHeaders(hs)
    ensures DecodeHeaders(EncodeHeaders(hs)) == Ok(hs)
  {
    if hs != [] {
      hide DecodeHeader, EncodeHeader;
      HeadersRoundTrip(hs[1..]);
      HeaderRoundTrip(hs[0], EncodeHeaders(hs[1..]));
      EncodedHeaderNotEmpty(hs[0]);
      var data := EncodeHeaders(hs);
      assert data[|EncodeHeader(hs[0])|..] == EncodeHeaders(hs[1..]);
      assert [hs[0]] + hs[1..] == hs;
    }
  }

  lemma EncodedHeaderNotEmpty(h: Header)
    requires ValidHeader(h)
    ensures EncodeHeader(h) != []
  {
  }

  /** The parser accepts nothing but encodings of valid headers. */
  lemma {:induction false} HeadersReencode(data: seq<byte>)
    requires DecodeHeaders(data).Ok?
    ensures ValidHeaders(DecodeHeaders(data).value) && EncodeHeaders(DecodeHeaders(data).value) == data
    decreases |data|
  {
    if data != [] {
      hide DecodeHeader, EncodeHeader;
      var (h, size) := DecodeHeader(data).value;
      HeaderReencode(data);
      HeadersReencode(data[size..]);
      var hs := DecodeHeaders(data).value;
      assert hs[1..] == DecodeHeaders(data[size..]).value;
      assert data == data[..size] + data[size..];
    }
  }

  /** One turn of the header loop, from `start`. */
  method ParseHeader(data: seq<byte>, start: nat) returns (r: Result<(Header, nat), HeaderError>)
    requires start < |data|
    ensures r == DecodeHeader(data[start..])
  {
    hide Uint16, FixedLength, IsVariable;
    ghost var rest := data[start..];
    var offset := start;
    var nameLength := data[offset];
    offset := offset + 1;
    if nameLength == 0 || offset + nameLength >= |data| { return Err(MalformedName); }
    var name := data[offset..offset + nameLength];
    offset := offset + nameLength;
    var valueType := data[offset];
    offset := offset + 1;
    SliceOfDrop(data, start, 1, 1 + nameLength);
    assert rest[1 + nameLength] == valueType;
    var valueLength: nat := 0;
    if IsVariable(valueType) {
      if offset + 2 > |data| { return Err(MalformedVariable); }
      DropOfDrop(data, start, nameLength + 2);
      valueLength := Uint16(data[offset..]);
      offset := offset + 2;
    } else {
      if FixedLength(valueType) < 0 { return Err(UnsupportedType(valueType)); }
      valueLength := FixedLength(valueType);
    }
    if offset + valueLength > |data| { return Err(TruncatedValue); }
    SliceOfDrop(data, start, offset - start, offset - start + valueLength);
    return Ok((Header(name, valueType, data[offset..offset + valueLength]), offset - start + valueLength));
  }

  /** parseEventStreamHeaders: every index it uses is in bounds, and it keeps exactly the string headers. */
  method ParseHeaders(data: seq<byte>) returns (r: Result<map<seq<byte>, seq<byte>>, HeaderError>)
    ensures match DecodeHeaders(data)
            case Ok(hs) => r == Ok(StringHeaders(hs))
            case Err(e) => r == Err(e)
  {
    hide DecodeHeader;
    var headers: map<seq<byte>, seq<byte>> := map[];
    var offset := 0;
    ghost var sofar: seq<Header> := [];
    assert data[0..] == data;
    PrependNothing(DecodeHeaders(data));
    while offset < |data|
      invariant 0 <= offset <= |data|
      invariant headers == StringHeaders(sofar)
      invariant DecodeHeaders(data) == Prepend(sofar, DecodeHeaders(data[offset..]))
    {
      var step := ParseHeader(data, offset);
      if step.Err? { return Err(step.error); }
      var (h, size) := step.value;
      assert data[offset..][size..] == data[offset + size..];
      PrependOne(sofar, h, DecodeHeaders(data[offset + size..]));
      if h.kind == STRING_KIND {
        headers := headers[h.name := h.data];
      }
      assert (sofar + [h])[..|sofar|] == sofar;
      offset, sofar := offset + size, sofar + [h];
    }
    assert data[|data|..] == [];
    assert sofar + [] == sofar;
    return Ok(headers);
  }

  function Prepend(hs: seq<Header>, r: Result<seq<Header>, HeaderError>): Result<seq<Header>, HeaderError> {
    match r
    case Ok(rest) => Ok(hs + rest)
    case Err(e) => Err(e)
  }

  lemma PrependOne(hs: seq<Header>, h: Header, r: Result<seq<Header>, HeaderError>)
    ensures Prepend(hs, Prepend([h], r)) == Prepend(hs + [h], r)
  {
    if r.Ok? {
      assert hs + ([h] + r.value) == hs + [h] + r.value;
    }
  }

  lemma PrependNothing(r: Result<seq<Header>, HeaderError>)
    ensures Prepend([], r) == r
  {
    if r.Ok? {
      assert [] + r.value == r.value;
    }
  }

  // ---------------------------------------------------------------- frames

  const MAX_EVENT_STREAM_MESSAGE_SIZE := 16 * 1024 * 1024

  datatype Message = Message(headers: seq<Header>, payload: seq<byte>)

  /** How the connection stops delivering bytes. */
  datatype Ending = EndOfStream | Broken

  /** How reading the stream ended: only CleanEnd is a complete stream. */
  datatype StreamEnd =
    | CleanEnd
    | TruncatedStream
    | ReadFailure
    | InvalidFrameLength
    | InvalidHeadersLength
    | PreludeChecksumMismatch
    | MessageChecksumMismatch
    | InvalidHeaders(error: HeaderError)

  ghost predicate ValidMessage(m: Message) {
    ValidHeaders(m.headers) && 16 + |EncodeHeaders(m.headers)| + |m.payload| <= MAX_EVENT_STREAM_MESSAGE_SIZE
  }

  function EncodePrelude(total: U32, headersLength: U32, crc: Checksum): (data: seq<byte>)
    ensures |data| == 12
  {
    var lengths := PutUint32(total) + PutUint32(headersLength);
    lengths + PutUint32(crc(lengths))
  }

  function EncodeMessage(m: Message, crc: Checksum): (data: seq<byte>)
    requires ValidMessage(m)
    ensures |data| == 16 + |EncodeHeaders(m.headers)| + |m.payload|
  {
    var headers := EncodeHeaders(m.headers);
    var body := EncodePrelude(16 + |headers| + |m.payload|, |headers|, crc) + headers + m.payload;
    body + PutUint32(crc(body))
  }

  function EncodeAll(ms: seq<Message>, crc: Checksum): seq<byte>
    requires forall m :: m in ms ==> ValidMessage(m)
  {
    if ms == [] then [] else EncodeMessage(ms[0], crc) + EncodeAll(ms[1..], crc)
  }

  /** What io.ReadFull reports when the stream has fewer bytes than asked for. */
  function ShortRead(available: nat, ending: Ending): StreamEnd {
    if ending == Broken then ReadFailure
    else if available == 0 then CleanEnd
    else TruncatedStream
  }

  /** A read cut short inside a frame: an end of file there is never a clean one. */
  function FrameReadError(e: StreamEnd): StreamEnd {
    if e == CleanEnd then TruncatedStream else e
  }

  /** The lengths a prelude announces, or why the frame is refused. */
  function CheckPrelude(prelude: seq<byte>, crc: Checksum): (r: Result<(nat, nat), StreamEnd>)
    requires |prelude| == 12
    ensures r.Ok? ==> r.value.0 >= 16 && r.value.1 <= r.value.0 - 16
    ensures r.Err? ==> r.error != CleanEnd
  {
    var totalLength, headersLength := Uint32(prelude[..4]), Uint32(prelude[4..8]);
    if totalLength < 16 || totalLength > MAX_EVENT_STREAM_MESSAGE_SIZE then Err(InvalidFrameLength)
    else if headersLength > totalLength - 16 then Err(InvalidHeadersLength)
    else if Uint32(prelude[8..12]) != crc(prelude[..8]) then Err(PreludeChecksumMismatch)
    else Ok((totalLength, headersLength))
  }

  /** The message in a complete frame whose prelude was accepted. */
  function CheckMessage(frame: seq<byte>, headersLength: nat, crc: Checksum): (r: Result<Message, StreamEnd>)
    requires |frame| >= 16 && headersLength <= |frame| - 16
    ensures r.Err? ==> r.error != CleanEnd
  {
    var end := |frame| - 4;
    if Uint32(frame[end..]) != crc(frame[..end]) then Err(MessageChecksumMismatch)
    else
      match DecodeHeaders(frame[12..12 + headersLength])
      case Err(e) => Err(InvalidHeaders(e))
      case Ok(hs) => Ok(Message(hs, frame[12 + headersLength..end]))
  }

  /** The first frame of a stream and its size, or how the stream ends. */
  function DecodeFrame(data: seq<byte>, ending: Ending, crc: Checksum): (r: Result<(Message, nat), StreamEnd>)
    ensures r.Ok? ==> 16 <= r.value.1 <= |data|
  {
    if |data| < 12 then Err(ShortRead(|data|, ending))
    else
      match CheckPrelude(data[..12], crc)
      case Err(e) => Err(e)
      case Ok((total, headersLength)) =>
        if |data| < total then Err(FrameReadError(ShortRead(|data| - 12, ending)))
        else
          match CheckMessage(data[..total], headersLength, crc)
          case Err(e) => Err(e)
          case Ok(m) => Ok((m, total))
  }

  function DecodeStream(data: seq<byte>, ending: Ending, crc: Checksum): (seq<Message>, StreamEnd)
    decreases |data|
  {
    match DecodeFrame(data, ending, crc)
    case Err(e) => ([], e)
    case Ok((m, size)) =>
      var (ms, end) := DecodeStream(data[size..], ending, crc);
      ([m] + ms, end)
  }

  // ---------------------------------------------------------------- round trips

  lemma PreludeRoundTrip(total: U32, headersLength: U32, crc: Checksum)
    requires 16 <= total <= MAX_EVENT_STREAM_MESSAGE_SIZE && headersLength <= total - 16
    ensures CheckPrelude(EncodePrelude(total, headersLength, crc), crc) == Ok((total, headersLength))
  {
    hide Uint32, PutUint32;
    var prelude := EncodePrelude(total, headersLength, crc);
    var lengths := PutUint32(total) + PutUint32(headersLength);
    assert prelude[..8] == lengths;
    assert prelude[..4] == PutUint32(total) && prelude[4..8] == PutUint32(headersLength);
    assert prelude[8..12] == PutUint32(crc(lengths));
  }

  lemma MessageRoundTrip(m: Message, crc: Checksum)
    requires ValidMessage(m)
    ensures var headersLength := |EncodeHeaders(m.headers)|;
            CheckMessage(EncodeMessage(m, crc), headersLength, crc) == Ok(m)
  {
    hide Uint32, PutUint32, DecodeHeaders, EncodePrelude;
    var frame, headers := EncodeMessage(m, crc), EncodeHeaders(m.headers);
    var end := |frame| - 4;
    var body := EncodePrelude(16 + |headers| + |m.payload|, |headers|, crc) + headers + m.payload;
    assert frame[..end] == body && frame[end..] == PutUint32(crc(body));
    assert frame[12..12 + |headers|] == headers;
    assert frame[12 + |headers|..end] == m.payload;
    HeadersRoundTrip(m.headers);
  }

  lemma FrameRoundTrip(m: Message, rest: seq<byte>, ending: Ending, crc: Checksum)
    requires ValidMessage(m)
    ensures DecodeFrame(EncodeMessage(m, crc) + rest, ending, crc) == Ok((m, |EncodeMessage(m, crc)|))
  {
    hide CheckPrelude, CheckMessage, EncodePrelude, PutUint32;
    var frame := EncodeMessage(m, crc);
    var data := frame + rest;
    PreludeOfMessage(m, crc);
    assert data[..12] == frame[..12] && data[..|frame|] == frame;
    MessageRoundTrip(m, crc);
  }

  lemma PreludeOfMessage(m: Message, crc: Checksum)
    requires ValidMessage(m)
    ensures var frame, headersLength := EncodeMessage(m, crc), |EncodeHeaders(m.headers)|;
            CheckPrelude(frame[..12], crc) == Ok((|frame|, headersLength))
  {
    hide CheckPrelude, PutUint32;
    var frame, headers := EncodeMessage(m, crc), EncodeHeaders(m.headers);
    assert frame[..12] == EncodePrelude(16 + |headers| + |m.payload|, |headers|, crc) by { hide EncodePrelude; }
    PreludeRoundTrip(|frame|, |headers|, crc);
  }

  /** Decoding the encodings of any messages, followed by anything, gives them back and goes on from there. */
  lemma {:induction false} DecodeAfter(ms: seq<Message>, rest: seq<byte>, ending: Ending, crc: Checksum)
    requires forall m :: m in ms ==> ValidMessage(m)
    ensures var (more, end) := DecodeStream(rest, ending, crc);
            DecodeStream(EncodeAll(ms, crc) + rest, ending, crc) == (ms + more, end)
  {
    hide DecodeStream, DecodeFrame, EncodeMessage;
    if ms == [] {
      assert EncodeAll(ms, crc) + rest == rest;
      assert ms + DecodeStream(rest, ending, crc).0 == DecodeStream(rest, ending, crc).0;
    } else {
      var frame, tail := EncodeMessage(ms[0], crc), EncodeAll(ms[1..], crc) + rest;
      ConcatAssociative(frame, EncodeAll(ms[1..], crc), rest);
      FrameRoundTrip(ms[0], tail, ending, crc);
      assert (frame + tail)[|frame|..] == tail;
      DecodeStep(frame + tail, ending, crc, ms[0], |frame|);
      DecodeAfter(ms[1..], rest, ending, crc);
      assert [ms[0]] + ms[1..] == ms;
      ConcatAssociative([ms[0]], ms[1..], DecodeStream(rest, ending, crc).0);
    }
  }

  lemma DecodeStep(data: seq<byte>, ending: Ending, crc: Checksum, m: Message, size: nat)
    requires DecodeFrame(data, ending, crc) == Ok((m, size))
    ensures var (ms, end) := DecodeStream(data[size..], ending, crc); DecodeStream(data, ending, crc) == ([m] + ms, end)
  {
    hide DecodeFrame;
  }

  /** Decoding the concatenation of any encoded messages returns exactly those messages and a clean end. */
  lemma StreamRoundTrip(ms: seq<Message>, crc: Checksum)
    requires forall m :: m in ms ==> ValidMessage(m)
    ensures DecodeStream(EncodeAll(ms, crc), EndOfStream, crc) == (ms, CleanEnd)
  {
    hide EncodeAll;
    DecodeAfter(ms, [], EndOfStream, crc);
    assert DecodeStream([], EndOfStream, crc) == ([], CleanEnd);
    assert EncodeAll(ms, crc) + [] == EncodeAll(ms, crc);
    assert ms + [] == ms;
  }

  /** A stream cut inside a frame gives the messages before it and a truncation, never a clean end. */
  lemma CutInsideFrame(ms: seq<Message>, m: Message, cut: seq<byte>, crc: Checksum)
    requires ValidMessage(m) && forall m' :: m' in ms ==> ValidMessage(m')
    requires cut != [] && cut < EncodeMessage(m, crc)
    ensures DecodeStream(EncodeAll(ms, crc) + cut, EndOfStream, crc) == (ms, TruncatedStream)
  {
    hide EncodeAll, CheckPrelude, EncodeMessage;
    DecodeAfter(ms, cut, EndOfStream, crc);
    PreludeOfMessage(m, crc);
    if |cut| >= 12 {
      assert cut[..12] == EncodeMessage(m, crc)[..12];
    }
    assert ms + [] == ms;
  }

  /** Where a prefix of `k` bytes of the encoded stream stops: after how many whole messages. */
  function WholeMessages(ms: seq<Message>, k: nat, crc: Checksum): (n: nat)
    requires forall m :: m in ms ==> ValidMessage(m)
    requires k <= |EncodeAll(ms, crc)|
    ensures n <= |ms|
  {
    if ms == [] || k < |EncodeMessage(ms[0], crc)| then 0
    else 1 + WholeMessages(ms[1..], k - |EncodeMessage(ms[0], crc)|, crc)
  }

  /** Every prefix of a stream decodes to its whole messages, and ends cleanly exactly on a frame boundary. */
  lemma {:induction false} PrefixDecodes(ms: seq<Message>, k: nat, crc: Checksum)
    requires forall m :: m in ms ==> ValidMessage(m)
    requires k <= |EncodeAll(ms, crc)|
    ensures var n := WholeMessages(ms, k, crc);
            DecodeStream(EncodeAll(ms, crc)[..k], EndOfStream, crc)
            == (ms[..n], if k == |EncodeAll(ms[..n], crc)| then CleanEnd else TruncatedStream)
  {
    hide DecodeFrame, DecodeStream, EncodeMessage;
    var data := EncodeAll(ms, crc)[..k];
    if ms == [] || k < |EncodeMessage(ms[0], crc)| {
      assert ms[..0] == [] && EncodeAll([], crc) == [];
      if k == 0 {
        StreamRoundTrip([], crc);
        assert data == EncodeAll([], crc);
      } else {
        assert data < EncodeMessage(ms[0], crc);
        CutInsideFrame([], ms[0], data, crc);
        assert EncodeAll([], crc) + data == data;
      }
    } else {
      var size, n := |EncodeMessage(ms[0], crc)|, WholeMessages(ms, k, crc);
      var rest := EncodeAll(ms[1..], crc)[..k - size];
      PrefixDecodes(ms[1..], k - size, crc);
      DecodeAfter([ms[0]], rest, EndOfStream, crc);
      OneMessage(ms[0], crc);
      assert data == EncodeAll([ms[0]], crc) + rest;
      assert [ms[0]] + ms[1..][..n - 1] == ms[..n];
      assert ms[..n][1..] == ms[1..][..n - 1];
    }
  }

  lemma OneMessage(m: Message, crc: Checksum)
    requires ValidMessage(m)
    ensures EncodeAll([m], crc) == EncodeMessage(m, crc)
  {
    hide EncodeMessage;
    assert EncodeAll([m][1..], crc) == [];
  }

  /** The decoder accepts nothing else: a clean end means the bytes encode the messages returned. */
  lemma {:induction false} CleanEndMeansEncoded(data: seq<byte>, ending: Ending, crc: Checksum)
    requires DecodeStream(data, ending, crc).1 == CleanEnd
    ensures var ms := DecodeStream(data, ending, crc).0;
            (forall m :: m in ms ==> ValidMessage(m)) && EncodeAll(ms, crc) == data
    decreases |data|
  {
    hide EncodeMessage, DecodeStream, DecodeFrame;
    match DecodeFrame(data, ending, crc)
    case Err(e) =>
      EmptyAtCleanEnd(data, ending, crc);
    case Ok((m, size)) =>
      var rest := DecodeStream(data[size..], ending, crc).0;
      DecodeStep(data, ending, crc, m, size);
      FrameReencode(data, ending, crc);
      CleanEndMeansEncoded(data[size..], ending, crc);
      assert ([m] + rest)[1..] == rest;
      assert data == data[..size] + data[size..];
  }

  lemma EmptyAtCleanEnd(data: seq<byte>, ending: Ending, crc: Checksum)
    requires DecodeFrame(data, ending, crc).Err?
    ensures DecodeStream(data, ending, crc) == ([], DecodeFrame(data, ending, crc).error)
    ensures DecodeFrame(data, ending, crc).error == CleanEnd ==> data == []
  {
  }

  lemma FrameReencode(data: seq<byte>, ending: Ending, crc: Checksum)
    requires DecodeFrame(data, ending, crc).Ok?
    ensures var (m, size) := DecodeFrame(data, ending, crc).value;
            ValidMessage(m) && EncodeMessage(m, crc) == data[..size]
  {
    hide Uint32, PutUint32, DecodeHeaders;
    var (m, size) := DecodeFrame(data, ending, crc).value;
    var frame := data[..size];
    var prelude := data[..12];
    var headersLength := Uint32(prelude[4..8]);
    assert frame[..12] == prelude;
    HeadersReencode(frame[12..12 + headersLength]);
    PreludeReencode(prelude, crc);
    var end := size - 4;
    PutUint32OfUint32(frame[end..]);
    assert frame[..end] == prelude + frame[12..12 + headersLength] + frame[12 + headersLength..end];
    assert frame == frame[..end] + frame[end..];
  }

  lemma {:induction false} PreludeReencode(prelude: seq<byte>, crc: Checksum)
    requires |prelude| == 12 && Uint32(prelude[8..12]) == crc(prelude[..8])
    ensures EncodePrelude(Uint32(prelude[..4]), Uint32(prelude[4..8]), crc) == prelude
  {
    hide Uint32, PutUint32;
    PutUint32OfUint32(prelude[..4]);
    PutUint32OfUint32(prelude[4..8]);
    PutUint32OfUint32(prelude[8..12]);
    assert prelude[..8] == prelude[..4] + prelude[4..8];
    assert prelude == prelude[..8] + prelude[8..12];
  }

  // ---------------------------------------------------------------- the frame loop

  /** What the event handlers are given of a message. */
  datatype Frame = Frame(headers: map<seq<byte>, seq<byte>>, payload: seq<byte>)

  function Frames(ms: seq<Message>): seq<Frame> {
    Collect(ms, (m: Message) => [Frame(StringHeaders(m.headers), m.payload)])
  }

  /** The framing part of parseEventStreamTracked, reading `data` until it ends or a frame is refused. */
  method ParseFrames(data: seq<byte>, ending: Ending, crc: Checksum) returns (frames: seq<Frame>, end: StreamEnd)
    ensures frames == Frames(DecodeStream(data, ending, crc).0)
    ensures end == DecodeStream(data, ending, crc).1
  {
    hide DecodeHeaders, DecodeStream, CheckPrelude, Uint32, Frames;
    frames := [];
    var offset := 0;
    ghost var sofar: seq<Message> := [];
    ParseStart(data, ending, crc);
    while true
      invariant 0 <= offset <= |data|
      invariant frames == Frames(sofar)
      invariant var (ms, e) := DecodeStream(data[offset..], ending, crc);
                DecodeStream(data, ending, crc) == (sofar + ms, e)
      decreases |data| - offset
    {
      ghost var rest := data[offset..];
      NoFrame(sofar, rest, ending, crc);
      if |data| - offset < 12 {
        return frames, ShortRead(|data| - offset, ending);
      }
      var prelude := data[offset..offset + 12];
      assert prelude == rest[..12];
      var lengths := CheckPrelude(prelude, crc);
      if lengths.Err? { return frames, lengths.error; }
      var (totalLength, headersLength) := lengths.value;
      if |data| - offset < totalLength {
        return frames, FrameReadError(ShortRead(|data| - offset - 12, ending));
      }
      var message := data[offset + 12..offset + totalLength];
      var end' := |message| - 4;
      ghost var frame := rest[..totalLength];
      assert rest[..totalLength] == prelude + message;
      FrameParts(prelude, message, frame, headersLength);
      if Uint32(message[end'..]) != crc(prelude + message[..end']) {
        return frames, MessageChecksumMismatch;
      }
      var headers := ParseHeaders(message[..headersLength]);
      if headers.Err? { return frames, InvalidHeaders(headers.error); }
      ghost var m := Message(DecodeHeaders(message[..headersLength]).value, message[headersLength..end']);
      assert DecodeFrame(rest, ending, crc) == Ok((m, totalLength));
      DecodeStep(rest, ending, crc, m, totalLength);
      FramesSnoc(sofar, m);
      assert rest[totalLength..] == data[offset + totalLength..];
      ConcatAssociative(sofar, [m], DecodeStream(data[offset + totalLength..], ending, crc).0);
      frames := frames + [Frame(headers.value, message[headersLength..end'])];
      offset, sofar := offset + totalLength, sofar + [m];
    }
  }

  lemma FrameParts(prelude: seq<byte>, message: seq<byte>, frame: seq<byte>, headersLength: nat)
    requires frame == prelude + message && |prelude| == 12 && headersLength <= |message| - 4
    ensures var end := |message| - 4;
            && frame[12..12 + headersLength] == message[..headersLength]
            && frame[|frame| - 4..] == message[end..]
            && frame[..|frame| - 4] == prelude + message[..end]
            && frame[12 + headersLength..|frame| - 4] == message[headersLength..end]
  {
  }

  lemma ParseStart(data: seq<byte>, ending: Ending, crc: Checksum)
    ensures data[0..] == data && Frames([]) == []
    ensures [] + DecodeStream(data, ending, crc).0 == DecodeStream(data, ending, crc).0
  {
  }

  lemma NoFrame(sofar: seq<Message>, data: seq<byte>, ending: Ending, crc: Checksum)
    ensures DecodeFrame(data, ending, crc).Err? ==>
              DecodeStream(data, ending, crc) == ([], DecodeFrame(data, ending, crc).error)
    ensures sofar + [] == sofar
  {
  }

  lemma FramesSnoc(ms: seq<Message>, m: Message)
    ensures Frames(ms + [m]) == Frames(ms) + [Frame(StringHeaders(m.headers), m.payload)]
  {
    CollectConcat(ms, [m], (m: Message) => [Frame(StringHeaders(m.headers), m.payload)]);
    CollectOne(m, (m: Message) => [Frame(StringHeaders(m.headers), m.payload)]);
  }
}
