/**
The UDS v1 wire codec of the capture helper: big-endian framing with an exact header layout, and a bounded
streaming decoder that accepts its input in any split.
*/
module WireCodec {
  import opened Wrappers

  type Byte = b: int | 0 <= b < 256

  type Bytes = seq<Byte>

  // ---------- packed big-endian records ----------

  function Power256(width: nat): (p: nat)
    ensures p > 0
  {
    if width == 0 then 1 else 256 * Power256(width - 1)
  }

  function ToBytes(n: nat, width: nat): (bs: Bytes)
    ensures |bs| == width
  {
    if width == 0 then [] else ToBytes(n / 256, width - 1) + [n % 256]
  }

  function FromBytes(bs: Bytes): (n: nat)
    ensures n < Power256(|bs|)
  {
    if bs == [] then 0 else 256 * FromBytes(bs[..|bs| - 1]) + bs[|bs| - 1]
  }

  lemma {:induction false} NumberRoundTrip(n: nat, width: nat)
    requires n < Power256(width)
    ensures FromBytes(ToBytes(n, width)) == n
  {
    if width > 0 {
      NumberRoundTrip(n / 256, width - 1);
      assert ToBytes(n, width)[..width - 1] == ToBytes(n / 256, width - 1);
    }
  }

  lemma {:induction false} BytesRoundTrip(bs: Bytes)
    ensures ToBytes(FromBytes(bs), |bs|) == bs
  {
    if bs != [] {
      BytesRoundTrip(bs[..|bs| - 1]);
      assert FromBytes(bs) / 256 == FromBytes(bs[..|bs| - 1]);
    }
  }

  function Size(widths: seq<nat>): nat {
    if widths == [] then 0 else widths[0] + Size(widths[1..])
  }

  predicate Fits(values: seq<nat>, widths: seq<nat>) {
    |values| == |widths| && forall i :: 0 <= i < |widths| ==> values[i] < Power256(widths[i])
  }

  function Pack(values: seq<nat>, widths: seq<nat>): (bs: Bytes)
    requires |values| == |widths|
    ensures |bs| == Size(widths)
  {
    if widths == [] then [] else ToBytes(values[0], widths[0]) + Pack(values[1..], widths[1..])
  }

  function Unpack(bs: Bytes, widths: seq<nat>): (values: seq<nat>)
    requires |bs| == Size(widths)
    ensures Fits(values, widths)
  {
    if widths == [] then []
    else [FromBytes(bs[..widths[0]])] + Unpack(bs[widths[0]..], widths[1..])
  }

  lemma {:induction false} UnpackPack(values: seq<nat>, widths: seq<nat>)
    requires Fits(values, widths)
    ensures Unpack(Pack(values, widths), widths) == values
  {
    if widths != [] {
      NumberRoundTrip(values[0], widths[0]);
      UnpackPack(values[1..], widths[1..]);
      var bs := Pack(values, widths);
      assert bs[..widths[0]] == ToBytes(values[0], widths[0]);
      assert bs[widths[0]..] == Pack(values[1..], widths[1..]);
    }
  }

  lemma {:induction false} PackUnpack(bs: Bytes, widths: seq<nat>)
    requires |bs| == Size(widths)
    ensures Pack(Unpack(bs, widths), widths) == bs
  {
    if widths != [] {
      var w, rest := widths[0], widths[1..];
      var front, back := bs[..w], bs[w..];
      BytesRoundTrip(front);
      PackUnpack(back, rest);
      PackCons(FromBytes(front), Unpack(back, rest), widths);
      assert Unpack(bs, widths) == [FromBytes(front)] + Unpack(back, rest);
      assert bs == front + back;
    }
  }

  lemma PackCons(value: nat, values: seq<nat>, widths: seq<nat>)
    requires widths != [] && |values| == |widths[1..]|
    ensures Pack([value] + values, widths) == ToBytes(value, widths[0]) + Pack(values, widths[1..])
  {
    assert ([value] + values)[1..] == values;
  }

  // ---------- layout ----------

  const PROTOCOL_MAGIC: nat := 0x5652_4143 // "VRAC"
  const PROTOCOL_MAJOR: nat := 1
  const PROTOCOL_MINOR: nat := 0
  const COMMON_HEADER_SIZE: nat := 16
  const PCM_HEADER_SIZE: nat := 84
  const MAX_HEADER_SIZE: nat := 256
  const MAX_CONTROL_BODY_BYTES: nat := 65_536
  const MAX_FRAME_BYTES: nat := 1_048_576
  const PCM_PAYLOAD_BYTES: nat := 1_024

  /** magic, header length, major, minor, type, prefix flags, reserved, body length */
  const COMMON_HEADER: seq<nat> := [4, 2, 1, 1, 1, 1, 2, 4]

  /** capture, source, generation, sequence, host time, rate, samples, channels, width, flags, payload length */
  const PCM_EXTENSION: seq<nat> := [16, 16, 4, 8, 8, 4, 2, 1, 1, 4, 4]

  lemma HeaderSize()
    ensures Size(COMMON_HEADER) == COMMON_HEADER_SIZE
  {
    assert Size([4]) == 4;
    assert COMMON_HEADER[1..] == [2, 1, 1, 1, 1, 2, 4];
    assert Size([1, 1, 1, 1, 2, 4]) == 10 by {
      assert [1, 1, 1, 1, 2, 4][1..] == [1, 1, 1, 2, 4] && [1, 1, 1, 2, 4][1..] == [1, 1, 2, 4];
      assert [1, 1, 2, 4][1..] == [1, 2, 4] && [1, 2, 4][1..] == [2, 4] && [2, 4][1..] == [4];
    }
    assert [2, 1, 1, 1, 1, 2, 4][1..] == [1, 1, 1, 1, 2, 4];
  }

  lemma ExtensionSize()
    ensures Size(PCM_EXTENSION) == PCM_HEADER_SIZE - COMMON_HEADER_SIZE
  {
    assert PCM_EXTENSION[1..] == [16, 4, 8, 8, 4, 2, 1, 1, 4, 4];
    assert [16, 4, 8, 8, 4, 2, 1, 1, 4, 4][1..] == [4, 8, 8, 4, 2, 1, 1, 4, 4];
    assert Size([2, 1, 1, 4, 4]) == 12 by {
      assert [2, 1, 1, 4, 4][1..] == [1, 1, 4, 4] && [1, 1, 4, 4][1..] == [1, 4, 4];
      assert [1, 4, 4][1..] == [4, 4] && [4, 4][1..] == [4];
    }
    assert Size([4, 8, 8, 4, 2, 1, 1, 4, 4]) == 36 by {
      assert [4, 8, 8, 4, 2, 1, 1, 4, 4][1..] == [8, 8, 4, 2, 1, 1, 4, 4];
      assert [8, 8, 4, 2, 1, 1, 4, 4][1..] == [8, 4, 2, 1, 1, 4, 4];
      assert [8, 4, 2, 1, 1, 4, 4][1..] == [4, 2, 1, 1, 4, 4];
      assert [4, 2, 1, 1, 4, 4][1..] == [2, 1, 1, 4, 4];
    }
  }

  lemma LayoutSizes()
    ensures Size(COMMON_HEADER) == COMMON_HEADER_SIZE
    ensures Size(COMMON_HEADER) + Size(PCM_EXTENSION) == PCM_HEADER_SIZE
  {
    HeaderSize();
    ExtensionSize();
  }

  // ---------- messages ----------

  datatype Code =
    | InvalidMagic
    | UnsupportedProtocol
    | UnsupportedMessageType
    | InvalidHeader
    | FrameTooLarge
    | InvalidPcm
    | InvalidPcmFormat
    | InvalidFrameFlags
    | InvalidControl

  datatype PcmRecord = PcmRecord(
    captureId: nat,
    sourceId: nat,
    deviceGeneration: nat,
    sequence: nat,
    hostTimeNs: nat,
    flags: nat,
    pcm: Bytes)

  /** Construction accepts only the normalised v1 format: 512 mono 16-bit samples at 16 kHz, known flags. */
  type PcmMessage = m: PcmRecord | |m.pcm| == PCM_PAYLOAD_BYTES && m.flags < 8
    witness PcmRecord(0, 0, 0, 0, 0, 0, seq(PCM_PAYLOAD_BYTES, _ => 0))

  datatype Json = JsonObject(fields: map<string, Json>) | JsonText(text: string) | JsonNull | JsonOther

  datatype Message = Control(fields: map<string, Json>) | Pcm(message: PcmMessage)

  /** The JSON text format; only its round trip is used. */
  datatype JsonCodec = JsonCodec(parse: Bytes -> Option<Json>, dump: map<string, Json> -> Option<Bytes>)

  ghost predicate Faithful(codec: JsonCodec) {
    forall fields: map<string, Json> ::
      codec.dump(fields).Some? ==> codec.parse(codec.dump(fields).value) == Some(JsonObject(fields))
  }

  predicate ShortText(j: Json) {
    j.JsonText? && 1 <= |j.text| <= 64
  }

  function ValidateControl(j: Json): Result<map<string, Json>, Code> {
    if !j.JsonObject? then Failure(InvalidControl)
    else if "type" !in j.fields || !ShortText(j.fields["type"]) then Failure(InvalidControl)
    else if "request_id" in j.fields && j.fields["request_id"] != JsonNull && !ShortText(j.fields["request_id"]) then
      Failure(InvalidControl)
    else Success(j.fields)
  }

  // ---------- encoding ----------

  datatype MessageType = JsonType | PcmType

  function TypeByte(t: MessageType): nat {
    if t == JsonType then 1 else 2
  }

  function HeaderBytes(headerLength: nat, t: MessageType, bodyLength: nat): (bs: Bytes)
    ensures |bs| == COMMON_HEADER_SIZE
  {
    LayoutSizes();
    Pack(HeaderValues(headerLength, t, bodyLength), COMMON_HEADER)
  }

  function EncodeControl(codec: JsonCodec, fields: map<string, Json>): Result<Bytes, Code> {
    match ValidateControl(JsonObject(fields))
    case Failure(c) => Failure(c)
    case Success(valid) =>
      match codec.dump(valid)
      case None => Failure(InvalidControl)
      case Some(body) =>
        if |body| > MAX_CONTROL_BODY_BYTES then Failure(FrameTooLarge)
        else Success(HeaderBytes(COMMON_HEADER_SIZE, JsonType, |body|) + body)
  }

  function PcmFields(m: PcmMessage): (values: seq<nat>)
    ensures |values| == |PCM_EXTENSION|
  {
    [m.captureId, m.sourceId, m.deviceGeneration, m.sequence, m.hostTimeNs, 16_000, 512, 1, 2, m.flags,
     PCM_PAYLOAD_BYTES]
  }

  /** None where packing a number into its field raises. */
  function EncodePcm(m: PcmMessage): Option<Bytes> {
    if !Fits(PcmFields(m), PCM_EXTENSION) then None
    else
      LayoutSizes();
      Some(HeaderBytes(PCM_HEADER_SIZE, PcmType, PCM_PAYLOAD_BYTES) + Pack(PcmFields(m), PCM_EXTENSION) + m.pcm)
  }

  function Encode(codec: JsonCodec, message: Message): Option<Bytes> {
    match message
    case Pcm(m) => EncodePcm(m)
    case Control(fields) =>
      match EncodeControl(codec, fields)
      case Success(bs) => Some(bs)
      case Failure(_) => None
  }

  // ---------- decoding ----------

  /** The common header, read from exactly its bytes. */
  function ReadHeader(bs: Bytes): (values: seq<nat>)
    requires |bs| == COMMON_HEADER_SIZE
    ensures Fits(values, COMMON_HEADER)
  {
    LayoutSizes();
    Unpack(bs, COMMON_HEADER)
  }

  function HeaderLength(values: seq<nat>): nat
    requires |values| == 8
  {
    values[1]
  }

  function BodyLength(values: seq<nat>): nat
    requires |values| == 8
  {
    values[7]
  }

  function ValidateHeader(values: seq<nat>): (r: Result<MessageType, Code>)
    requires |values| == 8
  {
    var headerLength, minor, bodyLength := values[1], values[3], values[7];
    if values[0] != PROTOCOL_MAGIC then Failure(InvalidMagic)
    else if values[2] != PROTOCOL_MAJOR then Failure(UnsupportedProtocol)
    else if values[4] != 1 && values[4] != 2 then Failure(UnsupportedMessageType)
    else if values[5] != 0 || values[6] != 0 then Failure(InvalidHeader)
    else
      var t := if values[4] == 1 then JsonType else PcmType;
      var minimum := if t == JsonType then COMMON_HEADER_SIZE else PCM_HEADER_SIZE;
      if headerLength < minimum || headerLength > MAX_HEADER_SIZE then Failure(InvalidHeader)
      else if minor == PROTOCOL_MINOR && headerLength != minimum then Failure(InvalidHeader)
      else if t == JsonType && bodyLength > MAX_CONTROL_BODY_BYTES then Failure(FrameTooLarge)
      else if t == PcmType && bodyLength != PCM_PAYLOAD_BYTES then Failure(InvalidPcm)
      else Success(t)
  }

  /** The size check that follows header validation is never the one that fires. */
  lemma FrameSizeCheckIsDead(values: seq<nat>)
    requires |values| == 8 && ValidateHeader(values).Success?
    ensures COMMON_HEADER_SIZE <= HeaderLength(values) + BodyLength(values) <= MAX_HEADER_SIZE + MAX_CONTROL_BODY_BYTES
    ensures HeaderLength(values) + BodyLength(values) < MAX_FRAME_BYTES
  {
    var t := ValidateHeader(values).value;
    assert t == JsonType ==> BodyLength(values) <= MAX_CONTROL_BODY_BYTES;
  }

  function DecodeControl(codec: JsonCodec, frame: Bytes, headerLength: nat): Result<Message, Code>
    requires headerLength <= |frame|
  {
    match codec.parse(frame[headerLength..])
    case None => Failure(InvalidControl)
    case Some(j) =>
      match ValidateControl(j)
      case Failure(c) => Failure(c)
      case Success(fields) => Success(Control(fields))
  }

  function ReadExtension(bs: Bytes): (values: seq<nat>)
    requires |bs| == PCM_HEADER_SIZE - COMMON_HEADER_SIZE
    ensures |values| == |PCM_EXTENSION|
  {
    ExtensionSize();
    Unpack(bs, PCM_EXTENSION)
  }

  function DecodePcm(frame: Bytes, headerLength: nat, bodyLength: nat): Result<Message, Code>
    requires PCM_HEADER_SIZE <= headerLength && headerLength + bodyLength == |frame|
  {
    var v := ReadExtension(frame[COMMON_HEADER_SIZE..PCM_HEADER_SIZE]);
    var pcm := frame[headerLength..];
    if v[10] != bodyLength then Failure(InvalidPcm)
    else if v[5] != 16_000 || v[6] != 512 || v[7] != 1 || v[8] != 2 then Failure(InvalidPcmFormat)
    else if v[9] >= 8 then Failure(InvalidFrameFlags)
    else if |pcm| != PCM_PAYLOAD_BYTES then Failure(InvalidPcm)
    else Success(Pcm(PcmRecord(v[0], v[1], v[2], v[3], v[4], v[9], pcm)))
  }

  /** A frame with a valid header, complete and with nothing behind it. */
  predicate IsFrame(frame: Bytes) {
    && COMMON_HEADER_SIZE <= |frame|
    && var values := ReadHeader(frame[..COMMON_HEADER_SIZE]);
       ValidateHeader(values).Success? && |frame| == HeaderLength(values) + BodyLength(values)
  }

  function DecodeFrame(codec: JsonCodec, frame: Bytes): Result<Message, Code>
    requires IsFrame(frame)
  {
    var values := ReadHeader(frame[..COMMON_HEADER_SIZE]);
    if ValidateHeader(values).value == JsonType then DecodeControl(codec, frame, HeaderLength(values))
    else DecodePcm(frame, HeaderLength(values), BodyLength(values))
  }

  /** What the front of a buffer calls for: more bytes, an error, or one message of some length. */
  datatype Front = Wait | Stop(code: Code) | Emit(message: Message, length: nat)

  function Examine(codec: JsonCodec, buffer: Bytes): (f: Front)
    ensures f.Emit? ==> COMMON_HEADER_SIZE <= f.length <= |buffer|
    ensures f.Wait? ==> |buffer| < MAX_HEADER_SIZE + MAX_CONTROL_BODY_BYTES
  {
    if |buffer| < COMMON_HEADER_SIZE then Wait
    else
      var values := ReadHeader(buffer[..COMMON_HEADER_SIZE]);
      var checked := ValidateHeader(values);
      if checked.Failure? then Stop(checked.error)
      else
        FrameSizeCheckIsDead(values);
        var length := HeaderLength(values) + BodyLength(values);
        if length > MAX_FRAME_BYTES then Stop(FrameTooLarge)
        else if |buffer| < length then Wait
        else
          assert buffer[..length][..COMMON_HEADER_SIZE] == buffer[..COMMON_HEADER_SIZE];
          match DecodeFrame(codec, buffer[..length])
          case Failure(c) => Stop(c)
          case Success(m) => Emit(m, length)
  }

  /** Everything a buffer yields: the complete messages, what is left, and the error that stopped it. */
  datatype Decoded = Decoded(messages: seq<Message>, rest: Bytes, error: Option<Code>)

  function Decode(codec: JsonCodec, buffer: Bytes): (d: Decoded)
    ensures d.error.None? ==> |d.rest| < MAX_HEADER_SIZE + MAX_CONTROL_BODY_BYTES
    decreases |buffer|
  {
    match Examine(codec, buffer)
    case Wait => Decoded([], buffer, None)
    case Stop(c) => Decoded([], buffer, Some(c))
    case Emit(m, length) =>
      var after := Decode(codec, buffer[length..]);
      Decoded([m] + after.messages, after.rest, after.error)
  }

  class WireDecoder {
    const codec: JsonCodec
    var buffer: Bytes

    constructor (codec: JsonCodec)
      ensures this.codec == codec && buffer == []
    {
      this.codec := codec;
      buffer := [];
    }

    /** Append bytes and return every message they complete; an error discards the messages of this call. */
    method Feed(data: Bytes) returns (r: Result<seq<Message>, Code>)
      modifies this`buffer
      ensures var d := Decode(codec, old(buffer) + data);
              && buffer == d.rest
              && r == Answer(d)
      ensures r.Success? ==> |buffer| < MAX_HEADER_SIZE + MAX_CONTROL_BODY_BYTES
    {
      buffer := buffer + data;
      ghost var whole := Decode(codec, buffer);
      var messages: seq<Message> := [];
      while |buffer| >= COMMON_HEADER_SIZE
        invariant whole == Prepend(messages, Decode(codec, buffer))
        decreases |buffer|
      {
        var front := NextFrame();
        match front {
          case Wait => break;
          case Stop(c) => return Failure(c);
          case Emit(m, length) =>
            PrependOne(messages, m, Decode(codec, buffer[length..]));
            buffer := buffer[length..];
            messages := messages + [m];
        }
      }
      assert messages + [] == messages;
      assert whole.error == None && whole.messages == messages;
      return Success(messages);
    }

    /** Validate the header at the front of the buffer and decode the frame behind it once it is complete. */
    method NextFrame() returns (front: Front)
      requires |buffer| >= COMMON_HEADER_SIZE
      ensures front == Examine(codec, buffer)
    {
      var values := ReadHeader(buffer[..COMMON_HEADER_SIZE]);
      var checked := ValidateHeader(values);
      if checked.Failure? {
        return Stop(checked.error);
      }
      FrameSizeCheckIsDead(values);
      var length := HeaderLength(values) + BodyLength(values);
      if length > MAX_FRAME_BYTES {
        return Stop(FrameTooLarge);
      }
      if |buffer| < length {
        return Wait;
      }
      var frame := buffer[..length];
      assert frame[..COMMON_HEADER_SIZE] == buffer[..COMMON_HEADER_SIZE];
      var decoded := DecodeFrame(codec, frame);
      front := match decoded case Failure(c) => Stop(c) case Success(m) => Emit(m, length);
    }
  }

  /** What a call returns: the messages, or the error alone. */
  function Answer(d: Decoded): Result<seq<Message>, Code> {
    if d.error.Some? then Failure(d.error.value) else Success(d.messages)
  }

  function Prepend(messages: seq<Message>, d: Decoded): Decoded {
    Decoded(messages + d.messages, d.rest, d.error)
  }

  lemma PrependOne(messages: seq<Message>, m: Message, d: Decoded)
    ensures Prepend(messages, Decoded([m] + d.messages, d.rest, d.error)) == Prepend(messages + [m], d)
  {
    assert messages + ([m] + d.messages) == messages + [m] + d.messages;
  }

  // ---------- independence of the split ----------

  lemma ExamineMore(codec: JsonCodec, a: Bytes, b: Bytes)
    requires !Examine(codec, a).Wait?
    ensures Examine(codec, a + b) == Examine(codec, a)
  {
    assert (a + b)[..COMMON_HEADER_SIZE] == a[..COMMON_HEADER_SIZE];
    var values := ReadHeader(a[..COMMON_HEADER_SIZE]);
    if ValidateHeader(values).Success? {
      FrameSizeCheckIsDead(values);
      var length := HeaderLength(values) + BodyLength(values);
      assert (a + b)[..length] == a[..length];
    }
  }

  lemma DecodeEmit(codec: JsonCodec, buffer: Bytes)
    requires Examine(codec, buffer).Emit?
    ensures var step := Examine(codec, buffer);
            Decode(codec, buffer) == Prepend([step.message], Decode(codec, buffer[step.length..]))
  {
  }

  lemma PrependTwice(a: seq<Message>, b: seq<Message>, d: Decoded)
    ensures Prepend(a, Prepend(b, d)) == Prepend(a + b, d)
  {
    assert a + (b + d.messages) == (a + b) + d.messages;
  }

  /** What decoding a buffer says about every buffer that starts with it. */
  function Continued(codec: JsonCodec, d: Decoded, more: Bytes): Decoded {
    if d.error.Some? then Decoded(d.messages, d.rest + more, d.error)
    else Prepend(d.messages, Decode(codec, d.rest + more))
  }

  lemma ContinuedAfter(codec: JsonCodec, m: Message, d: Decoded, more: Bytes)
    ensures Continued(codec, Prepend([m], d), more) == Prepend([m], Continued(codec, d, more))
  {
    if d.error.None? {
      PrependTwice([m], d.messages, Decode(codec, d.rest + more));
    }
  }

  /** Decoding more bytes continues where decoding fewer stopped; an error is final. */
  lemma {:induction false} DecodeContinues(codec: JsonCodec, a: Bytes, b: Bytes)
    ensures Decode(codec, a + b) == Continued(codec, Decode(codec, a), b)
    decreases |a|
  {
    match Examine(codec, a)
    case Wait => PrependNothing(Decode(codec, a + b));
    case Stop(_) => ExamineMore(codec, a, b);
    case Emit(m, length) =>
      ExamineMore(codec, a, b);
      assert (a + b)[length..] == a[length..] + b;
      DecodeEmit(codec, a);
      DecodeEmit(codec, a + b);
      DecodeContinues(codec, a[length..], b);
      ContinuedAfter(codec, m, Decode(codec, a[length..]), b);
  }

  lemma PrependNothing(d: Decoded)
    ensures Prepend([], d) == d
  {
  }

  function Concat(chunks: seq<Bytes>): Bytes {
    if chunks == [] then [] else chunks[0] + Concat(chunks[1..])
  }

  /** Feeding chunk after chunk until one raises; the messages completed before it are those delivered. */
  function FeedAll(codec: JsonCodec, buffer: Bytes, chunks: seq<Bytes>): Decoded
    decreases |chunks|
  {
    if chunks == [] then Decoded([], buffer, None)
    else
      var d := Decode(codec, buffer + chunks[0]);
      if d.error.Some? then Decoded([], d.rest, d.error)
      else
        var later := FeedAll(codec, d.rest, chunks[1..]);
        Prepend(d.messages, later)
  }

  /**
   However a stream is split, an error-free one yields the same messages and the same residual buffer as in one
   piece, and a malformed one ends with the same error after delivering a prefix of its messages.
   */
  lemma {:induction false} SplitDoesNotMatter(codec: JsonCodec, buffer: Bytes, chunks: seq<Bytes>)
    requires Decode(codec, buffer) == Decoded([], buffer, None)
    ensures var whole := Decode(codec, buffer + Concat(chunks));
            var fed := FeedAll(codec, buffer, chunks);
            && fed.error == whole.error
            && fed.messages <= whole.messages
            && (whole.error.None? ==> fed == whole)
    decreases |chunks|
  {
    if chunks == [] {
      assert buffer + Concat(chunks) == buffer;
    } else {
      var d := Decode(codec, buffer + chunks[0]);
      assert buffer + Concat(chunks) == (buffer + chunks[0]) + Concat(chunks[1..]);
      DecodeContinues(codec, buffer + chunks[0], Concat(chunks[1..]));
      if d.error.None? {
        RestYieldsNothing(codec, buffer + chunks[0]);
        SplitDoesNotMatter(codec, d.rest, chunks[1..]);
      }
    }
  }

  lemma {:induction false} RestYieldsNothing(codec: JsonCodec, buffer: Bytes)
    ensures var d := Decode(codec, buffer); Decode(codec, d.rest) == Decoded([], d.rest, d.error)
    decreases |buffer|
  {
    match Examine(codec, buffer)
    case Emit(_, length) => RestYieldsNothing(codec, buffer[length..]);
    case _ =>
  }

  /** Once a feed has raised, every later feed raises the same error. */
  lemma ErrorIsFinal(codec: JsonCodec, buffer: Bytes, data: Bytes, later: Bytes)
    requires Decode(codec, buffer + data).error.Some?
    ensures Decode(codec, Decode(codec, buffer + data).rest + later).error == Decode(codec, buffer + data).error
  {
    RestYieldsNothing(codec, buffer + data);
    DecodeContinues(codec, Decode(codec, buffer + data).rest, later);
  }

  // ---------- round trips ----------

  function HeaderValues(headerLength: nat, t: MessageType, bodyLength: nat): (values: seq<nat>)
    ensures |values| == |COMMON_HEADER|
  {
    [PROTOCOL_MAGIC, headerLength, PROTOCOL_MAJOR, PROTOCOL_MINOR, TypeByte(t), 0, 0, bodyLength]
  }

  lemma HeaderFits(headerLength: nat, t: MessageType, bodyLength: nat)
    requires headerLength < 0x1_0000 && bodyLength < 0x1_0000_0000
    ensures Fits(HeaderValues(headerLength, t, bodyLength), COMMON_HEADER)
  {
    assert Power256(1) == 256 && Power256(2) == 0x1_0000;
    assert Power256(3) == 0x100_0000;
    assert Power256(4) == 0x1_0000_0000;
  }

  lemma HeaderRoundTrip(headerLength: nat, t: MessageType, bodyLength: nat)
    requires headerLength < 0x1_0000 && bodyLength < 0x1_0000_0000
    ensures ReadHeader(HeaderBytes(headerLength, t, bodyLength)) == HeaderValues(headerLength, t, bodyLength)
  {
    HeaderFits(headerLength, t, bodyLength);
    UnpackPack(HeaderValues(headerLength, t, bodyLength), COMMON_HEADER);
  }

  /** A whole valid frame at the front of a buffer is what the decoder takes from it. */
  lemma ExamineWhole(codec: JsonCodec, frame: Bytes, rest: Bytes, message: Message)
    requires IsFrame(frame) && DecodeFrame(codec, frame) == Success(message)
    ensures Examine(codec, frame + rest) == Emit(message, |frame|)
  {
    var buffer := frame + rest;
    assert buffer[..COMMON_HEADER_SIZE] == frame[..COMMON_HEADER_SIZE];
    assert buffer[..|frame|] == frame;
    FrameSizeCheckIsDead(ReadHeader(frame[..COMMON_HEADER_SIZE]));
  }

  /** The bytes of an encoded PCM message. */
  predicate PcmLayout(frame: Bytes, m: PcmMessage) {
    && |frame| == PCM_HEADER_SIZE + PCM_PAYLOAD_BYTES
    && ReadHeader(frame[..COMMON_HEADER_SIZE]) == HeaderValues(PCM_HEADER_SIZE, PcmType, PCM_PAYLOAD_BYTES)
    && frame[COMMON_HEADER_SIZE..PCM_HEADER_SIZE] == Pack(PcmFields(m), PCM_EXTENSION)
    && frame[PCM_HEADER_SIZE..] == m.pcm
  }

  lemma EncodedPcmLayout(m: PcmMessage, frame: Bytes)
    requires EncodePcm(m) == Some(frame)
    ensures PcmLayout(frame, m)
  {
    LayoutSizes();
    HeaderRoundTrip(PCM_HEADER_SIZE, PcmType, PCM_PAYLOAD_BYTES);
    var header := HeaderBytes(PCM_HEADER_SIZE, PcmType, PCM_PAYLOAD_BYTES);
    SplitAt(header, Pack(PcmFields(m), PCM_EXTENSION), m.pcm);
  }

  lemma SplitAt(a: Bytes, b: Bytes, c: Bytes)
    ensures var all := a + b + c; all[..|a|] == a && all[|a|..|a| + |b|] == b && all[|a| + |b|..] == c
  {
  }

  lemma PcmLayoutDecodes(codec: JsonCodec, frame: Bytes, m: PcmMessage)
    requires PcmLayout(frame, m) && Fits(PcmFields(m), PCM_EXTENSION)
    ensures IsFrame(frame) && DecodeFrame(codec, frame) == Success(Pcm(m))
  {
    var header := ReadHeader(frame[..COMMON_HEADER_SIZE]);
    HeaderValuesValid(PCM_HEADER_SIZE, PcmType, PCM_PAYLOAD_BYTES);
    ExtensionDecodes(m, frame, PCM_HEADER_SIZE);
  }

  lemma HeaderValuesValid(headerLength: nat, t: MessageType, bodyLength: nat)
    requires headerLength == if t == JsonType then COMMON_HEADER_SIZE else PCM_HEADER_SIZE
    requires if t == JsonType then bodyLength <= MAX_CONTROL_BODY_BYTES else bodyLength == PCM_PAYLOAD_BYTES
    ensures var v := HeaderValues(headerLength, t, bodyLength);
            ValidateHeader(v) == Success(t) && HeaderLength(v) == headerLength && BodyLength(v) == bodyLength
  {
  }

  lemma ExtensionDecodes(m: PcmMessage, frame: Bytes, headerLength: nat)
    requires PCM_HEADER_SIZE <= headerLength && |frame| == headerLength + PCM_PAYLOAD_BYTES
    requires Fits(PcmFields(m), PCM_EXTENSION)
    requires frame[COMMON_HEADER_SIZE..PCM_HEADER_SIZE] == Pack(PcmFields(m), PCM_EXTENSION)
    requires frame[headerLength..] == m.pcm
    ensures DecodePcm(frame, headerLength, PCM_PAYLOAD_BYTES) == Success(Pcm(m))
  {
    LayoutSizes();
    UnpackPack(PcmFields(m), PCM_EXTENSION);
  }

  lemma EncodedControlDecodes(codec: JsonCodec, fields: map<string, Json>, frame: Bytes)
    requires Faithful(codec) && EncodeControl(codec, fields) == Success(frame)
    ensures IsFrame(frame) && DecodeFrame(codec, frame) == Success(Control(fields))
  {
    var body := codec.dump(fields).value;
    HeaderRoundTrip(COMMON_HEADER_SIZE, JsonType, |body|);
    HeaderValuesValid(COMMON_HEADER_SIZE, JsonType, |body|);
    SplitAt(HeaderBytes(COMMON_HEADER_SIZE, JsonType, |body|), body, []);
    assert frame[..COMMON_HEADER_SIZE] == HeaderBytes(COMMON_HEADER_SIZE, JsonType, |body|);
    assert frame[COMMON_HEADER_SIZE..] == body;
    assert DecodeControl(codec, frame, COMMON_HEADER_SIZE) == Success(Control(fields));
  }

  /** An encoded message is one frame that decodes to the message. */
  lemma EncodedDecodes(codec: JsonCodec, message: Message, frame: Bytes)
    requires Faithful(codec) && Encode(codec, message) == Some(frame)
    ensures IsFrame(frame) && DecodeFrame(codec, frame) == Success(message)
  {
    match message {
      case Control(fields) => EncodedControlDecodes(codec, fields, frame);
      case Pcm(m) =>
        EncodedPcmLayout(m, frame);
        PcmLayoutDecodes(codec, frame, m);
    }
  }

  /** One encoded message at the front of a buffer decodes to itself and leaves the rest of the buffer. */
  lemma DecodeEncoded(codec: JsonCodec, message: Message, frame: Bytes, rest: Bytes)
    requires IsFrame(frame) && DecodeFrame(codec, frame) == Success(message)
    ensures Decode(codec, frame + rest) == Prepend([message], Decode(codec, rest))
  {
    ExamineWhole(codec, frame, rest, message);
    assert (frame + rest)[|frame|..] == rest;
  }

  function EncodeAll(codec: JsonCodec, messages: seq<Message>): Bytes
    requires forall m :: m in messages ==> Encode(codec, m).Some?
  {
    if messages == [] then [] else Encode(codec, messages[0]).value + EncodeAll(codec, messages[1..])
  }

  lemma {:induction false} DecodeEncodedAll(codec: JsonCodec, messages: seq<Message>)
    requires Faithful(codec) && forall m :: m in messages ==> Encode(codec, m).Some?
    ensures Decode(codec, EncodeAll(codec, messages)) == Decoded(messages, [], None)
  {
    if messages != [] {
      DecodeEncodedAll(codec, messages[1..]);
      var frame := Encode(codec, messages[0]).value;
      EncodedDecodes(codec, messages[0], frame);
      DecodeEncoded(codec, messages[0], frame, EncodeAll(codec, messages[1..]));
    }
  }

  /** Any split of the concatenated encodings decodes to exactly those messages, in order, with nothing left. */
  lemma StreamRoundTrip(codec: JsonCodec, messages: seq<Message>, chunks: seq<Bytes>)
    requires Faithful(codec) && forall m :: m in messages ==> Encode(codec, m).Some?
    requires Concat(chunks) == EncodeAll(codec, messages)
    ensures FeedAll(codec, [], chunks) == Decoded(messages, [], None)
  {
    DecodeEncodedAll(codec, messages);
    assert [] + Concat(chunks) == Concat(chunks);
    SplitDoesNotMatter(codec, [], chunks);
  }

  // ---------- the layout, byte by byte ----------

  lemma {:induction false} SizeTake(widths: seq<nat>, k: nat)
    requires k < |widths|
    ensures Size(widths[..k + 1]) == Size(widths[..k]) + widths[k]
    ensures Size(widths[..k + 1]) <= Size(widths)
  {
    if k == 0 {
      assert widths[..1][1..] == [] && widths[..0] == [];
    } else {
      SizeTake(widths[1..], k - 1);
      assert widths[..k + 1][1..] == widths[1..][..k] && widths[..k][1..] == widths[1..][..k - 1];
    }
  }

  lemma SliceOfSlice(bs: Bytes, n: nat, i: nat, j: nat)
    requires n <= |bs| && i <= j <= |bs| - n
    ensures bs[n..][i..j] == bs[n + i..n + j]
  {
  }

  lemma SizeAfterFirst(widths: seq<nat>, k: nat)
    requires 0 < k <= |widths|
    ensures Size(widths[..k]) == widths[0] + Size(widths[1..][..k - 1])
  {
    assert widths[..k][1..] == widths[1..][..k - 1];
  }

  lemma UnpackParts(bs: Bytes, widths: seq<nat>, k: nat)
    requires |bs| == Size(widths) && k < |widths|
    ensures widths[0] <= |bs| && |bs[widths[0]..]| == Size(widths[1..])
    ensures Unpack(bs, widths)[k]
            == if k == 0 then FromBytes(bs[..widths[0]]) else Unpack(bs[widths[0]..], widths[1..])[k - 1]
  {
  }

  /** Field k is the number in the bytes behind the first k fields. */
  lemma {:induction false} UnpackAt(bs: Bytes, widths: seq<nat>, k: nat, from: nat)
    requires |bs| == Size(widths) && k < |widths| && from == Size(widths[..k])
    ensures from + widths[k] <= |bs| && Unpack(bs, widths)[k] == FromBytes(bs[from..from + widths[k]])
  {
    UnpackParts(bs, widths, k);
    if k == 0 {
      assert widths[..0] == [] && bs[0..widths[0]] == bs[..widths[0]];
    } else {
      var w := widths[0];
      SizeAfterFirst(widths, k);
      UnpackAt(bs[w..], widths[1..], k - 1, from - w);
      SliceOfSlice(bs, w, from - w, from - w + widths[k]);
    }
  }

  lemma HeaderOffsets()
    ensures var w := COMMON_HEADER;
            && Size(w) == 16 && Size(w[..0]) == 0 && Size(w[..1]) == 4 && Size(w[..2]) == 6 && Size(w[..3]) == 7
            && Size(w[..4]) == 8 && Size(w[..5]) == 9 && Size(w[..6]) == 10 && Size(w[..7]) == 12
  {
    var w := COMMON_HEADER;
    LayoutSizes();
    assert Size(w[..0]) == 0;
    SizeTake(w, 0); SizeTake(w, 1); SizeTake(w, 2); SizeTake(w, 3); SizeTake(w, 4); SizeTake(w, 5); SizeTake(w, 6);
  }

  /** A field by the bytes it lies in, for any layout. */
  lemma FieldAt(bs: Bytes, widths: seq<nat>, k: nat, from: nat, to: nat)
    requires |bs| == Size(widths) && k < |widths| && from == Size(widths[..k]) && to == from + widths[k]
    ensures from <= to <= |bs| && Unpack(bs, widths)[k] == FromBytes(bs[from..to])
  {
    UnpackAt(bs, widths, k, from);
  }

  /** Where the fields of the common header lie. */
  lemma HeaderFieldsAt(bs: Bytes)
    requires |bs| == 16
    ensures var v := ReadHeader(bs);
            && v[0] == FromBytes(bs[0..4]) && v[1] == FromBytes(bs[4..6])
            && v[2] == FromBytes(bs[6..7]) && v[3] == FromBytes(bs[7..8])
            && v[4] == FromBytes(bs[8..9]) && v[5] == FromBytes(bs[9..10])
            && v[6] == FromBytes(bs[10..12]) && v[7] == FromBytes(bs[12..16])
  {
    var w := COMMON_HEADER;
    HeaderOffsets();
    FieldAt(bs, w, 0, 0, 4);
    FieldAt(bs, w, 1, 4, 6);
    FieldAt(bs, w, 2, 6, 7);
    FieldAt(bs, w, 3, 7, 8);
    FieldAt(bs, w, 4, 8, 9);
    FieldAt(bs, w, 5, 9, 10);
    FieldAt(bs, w, 6, 10, 12);
    FieldAt(bs, w, 7, 12, 16);
  }

  /** Where the fields of the extension lie, counted from the end of the common header. */
  lemma ExtensionFieldsAt(bs: Bytes)
    requires |bs| == 68
    ensures Size(PCM_EXTENSION) == 68
    ensures var v := Unpack(bs, PCM_EXTENSION);
            && v[0] == FromBytes(bs[0..16]) && v[1] == FromBytes(bs[16..32])
            && v[2] == FromBytes(bs[32..36]) && v[3] == FromBytes(bs[36..44]) && v[4] == FromBytes(bs[44..52])
            && v[5] == FromBytes(bs[52..56]) && v[6] == FromBytes(bs[56..58])
            && v[7] == FromBytes(bs[58..59]) && v[8] == FromBytes(bs[59..60])
            && v[9] == FromBytes(bs[60..64]) && v[10] == FromBytes(bs[64..68])
  {
    var w := PCM_EXTENSION;
    LayoutSizes();
    ExtensionOffsets();
    UnpackAt(bs, w, 0, 0); UnpackAt(bs, w, 1, 16); UnpackAt(bs, w, 2, 32); UnpackAt(bs, w, 3, 36);
    UnpackAt(bs, w, 4, 44); UnpackAt(bs, w, 5, 52); UnpackAt(bs, w, 6, 56); UnpackAt(bs, w, 7, 58);
    UnpackAt(bs, w, 8, 59); UnpackAt(bs, w, 9, 60); UnpackAt(bs, w, 10, 64);
  }

  lemma ExtensionOffsets()
    ensures var w := PCM_EXTENSION;
            && Size(w[..0]) == 0 && Size(w[..1]) == 16 && Size(w[..2]) == 32 && Size(w[..3]) == 36
            && Size(w[..4]) == 44 && Size(w[..5]) == 52 && Size(w[..6]) == 56 && Size(w[..7]) == 58
            && Size(w[..8]) == 59 && Size(w[..9]) == 60 && Size(w[..10]) == 64
  {
    var w := PCM_EXTENSION;
    assert Size(w[..0]) == 0;
    SizeTake(w, 0); SizeTake(w, 1); SizeTake(w, 2); SizeTake(w, 3); SizeTake(w, 4);
    SizeTake(w, 5); SizeTake(w, 6); SizeTake(w, 7); SizeTake(w, 8); SizeTake(w, 9);
  }

  lemma ScaleUp(first: nat, power: nat, rest: nat, last: nat)
    ensures 256 * (first * power + rest) + last == first * (256 * power) + (256 * rest + last)
  {
  }

  /** Numbers are written with the most significant byte first. */
  lemma {:induction false} MostSignificantFirst(bs: Bytes)
    requires bs != []
    ensures FromBytes(bs) == (bs[0] as int) * Power256(|bs| - 1) + FromBytes(bs[1..])
  {
    if |bs| == 1 {
      assert bs[..0] == [] && bs[1..] == [];
    } else {
      var init, tail, last := bs[..|bs| - 1], bs[1..], bs[|bs| - 1] as int;
      MostSignificantFirst(init);
      assert tail[..|tail| - 1] == init[1..];
      ScaleUp(bs[0] as int, Power256(|bs| - 2), FromBytes(init[1..]), last);
    }
  }

  lemma OneByte(bs: Bytes, i: nat)
    requires i < |bs|
    ensures FromBytes(bs[i..i + 1]) == bs[i] as int
  {
    assert bs[i..i + 1] == [bs[i]] && [bs[i]][..0] == [];
  }

  lemma ZeroBytes(bs: Bytes)
    requires |bs| == 2
    ensures FromBytes(bs) == 0 <==> bs == [0, 0]
  {
    MostSignificantFirst(bs);
    assert bs[1..] == [bs[1]];
    assert bs == [bs[0], bs[1]];
    OneByte(bs, 1);
    assert bs[1..2] == bs[1..];
    assert Power256(1) == 256;
  }

  lemma MagicBytes(bs: Bytes)
    requires |bs| == 4
    ensures FromBytes(bs) == 0x5652_4143 <==> bs == [0x56, 0x52, 0x41, 0x43]
  {
    var magic: Bytes := [0x56, 0x52, 0x41, 0x43];
    assert magic[..3] == [0x56, 0x52, 0x41] && magic[..3][..2] == [0x56, 0x52] && magic[..3][..2][..1] == [0x56];
    assert FromBytes([0x56]) == 0x56;
    assert FromBytes(magic) == 0x5652_4143;
    BytesRoundTrip(bs);
    BytesRoundTrip(magic);
  }

  /** The verdict on the front of a buffer, told by the positions of its bytes; control bodies are judged by the codec. */
  function FrontByBytes(codec: JsonCodec, buffer: Bytes): Front {
    if |buffer| < 16 then Wait
    else if buffer[0..4] != [0x56, 0x52, 0x41, 0x43] then Stop(InvalidMagic)
    else if buffer[6] != 1 then Stop(UnsupportedProtocol)
    else if buffer[8] != 1 && buffer[8] != 2 then Stop(UnsupportedMessageType)
    else if buffer[9] != 0 || buffer[10..12] != [0, 0] then Stop(InvalidHeader)
    else
      var headerLength, bodyLength := FromBytes(buffer[4..6]), FromBytes(buffer[12..16]);
      var least := if buffer[8] == 1 then 16 else 84;
      if headerLength < least || headerLength > 256 || (buffer[7] == 0 && headerLength != least) then Stop(InvalidHeader)
      else if buffer[8] == 1 && bodyLength > 65536 then Stop(FrameTooLarge)
      else if buffer[8] == 2 && bodyLength != 1024 then Stop(InvalidPcm)
      else if |buffer| < headerLength + bodyLength then Wait
      else
        var body := buffer[headerLength..headerLength + bodyLength];
        if buffer[8] == 1 then ControlByBytes(codec, body, headerLength + bodyLength)
        else PcmByBytes(buffer[..84], body, headerLength + 1024)
  }

  /** A missing key reads as null. */
  function Entry(fields: map<string, Json>, key: string): Json {
    if key in fields then fields[key] else JsonNull
  }

  /** An object whose type is a text of 1 to 64 characters, and so is its request id, if there is one. */
  predicate WellFormed(j: Json) {
    && j.JsonObject?
    && (match Entry(j.fields, "type") case JsonText(t) => 0 < |t| < 65 case _ => false)
    && (match Entry(j.fields, "request_id") case JsonText(t) => 0 < |t| < 65 case JsonNull => true case _ => false)
  }

  function ControlByBytes(codec: JsonCodec, body: Bytes, length: nat): Front {
    match codec.parse(body)
    case None => Stop(InvalidControl)
    case Some(j) => if WellFormed(j) then Emit(Control(j.fields), length) else Stop(InvalidControl)
  }

  function PcmByBytes(header: Bytes, pcm: Bytes, length: nat): Front
    requires |header| == 84 && |pcm| == 1024
  {
    if FromBytes(header[80..84]) != 1024 then Stop(InvalidPcm)
    else if FromBytes(header[68..72]) != 16000 || FromBytes(header[72..74]) != 512 || header[74] != 1 || header[75] != 2 then
      Stop(InvalidPcmFormat)
    else if FromBytes(header[76..80]) >= 8 then Stop(InvalidFrameFlags)
    else
      Emit(Pcm(PcmRecord(
                 FromBytes(header[16..32]), FromBytes(header[32..48]), FromBytes(header[48..52]),
                 FromBytes(header[52..60]), FromBytes(header[60..68]), FromBytes(header[76..80]), pcm)), length)
  }

  lemma HeaderByBytes(buffer: Bytes)
    requires |buffer| >= 16
    ensures var v := ReadHeader(buffer[..16]);
            && (v[0] == 0x5652_4143 <==> buffer[0..4] == [0x56, 0x52, 0x41, 0x43])
            && v[1] == FromBytes(buffer[4..6]) && v[2] == buffer[6] as int && v[3] == buffer[7] as int
            && v[4] == buffer[8] as int && v[5] == buffer[9] as int && (v[6] == 0 <==> buffer[10..12] == [0, 0])
            && v[7] == FromBytes(buffer[12..16])
  {
    var bs := buffer[..16];
    HeaderFieldsAt(bs);
    assert bs[0..4] == buffer[0..4] && bs[4..6] == buffer[4..6] && bs[10..12] == buffer[10..12];
    assert bs[12..16] == buffer[12..16];
    MagicBytes(buffer[0..4]);
    OneByte(bs, 6); OneByte(bs, 7); OneByte(bs, 8); OneByte(bs, 9);
    ZeroBytes(buffer[10..12]);
  }

  lemma PcmVerdict(frame: Bytes, headerLength: nat)
    requires 84 <= headerLength && |frame| == headerLength + 1024
    ensures PcmByBytes(frame[..84], frame[headerLength..], |frame|)
            == match DecodePcm(frame, headerLength, 1024)
               case Failure(c) => Stop(c)
               case Success(m) => Emit(m, |frame|)
  {
    var ext := frame[16..84];
    ExtensionFieldsAt(ext);
    OneByte(ext, 58); OneByte(ext, 59);
    forall i, j | 0 <= i <= j <= 68 ensures ext[i..j] == frame[..84][16 + i..16 + j] {}
  }

  lemma ControlRule(j: Json)
    ensures ValidateControl(j) == if WellFormed(j) then Success(j.fields) else Failure(InvalidControl)
  {
  }

  lemma ControlVerdict(codec: JsonCodec, frame: Bytes, headerLength: nat)
    requires headerLength <= |frame|
    ensures ControlByBytes(codec, frame[headerLength..], |frame|)
            == match DecodeControl(codec, frame, headerLength)
               case Failure(c) => Stop(c)
               case Success(m) => Emit(m, |frame|)
  {
    var j := codec.parse(frame[headerLength..]);
    if j.Some? { ControlRule(j.value); }
  }

  /** A complete frame at the front. */
  lemma WholeFrameVerdict(codec: JsonCodec, buffer: Bytes)
    requires |buffer| >= 16 && ValidateHeader(ReadHeader(buffer[..16])).Success?
    requires var v := ReadHeader(buffer[..16]); HeaderLength(v) + BodyLength(v) <= |buffer|
    ensures Examine(codec, buffer) == FrontByBytes(codec, buffer)
  {
    var v := ReadHeader(buffer[..16]);
    HeaderByBytes(buffer);
    FrameSizeCheckIsDead(v);
    var frame, n := buffer[..HeaderLength(v) + BodyLength(v)], HeaderLength(v);
    assert frame[..16] == buffer[..16];
    assert frame[n..] == buffer[n..n + BodyLength(v)];
    if v[4] == 1 {
      ControlVerdict(codec, frame, n);
    } else {
      PcmVerdict(frame, n);
      assert frame[..84] == buffer[..84];
    }
  }

  /**
  The decoder reads every frame by the positions of the published layout, and raises, for every kind of malformed
  front, the code these positions call for.
  */
  lemma VerdictByBytes(codec: JsonCodec, buffer: Bytes)
    ensures Examine(codec, buffer) == FrontByBytes(codec, buffer)
  {
    if |buffer| >= 16 {
      HeaderByBytes(buffer);
      var v := ReadHeader(buffer[..16]);
      if ValidateHeader(v).Success? {
        FrameSizeCheckIsDead(v);
        if HeaderLength(v) + BodyLength(v) <= |buffer| { WholeFrameVerdict(codec, buffer); }
      }
    }
  }

  lemma EncodedExtensionByBytes(m: PcmMessage, frame: Bytes)
    requires PcmLayout(frame, m) && Fits(PcmFields(m), PCM_EXTENSION)
    ensures PcmByBytes(frame[..84], frame[84..], |frame|) == Emit(Pcm(m), |frame|)
  {
    ExtensionDecodes(m, frame, 84);
    PcmVerdict(frame, 84);
  }

  /** What an accepted audio header holds. */
  lemma EmittedFields(header: Bytes, pcm: Bytes, length: nat, m: PcmMessage)
    requires |header| == 84 && |pcm| == 1024 && PcmByBytes(header, pcm, length) == Emit(Pcm(m), length)
    ensures FromBytes(header[16..32]) == m.captureId && FromBytes(header[32..48]) == m.sourceId
    ensures FromBytes(header[48..52]) == m.deviceGeneration && FromBytes(header[52..60]) == m.sequence
    ensures FromBytes(header[60..68]) == m.hostTimeNs
    ensures FromBytes(header[68..72]) == 16000 && FromBytes(header[72..74]) == 512 && header[74] == 1 && header[75] == 2
    ensures FromBytes(header[76..80]) == m.flags && FromBytes(header[80..84]) == 1024 && pcm == m.pcm
  {
  }

  lemma WrittenHeaderByBytes(frame: Bytes, t: MessageType, headerLength: nat, bodyLength: nat)
    requires |frame| >= 16 && ReadHeader(frame[..16]) == HeaderValues(headerLength, t, bodyLength)
    ensures frame[0..4] == [0x56, 0x52, 0x41, 0x43] && FromBytes(frame[4..6]) == headerLength
    ensures frame[6] == 1 && frame[7] == 0 && frame[8] == (if t == JsonType then 1 else 2)
    ensures frame[9] == 0 && frame[10..12] == [0, 0] && FromBytes(frame[12..16]) == bodyLength
  {
    HeaderByBytes(frame);
  }

  /** Every encoded audio message, by the positions of its bytes. */
  lemma EncodingByBytes(m: PcmMessage, frame: Bytes)
    requires EncodePcm(m) == Some(frame)
    ensures |frame| == 84 + 1024
    ensures frame[0..4] == [0x56, 0x52, 0x41, 0x43] && FromBytes(frame[4..6]) == 84
    ensures frame[6] == 1 && frame[7] == 0 && frame[8] == 2 && frame[9] == 0 && frame[10..12] == [0, 0]
    ensures FromBytes(frame[12..16]) == 1024
    ensures var h := frame[..84];
            && FromBytes(h[16..32]) == m.captureId && FromBytes(h[32..48]) == m.sourceId
            && FromBytes(h[48..52]) == m.deviceGeneration && FromBytes(h[52..60]) == m.sequence
            && FromBytes(h[60..68]) == m.hostTimeNs
            && FromBytes(h[68..72]) == 16000 && FromBytes(h[72..74]) == 512 && h[74] == 1 && h[75] == 2
            && FromBytes(h[76..80]) == m.flags && FromBytes(h[80..84]) == 1024
    ensures frame[84..] == m.pcm
  {
    EncodedPcmLayout(m, frame);
    WrittenHeaderByBytes(frame, PcmType, 84, 1024);
    EncodedExtensionByBytes(m, frame);
    EmittedFields(frame[..84], frame[84..], |frame|, m);
  }

  /** A control message is encoded exactly where it is well formed and its body can be written in 65536 bytes. */
  lemma ControlEncodesIff(codec: JsonCodec, fields: map<string, Json>)
    ensures var r, body := EncodeControl(codec, fields), codec.dump(fields);
            && (r.Success? <==> WellFormed(JsonObject(fields)) && body.Some? && |body.value| < 65537)
            && (r == Failure(FrameTooLarge) <==> WellFormed(JsonObject(fields)) && body.Some? && |body.value| > 65536)
            && (r.Failure? ==> r.error == FrameTooLarge || r.error == InvalidControl)
  {
    ControlRule(JsonObject(fields));
  }

  /** Every encoded control message, by the positions of its bytes. */
  lemma ControlEncodingByBytes(codec: JsonCodec, fields: map<string, Json>, frame: Bytes)
    requires EncodeControl(codec, fields) == Success(frame)
    ensures |frame| >= 16 && frame[0..4] == [0x56, 0x52, 0x41, 0x43] && FromBytes(frame[4..6]) == 16
    ensures frame[6] == 1 && frame[7] == 0 && frame[8] == 1 && frame[9] == 0 && frame[10..12] == [0, 0]
    ensures FromBytes(frame[12..16]) == |frame| - 16 && |frame| - 16 <= 65536
    ensures codec.dump(fields) == Some(frame[16..])
  {
    var body := codec.dump(fields).value;
    HeaderRoundTrip(16, JsonType, |body|);
    SplitAt(HeaderBytes(16, JsonType, |body|), body, []);
    assert frame == HeaderBytes(16, JsonType, |body|) + body;
    assert frame[..16] == HeaderBytes(16, JsonType, |body|) && frame[16..] == body;
    WrittenHeaderByBytes(frame, JsonType, 16, |body|);
  }

  /** A decoded PCM frame encodes back to the very same bytes exactly when it was a v1.0 frame. */
  lemma ReencodePcm(codec: JsonCodec, frame: Bytes, m: PcmMessage)
    requires IsFrame(frame) && DecodeFrame(codec, frame) == Success(Pcm(m))
    ensures EncodePcm(m) == Some(frame) <==> ReadHeader(frame[..COMMON_HEADER_SIZE])[3] == PROTOCOL_MINOR
  {
    var v := ReadHeader(frame[..COMMON_HEADER_SIZE]);
    var ext := frame[COMMON_HEADER_SIZE..PCM_HEADER_SIZE];
    ReencodeExtension(codec, frame, m);
    EncodedPcmLayout(m, EncodePcm(m).value);
    if v[3] == PROTOCOL_MINOR {
      ReencodeHeader(codec, frame, m);
      JoinAt(frame, COMMON_HEADER_SIZE, PCM_HEADER_SIZE);
    }
  }

  /** A common header of another minor version. */
  function LaterHeader(minor: nat, headerLength: nat): (values: seq<nat>)
    ensures |values| == |COMMON_HEADER|
  {
    [PROTOCOL_MAGIC, headerLength, PROTOCOL_MAJOR, minor, TypeByte(PcmType), 0, 0, PCM_PAYLOAD_BYTES]
  }

  lemma LaterHeaderFits(minor: nat, headerLength: nat)
    requires minor < 256 && headerLength < 0x1_0000
    ensures Fits(LaterHeader(minor, headerLength), COMMON_HEADER)
  {
    assert Power256(1) == 256 && Power256(2) == 0x1_0000;
    assert Power256(3) == 0x100_0000;
    assert Power256(4) == 0x1_0000_0000;
  }

  lemma LaterHeaderValid(minor: nat, headerLength: nat)
    requires 0 < minor && PCM_HEADER_SIZE <= headerLength <= MAX_HEADER_SIZE
    ensures var v := LaterHeader(minor, headerLength);
            ValidateHeader(v) == Success(PcmType) && HeaderLength(v) == headerLength && BodyLength(v) == PCM_PAYLOAD_BYTES
  {
  }

  /** The frame a later minor version may send: any padding behind the known fields. */
  function LaterFrame(m: PcmMessage, minor: nat, padding: Bytes): Bytes {
    Pack(LaterHeader(minor, PCM_HEADER_SIZE + |padding|), COMMON_HEADER) + Pack(PcmFields(m), PCM_EXTENSION) + padding + m.pcm
  }

  lemma CutInFour(a: Bytes, b: Bytes, c: Bytes, d: Bytes)
    ensures var all := a + b + c + d;
            && |all| == |a| + |b| + |c| + |d|
            && all[..|a|] == a && all[|a|..|a| + |b|] == b && all[|a| + |b| + |c|..] == d
  {
  }

  lemma LaterFrameLayout(m: PcmMessage, minor: nat, padding: Bytes)
    requires EncodePcm(m).Some? && 0 < minor < 256 && PCM_HEADER_SIZE + |padding| <= MAX_HEADER_SIZE
    ensures var frame, n := LaterFrame(m, minor, padding), PCM_HEADER_SIZE + |padding|;
            && |frame| == n + PCM_PAYLOAD_BYTES
            && ReadHeader(frame[..COMMON_HEADER_SIZE]) == LaterHeader(minor, n)
            && frame[COMMON_HEADER_SIZE..PCM_HEADER_SIZE] == Pack(PcmFields(m), PCM_EXTENSION)
            && frame[n..] == m.pcm
  {
    var header := LaterHeader(minor, PCM_HEADER_SIZE + |padding|);
    LayoutSizes();
    CutInFour(Pack(header, COMMON_HEADER), Pack(PcmFields(m), PCM_EXTENSION), padding, m.pcm);
    LaterHeaderFits(minor, PCM_HEADER_SIZE + |padding|);
    UnpackPack(header, COMMON_HEADER);
  }

  /**
  Such frames decode, whatever the padding: every message that can be encoded at all also comes from a frame that is
  not its encoding.
  */
  lemma LaterMinorDecodes(codec: JsonCodec, m: PcmMessage, minor: nat, padding: Bytes)
    requires EncodePcm(m).Some? && 0 < minor < 256 && PCM_HEADER_SIZE + |padding| <= MAX_HEADER_SIZE
    ensures var frame := LaterFrame(m, minor, padding);
            && IsFrame(frame) && DecodeFrame(codec, frame) == Success(Pcm(m))
            && ReadHeader(frame[..COMMON_HEADER_SIZE])[3] == minor
            && EncodePcm(m) != Some(frame)
  {
    var n := PCM_HEADER_SIZE + |padding|;
    var frame := LaterFrame(m, minor, padding);
    LaterFrameLayout(m, minor, padding);
    LaterHeaderValid(minor, n);
    ExtensionDecodes(m, frame, n);
    ReencodePcm(codec, frame, m);
  }

  lemma JoinAt(all: Bytes, i: nat, j: nat)
    requires i <= j <= |all|
    ensures all == all[..i] + all[i..j] + all[j..]
  {
  }

  lemma ReencodeHeader(codec: JsonCodec, frame: Bytes, m: PcmMessage)
    requires IsFrame(frame) && DecodeFrame(codec, frame) == Success(Pcm(m))
    requires ReadHeader(frame[..COMMON_HEADER_SIZE])[3] == PROTOCOL_MINOR
    ensures HeaderLength(ReadHeader(frame[..COMMON_HEADER_SIZE])) == PCM_HEADER_SIZE
    ensures frame[..COMMON_HEADER_SIZE] == HeaderBytes(PCM_HEADER_SIZE, PcmType, PCM_PAYLOAD_BYTES)
  {
    var v := ReadHeader(frame[..COMMON_HEADER_SIZE]);
    assert ValidateHeader(v) == Success(PcmType);
    SameEight(v, HeaderValues(PCM_HEADER_SIZE, PcmType, PCM_PAYLOAD_BYTES));
    LayoutSizes();
    PackUnpack(frame[..COMMON_HEADER_SIZE], COMMON_HEADER);
  }

  lemma ReencodeExtension(codec: JsonCodec, frame: Bytes, m: PcmMessage)
    requires IsFrame(frame) && DecodeFrame(codec, frame) == Success(Pcm(m))
    ensures EncodePcm(m).Some? && PCM_HEADER_SIZE <= |frame|
    ensures Pack(PcmFields(m), PCM_EXTENSION) == frame[COMMON_HEADER_SIZE..PCM_HEADER_SIZE]
    ensures m.pcm == frame[HeaderLength(ReadHeader(frame[..COMMON_HEADER_SIZE]))..]
  {
    var header := ReadHeader(frame[..COMMON_HEADER_SIZE]);
    assert ValidateHeader(header) == Success(PcmType);
    LayoutSizes();
    DecodedFields(frame, HeaderLength(header), BodyLength(header), m);
    PackUnpack(frame[COMMON_HEADER_SIZE..PCM_HEADER_SIZE], PCM_EXTENSION);
  }

  lemma DecodedFields(frame: Bytes, headerLength: nat, bodyLength: nat, m: PcmMessage)
    requires PCM_HEADER_SIZE <= headerLength && headerLength + bodyLength == |frame| && bodyLength == PCM_PAYLOAD_BYTES
    requires DecodePcm(frame, headerLength, bodyLength) == Success(Pcm(m))
    requires Size(PCM_EXTENSION) == PCM_HEADER_SIZE - COMMON_HEADER_SIZE
    ensures PcmFields(m) == Unpack(frame[COMMON_HEADER_SIZE..PCM_HEADER_SIZE], PCM_EXTENSION)
    ensures m.pcm == frame[headerLength..]
  {
    SameEleven(PcmFields(m), Unpack(frame[COMMON_HEADER_SIZE..PCM_HEADER_SIZE], PCM_EXTENSION));
  }

  lemma SameEleven(a: seq<nat>, b: seq<nat>)
    requires |a| == |b| == 11
    requires a[0] == b[0] && a[1] == b[1] && a[2] == b[2] && a[3] == b[3] && a[4] == b[4] && a[5] == b[5]
    requires a[6] == b[6] && a[7] == b[7] && a[8] == b[8] && a[9] == b[9] && a[10] == b[10]
    ensures a == b
  {
    assert forall i :: 0 <= i < 11 ==> a[i] == b[i];
  }

  lemma SameEight(a: seq<nat>, b: seq<nat>)
    requires |a| == |b| == 8
    requires a[0] == b[0] && a[1] == b[1] && a[2] == b[2] && a[3] == b[3]
    requires a[4] == b[4] && a[5] == b[5] && a[6] == b[6] && a[7] == b[7]
    ensures a == b
  {
    assert forall i :: 0 <= i < 8 ==> a[i] == b[i];
  }
}
