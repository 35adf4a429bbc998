/** The wire format (Shared/transportprotocol.h) and the receive loops that decode it from a buffer
    filled by arbitrary TCP chunks (Server/connection.cpp, Client/networkclient.cpp).

    A frame is a big-endian payload size, the payload, and the payload's checksum. */
module Framing {
  import opened Bits
  import opened Options
  import opened Crc

  const HEADER_SIZE := 4
  const FOOTER_SIZE := 4
  const MAX_PAYLOAD_SIZE := 256 * 1024

  datatype DecodeStatus = NeedMoreData | Ok | InvalidPacket | CrcMismatch | InvalidJson

  /** The status `tryDecode` returns, what it leaves in the caller's buffer, and the packet it found. */
  datatype Decoded<J> = Decoded(status: DecodeStatus, rest: seq<Byte>, packet: Option<J>)

  /** What the receive loop reports for one frame. */
  datatype Event<J> = Packet(packet: J) | BadCrc | BadJson | BadFrame

  /** What the loop has done when it returns: its reports, the residual buffer, and whether the
      connection is still open. */
  datatype Drained<J> = Drained(events: seq<Event<J>>, rest: seq<Byte>, open: bool)

  /** The number these digits to the base 256 write. */
  function Number(s: seq<Byte>): nat {
    if s == [] then 0 else 256 * Number(s[..|s| - 1]) + s[|s| - 1]
  }

  lemma {:induction false} NumberOfFour(w: U32)
    ensures Number(BigEndian(w)) == w
  {
    var s := BigEndian(w);
    assert s[..3][..2] == s[..2] && s[..2][..1] == s[..1] && s[..1][..0] == [];
    assert Number(s[..1]) == s[0];
    assert Number(s[..2]) == 256 * Number(s[..1]) + s[1];
    assert Number(s[..3]) == 256 * Number(s[..2]) + s[2];
  }

  /** The functions the format is built from: the JSON library and the checksum. */
  datatype Codec<!J(!new)> = Codec(toJson: J -> seq<Byte>, fromJson: seq<Byte> -> Option<J>, crc: seq<Byte> -> U32) {

    /** The checksum is the program's, on a target whose `char` is signed or not. */
    ghost predicate UsesCrc32(signedChar: bool) {
      forall data :: crc(data) == Crc32(data, signedChar)
    }

    lemma {:induction false} Crc32DetectsByte(payload: seq<Byte>, k: nat, b: Byte, signedChar: bool)
      requires UsesCrc32(signedChar) && k < |payload| && b != payload[k]
      ensures crc(payload[k := b]) != crc(payload)
    {
      hide Crc32;
      SingleByteChangesCrc(payload, k, b, signedChar);
    }

    ghost predicate Faithful() {
      forall j :: fromJson(toJson(j)) == Some(j)
    }

    function Encode(payload: seq<Byte>): (frame: seq<Byte>)
      ensures |frame| == HEADER_SIZE + |payload| + FOOTER_SIZE
    {
      BigEndian(|payload| % TWO_32) + payload + BigEndian(crc(payload))
    }

    function Check(payload: seq<Byte>, footer: seq<Byte>): (DecodeStatus, Option<J>)
      requires |footer| == FOOTER_SIZE
    {
      if crc(payload) != FromBigEndian(footer) then (CrcMismatch, None)
      else match fromJson(payload)
        case None => (InvalidJson, None)
        case Some(j) => (Ok, Some(j))
    }

    function Decode(buffer: seq<Byte>): (d: Decoded<J>)
      ensures d.status == NeedMoreData ==> d.rest == buffer && |buffer| < HEADER_SIZE + MAX_PAYLOAD_SIZE + FOOTER_SIZE
      ensures d.status != NeedMoreData ==> |d.rest| + HEADER_SIZE + FOOTER_SIZE <= |buffer|
      ensures d.status == InvalidPacket ==> d.rest == []
      ensures d.status == Ok <==> d.packet.Some?
    {
      if |buffer| < HEADER_SIZE + FOOTER_SIZE then Decoded(NeedMoreData, buffer, None)
      else
        var payloadSize := FromBigEndian(buffer[..HEADER_SIZE]);
        if payloadSize > MAX_PAYLOAD_SIZE then Decoded(InvalidPacket, [], None)
        else
          var fullPacketSize := HEADER_SIZE + payloadSize + FOOTER_SIZE;
          if |buffer| < fullPacketSize then Decoded(NeedMoreData, buffer, None)
          else
            var (status, packet) := Check(buffer[HEADER_SIZE..HEADER_SIZE + payloadSize],
                                          buffer[HEADER_SIZE + payloadSize..fullPacketSize]);
            Decoded(status, buffer[fullPacketSize..], packet)
    }

    /** The receive loop as a function of the buffer it starts from. */
    function Drain(buffer: seq<Byte>): Drained<J>
      decreases |buffer|
    {
      var d := Decode(buffer);
      match d.status
      case NeedMoreData => Drained([], buffer, true)
      case InvalidPacket => Drained([BadFrame], d.rest, false)
      case _ => After([EventOf(d)], Drain(d.rest))
    }

    function EventOf(d: Decoded<J>): Event<J> {
      if d.packet.Some? then Packet(d.packet.value)
      else if d.status == InvalidJson then BadJson
      else if d.status == CrcMismatch then BadCrc
      else BadFrame
    }

    // ---- Round trip ----

    lemma {:induction false} DecodeAtFrame(header: seq<Byte>, payload: seq<Byte>, footer: seq<Byte>, tail: seq<Byte>)
      requires |header| == HEADER_SIZE && |footer| == FOOTER_SIZE
      requires FromBigEndian(header) == |payload| <= MAX_PAYLOAD_SIZE
      ensures var (status, packet) := Check(payload, footer);
        Decode(header + payload + footer + tail) == Decoded(status, tail, packet)
    {
      var buffer := header + payload + footer + tail;
      assert buffer[..HEADER_SIZE] == header;
      assert buffer[HEADER_SIZE..HEADER_SIZE + |payload|] == payload;
      assert buffer[HEADER_SIZE + |payload|..HEADER_SIZE + |payload| + FOOTER_SIZE] == footer;
      assert buffer[HEADER_SIZE + |payload| + FOOTER_SIZE..] == tail;
    }

    lemma {:induction false} DecodeEncoded(payload: seq<Byte>, tail: seq<Byte>)
      requires |payload| <= MAX_PAYLOAD_SIZE
      ensures var d := Decode(Encode(payload) + tail);
        d.rest == tail && d.packet == fromJson(payload) && d.status == if fromJson(payload).Some? then Ok
          else InvalidJson
    {
      hide Bits.FromBigEndian, Bits.BigEndian;
      BigEndianRoundTrip(|payload|);
      BigEndianRoundTrip(crc(payload));
      DecodeAtFrame(BigEndian(|payload|), payload, BigEndian(crc(payload)), tail);
    }

    /** Four bytes of size, most significant first, the payload, and four of checksum. */
    lemma {:induction false} FrameLayout(payload: seq<Byte>)
      requires |payload| < 0x1_0000_0000
      ensures var f, n := Encode(payload), |payload|;
        && |f| == n + 8 && f[4..n + 4] == payload
        && Number(f[..4]) == n && Number(f[n + 4..]) == crc(payload)
    {
      var f, n := Encode(payload), |payload|;
      assert f[..4] == BigEndian(n) && f[n + 4..] == BigEndian(crc(payload));
      NumberOfFour(n);
      NumberOfFour(crc(payload));
    }

    /** `encodePacket` does not enforce the size limit that `tryDecode` does. A packet comes back whole,
        with nothing left over, exactly when its payload is within the limit. */
    lemma {:induction false} RoundTrip(j: J)
      requires Faithful()
      ensures Decode(Encode(toJson(j))) == Decoded(Ok, [], Some(j)) <==> |toJson(j)| <= 256 * 1024
    {
      var payload, frame := toJson(j), Encode(toJson(j));
      if |payload| <= MAX_PAYLOAD_SIZE {
        assert frame + [] == frame;
        DecodeEncoded(payload, []);
      } else {
        assert frame[..HEADER_SIZE] == BigEndian(|payload| % TWO_32);
        BigEndianRoundTrip(|payload| % TWO_32);
      }
    }

    // ---- Chunking ----

    /** A decision taken on a buffer does not change when more bytes arrive behind it. */
    lemma {:induction false} DecodeIsMonotone(buffer: seq<Byte>, more: seq<Byte>)
      requires Decode(buffer).status != NeedMoreData
      ensures Decode(buffer + more).status == Decode(buffer).status
      ensures Decode(buffer + more).packet == Decode(buffer).packet
      ensures Decode(buffer + more).rest == if Decode(buffer).status == InvalidPacket then []
        else Decode(buffer).rest + more
    {
      hide Bits.FromBigEndian, Bits.BigEndian;
      var whole := buffer + more;
      assert whole[..HEADER_SIZE] == buffer[..HEADER_SIZE];
      var payloadSize := FromBigEndian(buffer[..HEADER_SIZE]);
      if payloadSize <= MAX_PAYLOAD_SIZE {
        var end := HEADER_SIZE + payloadSize;
        assert whole[HEADER_SIZE..end] == buffer[HEADER_SIZE..end];
        assert whole[end..end + FOOTER_SIZE] == buffer[end..end + FOOTER_SIZE];
        assert whole[end + FOOTER_SIZE..] == buffer[end + FOOTER_SIZE..] + more;
      }
    }

    /** The loop started later, on what an earlier run left behind. */
    function Resume(before: Drained<J>, more: seq<Byte>): Drained<J> {
      if !before.open then before else After(before.events, Drain(before.rest + more))
    }

    function After(events: seq<Event<J>>, later: Drained<J>): Drained<J> {
      Drained(events + later.events, later.rest, later.open)
    }

    lemma {:induction false} DrainOneAfter(events: seq<Event<J>>, buffer: seq<Byte>)
      requires Decode(buffer).status !in {NeedMoreData, InvalidPacket}
      ensures After(events, Drain(buffer))
           == After(events + [EventOf(Decode(buffer))], Drain(Decode(buffer).rest))
    {
      hide Decode;
      var d := Decode(buffer);
      DrainOne(buffer, d.rest, EventOf(d));
      AfterAfter(events, [EventOf(d)], Drain(d.rest));
    }

    lemma {:induction false} DrainInTwoParts(buffer: seq<Byte>, more: seq<Byte>)
      ensures Drain(buffer + more) == Resume(Drain(buffer), more)
      decreases |buffer|
    {
      hide Decode;
      var d := Decode(buffer);
      if d.status == NeedMoreData {
        assert After([], Drain(buffer + more)) == Drain(buffer + more);
      } else {
        DecodeIsMonotone(buffer, more);
        if d.status != InvalidPacket {
          DrainInTwoParts(d.rest, more);
          var rest := Drain(d.rest);
          DrainOne(buffer, d.rest, EventOf(d));
          DrainOne(buffer + more, d.rest + more, EventOf(d));
          AfterAfter([EventOf(d)], rest.events, Drain(rest.rest + more));
        }
      }
    }

    /** A connection fed chunk by chunk. */
    function Feed(chunks: seq<seq<Byte>>): Drained<J> {
      if chunks == [] then Drained([], [], true)
      else Resume(Feed(chunks[..|chunks| - 1]), chunks[|chunks| - 1])
    }

    function Concat(chunks: seq<seq<Byte>>): seq<Byte> {
      if chunks == [] then [] else Concat(chunks[..|chunks| - 1]) + chunks[|chunks| - 1]
    }

    /** However a byte stream is cut into chunks, the loop reports the same events and ends in the same
        state, which while the connection is open is a buffer shorter than one largest frame. */
    lemma {:induction false} ChunkingIsInvisible(chunks: seq<seq<Byte>>)
      ensures Feed(chunks) == Drain(Concat(chunks))
      ensures Feed(chunks).open ==>
        |Feed(chunks).rest| < HEADER_SIZE + MAX_PAYLOAD_SIZE + FOOTER_SIZE
          && Decode(Feed(chunks).rest).status == NeedMoreData
    {
      if chunks != [] {
        var init, last := chunks[..|chunks| - 1], chunks[|chunks| - 1];
        ChunkingIsInvisible(init);
        DrainInTwoParts(Concat(init), last);
      }
      DrainLeavesPartialFrame(Concat(chunks));
    }

    lemma {:induction false} DrainLeavesPartialFrame(buffer: seq<Byte>)
      ensures Drain(buffer).open ==> Decode(Drain(buffer).rest).status == NeedMoreData
      ensures !Drain(buffer).open <==> BadFrame in Drain(buffer).events
      ensures !Drain(buffer).open ==> Drain(buffer).rest == []
      decreases |buffer|
    {
      var d := Decode(buffer);
      if d.status != NeedMoreData && d.status != InvalidPacket {
        DrainLeavesPartialFrame(d.rest);
        assert EventOf(d) != BadFrame;
      }
    }

    // ---- A buffer that outlives its stream ----

    /** How many bytes a leftover whose header has arrived still waits for. */
    function Missing(leftover: seq<Byte>): int
      requires |leftover| >= HEADER_SIZE
    {
      HEADER_SIZE + FromBigEndian(leftover[..HEADER_SIZE]) + FOOTER_SIZE - |leftover|
    }

    /** The automatic reconnect keeps the buffer, so the first bytes of the new stream complete the frame
        the old one was cut in: nothing is reported while they do not suffice, then the mixed frame is decoded
        as one, and the new stream is read on from the middle of whatever frame that byte falls in. */
    lemma {:induction false} LeftoverSwallowsTheNextStream(leftover: seq<Byte>, next: seq<Byte>)
      requires |leftover| >= HEADER_SIZE && Missing(leftover) > 0
      requires FromBigEndian(leftover[..HEADER_SIZE]) <= MAX_PAYLOAD_SIZE
      ensures |next| < Missing(leftover) ==> Drain(leftover + next) == Drained([], leftover + next, true)
      ensures |next| >= Missing(leftover) ==>
        var mixed := leftover + next[..Missing(leftover)];
        && Decode(mixed).rest == [] && EventOf(Decode(mixed)) != BadFrame
        && Drain(leftover + next) == After([EventOf(Decode(mixed))], Drain(next[Missing(leftover)..]))
    {
      hide Bits.FromBigEndian;
      var whole := leftover + next;
      assert whole[..HEADER_SIZE] == leftover[..HEADER_SIZE];
      if |next| >= Missing(leftover) {
        var mixed, later := leftover + next[..Missing(leftover)], next[Missing(leftover)..];
        assert mixed[..HEADER_SIZE] == leftover[..HEADER_SIZE];
        assert mixed + later == whole;
        DecodeIsMonotone(mixed, later);
        DrainOne(whole, later, EventOf(Decode(mixed)));
      }
    }

    /** What was left behind does no harm to any stream that follows. */
    ghost predicate Harmless(leftover: seq<Byte>) {
      forall next :: Drain(leftover + next).events == Drain(next).events
    }

    /** A buffer that holds the least a frame takes is given up at once exactly if its header says too much. */
    lemma {:induction false} ClosesIff(buffer: seq<Byte>)
      requires |buffer| >= HEADER_SIZE + FOOTER_SIZE
      ensures Drain(buffer).events == [BadFrame] <==> FromBigEndian(buffer[..HEADER_SIZE]) > MAX_PAYLOAD_SIZE
    {
      hide Bits.FromBigEndian, Check;
      var d := Decode(buffer);
      if FromBigEndian(buffer[..HEADER_SIZE]) <= MAX_PAYLOAD_SIZE && d.status != NeedMoreData {
        NotABadFrame(buffer);
        DrainOne(buffer, d.rest, EventOf(d));
        assert Drain(buffer).events[0] == EventOf(d);
      }
    }

    lemma {:induction false} NotABadFrame(buffer: seq<Byte>)
      requires |buffer| >= HEADER_SIZE && FromBigEndian(buffer[..HEADER_SIZE]) <= MAX_PAYLOAD_SIZE
      ensures Decode(buffer).status != InvalidPacket
      ensures Decode(buffer).status != NeedMoreData ==> EventOf(Decode(buffer)) != BadFrame
    {
      hide Bits.FromBigEndian;
    }

    /** The header of a leftover followed by four given bytes and more. */
    function MixedHeader(leftover: seq<Byte>, b0: Byte, b1: Byte, b2: Byte, b3: Byte): U32 {
      FromBigEndian((leftover + [b0, b1, b2, b3])[..HEADER_SIZE])
    }

    /** The stream that starts with these bytes is given up at once with and without the leftover, or neither. */
    lemma {:induction false} SameFate(leftover: seq<Byte>, b0: Byte, b1: Byte, b2: Byte, b3: Byte)
      requires Harmless(leftover)
      ensures MixedHeader(leftover, b0, b1, b2, b3) > MAX_PAYLOAD_SIZE
         <==> FromBigEndian([b0, b1, b2, b3]) > MAX_PAYLOAD_SIZE
    {
      hide Bits.FromBigEndian, Drain;
      var next := [b0, b1, b2, b3] + [0, 0, 0, 0];
      assert Drain(leftover + next).events == Drain(next).events;
      assert next[..HEADER_SIZE] == [b0, b1, b2, b3];
      assert (leftover + next)[..HEADER_SIZE] == (leftover + [b0, b1, b2, b3])[..HEADER_SIZE];
      ClosesIff(next);
      ClosesIff(leftover + next);
    }

    /** Exactly an empty buffer does no harm. Whatever an automatic reconnect leaves in the buffer, even one byte,
        there is a stream that the receive loop then reports differently. */
    lemma {:induction false} HarmlessIff(leftover: seq<Byte>)
      ensures Harmless(leftover) <==> leftover == []
    {
      if leftover == [] {
        forall next ensures Drain(leftover + next).events == Drain(next).events {
          assert leftover + next == next;
        }
      } else if Harmless(leftover) {
        hide Harmless, Bits.FromBigEndian;
        SameFate(leftover, 0, 0, 0, 0);
        SameFate(leftover, 0, 1, 0, 0);
        SameFate(leftover, 0, 4, 0, 1);
        SameFate(leftover, 255, 255, 255, 255);
        NoLeftoverIsLikeNothing(leftover);
      }
    }

    /** No leftover leaves all four of these headers on their side of the limit. */
    lemma {:induction false} NoLeftoverIsLikeNothing(leftover: seq<Byte>)
      requires leftover != []
      ensures var limit := MAX_PAYLOAD_SIZE;
        || (MixedHeader(leftover, 0, 0, 0, 0) > limit) != (FromBigEndian([0, 0, 0, 0]) > limit)
        || (MixedHeader(leftover, 0, 1, 0, 0) > limit) != (FromBigEndian([0, 1, 0, 0]) > limit)
        || (MixedHeader(leftover, 0, 4, 0, 1) > limit) != (FromBigEndian([0, 4, 0, 1]) > limit)
        || (MixedHeader(leftover, 255, 255, 255, 255) > limit) != (FromBigEndian([255, 255, 255, 255]) > limit)
    {
      if |leftover| >= HEADER_SIZE {
        hide Bits.FromBigEndian;
        assert forall s: seq<Byte> :: (leftover + s)[..HEADER_SIZE] == leftover[..HEADER_SIZE];
        HeadersOfStreams();
      } else {
        HeadersOfStreams();
      }
    }

    lemma {:induction false} HeadersOfStreams()
      ensures FromBigEndian([0, 0, 0, 0]) == 0 && FromBigEndian([0, 1, 0, 0]) == 0x1_0000
      ensures FromBigEndian([0, 4, 0, 1]) == 0x4_0001 && FromBigEndian([255, 255, 255, 255]) == 0xFFFF_FFFF
    {
    }

    // ---- Corruption ----

    /** The event a well-formed frame gives rise to. */
    function EventOfPayload(payload: seq<Byte>): Event<J> {
      match fromJson(payload)
      case Some(j) => Packet(j)
      case None => BadJson
    }

    function Stream(payloads: seq<seq<Byte>>): seq<Byte>
      decreases |payloads|
    {
      if payloads == [] then [] else Encode(payloads[0]) + Stream(payloads[1..])
    }

    function Events(payloads: seq<seq<Byte>>): (e: seq<Event<J>>)
      ensures |e| == |payloads|
    {
      seq(|payloads|, i requires 0 <= i < |payloads| => EventOfPayload(payloads[i]))
    }

    predicate WithinLimit(payloads: seq<seq<Byte>>) {
      forall i :: 0 <= i < |payloads| ==> |payloads[i]| <= MAX_PAYLOAD_SIZE
    }

    /** The frames at the front of a buffer are reported in order, whatever follows them. */
    lemma {:induction false} DrainStream(payloads: seq<seq<Byte>>, tail: seq<Byte>)
      requires WithinLimit(payloads)
      ensures Drain(Stream(payloads) + tail) == After(Events(payloads), Drain(tail))
      decreases |payloads|
    {
      hide Decode, Encode, Drain;
      if payloads == [] {
        assert Stream(payloads) + tail == tail;
        assert After([], Drain(tail)) == Drain(tail);
      } else {
        var next := Stream(payloads[1..]) + tail;
        assert Stream(payloads) + tail == Encode(payloads[0]) + next;
        DecodeEncoded(payloads[0], next);
        DrainOne(Encode(payloads[0]) + next, next, EventOfPayload(payloads[0]));
        DrainStream(payloads[1..], tail);
        assert Events(payloads) == [EventOfPayload(payloads[0])] + Events(payloads[1..]);
        AfterAfter([EventOfPayload(payloads[0])], Events(payloads[1..]), Drain(tail));
      }
    }

    /** What each packet is sent as. */
    function Payloads(js: seq<J>): (p: seq<seq<Byte>>)
      ensures |p| == |js|
    {
      seq(|js|, i requires 0 <= i < |js| => toJson(js[i]))
    }

    function Packets(js: seq<J>): (e: seq<Event<J>>)
      ensures |e| == |js|
    {
      seq(|js|, i requires 0 <= i < |js| => Packet(js[i]))
    }

    /** A sender's bytes, cut anywhere and in transit only up to some point, make the receiver hand on a prefix
        of the packets sent, whole and in order; once all bytes have arrived, all packets. So the connection is
        a first-in first-out channel of packets. */
    lemma {:induction false} PacketsSurviveTheWire(js: seq<J>, chunks: seq<seq<Byte>>)
      requires Faithful() && WithinLimit(Payloads(js))
      requires Concat(chunks) <= Stream(Payloads(js))
      ensures Feed(chunks).open && Feed(chunks).events <= Packets(js)
      ensures Concat(chunks) == Stream(Payloads(js)) ==> Feed(chunks) == Drained(Packets(js), [], true)
    {
      hide Decode, Encode, Drain, Stream, Feed, Concat;
      var received, sent := Concat(chunks), Stream(Payloads(js));
      ChunkingIsInvisible(chunks);
      DrainStream(Payloads(js), []);
      DrainNothing();
      assert sent + [] == sent;
      assert Events(Payloads(js)) == Packets(js);
      DrainInTwoParts(received, sent[|received|..]);
      assert received + sent[|received|..] == sent;
      assert Packets(js) + [] == Packets(js);
      assert Drain(sent) == Drained(Packets(js), [], true);
      var early := Drain(received);
      assert early.open;
      assert Packets(js) == early.events + Drain(early.rest + sent[|received|..]).events;
    }

    lemma {:induction false} AfterAfter(a: seq<Event<J>>, b: seq<Event<J>>, later: Drained<J>)
      ensures After(a, After(b, later)) == After(a + b, later)
    {
      assert a + (b + later.events) == (a + b) + later.events;
    }

    lemma {:induction false} DrainOne(buffer: seq<Byte>, tail: seq<Byte>, event: Event<J>)
      requires var d := Decode(buffer);
        d.rest == tail && d.status !in {NeedMoreData, InvalidPacket} && EventOf(d) == event
      ensures Drain(buffer) == After([event], Drain(tail))
    {
      hide Decode;
    }

    /** Changing one byte behind the header makes the frame fail its checksum and nothing else. */
    lemma {:induction false} CorruptFrame(payload: seq<Byte>, k: nat, b: Byte, tail: seq<Byte>, signedChar: bool)
      requires UsesCrc32(signedChar)
      requires |payload| <= MAX_PAYLOAD_SIZE
      requires HEADER_SIZE <= k < |Encode(payload)| && b != Encode(payload)[k]
      ensures Decode(Encode(payload)[k := b] + tail) == Decoded(CrcMismatch, tail, None)
    {
      hide Bits.FromBigEndian, Bits.BigEndian, Crc32;
      var header, footer := BigEndian(|payload|), BigEndian(crc(payload));
      BigEndianRoundTrip(|payload|);
      BigEndianRoundTrip(crc(payload));
      if k < HEADER_SIZE + |payload| {
        var changed := payload[k - HEADER_SIZE := b];
        assert Encode(payload)[k := b] == header + changed + footer;
        Crc32DetectsByte(payload, k - HEADER_SIZE, b, signedChar);
        DecodeAtFrame(header, changed, footer, tail);
      } else {
        var changed := footer[k - HEADER_SIZE - |payload| := b];
        assert Encode(payload)[k := b] == header + payload + changed;
        FromBigEndianInjective(changed);
        DecodeAtFrame(header, payload, changed, tail);
      }
    }

    /** Two ends whose targets differ in the signedness of `char`: a frame of the other end is rejected exactly
        if its payload's sign fills do not cancel out, and else decodes like one of this end's own. */
    lemma {:induction false} OtherSignednessIsRejectedIff(
      sender: Codec<J>, payload: seq<Byte>, tail: seq<Byte>, signedChar: bool)
      requires sender.UsesCrc32(signedChar) && UsesCrc32(!signedChar) && |payload| <= MAX_PAYLOAD_SIZE
      ensures var d := Decode(sender.Encode(payload) + tail);
        if SignDefect(payload) != 0 then d == Decoded(CrcMismatch, tail, None)
        else d == Decode(Encode(payload) + tail)
    {
      hide Bits.FromBigEndian, Bits.BigEndian, Crc32, StandardCrc32, SignDefect;
      SignedCharDiffersBySignDefect(payload);
      UnsignedCharIsStandard(payload);
      BigEndianRoundTrip(|payload|);
      BigEndianRoundTrip(sender.crc(payload));
      DecodeAtFrame(BigEndian(|payload|), payload, BigEndian(sender.crc(payload)), tail);
      if SignDefect(payload) == 0 {
        assert sender.Encode(payload) == Encode(payload);
      }
    }

    /** So one character that is not ASCII, two to four adjacent bytes of 0x80 or more in UTF-8, is enough. */
    lemma {:induction false} OneCharacterIsRejected(
      sender: Codec<J>, payload: seq<Byte>, k: nat, m: nat, tail: seq<Byte>, signedChar: bool)
      requires sender.UsesCrc32(signedChar) && UsesCrc32(!signedChar) && |payload| <= MAX_PAYLOAD_SIZE
      requires 1 <= m <= 4 && HighRun(payload, k, m)
      ensures Decode(sender.Encode(payload) + tail) == Decoded(CrcMismatch, tail, None)
    {
      hide Decode, Encode, Crc32, StandardCrc32, SignDefect;
      OneCharacterIsNotStandard(payload, k, m);
      SignedCharDiffersBySignDefect(payload);
      OtherSignednessIsRejectedIff(sender, payload, tail, signedChar);
    }

    lemma {:induction false} DrainAround(
      before: seq<seq<Byte>>, frame: seq<Byte>, after: seq<seq<Byte>>, event: Event<J>)
      requires WithinLimit(before) && WithinLimit(after)
      requires var d := Decode(frame + Stream(after));
        d.rest == Stream(after) && d.status !in {NeedMoreData, InvalidPacket} && EventOf(d) == event
      ensures Drain(Stream(before) + frame + Stream(after)) ==
        Drained(Events(before) + [event] + Events(after), [], true)
    {
      hide Decode, Drain, Encode, Stream, Events;
      var rest := Stream(after);
      assert rest + [] == rest;
      DrainNothing();
      DrainStream(after, []);
      DrainOne(frame + rest, rest, event);
      assert (Stream(before) + frame) + rest == Stream(before) + (frame + rest);
      DrainStream(before, frame + rest);
      AfterAfter(Events(before), [event], Drain(rest));
      assert Events(before) + [event] + Events(after) + [] == Events(before) + [event] + Events(after);
    }

    lemma {:induction false} DrainNothing()
      ensures Drain([]) == Drained([], [], true)
    {
    }

    /** In a stream of frames, changing any one byte inside one frame's payload or checksum makes exactly
        that frame report a checksum mismatch; every frame before and after it decodes unchanged. */
    lemma {:induction false} Resynchronises(
      before: seq<seq<Byte>>, payload: seq<Byte>, after: seq<seq<Byte>>, k: nat, b: Byte, signedChar: bool)
      requires UsesCrc32(signedChar)
      requires WithinLimit(before) && |payload| <= MAX_PAYLOAD_SIZE && WithinLimit(after)
      requires HEADER_SIZE <= k < |Encode(payload)| && b != Encode(payload)[k]
      ensures Drain(Stream(before) + Encode(payload) + Stream(after))
           == Drained(Events(before) + [EventOfPayload(payload)] + Events(after), [], true)
      ensures Drain(Stream(before) + Encode(payload)[k := b] + Stream(after))
           == Drained(Events(before) + [BadCrc] + Events(after), [], true)
    {
      hide Decode, Encode, Drain;
      DecodeEncoded(payload, Stream(after));
      DrainAround(before, Encode(payload), after, EventOfPayload(payload));
      CorruptFrame(payload, k, b, Stream(after), signedChar);
      DrainAround(before, Encode(payload)[k := b], after, BadCrc);
    }
  }

  // ---- The program's loops ----

  /** A QByteArray passed by reference. */
  class ByteBuffer {
    var bytes: seq<Byte>

    constructor ()
      ensures bytes == []
    {
      bytes := [];
    }
  }

  method EncodePacket<J(!new)>(codec: Codec<J>, signedChar: bool, j: J) returns (packet: seq<Byte>)
    requires codec.UsesCrc32(signedChar)
    ensures packet == codec.Encode(codec.toJson(j))
  {
    var payload := codec.toJson(j);
    var payloadSize: U32 := |payload| % TWO_32;
    var payloadCrc := ComputeCrc32(payload, signedChar);
    packet := [];
    packet := packet + BigEndian(payloadSize);
    packet := packet + payload;
    packet := packet + BigEndian(payloadCrc);
  }

  method TryDecode<J(!new)>(codec: Codec<J>, signedChar: bool, buffer: ByteBuffer)
    returns (status: DecodeStatus, packet: Option<J>)
    requires codec.UsesCrc32(signedChar)
    modifies buffer
    ensures Decoded(status, buffer.bytes, packet) == codec.Decode(old(buffer.bytes))
  {
    packet := None;
    if |buffer.bytes| < HEADER_SIZE + FOOTER_SIZE {
      return NeedMoreData, None;
    }
    var payloadSize := FromBigEndian(buffer.bytes[..HEADER_SIZE]);
    if payloadSize > MAX_PAYLOAD_SIZE {
      buffer.bytes := [];
      return InvalidPacket, None;
    }
    var fullPacketSize := HEADER_SIZE + payloadSize + FOOTER_SIZE;
    if |buffer.bytes| < fullPacketSize {
      return NeedMoreData, None;
    }
    var frame := buffer.bytes[..fullPacketSize];
    buffer.bytes := buffer.bytes[fullPacketSize..];
    var payload := frame[HEADER_SIZE..HEADER_SIZE + payloadSize];
    var footer := frame[|frame| - FOOTER_SIZE..];
    assert payload == old(buffer.bytes)[HEADER_SIZE..HEADER_SIZE + payloadSize];
    assert footer == old(buffer.bytes)[HEADER_SIZE + payloadSize..fullPacketSize];
    var crc := ComputeCrc32(payload, signedChar);
    if crc != FromBigEndian(footer) {
      return CrcMismatch, None;
    }
    packet := codec.fromJson(payload);
    status := if packet.None? then InvalidJson else Ok;
  }

  /** One end of a connection: `onReadyRead` of either endpoint. `handled` records, in order, the
      packets handed on and the errors reported. */
  class Receiver<J(!new)> {
    const codec: Codec<J>
    const signedChar: bool
    const buffer: ByteBuffer
    var open: bool
    var handled: seq<Event<J>>

    constructor (codec: Codec<J>, signedChar: bool)
      ensures this.codec == codec && this.signedChar == signedChar && open && handled == [] && fresh(buffer)
        && buffer.bytes == []
    {
      this.codec := codec;
      this.signedChar := signedChar;
      buffer := new ByteBuffer();
      open := true;
      handled := [];
    }

    ghost function State(): Drained<J>
      reads this, buffer
    {
      Drained(handled, buffer.bytes, open)
    }

    method OnReadyRead(chunk: seq<Byte>)
      requires codec.UsesCrc32(signedChar)
      modifies this, buffer
      ensures State() == codec.Resume(old(State()), chunk)
    {
      hide codec.Decode;
      if !open {
        return;
      }
      buffer.bytes := buffer.bytes + chunk;
      ghost var goal := codec.After(handled, codec.Drain(buffer.bytes));
      while true
        invariant open && goal == codec.After(handled, codec.Drain(buffer.bytes))
        decreases |buffer.bytes|
      {
        ghost var received := buffer.bytes;
        var status, packet := TryDecode(codec, signedChar, buffer);
        if status !in {NeedMoreData, InvalidPacket} {
          codec.DrainOneAfter(handled, received);
        }
        if status == NeedMoreData {
          return;
        }
        if status == CrcMismatch {
          handled := handled + [BadCrc];
          continue;
        }
        if status == InvalidPacket {
          handled := handled + [BadFrame];
          open := false;
          return;
        }
        if status == InvalidJson {
          handled := handled + [BadJson];
          continue;
        }
        handled := handled + [Packet(packet.value)];
      }
    }
  }
}
