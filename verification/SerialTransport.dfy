/** The browser's serial receiver: a bounded queue filled by whatever chunks the port delivers, and a packet reader
    that undoes SLIP framing (RFC 1055) over them. */
module SerialTransport {
  import opened Octets
  import opened Wrappers

  const MAX_QUEUED_BYTES: nat := 262144
  const MAX_PACKET_BYTES: nat := 8192
  const END: Byte := 0xC0
  const ESC: Byte := 0xDB
  const ESC_END: Byte := 0xDC
  const ESC_ESC: Byte := 0xDD

  datatype Fault = PacketHead | PacketEscape | PacketLimit | PacketTimeout | QueueLimit | StreamClosed

  // ----- framing -----

  function EscapedByte(b: Byte): seq<Byte> {
    if b == END then [ESC, ESC_END] else if b == ESC then [ESC, ESC_ESC] else [b]
  }

  function Escaped(payload: seq<Byte>): seq<Byte> {
    if payload == [] then [] else EscapedByte(payload[0]) + Escaped(payload[1..])
  }

  function Delimiters(n: nat): seq<Byte> { seq(n, _ => END) }

  /** A packet behind one or more delimiters, closed by one. */
  function Frame(lead: nat, payload: seq<Byte>): seq<Byte>
    requires 1 <= lead
  {
    Delimiters(lead) + Escaped(payload) + [END]
  }

  // ----- what one read makes of the bytes still to come -----

  datatype Phase = Phase(started: bool, escaping: bool, packet: seq<Byte>)
  datatype Outcome = Packet(payload: seq<Byte>, rest: seq<Byte>) | Faulty(fault: Fault) | Starved(phase: Phase)

  const FRESH := Phase(false, false, [])

  function Decode(p: Phase, bytes: seq<Byte>): Outcome
    decreases |bytes|, 1
  {
    if bytes == [] then Starved(p)
    else if !p.started then
      if bytes[0] != END then Faulty(PacketHead) else Decode(p.(started := true), bytes[1..])
    else if p.escaping then
      if bytes[0] == ESC_END then Push(p, END, bytes[1..])
      else if bytes[0] == ESC_ESC then Push(p, ESC, bytes[1..])
      else Faulty(PacketEscape)
    else if bytes[0] == ESC then Decode(p.(escaping := true), bytes[1..])
    else if bytes[0] == END then
      if p.packet == [] then Decode(p, bytes[1..]) else Packet(p.packet, bytes[1..])
    else Push(p, bytes[0], bytes[1..])
  }

  function Push(p: Phase, b: Byte, rest: seq<Byte>): Outcome
    decreases |rest|, 2
  {
    if MAX_PACKET_BYTES <= |p.packet| then Faulty(PacketLimit)
    else Decode(p.(escaping := false, packet := p.packet + [b]), rest)
  }

  /** Chunk boundaries do not matter: decoding a concatenation is decoding the first part and going on. */
  lemma {:induction false} DecodeAppend(p: Phase, first: seq<Byte>, second: seq<Byte>)
    ensures match Decode(p, first)
            case Starved(q) => Decode(p, first + second) == Decode(q, second)
            case Packet(payload, rest) => Decode(p, first + second) == Packet(payload, rest + second)
            case Faulty(fault) => Decode(p, first + second) == Faulty(fault)
    decreases |first|
  {
    if first == [] {
      assert first + second == second;
    } else {
      assert (first + second)[1..] == first[1..] + second;
      if !p.started {
        DecodeAppend(p.(started := true), first[1..], second);
      } else if p.escaping {
        if |p.packet| < MAX_PACKET_BYTES {
          DecodeAppend(p.(escaping := false, packet := p.packet + [END]), first[1..], second);
          DecodeAppend(p.(escaping := false, packet := p.packet + [ESC]), first[1..], second);
        }
      } else if first[0] == ESC {
        DecodeAppend(p.(escaping := true), first[1..], second);
      } else if first[0] == END {
        DecodeAppend(p, first[1..], second);
      } else if |p.packet| < MAX_PACKET_BYTES {
        DecodeAppend(p.(escaping := false, packet := p.packet + [first[0]]), first[1..], second);
      }
    }
  }

  lemma {:induction false} DecodeLead(lead: nat, bytes: seq<Byte>)
    requires 1 <= lead
    ensures Decode(FRESH, Delimiters(lead) + bytes) == Decode(Phase(true, false, []), bytes)
  {
    var all := Delimiters(lead) + bytes;
    if lead == 1 {
      assert all[1..] == bytes;
    } else {
      DecodeLead(lead - 1, bytes);
      assert all[1..] == Delimiters(lead - 1) + bytes;
      assert all[1..][1..] == Delimiters(lead - 2) + bytes;
      assert (Delimiters(lead - 1) + bytes)[1..] == Delimiters(lead - 2) + bytes;
    }
  }

  lemma DecodeByte(packet: seq<Byte>, b: Byte, bytes: seq<Byte>)
    requires |packet| < MAX_PACKET_BYTES
    ensures Decode(Phase(true, false, packet), EscapedByte(b) + bytes)
         == Decode(Phase(true, false, packet + [b]), bytes)
  {
    var all := EscapedByte(b) + bytes;
    if b == END || b == ESC {
      assert Decode(Phase(true, false, packet), all) == Decode(Phase(true, true, packet), all[1..]);
      assert all[1..][1..] == bytes;
      assert all[1..][0] == EscapedByte(b)[1];
      assert Decode(Phase(true, true, packet), all[1..]) == Push(Phase(true, true, packet), b, bytes);
    } else {
      assert all[1..] == bytes;
    }
  }

  lemma {:induction false} DecodeEscaped(packet: seq<Byte>, payload: seq<Byte>, bytes: seq<Byte>)
    requires |packet| + |payload| <= MAX_PACKET_BYTES
    ensures Decode(Phase(true, false, packet), Escaped(payload) + bytes)
         == Decode(Phase(true, false, packet + payload), bytes)
    decreases |payload|
  {
    if payload == [] {
      assert Escaped(payload) + bytes == bytes && packet + payload == packet;
    } else {
      assert Escaped(payload) + bytes == EscapedByte(payload[0]) + (Escaped(payload[1..]) + bytes);
      DecodeByte(packet, payload[0], Escaped(payload[1..]) + bytes);
      DecodeEscaped(packet + [payload[0]], payload[1..], bytes);
      assert packet + [payload[0]] + payload[1..] == packet + payload;
    }
  }

  /** A framed payload reads back, and what follows the frame is left untouched. */
  lemma FrameReadsBack(lead: nat, payload: seq<Byte>, rest: seq<Byte>)
    requires 1 <= lead && 1 <= |payload| <= MAX_PACKET_BYTES
    ensures Decode(FRESH, Frame(lead, payload) + rest) == Packet(payload, rest)
  {
    assert Frame(lead, payload) + rest == Delimiters(lead) + (Escaped(payload) + ([END] + rest));
    DecodeLead(lead, Escaped(payload) + ([END] + rest));
    DecodeEscaped([], payload, [END] + rest);
    assert [] + payload == payload && ([END] + rest)[1..] == rest;
  }

  lemma {:induction false} EscapedSnoc(payload: seq<Byte>, b: Byte)
    ensures Escaped(payload + [b]) == Escaped(payload) + EscapedByte(b)
  {
    if payload == [] {
      assert payload + [b] == [b];
    } else {
      EscapedSnoc(payload[1..], b);
      assert (payload + [b])[1..] == payload[1..] + [b];
    }
  }

  /** What has been consumed to reach a phase behind `lead` delimiters. */
  function Consumed(p: Phase, lead: nat): seq<Byte> {
    Delimiters(lead) + Escaped(p.packet) + (if p.escaping then [ESC] else [])
  }

  /** One more byte of the stream, as long as it is accepted and does not close the packet. */
  function Stepped(p: Phase, b: Byte): Phase {
    if !p.started then p.(started := true)
    else if p.escaping then p.(escaping := false, packet := p.packet + [if b == ESC_END then END else ESC])
    else if b == ESC then p.(escaping := true)
    else if b == END then p
    else p.(packet := p.packet + [b])
  }

  predicate Accepts(p: Phase, b: Byte) {
    if !p.started then b == END && p.packet == [] && !p.escaping
    else if p.escaping then b == ESC_END || b == ESC_ESC
    else b != END || p.packet == []
  }

  lemma ConsumedStep(p: Phase, b: Byte, lead: nat, rest: seq<Byte>)
    requires Accepts(p, b)
    ensures Consumed(p, lead) + ([b] + rest)
         == Consumed(Stepped(p, b), if p.escaping || b != END then lead else lead + 1) + rest
  {
    var q := Stepped(p, b);
    if q.packet != p.packet {
      EscapedSnoc(p.packet, q.packet[|p.packet|]);
    }
    assert Consumed(p, lead) + [b] == Consumed(q, if p.escaping || b != END then lead else lead + 1);
  }

  /** Only framed payloads read back: a packet is always exactly one frame at the head of the stream. */
  lemma {:induction false} OnlyFramesReadBack(p: Phase, bytes: seq<Byte>, lead: nat) returns (total: nat)
    requires Decode(p, bytes).Packet?
    requires p.started <==> 1 <= lead
    requires p.packet != [] || p.escaping ==> p.started
    requires |p.packet| <= MAX_PACKET_BYTES
    ensures 1 <= total && 1 <= |Decode(p, bytes).payload| <= MAX_PACKET_BYTES
    ensures Consumed(p, lead) + bytes == Frame(total, Decode(p, bytes).payload) + Decode(p, bytes).rest
    decreases |bytes|
  {
    hide Consumed, Frame;
    var b, rest := bytes[0], bytes[1..];
    assert bytes == [b] + rest;
    if p.started && !p.escaping && b == END && p.packet != [] {
      total := lead;
      FrameIsConsumed(p, lead, rest);
    } else {
      assert Accepts(p, b);
      assert Decode(p, bytes) == Decode(Stepped(p, b), rest);
      ConsumedStep(p, b, lead, rest);
      total := OnlyFramesReadBack(Stepped(p, b), rest, if p.escaping || b != END then lead else lead + 1);
    }
  }

  lemma FrameIsConsumed(p: Phase, lead: nat, rest: seq<Byte>)
    requires 1 <= lead && !p.escaping
    ensures Consumed(p, lead) + ([END] + rest) == Frame(lead, p.packet) + rest
  {
    assert Consumed(p, lead) + [END] == Frame(lead, p.packet);
  }

  /** A read returns a packet exactly when a framed payload of acceptable length is at the head of the stream. */
  lemma ReadsExactlyFrames(stream: seq<Byte>, payload: seq<Byte>, rest: seq<Byte>)
    ensures Decode(FRESH, stream) == Packet(payload, rest) <==>
            exists lead: nat | lead <= |stream| :: FramedAt(stream, lead, payload, rest)
  {
    if Decode(FRESH, stream) == Packet(payload, rest) {
      var lead := OnlyFramesReadBack(FRESH, stream, 0);
      assert Consumed(FRESH, 0) + stream == stream;
      assert |stream| == lead + |Escaped(payload)| + 1 + |rest|;
      assert FramedAt(stream, lead, payload, rest);
    }
    if exists lead: nat | lead <= |stream| :: FramedAt(stream, lead, payload, rest) {
      var lead: nat :| lead <= |stream| && FramedAt(stream, lead, payload, rest);
      FrameReadsBack(lead, payload, rest);
    }
  }

  predicate FramedAt(stream: seq<Byte>, lead: nat, payload: seq<Byte>, rest: seq<Byte>) {
    1 <= lead && 1 <= |payload| <= 8192 && stream == Frame(lead, payload) + rest
  }

  lemma {:induction false} EscapedIsClean(payload: seq<Byte>)
    ensures forall k :: 0 <= k < |Escaped(payload)| ==> Escaped(payload)[k] != 0xC0
  {
    if payload != [] {
      EscapedIsClean(payload[1..]);
    }
  }

  /** The framing of RFC 1055: C0 stands only for the ends of a packet, and inside it C0 and DB are written as DB DC and
      DB DD, every other byte as itself. */
  lemma SlipFrame(lead: nat, payload: seq<Byte>, b: Byte)
    requires 1 <= lead
    ensures var frame := Frame(lead, payload); var n := |frame| - 1;
            && lead <= n && frame[n] == 0xC0 && (forall k :: 0 <= k < lead ==> frame[k] == 0xC0)
            && (forall k :: lead <= k < n ==> frame[k] != 0xC0)
            && frame[lead..n] == Escaped(payload)
    ensures Escaped([b] + payload) == (if b == 0xC0 then [0xDB, 0xDC] else if b == 0xDB then [0xDB, 0xDD] else [b])
                                      + Escaped(payload)
    ensures Escaped([]) == []
  {
    EscapedIsClean(payload);
    assert ([b] + payload)[1..] == payload;
  }

  // ----- many packets -----

  datatype Framed = Framed(lead: nat, payload: seq<Byte>) {
    predicate Valid() { 1 <= lead && 1 <= |payload| <= 8192 }
  }

  function Stream(frames: seq<Framed>): seq<Byte>
    requires forall i :: 0 <= i < |frames| ==> frames[i].Valid()
  {
    if frames == [] then []
    else assert frames[0].Valid(); Frame(frames[0].lead, frames[0].payload) + Stream(frames[1..])
  }

  function Payloads(frames: seq<Framed>): seq<seq<Byte>> {
    if frames == [] then [] else [frames[0].payload] + Payloads(frames[1..])
  }

  /** What `n` successive reads return, and what they leave. */
  function Reads(stream: seq<Byte>, n: nat): Option<(seq<seq<Byte>>, seq<Byte>)>
    decreases n
  {
    if n == 0 then Some(([], stream))
    else
      match Decode(FRESH, stream)
      case Packet(payload, rest) =>
        (match Reads(rest, n - 1)
         case Some(later) => Some(([payload] + later.0, later.1))
         case None => None)
      case _ => None
  }

  lemma {:induction false} StreamReadsBack(frames: seq<Framed>, rest: seq<Byte>)
    requires forall i :: 0 <= i < |frames| ==> frames[i].Valid()
    ensures Reads(Stream(frames) + rest, |frames|) ==
            Some((Payloads(frames), rest))
  {
    if frames == [] {
      assert Stream(frames) + rest == rest;
    } else {
      var first := frames[0];
      assert Stream(frames) + rest == Frame(first.lead, first.payload) + (Stream(frames[1..]) + rest);
      FrameReadsBack(first.lead, first.payload, Stream(frames[1..]) + rest);
      StreamReadsBack(frames[1..], rest);
    }
  }

  // ----- the transport -----

  function Flatten(chunks: seq<seq<Byte>>): seq<Byte> {
    if chunks == [] then [] else chunks[0] + Flatten(chunks[1..])
  }

  datatype Result = Received(payload: seq<Byte>) | Failed(fault: Fault)

  /** `arriving` is the port's future: the chunks it has not delivered yet, in order. */
  class BufferedTransport {
    var buffer: seq<Byte>
    var error: Option<Fault>
    var arriving: seq<seq<Byte>>
    ghost var refused: seq<Byte>  // the delivery that overfilled the queue, if one did

    constructor (arriving: seq<seq<Byte>>)
      ensures buffer == [] && error.None? && this.arriving == arriving
    {
      buffer, error, this.arriving, refused := [], None, arriving, [];
    }

    function Pending(): seq<Byte>
      reads this
    {
      buffer + Flatten(arriving)
    }

    /** No single delivery is larger than the whole queue. */
    ghost predicate Fits()
      reads this
    {
      forall i :: 0 <= i < |arriving| ==> |arriving[i]| <= 262144
    }

    /** Why the receive loop ended: the stream is over, or the last delivery does not fit behind what is queued. */
    ghost predicate Ended()
      reads this
    {
      && error.Some?
      && (error.value == StreamClosed || error.value == QueueLimit)
      && (error.value == StreamClosed ==> arriving == [])
      && (error.value == QueueLimit ==> 262144 < |buffer| + |refused|)
    }

    /** One turn of the receive loop. Nothing is dropped or reordered; the queue limit is hit exactly by a delivery that
        overfills the queue. */
    method Receive()
      requires error.None?
      modifies this
      ensures error.Some? ==> Ended() && buffer == old(buffer)
      ensures error == Some(StreamClosed) <==> old(arriving) == []
      ensures error == Some(QueueLimit) <==>
                old(arriving) != [] && 262144 < old(|buffer| + |arriving[0]|) && old(arriving)[0] != []
      ensures old(arriving) == [] ==> arriving == [] && old(Pending()) == buffer
      ensures old(arriving) != [] ==> arriving == old(arriving)[1..]
      ensures error.None? ==> buffer == old(buffer) + old(arriving)[0] && Pending() == old(Pending())
    {
      if arriving == [] {
        error := Some(StreamClosed);
        return;
      }
      var value := arriving[0];
      arriving := arriving[1..];
      assert old(buffer) + Flatten(old(arriving)) == (old(buffer) + value) + Flatten(arriving);
      if value == [] {
        assert buffer == buffer + value;
        return;
      }
      if MAX_QUEUED_BYTES < |buffer| + |value| {
        refused := value;
        error := Some(QueueLimit);
        return;
      }
      buffer := buffer + value;
    }

    /** What the receive loop does while the reader is elsewhere: any number of turns. When the port is `paced`, a
        delivery comes only when it fits and the stream does not end meanwhile. */
    method Deliveries(paced: bool)
      requires error.None?
      modifies this
      ensures error.Some? ==> Ended()
      ensures error.None? ==> Pending() == old(Pending()) && |arriving| <= |old(arriving)|
      ensures error.None? ==> old(buffer) <= buffer && (old(Fits()) ==> Fits())
      ensures paced ==> error.None?
    {
      var more: bool := *;
      while more
        invariant error.Some? ==> Ended() && !more
        invariant error.None? ==> Pending() == old(Pending()) && |arriving| <= |old(arriving)|
        invariant error.None? ==> old(buffer) <= buffer && (old(Fits()) ==> Fits())
        invariant paced ==> error.None?
        decreases |arriving|, if more then 1 else 0
      {
        if paced && (arriving == [] || MAX_QUEUED_BYTES < |buffer| + |arriving[0]|) {
          return;
        }
        Receive();
        more := *;
        if error.Some? {
          more := false;
        }
      }
    }

    /** The reader waits: at least one turn. */
    method Wait(paced: bool)
      requires error.None? && buffer == []
      modifies this
      ensures error.Some? ==> Ended()
      ensures error.None? ==> Pending() == old(Pending()) && |arriving| < |old(arriving)|
      ensures error.None? && old(Fits()) ==> Fits()
      ensures old(arriving) == [] ==> error.Some? && old(Pending()) == []
      ensures paced && old(Fits()) && old(arriving) != [] ==> error.None?
    {
      Receive();
      if error.None? {
        Deliveries(paced);
      }
    }

    /** Reads one packet, however its bytes are split into chunks: what it returns is what decoding all the bytes still
        to come returns, and what it leaves unread is what that leaves. A read that is given the time it needs misses a
        packet that is on its way only when a delivery overfills the queue or the stream ends before it is read. */
    method Read(punctual: bool, paced: bool) returns (result: Result)
      modifies this
      ensures result.Received? ==>
                error.None? && Decode(FRESH, old(Pending())) == Packet(result.payload, Pending()) &&
                (old(Fits()) ==> Fits())
      ensures result.Failed? ==>
                || (!punctual && result.fault == PacketTimeout) || (error.Some? && result.fault == error.value)
                || (buffer == [] && Decode(FRESH, old(Pending())) == Faulty(result.fault))
      ensures old(error).None? && error.Some? ==> Ended()
      ensures punctual && old(error).None? && Decode(FRESH, old(Pending())).Packet? ==> result.Received? || error.Some?
      ensures punctual && paced && old(error).None? && old(Fits()) && Decode(FRESH, old(Pending())).Packet? ==>
                result.Received?
    {
      hide Flatten;
      ghost var wanted := Decode(FRESH, Pending());
      var packet := new Byte[MAX_PACKET_BYTES];
      var started, escaping, length := false, false, 0;
      while true
        invariant 0 <= length <= MAX_PACKET_BYTES == packet.Length && fresh(packet)
        invariant error.None? ==> wanted == Decode(Phase(started, escaping, packet[..length]), Pending())
        invariant error.None? && old(Fits()) ==> Fits()
        invariant old(error).None? && error.Some? ==> Ended()
        invariant paced && old(error).None? && old(Fits()) && wanted.Packet? ==> error.None?
        decreases if error.None? then 1 else 0, |arriving|, |buffer|
      {
        if error.Some? {
          return Failed(error.value);
        }
        var late: bool := *;
        if late && !punctual {
          return Failed(PacketTimeout);
        }
        if buffer == [] {
          Wait(paced);
          continue;
        }
        var bytes := buffer;
        buffer := [];
        ghost var later := Flatten(arriving);
        ghost var arrivals := arriving;
        assert bytes + later == bytes[0..] + later;
        var i := 0;
        while i < |bytes|
          invariant 0 <= i <= |bytes| && 0 <= length <= packet.Length
          invariant buffer == [] && error.None? && arrivals == arriving
          invariant wanted == Decode(Phase(started, escaping, packet[..length]), bytes[i..] + later)
        {
          ghost var ahead := bytes[i..] + later;
          var b := bytes[i];
          i := i + 1;
          assert ahead[0] == b && ahead[1..] == bytes[i..] + later;
          if !started {
            if b != END {
              return Failed(PacketHead);
            }
            started := true;
            continue;
          }
          if escaping {
            if b == ESC_END {
              b := END;
            } else if b == ESC_ESC {
              b := ESC;
            } else {
              return Failed(PacketEscape);
            }
            escaping := false;
          } else if b == ESC {
            escaping := true;
            continue;
          } else if b == END {
            if length == 0 {
              continue;
            }
            buffer := bytes[i..];
            return Received(packet[..length]);
          }
          if length == MAX_PACKET_BYTES {
            return Failed(PacketLimit);
          }
          packet[length] := b;
          length := length + 1;
          assert packet[..length] == packet[..length - 1] + [b];
        }
        assert bytes[i..] + later == Pending();
      }
    }
  }

  /** However a framed stream is cut into chunks and however it is long, successive reads with deliveries between them
      return its payloads in order and leave exactly what follows; they fall short only when a delivery overfills the
      queue or the stream ends before it is read, and never when deliveries wait until they fit. */
  method ReadStream(transport: BufferedTransport, frames: seq<Framed>, ghost rest: seq<Byte>, paced: bool)
    returns (payloads: seq<seq<Byte>>)
    requires forall i :: 0 <= i < |frames| ==> frames[i].Valid()
    requires transport.error.None? && transport.Pending() == Stream(frames) + rest
    modifies transport
    ensures payloads <= Payloads(frames)
    ensures |payloads| == |frames| ==>
              payloads == Payloads(frames) && transport.Pending() == rest && transport.error.None?
    ensures |payloads| < |frames| ==> transport.Ended()
    ensures paced && old(transport.Fits()) ==> |payloads| == |frames|
  {
    hide Decode, Frame, Flatten, BufferedTransport.Pending;
    payloads := [];
    assert frames[0..] == frames;
    for i := 0 to |frames|
      invariant transport.error.None? && |payloads| == i
      invariant transport.Pending() == Stream(frames[i..]) + rest
      invariant payloads + Payloads(frames[i..]) == Payloads(frames)
      invariant old(transport.Fits()) ==> transport.Fits()
    {
      PayloadCount(frames[i..]);
      transport.Deliveries(paced);
      if transport.error.Some? {
        return;
      }
      NextFrame(frames, i, rest);
      var result := transport.Read(true, paced);
      if result.Failed? {
        return;
      }
      payloads := payloads + [result.payload];
    }
    assert frames[|frames|..] == [];
    assert Stream([]) + rest == rest;
  }

  lemma {:induction false} PayloadCount(frames: seq<Framed>)
    ensures |Payloads(frames)| == |frames|
  {
    if frames != [] {
      PayloadCount(frames[1..]);
    }
  }

  lemma NextFrame(frames: seq<Framed>, i: nat, rest: seq<Byte>)
    requires forall k :: 0 <= k < |frames| ==> frames[k].Valid()
    requires i < |frames|
    ensures Decode(FRESH, Stream(frames[i..]) + rest) == Packet(frames[i].payload, Stream(frames[i + 1..]) + rest)
    ensures Payloads(frames[i..]) == [frames[i].payload] + Payloads(frames[i + 1..])
  {
    var first, later := frames[i], Stream(frames[i + 1..]) + rest;
    assert frames[i..][1..] == frames[i + 1..];
    assert Stream(frames[i..]) + rest == Frame(first.lead, first.payload) + later;
    FrameReadsBack(first.lead, first.payload, later);
  }
}
