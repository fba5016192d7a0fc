/**
 * Messages carried in the padding of ARP frames: cut into frames by the sender
 * (vula/publish_alt.py), put together again per source address by the receiver
 * (vula/discover_alt.py).
 */
module ArpTransport {
  import opened Addresses

  const FRAME_LENGTH := 60
  const HEADER_LENGTH := 42
  const PAYLOAD_MAX_SIZE := 18

  /** A slice as Python takes it, cut off at the end of the sequence. */
  function Slice(s: Bytes, a: nat, b: nat): Bytes {
    if a >= |s| || b <= a then [] else if b >= |s| then s[a..] else s[a..b]
  }

  // ----- sending -----

  /** The constant parts of the header. */
  datatype ArpFields = ArpFields(
    broadcastMac: Bytes, ethernetType: Bytes, hardwareType: Bytes, protocolType: Bytes,
    hardwareSize: Bytes, protocolSize: Bytes, opCode: Bytes, zeroMac: Bytes)
  {
    /** Their lengths in an ARP request or reply for IPv4 over Ethernet. */
    predicate Valid() {
      && |broadcastMac| == 6 && |ethernetType| == 2 && |hardwareType| == 2 && |protocolType| == 2
      && |hardwareSize| == 1 && |protocolSize| == 1 && |opCode| == 2 && |zeroMac| == 6
    }
  }

  datatype Sock = Sock(mac: Bytes, ip: Bytes, destIp: Bytes) {
    predicate Valid() {
      |mac| == 6 && |ip| == 4 && |destIp| == 4
    }
  }

  function FirstHalf(f: ArpFields, s: Sock): Bytes {
    f.broadcastMac + s.mac + f.ethernetType + f.hardwareType + f.protocolType + f.hardwareSize + f.protocolSize
    + f.opCode
  }

  function Header(f: ArpFields, s: Sock): Bytes {
    FirstHalf(f, s) + (s.mac + s.ip + f.zeroMac + s.destIp)
  }

  /** Every field is where an ARP packet in an Ethernet frame has it. */
  predicate LaidOut(f: ArpFields, s: Sock, h: Bytes) {
    && |h| == HEADER_LENGTH
    && h[0..6] == f.broadcastMac && h[6..12] == s.mac && h[12..14] == f.ethernetType && h[14..16] == f.hardwareType
    && h[16..18] == f.protocolType && h[18..19] == f.hardwareSize && h[19..20] == f.protocolSize
    && h[20..22] == f.opCode
    && h[22..28] == s.mac && h[28..32] == s.ip && h[32..38] == f.zeroMac && h[38..42] == s.destIp
  }

  lemma FirstLayout(f: ArpFields, s: Sock)
    requires f.Valid() && s.Valid()
    ensures var a := FirstHalf(f, s);
            && |a| == 22 && a[0..6] == f.broadcastMac && a[6..12] == s.mac && a[12..14] == f.ethernetType
            && a[14..16] == f.hardwareType && a[16..18] == f.protocolType && a[18..19] == f.hardwareSize
            && a[19..20] == f.protocolSize && a[20..22] == f.opCode
  {
  }

  lemma SliceFirst(a: Bytes, b: Bytes, i: nat, j: nat)
    requires i <= j <= |a|
    ensures (a + b)[i..j] == a[i..j]
  {
  }

  lemma HeaderLayout(f: ArpFields, s: Sock)
    requires f.Valid() && s.Valid()
    ensures LaidOut(f, s, Header(f, s))
  {
    var a, b := FirstHalf(f, s), s.mac + s.ip + f.zeroMac + s.destIp;
    FirstLayout(f, s);
    SliceFirst(a, b, 0, 6);
    SliceFirst(a, b, 6, 12);
    SliceFirst(a, b, 12, 14);
    SliceFirst(a, b, 14, 16);
    SliceFirst(a, b, 16, 18);
    SliceFirst(a, b, 18, 19);
    SliceFirst(a, b, 19, 20);
    SliceFirst(a, b, 20, 22);
    assert b[0..6] == s.mac && b[6..10] == s.ip && b[10..16] == f.zeroMac && b[16..20] == s.destIp;
    assert (a + b)[22..28] == b[0..6] && (a + b)[28..32] == b[6..10];
    assert (a + b)[32..38] == b[10..16] && (a + b)[38..42] == b[16..20];
  }

  method GenerateHeader(f: ArpFields, s: Sock) returns (header: Bytes)
    requires f.Valid() && s.Valid()
    ensures header == Header(f, s)
    ensures LaidOut(f, s, header)
  {
    header := f.broadcastMac;
    header := header + s.mac;
    header := header + f.ethernetType;
    header := header + f.hardwareType;
    header := header + f.protocolType;
    header := header + f.hardwareSize;
    header := header + f.protocolSize;
    header := header + f.opCode;
    assert header == FirstHalf(f, s);
    header := header + s.mac;
    header := header + s.ip;
    header := header + f.zeroMac;
    header := header + s.destIp;
    HeaderLayout(f, s);
    assert header == Header(f, s);
  }

  /** How many frames a message takes: its length over the payload size, rounded up. */
  function FrameCount(payload: Bytes): nat {
    (|payload| + PAYLOAD_MAX_SIZE - 1) / PAYLOAD_MAX_SIZE
  }

  function Fragment(payload: Bytes, i: nat): Bytes {
    Slice(payload, i * PAYLOAD_MAX_SIZE, (i + 1) * PAYLOAD_MAX_SIZE)
  }

  function Packets(header: Bytes, payload: Bytes): seq<Bytes> {
    seq(FrameCount(payload), i requires 0 <= i => header + Fragment(payload, i))
  }

  lemma FragmentSize(payload: Bytes, i: nat)
    requires i < FrameCount(payload)
    ensures 0 < |Fragment(payload, i)| <= PAYLOAD_MAX_SIZE
    ensures i * PAYLOAD_MAX_SIZE < |payload| && Fragment(payload, i)[0] == payload[i * PAYLOAD_MAX_SIZE]
  {
  }

  lemma PacketsFit(header: Bytes, payload: Bytes)
    requires |header| == HEADER_LENGTH
    ensures forall p | p in Packets(header, payload) ::
              HEADER_LENGTH < |p| <= FRAME_LENGTH && p[..HEADER_LENGTH] == header
  {
    forall i | 0 <= i < FrameCount(payload)
      ensures var p := Packets(header, payload)[i];
              HEADER_LENGTH < |p| <= FRAME_LENGTH && p[..HEADER_LENGTH] == header {
      FragmentSize(payload, i);
    }
  }

  /** Every frame is the unchanged header and at most one payload's worth of the message. */
  method GetPackets(header: Bytes, payload: Bytes) returns (packets: seq<Bytes>)
    requires |header| == HEADER_LENGTH
    ensures packets == Packets(header, payload)
    ensures forall p | p in packets :: 42 < |p| <= 60 && p[..42] == header
  {
    packets := [];
    var size := FRAME_LENGTH - |header|;
    var count := (|payload| + size - 1) / size;
    for i := 0 to count
      invariant packets == Packets(header, payload)[..i]
    {
      packets := packets + [header + Slice(payload, i * size, (i + 1) * size)];
    }
    PacketsFit(header, payload);
  }

  // ----- the wire -----

  function Zeros(n: nat): Bytes {
    seq(n, _ => 0)
  }

  /** A frame that is too short for Ethernet is filled up with zeros. */
  function Padded(frame: Bytes): Bytes {
    if |frame| < FRAME_LENGTH then frame + Zeros(FRAME_LENGTH - |frame|) else frame
  }

  function PaddedAll(frames: seq<Bytes>): seq<Bytes> {
    seq(|frames|, i requires 0 <= i < |frames| => Padded(frames[i]))
  }

  // ----- receiving -----

  function Source(frame: Bytes): Bytes {
    Slice(frame, 22, 28)
  }

  /** A full payload that begins with something. */
  predicate IsCandidate(frame: Bytes) {
    |frame| == HEADER_LENGTH + PAYLOAD_MAX_SIZE && frame[HEADER_LENGTH] != 0
  }

  function StreamOf(peers: map<Bytes, Bytes>, mac: Bytes): Bytes {
    if mac in peers then peers[mac] else []
  }

  function Received(peers: map<Bytes, Bytes>, frame: Bytes): map<Bytes, Bytes> {
    if IsCandidate(frame)
    then peers[Source(frame) := StreamOf(peers, Source(frame)) + frame[HEADER_LENGTH..]] else peers
  }

  function ReceivedAll(peers: map<Bytes, Bytes>, wire: seq<Bytes>): map<Bytes, Bytes> {
    if wire == [] then peers else Received(ReceivedAll(peers, wire[..|wire| - 1]), wire[|wire| - 1])
  }

  /** The receiver's byte streams; the time stamps beside them are not modelled. */
  class Receiver {
    var peers: map<Bytes, Bytes>

    constructor ()
      ensures peers == map[]
    {
      peers := map[];
    }

    method UpdatePeer(mac: Bytes, candidate: Option<Bytes>)
      modifies this
      ensures peers == old(peers)[mac := if candidate.None? then [] else StreamOf(old(peers), mac) + candidate.value]
    {
      if candidate.None? {
        peers := peers[mac := []];
        return;
      }
      if mac !in peers {
        peers := peers[mac := []];
      }
      peers := peers[mac := peers[mac] + candidate.value];
    }

    /** One frame from the queue. A frame without a payload raises, which is swallowed. */
    method ProcessPacket(frame: Bytes)
      modifies this
      ensures peers == Received(old(peers), frame)
      ensures peers == if |frame| == 60 && frame[42] != 0
                       then old(peers)[frame[22..28] := StreamOf(old(peers), frame[22..28]) + frame[42..60]]
                       else old(peers)
    {
      var candidate := Slice(frame, HEADER_LENGTH, |frame|);
      if candidate == [] {
        return;
      }
      assert candidate == frame[HEADER_LENGTH..];
      assert |frame| == FRAME_LENGTH ==> candidate == frame[42..60] && Source(frame) == frame[22..28];
      if candidate[0] != 0 && |candidate| == PAYLOAD_MAX_SIZE {
        UpdatePeer(Source(frame), Some(candidate));
      }
    }

    method ProcessAll(wire: seq<Bytes>)
      modifies this
      ensures peers == ReceivedAll(old(peers), wire)
    {
      ghost var before := peers;
      for i := 0 to |wire|
        invariant peers == ReceivedAll(before, wire[..i])
      {
        assert wire[..i + 1][..i] == wire[..i];
        ProcessPacket(wire[i]);
      }
      assert wire[..|wire|] == wire;
    }
  }

  // ----- one source among many -----

  /** The frames that carry this source address, in order. */
  function FramesFrom(wire: seq<Bytes>, mac: Bytes): seq<Bytes> {
    if wire == [] then []
    else
      FramesFrom(wire[..|wire| - 1], mac)
      + if Source(wire[|wire| - 1]) == mac then [wire[|wire| - 1]] else []
  }

  /** The payloads of the frames that are taken in. */
  function Stream(frames: seq<Bytes>): Bytes {
    if frames == [] then []
    else
      Stream(frames[..|frames| - 1])
      + if IsCandidate(frames[|frames| - 1]) then frames[|frames| - 1][HEADER_LENGTH..] else []
  }

  /** What one frame adds to the stream of a source. */
  function Share(frame: Bytes, mac: Bytes): Bytes {
    if Source(frame) == mac && IsCandidate(frame) then frame[HEADER_LENGTH..] else []
  }

  lemma ReceivedShare(peers: map<Bytes, Bytes>, frame: Bytes, mac: Bytes)
    ensures StreamOf(Received(peers, frame), mac) == StreamOf(peers, mac) + Share(frame, mac)
  {
  }

  lemma StreamShare(frames: seq<Bytes>, frame: Bytes, mac: Bytes)
    ensures Stream(frames + if Source(frame) == mac then [frame] else []) == Stream(frames) + Share(frame, mac)
  {
    if Source(frame) == mac {
      assert (frames + [frame])[..|frames|] == frames;
    } else {
      assert frames + [] == frames;
    }
  }

  lemma FramesSnoc(wire: seq<Bytes>, mac: Bytes)
    requires wire != []
    ensures var last := wire[|wire| - 1];
            Stream(FramesFrom(wire, mac)) == Stream(FramesFrom(wire[..|wire| - 1], mac)) + Share(last, mac)
  {
    StreamShare(FramesFrom(wire[..|wire| - 1], mac), wire[|wire| - 1], mac);
  }

  lemma ReceivedSnoc(peers: map<Bytes, Bytes>, wire: seq<Bytes>, mac: Bytes)
    requires wire != []
    ensures var last := wire[|wire| - 1];
            StreamOf(ReceivedAll(peers, wire), mac) == StreamOf(ReceivedAll(peers, wire[..|wire| - 1]), mac)
            + Share(last, mac)
  {
    ReceivedShare(ReceivedAll(peers, wire[..|wire| - 1]), wire[|wire| - 1], mac);
  }

  lemma AppendedOnce(now: Bytes, before: Bytes, start: Bytes, stream: Bytes, longer: Bytes, share: Bytes)
    requires now == before + share && before == start + stream && longer == stream + share
    ensures now == start + longer
  {
    assert start + stream + share == start + (stream + share);
  }

  /** A source's stream depends on its own frames only, however they are mixed with others. */
  lemma {:induction false} StreamPerSource(peers: map<Bytes, Bytes>, wire: seq<Bytes>, mac: Bytes)
    ensures StreamOf(ReceivedAll(peers, wire), mac) == StreamOf(peers, mac) + Stream(FramesFrom(wire, mac))
  {
    if wire == [] {
      assert StreamOf(peers, mac) + [] == StreamOf(peers, mac);
    } else {
      var init := wire[..|wire| - 1];
      StreamPerSource(peers, init, mac);
      ReceivedSnoc(peers, wire, mac);
      FramesSnoc(wire, mac);
      AppendedOnce(StreamOf(ReceivedAll(peers, wire), mac), StreamOf(ReceivedAll(peers, init), mac),
                   StreamOf(peers, mac),
                   Stream(FramesFrom(init, mac)), Stream(FramesFrom(wire, mac)), Share(wire[|wire| - 1], mac));
    }
  }

  // ----- stripping -----

  function LstripZeros(b: Bytes): Bytes {
    if b != [] && b[0] == 0 then LstripZeros(b[1..]) else b
  }

  function RstripZeros(b: Bytes): Bytes {
    if b != [] && b[|b| - 1] == 0 then RstripZeros(b[..|b| - 1]) else b
  }

  function StripZeros(b: Bytes): Bytes {
    RstripZeros(LstripZeros(b))
  }

  lemma {:induction false} RstripZerosEnds(b: Bytes)
    ensures |RstripZeros(b)| <= |b| && (RstripZeros(b) != [] ==> RstripZeros(b)[|RstripZeros(b)| - 1] != 0)
  {
    if b != [] && b[|b| - 1] == 0 {
      RstripZerosEnds(b[..|b| - 1]);
    }
  }

  lemma {:induction false} LstripZerosShorter(b: Bytes)
    ensures |LstripZeros(b)| <= |b|
  {
    if b != [] && b[0] == 0 {
      LstripZerosShorter(b[1..]);
    }
  }

  lemma {:induction false} RstripZerosAfter(b: Bytes, n: nat)
    requires b == [] || b[|b| - 1] != 0
    ensures RstripZeros(b + Zeros(n)) == b
  {
    if n == 0 {
      assert b + Zeros(0) == b;
    } else {
      var c := b + Zeros(n);
      assert c[|c| - 1] == 0 && c[..|c| - 1] == b + Zeros(n - 1);
      RstripZerosAfter(b, n - 1);
    }
  }

  /** Padding is stripped off again exactly if the message neither begins nor ends with a zero. */
  lemma StripPadding(message: Bytes, n: nat)
    requires message != [] && message[0] != 0
    ensures StripZeros(message + Zeros(n)) == message <==> message[|message| - 1] != 0
  {
    assert (message + Zeros(n))[0] != 0;
    if message[|message| - 1] != 0 {
      RstripZerosAfter(message, n);
    } else {
      RstripZerosEnds(message + Zeros(n));
    }
  }

  // ----- delivery -----

  /** No fragment begins with a zero, and the message does not end with one. */
  predicate Deliverable(message: Bytes) {
    && (forall i | 0 <= i < |message| && i % 18 == 0 :: message[i] != 0)
    && (message != [] ==> message[|message| - 1] != 0)
  }

  function Filled(message: Bytes): Bytes {
    message + Zeros(FrameCount(message) * PAYLOAD_MAX_SIZE - |message|)
  }

  lemma FrameOnWire(header: Bytes, message: Bytes, i: nat)
    requires |header| == HEADER_LENGTH && i < FrameCount(message)
    ensures var frame := PaddedAll(Packets(header, message))[i];
            && |frame| == FRAME_LENGTH && frame[..HEADER_LENGTH] == header
            && frame[HEADER_LENGTH..] == Filled(message)[i * PAYLOAD_MAX_SIZE..(i + 1) * PAYLOAD_MAX_SIZE]
            && frame[HEADER_LENGTH] == message[i * PAYLOAD_MAX_SIZE]
  {
    FragmentSize(message, i);
    var part := Fragment(message, i);
    var frame := PaddedAll(Packets(header, message))[i];
    assert frame == header + (part + Zeros(PAYLOAD_MAX_SIZE - |part|));
    assert part + Zeros(PAYLOAD_MAX_SIZE - |part|) == Filled(message)[i * PAYLOAD_MAX_SIZE..(i + 1) * PAYLOAD_MAX_SIZE];
  }

  predicate HeadsNonzero(message: Bytes, n: nat)
    requires n <= FrameCount(message)
  {
    forall i | 0 <= i < n :: i * PAYLOAD_MAX_SIZE < |message| && message[i * PAYLOAD_MAX_SIZE] != 0
  }

  /** What has come in after n frames: everything if no fragment begins with a zero, and a payload less otherwise. */
  predicate Delivers(s: Bytes, message: Bytes, n: nat)
    requires n <= FrameCount(message)
  {
    if HeadsNonzero(message, n) then s == Filled(message)[..n * PAYLOAD_MAX_SIZE] else |s| <= (n - 1) * PAYLOAD_MAX_SIZE
  }

  lemma DeliversOneMore(s: Bytes, message: Bytes, n: nat, part: Bytes)
    requires n < FrameCount(message) && Delivers(s, message, n)
    requires part == if message[n * PAYLOAD_MAX_SIZE] != 0
                     then Filled(message)[n * PAYLOAD_MAX_SIZE..(n + 1) * PAYLOAD_MAX_SIZE] else []
    ensures Delivers(s + part, message, n + 1)
  {
    var a, b := n * PAYLOAD_MAX_SIZE, (n + 1) * PAYLOAD_MAX_SIZE;
    assert Filled(message)[..a] + Filled(message)[a..b] == Filled(message)[..b];
    assert HeadsNonzero(message, n + 1) <==> HeadsNonzero(message, n) && message[a] != 0;
  }

  lemma {:induction false} StreamUpTo(header: Bytes, message: Bytes, n: nat)
    requires |header| == HEADER_LENGTH && n <= FrameCount(message)
    ensures Delivers(Stream(PaddedAll(Packets(header, message))[..n]), message, n)
  {
    var frames := PaddedAll(Packets(header, message));
    if n > 0 {
      StreamUpTo(header, message, n - 1);
      FrameOnWire(header, message, n - 1);
      FragmentSize(message, n - 1);
      assert frames[..n][..n - 1] == frames[..n - 1] && frames[..n][n - 1] == frames[n - 1];
      DeliversOneMore(Stream(frames[..n - 1]), message, n - 1,
                      if message[(n - 1) * PAYLOAD_MAX_SIZE] != 0
                      then Filled(message)[(n - 1) * PAYLOAD_MAX_SIZE..n * PAYLOAD_MAX_SIZE] else []);
    }
  }

  lemma StripShorter(b: Bytes)
    ensures |StripZeros(b)| <= |b|
  {
    LstripZerosShorter(b);
    RstripZerosEnds(LstripZeros(b));
  }

  lemma HeadsExactly(message: Bytes)
    ensures HeadsNonzero(message, FrameCount(message)) <==>
              forall i | 0 <= i < |message| && i % 18 == 0 :: message[i] != 0
  {
    if HeadsNonzero(message, FrameCount(message)) {
      forall i | 0 <= i < |message| && i % 18 == 0 ensures message[i] != 0 {
        assert i == (i / 18) * PAYLOAD_MAX_SIZE && i / 18 < FrameCount(message);
      }
    }
    if forall i | 0 <= i < |message| && i % 18 == 0 :: message[i] != 0 {
      forall i | 0 <= i < FrameCount(message)
        ensures i * PAYLOAD_MAX_SIZE < |message| && message[i * PAYLOAD_MAX_SIZE] != 0 {
        assert (i * PAYLOAD_MAX_SIZE) % 18 == 0;
      }
    }
  }

  lemma DeliversStripped(s: Bytes, message: Bytes)
    requires Delivers(s, message, FrameCount(message))
    ensures StripZeros(s) == message <==> Deliverable(message)
  {
    var n := FrameCount(message);
    HeadsExactly(message);
    if message != [] {
      if HeadsNonzero(message, n) {
        assert Filled(message)[..n * PAYLOAD_MAX_SIZE] == Filled(message);
        assert message[0 * PAYLOAD_MAX_SIZE] != 0;
        StripPadding(message, n * PAYLOAD_MAX_SIZE - |message|);
      } else {
        StripShorter(s);
      }
    }
  }

  /**
   * Whatever else is on the wire, a source's message is what its stripped stream is,
   * exactly if no fragment of it begins with a zero and it does not end with one.
   */
  lemma DeliveredExactly(header: Bytes, mac: Bytes, message: Bytes, wire: seq<Bytes>)
    requires |header| == HEADER_LENGTH
    requires FramesFrom(wire, mac) == PaddedAll(Packets(header, message))
    ensures StripZeros(StreamOf(ReceivedAll(map[], wire), mac)) == message <==> Deliverable(message)
  {
    var frames := PaddedAll(Packets(header, message));
    StreamPerSource(map[], wire, mac);
    assert [] + Stream(frames) == Stream(frames);
    StreamUpTo(header, message, FrameCount(message));
    assert frames[..FrameCount(message)] == frames;
    DeliversStripped(Stream(frames), message);
  }

  /** The frames of one sender do carry its own source address. */
  lemma SenderIsSource(f: ArpFields, s: Sock, message: Bytes, i: nat)
    requires f.Valid() && s.Valid() && i < FrameCount(message)
    ensures Source(PaddedAll(Packets(Header(f, s), message))[i]) == s.mac
  {
    HeaderLayout(f, s);
    FrameOnWire(Header(f, s), message, i);
    var frame := PaddedAll(Packets(Header(f, s), message))[i];
    assert frame[22..28] == frame[..HEADER_LENGTH][22..28];
  }
}
