/**
 * The UDP discovery advertisement: a packed 12-byte record holding a magic
 * value, a protocol version, the TCP port of the boundary server and an
 * FNV-1a checksum over the eight bytes before it, all in network order.
 */
module DiscoveryProtocol {
  import opened Common

  /** "_DIS" read as a big-endian 32-bit word. */
  const DISCOVERY_MAGIC: bv32 := 0x5F444953
  const DISCOVERY_VERSION: bv16 := 1
  /** UDP port the advertisement is sent to. */
  const DISCOVERY_PORT: int := 19191

  /** `sizeof(DiscoveryPacket)` with `#pragma pack(1)`: 4 + 2 + 2 + 4. */
  const PACKET_SIZE: nat := 4 + 2 + 2 + 4
  /** Bytes covered by the checksum: everything but the trailing checksum field. */
  const CHECKSUM_OFFSET: nat := PACKET_SIZE - 4

  const FNV_OFFSET_BASIS: bv32 := 2166136261
  const FNV_PRIME: bv32 := 16777619

  /** One FNV-1a round: xor in the byte, then multiply modulo 2^32. */
  function FnvStep(hash: bv32, b: bv8): bv32 {
    (hash ^ (b as bv32)) * FNV_PRIME
  }

  /** FNV-1a of `data`, defined by its last byte: the hash of a prefix extended by one round. */
  function Fnv1a(data: seq<bv8>): bv32
    decreases |data|
  {
    if |data| == 0 then FNV_OFFSET_BASIS
    else FnvStep(Fnv1a(data[..|data| - 1]), data[|data| - 1])
  }

  /** FNV-1a as a left fold from a running hash, byte 0 first: the textbook formulation. */
  function FnvFold(hash: bv32, data: seq<bv8>): bv32
    decreases |data|
  {
    if |data| == 0 then hash else FnvFold(FnvStep(hash, data[0]), data[1..])
  }

  lemma {:induction false} FnvFoldSnoc(hash: bv32, data: seq<bv8>, b: bv8)
    ensures FnvFold(hash, data + [b]) == FnvStep(FnvFold(hash, data), b)
    decreases |data|
  {
    if |data| == 0 {
      assert data + [b] == [b];
      assert [b][1..] == [];
    } else {
      assert (data + [b])[1..] == data[1..] + [b];
      FnvFoldSnoc(FnvStep(hash, data[0]), data[1..], b);
    }
  }

  /** The prefix-recursive definition and the byte-0-first fold are the same hash. */
  lemma {:induction false} Fnv1aIsFold(data: seq<bv8>)
    ensures Fnv1a(data) == FnvFold(FNV_OFFSET_BASIS, data)
    decreases |data|
  {
    if |data| > 0 {
      var init := data[..|data| - 1];
      Fnv1aIsFold(init);
      assert init + [data[|data| - 1]] == data;
      FnvFoldSnoc(FNV_OFFSET_BASIS, init, data[|data| - 1]);
    }
  }

  /** The hash is incremental: appending a byte applies exactly one more round. */
  lemma Fnv1aIncremental(data: seq<bv8>, b: bv8)
    ensures Fnv1a(data + [b]) == FnvStep(Fnv1a(data), b)
  {
    assert (data + [b])[..|data|] == data;
  }

  /**
   * `calculateChecksum`: folds the first `sizeof(DiscoveryPacket) - 4` bytes of the
   * packet image, so the checksum field itself never takes part.
   */
  method CalculateChecksum(pkg: seq<bv8>) returns (hash: bv32)
    requires |pkg| == PACKET_SIZE
    ensures hash == Fnv1a(pkg[..CHECKSUM_OFFSET])
  {
    var len := PACKET_SIZE - 4;
    hash := FNV_OFFSET_BASIS;
    var i := 0;
    while i < len
      invariant 0 <= i <= len
      invariant hash == Fnv1a(pkg[..i])
    {
      assert pkg[..i + 1] == pkg[..i] + [pkg[i]];
      Fnv1aIncremental(pkg[..i], pkg[i]);
      hash := FnvStep(hash, pkg[i]);
      i := i + 1;
    }
  }

  /** `htons`: the two bytes of a 16-bit value, most significant first. */
  function BigEndian16(v: bv16): (r: seq<bv8>)
    ensures |r| == 2
  {
    [(v >> 8) as bv8, (v & 0xFF) as bv8]
  }

  /** `htonl`: the four bytes of a 32-bit value, most significant first. */
  function BigEndian32(v: bv32): (r: seq<bv8>)
    ensures |r| == 4
  {
    [(v >> 24) as bv8, ((v >> 16) & 0xFF) as bv8, ((v >> 8) & 0xFF) as bv8, (v & 0xFF) as bv8]
  }

  function ReadBigEndian16(b: seq<bv8>): bv16
    requires |b| == 2
  {
    ((b[0] as bv16) << 8) | (b[1] as bv16)
  }

  function ReadBigEndian32(b: seq<bv8>): bv32
    requires |b| == 4
  {
    ((b[0] as bv32) << 24) | ((b[1] as bv32) << 16) | ((b[2] as bv32) << 8) | (b[3] as bv32)
  }

  lemma BigEndian16RoundTrip(v: bv16)
    ensures ReadBigEndian16(BigEndian16(v)) == v
  {
  }

  lemma BigEndian32RoundTrip(v: bv32)
    ensures ReadBigEndian32(BigEndian32(v)) == v
  {
  }

  /** `(uint16_t)m_tcpPort`: the port truncated to 16 bits. */
  function PortField(tcpPort: int): bv16 {
    (tcpPort % 0x1_0000) as bv16
  }

  /** The first eight bytes of the packet: magic, version and port, each in network order. */
  function PacketHeader(tcpPort: int): (r: seq<bv8>)
    ensures |r| == CHECKSUM_OFFSET
  {
    BigEndian32(DISCOVERY_MAGIC) + BigEndian16(DISCOVERY_VERSION) + BigEndian16(PortField(tcpPort))
  }

  /**
   * The packet `workerLoop` builds and sends: the header, then the big-endian
   * FNV-1a of the header bytes as they sit in the packet.
   */
  function EncodePacket(tcpPort: int): (r: seq<bv8>)
    ensures |r| == PACKET_SIZE
    ensures r[0..4] == BigEndian32(DISCOVERY_MAGIC)
    ensures r[4..6] == BigEndian16(DISCOVERY_VERSION)
    ensures r[6..8] == BigEndian16(PortField(tcpPort))
    ensures r[8..12] == BigEndian32(Fnv1a(r[..CHECKSUM_OFFSET]))
  {
    var header := PacketHeader(tcpPort);
    assert header[..CHECKSUM_OFFSET] == header;
    header + BigEndian32(Fnv1a(header))
  }

  /**
   * A receiver-side reading of the packet (the repository itself never decodes
   * one): the port if the length, magic, version and checksum are all right.
   */
  function DecodePacket(b: seq<bv8>): (r: Option<bv16>)
    ensures r.Some? ==> |b| == PACKET_SIZE && ReadBigEndian32(b[8..12]) == Fnv1a(b[..CHECKSUM_OFFSET])
  {
    if |b| != PACKET_SIZE then None
    else if ReadBigEndian32(b[0..4]) != DISCOVERY_MAGIC then None
    else if ReadBigEndian16(b[4..6]) != DISCOVERY_VERSION then None
    else if ReadBigEndian32(b[8..12]) != Fnv1a(b[..CHECKSUM_OFFSET]) then None
    else Some(ReadBigEndian16(b[6..8]))
  }

  /** Decoding the advertisement recovers the port modulo 2^16. */
  lemma DecodeEncode(tcpPort: int)
    ensures DecodePacket(EncodePacket(tcpPort)) == Some(PortField(tcpPort))
  {
    var p := EncodePacket(tcpPort);
    var sum := Fnv1a(p[..CHECKSUM_OFFSET]);
    BigEndian32RoundTrip(DISCOVERY_MAGIC);
    BigEndian16RoundTrip(DISCOVERY_VERSION);
    BigEndian16RoundTrip(PortField(tcpPort));
    BigEndian32RoundTrip(sum);
    assert ReadBigEndian32(p[0..4]) == DISCOVERY_MAGIC;
    assert ReadBigEndian16(p[4..6]) == DISCOVERY_VERSION;
    assert ReadBigEndian32(p[8..12]) == sum;
    assert ReadBigEndian16(p[6..8]) == PortField(tcpPort);
  }

  /** A packet whose checksum field does not match its first eight bytes is refused. */
  lemma DecodeRejectsBadChecksum(tcpPort: int, bad: bv32)
    requires bad != Fnv1a(PacketHeader(tcpPort))
    ensures DecodePacket(PacketHeader(tcpPort) + BigEndian32(bad)).None?
  {
    var p := PacketHeader(tcpPort) + BigEndian32(bad);
    assert p[8..12] == BigEndian32(bad);
    assert p[..CHECKSUM_OFFSET] == PacketHeader(tcpPort);
    BigEndian32RoundTrip(bad);
  }

  /** The magic's network-order bytes are the ASCII codes of "_DIS". */
  lemma MagicIsAsciiDis()
    ensures forall i :: 0 <= i < 4 ==> BigEndian32(DISCOVERY_MAGIC)[i] as int == "_DIS"[i] as int
  {
    assert BigEndian32(DISCOVERY_MAGIC) == [0x5F, 0x44, 0x49, 0x53];
  }
}
