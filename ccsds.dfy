/** The CCSDS space packet the generator sends and the ingestion service reads: a 6-byte
    primary header, a 10-byte secondary header and a 16-byte telemetry payload, each
    written field by field in big-endian order (`binary.Write(buf, binary.BigEndian, …)`).
    Go's fixed-width unsigned integers are integer newtypes; splitting a word into its
    big-endian bytes is division and remainder by powers of 256. */
module Ccsds {
  newtype byte = b: int | 0 <= b < 0x100
  newtype uint16 = x: int | 0 <= x < 0x1_0000
  newtype uint32 = x: int | 0 <= x < 0x1_0000_0000
  newtype uint64 = x: int | 0 <= x < 0x1_0000_0000_0000_0000

  /** `binary.Size` of the three structs. */
  const PRIMARY_HEADER_SIZE: nat := 6
  const SECONDARY_HEADER_SIZE: nat := 10
  const PAYLOAD_SIZE: nat := 16
  const PACKET_SIZE: nat := PRIMARY_HEADER_SIZE + SECONDARY_HEADER_SIZE + PAYLOAD_SIZE

  function Be16(x: uint16): (r: seq<byte>)
    ensures |r| == 2
  {
    [(x / 0x100) as byte, (x % 0x100) as byte]
  }

  function Read16(s: seq<byte>): uint16
    requires |s| == 2
  {
    (s[0] as int * 0x100 + s[1] as int) as uint16
  }

  lemma Be16RoundTrip(x: uint16)
    ensures Read16(Be16(x)) == x
  {
  }

  lemma Read16RoundTrip(s: seq<byte>)
    requires |s| == 2
    ensures Be16(Read16(s)) == s
  {
    assert Be16(Read16(s)) == [s[0], s[1]];
  }

  function Be32(x: uint32): (r: seq<byte>)
    ensures |r| == 4
  {
    Be16((x / 0x1_0000) as uint16) + Be16((x % 0x1_0000) as uint16)
  }

  function Read32(s: seq<byte>): uint32
    requires |s| == 4
  {
    (Read16(s[..2]) as int * 0x1_0000 + Read16(s[2..]) as int) as uint32
  }

  lemma Be32RoundTrip(x: uint32)
    ensures Read32(Be32(x)) == x
  {
    var hi, lo := (x / 0x1_0000) as uint16, (x % 0x1_0000) as uint16;
    assert Be32(x)[..2] == Be16(hi);
    assert Be32(x)[2..] == Be16(lo);
    Be16RoundTrip(hi);
    Be16RoundTrip(lo);
  }

  lemma Read32RoundTrip(s: seq<byte>)
    requires |s| == 4
    ensures Be32(Read32(s)) == s
  {
    var hi, lo := Read16(s[..2]), Read16(s[2..]);
    var x := Read32(s);
    assert (x / 0x1_0000) as uint16 == hi;
    assert (x % 0x1_0000) as uint16 == lo;
    Read16RoundTrip(s[..2]);
    Read16RoundTrip(s[2..]);
    assert s == s[..2] + s[2..];
  }

  function Be64(x: uint64): (r: seq<byte>)
    ensures |r| == 8
  {
    Be32((x / 0x1_0000_0000) as uint32) + Be32((x % 0x1_0000_0000) as uint32)
  }

  function Read64(s: seq<byte>): uint64
    requires |s| == 8
  {
    (Read32(s[..4]) as int * 0x1_0000_0000 + Read32(s[4..]) as int) as uint64
  }

  lemma Be64RoundTrip(x: uint64)
    ensures Read64(Be64(x)) == x
  {
    var hi, lo := (x / 0x1_0000_0000) as uint32, (x % 0x1_0000_0000) as uint32;
    assert Be64(x)[..4] == Be32(hi);
    assert Be64(x)[4..] == Be32(lo);
    Be32RoundTrip(hi);
    Be32RoundTrip(lo);
  }

  lemma Read64RoundTrip(s: seq<byte>)
    requires |s| == 8
    ensures Be64(Read64(s)) == s
  {
    var hi, lo := Read32(s[..4]), Read32(s[4..]);
    var x := Read64(s);
    assert (x / 0x1_0000_0000) as uint32 == hi;
    assert (x % 0x1_0000_0000) as uint32 == lo;
    Read32RoundTrip(s[..4]);
    Read32RoundTrip(s[4..]);
    assert s == s[..4] + s[4..];
  }

  /** `CCSDSPrimaryHeader`. */
  datatype PrimaryHeader = PrimaryHeader(packetId: uint16, packetSeqCtrl: uint16, packetLength: uint16)

  /** `CCSDSSecondaryHeader`. */
  datatype SecondaryHeader = SecondaryHeader(timestamp: uint64, subsystemId: uint16)

  /** `TelemetryPayload`: four float32 fields, each held as its IEEE-754 bit pattern,
      which is what travels on the wire. */
  datatype TelemetryPayload = TelemetryPayload(temperature: uint32, battery: uint32, altitude: uint32, signal: uint32)

  function EncodePrimary(h: PrimaryHeader): (r: seq<byte>)
    ensures |r| == PRIMARY_HEADER_SIZE
  {
    Be16(h.packetId) + Be16(h.packetSeqCtrl) + Be16(h.packetLength)
  }

  function DecodePrimary(s: seq<byte>): PrimaryHeader
    requires |s| == PRIMARY_HEADER_SIZE
  {
    PrimaryHeader(Read16(s[0..2]), Read16(s[2..4]), Read16(s[4..6]))
  }

  function EncodeSecondary(h: SecondaryHeader): (r: seq<byte>)
    ensures |r| == SECONDARY_HEADER_SIZE
  {
    Be64(h.timestamp) + Be16(h.subsystemId)
  }

  function DecodeSecondary(s: seq<byte>): SecondaryHeader
    requires |s| == SECONDARY_HEADER_SIZE
  {
    SecondaryHeader(Read64(s[0..8]), Read16(s[8..10]))
  }

  function EncodePayload(p: TelemetryPayload): (r: seq<byte>)
    ensures |r| == PAYLOAD_SIZE
  {
    Be32(p.temperature) + Be32(p.battery) + Be32(p.altitude) + Be32(p.signal)
  }

  function DecodePayload(s: seq<byte>): TelemetryPayload
    requires |s| == PAYLOAD_SIZE
  {
    TelemetryPayload(Read32(s[0..4]), Read32(s[4..8]), Read32(s[8..12]), Read32(s[12..16]))
  }

  /** Decoding what was encoded gives back every field. */
  lemma PrimaryRoundTrip(h: PrimaryHeader)
    ensures DecodePrimary(EncodePrimary(h)) == h
  {
    var s := EncodePrimary(h);
    assert s[0..2] == Be16(h.packetId);
    assert s[2..4] == Be16(h.packetSeqCtrl);
    assert s[4..6] == Be16(h.packetLength);
    Be16RoundTrip(h.packetId);
    Be16RoundTrip(h.packetSeqCtrl);
    Be16RoundTrip(h.packetLength);
  }

  lemma SecondaryRoundTrip(h: SecondaryHeader)
    ensures DecodeSecondary(EncodeSecondary(h)) == h
  {
    var s := EncodeSecondary(h);
    assert s[0..8] == Be64(h.timestamp);
    assert s[8..10] == Be16(h.subsystemId);
    Be64RoundTrip(h.timestamp);
    Be16RoundTrip(h.subsystemId);
  }

  lemma PayloadRoundTrip(p: TelemetryPayload)
    ensures DecodePayload(EncodePayload(p)) == p
  {
    var s := EncodePayload(p);
    assert s[0..4] == Be32(p.temperature);
    assert s[4..8] == Be32(p.battery);
    assert s[8..12] == Be32(p.altitude);
    assert s[12..16] == Be32(p.signal);
    Be32RoundTrip(p.temperature);
    Be32RoundTrip(p.battery);
    Be32RoundTrip(p.altitude);
    Be32RoundTrip(p.signal);
  }

  /** Every 16-byte string is the encoding of exactly one payload: the codec loses nothing
      in either direction. */
  lemma PayloadBytesRoundTrip(s: seq<byte>)
    requires |s| == PAYLOAD_SIZE
    ensures EncodePayload(DecodePayload(s)) == s
  {
    Read32RoundTrip(s[0..4]);
    Read32RoundTrip(s[4..8]);
    Read32RoundTrip(s[8..12]);
    Read32RoundTrip(s[12..16]);
    assert s == s[0..4] + s[4..8] + s[8..12] + s[12..16];
  }

  /** The three structs written one after the other into one buffer. */
  function EncodePacket(primary: PrimaryHeader, secondary: SecondaryHeader, payload: TelemetryPayload): (r: seq<byte>)
    ensures |r| == PACKET_SIZE == 32
    ensures r[..PRIMARY_HEADER_SIZE] == EncodePrimary(primary)
    ensures r[PRIMARY_HEADER_SIZE..PRIMARY_HEADER_SIZE + SECONDARY_HEADER_SIZE] == EncodeSecondary(secondary)
    ensures r[PRIMARY_HEADER_SIZE + SECONDARY_HEADER_SIZE..] == EncodePayload(payload)
  {
    EncodePrimary(primary) + EncodeSecondary(secondary) + EncodePayload(payload)
  }
}
