/** The telemetry generator: `createTelemetryPacket` packs the CCSDS headers and a payload
    into a `bytes.Buffer`, and the `main` loop sends one packet per tick, advancing the
    `uint16` packet count only after a successful write. The random payload and the clock
    are parameters. */
module Generator {
  import opened Ccsds

  const APID: uint16 := 0x01
  const PACKET_VERSION: uint16 := 0x0
  const PACKET_TYPE: uint16 := 0x0
  const SEC_HDR_FLAG: uint16 := 0x1
  const SEQ_FLAGS: uint16 := 0x3
  const SUBSYSTEM_ID: uint16 := 0x0001

  /** version << 13 | type << 12 | secondary-header flag << 11 | APID. The four fields
      occupy disjoint bits, so the bitwise or is a sum of shifted values. */
  function PacketId(): (id: uint16)
    ensures id == 0x0801 && id != 0
  {
    PACKET_VERSION * 0x2000 + PACKET_TYPE * 0x1000 + SEC_HDR_FLAG * 0x800 + APID
  }

  /** `SEQ_FLAGS << 14 | (seqCount & 0x3FFF)`: the sequence flags in the top two bits, the
      count modulo 2^14 in the fourteen bits below (disjoint, so again a sum). */
  function PacketSeqCtrl(seqCount: uint16): uint16
  {
    SEQ_FLAGS * 0x4000 + seqCount % 0x4000
  }

  /** The top two bits are the sequence flags 0b11, the low fourteen the count modulo
      2^14; the field therefore repeats every 2^14 packets. */
  lemma SeqCtrlFields(seqCount: uint16)
    ensures PacketSeqCtrl(seqCount) / 0x4000 == SEQ_FLAGS == 3
    ensures PacketSeqCtrl(seqCount) % 0x4000 == seqCount % 0x4000
    ensures seqCount < 0xC000 ==> PacketSeqCtrl(seqCount + 0x4000) == PacketSeqCtrl(seqCount)
    ensures 0 < seqCount < 0x4000 ==> PacketSeqCtrl(seqCount) != PacketSeqCtrl(0)
  {
  }

  /** `binary.Size(secondary) + binary.Size(payload) - 1`. */
  function PacketDataLength(): (n: uint16)
    ensures n == 25
  {
    (SECONDARY_HEADER_SIZE + PAYLOAD_SIZE - 1) as uint16
  }

  /** The generator asks for an anomalous payload exactly for every fifth count. */
  predicate AnomalyRequested(seqCount: uint16)
  {
    seqCount % 5 == 0
  }

  /** `packetCount++` on a `uint16`: wraps from 65535 to 0. */
  function Increment(c: uint16): (d: uint16)
    ensures c < 0xFFFF ==> d as int == c as int + 1
    ensures c == 0xFFFF ==> d == 0
  {
    if c == 0xFFFF then 0 else c + 1
  }

  /** Since 2^16 is not a multiple of 5, the cadence shifts when the count wraps: the last
      count before the wrap and the first after it are both anomalous, whereas otherwise
      no two consecutive counts are. */
  lemma AnomalyCadenceAtWrap()
    ensures AnomalyRequested(0xFFFF) && AnomalyRequested(Increment(0xFFFF))
    ensures forall c: uint16 :: c < 0xFFFF && AnomalyRequested(c) ==> !AnomalyRequested(Increment(c))
  {
  }

  /** `uint64(time.Now().Unix())`: a negative Unix time wraps modulo 2^64. */
  function UnixTimestamp(unixSeconds: int): (t: uint64)
    ensures 0 <= unixSeconds < 0x1_0000_0000_0000_0000 ==> t as int == unixSeconds
  {
    (unixSeconds % 0x1_0000_0000_0000_0000) as uint64
  }

  /** The packet for one sequence count, timestamp and payload. */
  function PacketFor(seqCount: uint16, timestamp: uint64, payload: TelemetryPayload): seq<byte>
  {
    EncodePacket(
      PrimaryHeader(PacketId(), PacketSeqCtrl(seqCount), PacketDataLength()),
      SecondaryHeader(timestamp, SUBSYSTEM_ID),
      payload)
  }

  /** A `bytes.Buffer` that structs are written into. */
  class PacketBuffer {
    var bytes: seq<byte>

    constructor()
      ensures bytes == []
    {
      bytes := [];
    }

    method Write(b: seq<byte>)
      modifies this
      ensures bytes == old(bytes) + b
    {
      bytes := bytes + b;
    }
  }

  /** `createTelemetryPacket`: the three structs written in turn into a fresh buffer.
      `payloadFor(anomalous)` stands for `generateTelemetryPayload`. */
  method CreateTelemetryPacket(seqCount: uint16, unixSeconds: int, payloadFor: bool -> TelemetryPayload)
    returns (packet: seq<byte>)
    ensures packet == PacketFor(seqCount, UnixTimestamp(unixSeconds), payloadFor(AnomalyRequested(seqCount)))
    ensures |packet| == 32
  {
    var buf := new PacketBuffer();
    var primary := PrimaryHeader(PacketId(), PacketSeqCtrl(seqCount), PacketDataLength());
    var payload := payloadFor(seqCount % 5 == 0);
    var secondary := SecondaryHeader(UnixTimestamp(unixSeconds), SUBSYSTEM_ID);
    buf.Write(EncodePrimary(primary));
    buf.Write(EncodeSecondary(secondary));
    buf.Write(EncodePayload(payload));
    packet := buf.bytes;
  }

  /** The fixed header bytes of every generated packet: packet ID 0x0801, data length 25
      and subsystem 1, all big-endian. */
  lemma PacketFixedBytes(seqCount: uint16, timestamp: uint64, payload: TelemetryPayload)
    ensures PacketFor(seqCount, timestamp, payload)[0..2] == [0x08, 0x01]
    ensures PacketFor(seqCount, timestamp, payload)[4..6] == [0x00, 0x19]
    ensures PacketFor(seqCount, timestamp, payload)[14..16] == [0x00, 0x01]
  {
    var p := PacketFor(seqCount, timestamp, payload);
    assert p[0..2] == Be16(PacketId());
    assert p[4..6] == Be16(PacketDataLength());
    assert p[14..16] == Be16(SUBSYSTEM_ID);
  }

  /** The variable fields of a generated packet read back as what was put in: the
      sequence control, the timestamp and the payload. */
  lemma PacketFields(seqCount: uint16, timestamp: uint64, payload: TelemetryPayload)
    ensures |PacketFor(seqCount, timestamp, payload)| == 32
    ensures Read16(PacketFor(seqCount, timestamp, payload)[2..4]) == PacketSeqCtrl(seqCount)
    ensures Read64(PacketFor(seqCount, timestamp, payload)[6..14]) == timestamp
    ensures DecodePayload(PacketFor(seqCount, timestamp, payload)[16..32]) == payload
  {
    var p := PacketFor(seqCount, timestamp, payload);
    PacketSeqField(seqCount, timestamp, payload);
    assert p[6..14] == Be64(timestamp);
    Be64RoundTrip(timestamp);
    assert p[16..32] == EncodePayload(payload);
    PayloadRoundTrip(payload);
  }

  lemma PacketSeqField(seqCount: uint16, timestamp: uint64, payload: TelemetryPayload)
    ensures |PacketFor(seqCount, timestamp, payload)| == 32
    ensures Read16(PacketFor(seqCount, timestamp, payload)[2..4]) == PacketSeqCtrl(seqCount)
  {
    assert PacketFor(seqCount, timestamp, payload)[2..4] == Be16(PacketSeqCtrl(seqCount));
    Be16RoundTrip(PacketSeqCtrl(seqCount));
  }

  /** The generator's loop state: the packet count and the datagrams sent so far. */
  class TelemetryGenerator {
    var packetCount: uint16
    var sent: seq<seq<byte>>

    constructor()
      ensures packetCount == 0 && sent == []
    {
      packetCount := 0;
      sent := [];
    }

    /** One iteration of the loop. `writeSucceeds` is whether `conn.Write` returned no
        error; on an error the loop sleeps and retries with the same count. */
    method Tick(writeSucceeds: bool, unixSeconds: int, payloadFor: bool -> TelemetryPayload)
      modifies this
      ensures writeSucceeds ==> packetCount == Increment(old(packetCount))
      ensures writeSucceeds ==> sent == old(sent) + [PacketFor(old(packetCount), UnixTimestamp(unixSeconds), payloadFor(AnomalyRequested(old(packetCount))))]
      ensures !writeSucceeds ==> packetCount == old(packetCount) && sent == old(sent)
    {
      var data := CreateTelemetryPacket(packetCount, unixSeconds, payloadFor);
      if !writeSucceeds {
        return;
      }
      sent := sent + [data];
      packetCount := Increment(packetCount);
    }

    /** The loop over a finite run of ticks, `clock(i)` being the Unix time at tick i and
        `payloadFor(i)` the readings `generateTelemetryPayload` draws at tick i: what is
        sent and the final count are those of `Transmitted`. */
    method Run(writes: seq<bool>, clock: nat -> int, payloadFor: nat -> bool -> TelemetryPayload)
      modifies this
      ensures packetCount == CountFrom(old(packetCount), Successes(writes))
      ensures sent == old(sent) + Transmitted(old(packetCount), writes, clock, payloadFor)
    {
      var i := 0;
      while i < |writes|
        invariant 0 <= i <= |writes|
        invariant packetCount == CountFrom(old(packetCount), Successes(writes[..i]))
        invariant sent == old(sent) + Transmitted(old(packetCount), writes[..i], clock, payloadFor)
      {
        Tick(writes[i], clock(i), payloadFor(i));
        RunStep(old(packetCount), writes, i, clock, payloadFor);
        i := i + 1;
      }
      assert writes[..|writes|] == writes;
    }
  }

  /** The number of successful writes. */
  function Successes(writes: seq<bool>): (n: nat)
    ensures n <= |writes|
  {
    if writes == [] then 0 else Successes(writes[..|writes| - 1]) + (if writes[|writes| - 1] then 1 else 0)
  }

  /** The ticks whose write succeeded, in order: the k-th of them sent the k-th packet. */
  function SuccessTicks(writes: seq<bool>): (ticks: seq<nat>)
    ensures |ticks| == Successes(writes)
    ensures forall j :: 0 <= j < |ticks| ==> ticks[j] < |writes| && writes[ticks[j]]
    ensures forall i, j :: 0 <= i < j < |ticks| ==> ticks[i] < ticks[j]
  {
    if writes == [] then []
    else
      var prefix := writes[..|writes| - 1];
      SuccessTicks(prefix) + if writes[|writes| - 1] then [|writes| - 1] else []
  }

  /** The counter after `n` increments from `start`. */
  function CountFrom(start: uint16, n: nat): uint16
  {
    if n == 0 then start else Increment(CountFrom(start, n - 1))
  }

  /** Counting wraps modulo 2^16. */
  lemma {:induction false} CountFromWraps(start: uint16, n: nat)
    ensures CountFrom(start, n) as int == (start as int + n) % 0x1_0000
  {
    if n > 0 {
      CountFromWraps(start, n - 1);
      var x := start as int + n - 1;
      assert CountFrom(start, n - 1) as int == x % 0x1_0000;
      ModStep(x);
    }
  }

  lemma ModStep(x: int)
    ensures (x + 1) % 0x1_0000 == if x % 0x1_0000 == 0xFFFF then 0 else x % 0x1_0000 + 1
  {
  }

  /** The packets a run of ticks sends, in order: at each successful write, the packet for
      the count reached so far. */
  function Transmitted(start: uint16, writes: seq<bool>, clock: nat -> int, payloadFor: nat -> bool -> TelemetryPayload): seq<seq<byte>>
  {
    if writes == [] then []
    else
      var prefix := writes[..|writes| - 1];
      var count := CountFrom(start, Successes(prefix));
      Transmitted(start, prefix, clock, payloadFor)
      + if writes[|writes| - 1] then [PacketFor(count, UnixTimestamp(clock(|writes| - 1)), payloadFor(|writes| - 1)(AnomalyRequested(count)))] else []
  }

  /** How one more tick extends the count and the transmitted packets. */
  lemma RunStep(start: uint16, writes: seq<bool>, i: nat, clock: nat -> int, payloadFor: nat -> bool -> TelemetryPayload)
    requires i < |writes|
    ensures var count := CountFrom(start, Successes(writes[..i]));
      && CountFrom(start, Successes(writes[..i + 1])) == (if writes[i] then Increment(count) else count)
      && Transmitted(start, writes[..i + 1], clock, payloadFor)
         == Transmitted(start, writes[..i], clock, payloadFor)
            + if writes[i] then [PacketFor(count, UnixTimestamp(clock(i)), payloadFor(i)(AnomalyRequested(count)))] else []
  {
    assert writes[..i + 1][..i] == writes[..i];
  }

  /** The packets from index `base` on are 32 bytes long and carry the sequence counts
      `start`, `start + 1`, … in turn. */
  predicate ConsecutiveCounts(sent: seq<seq<byte>>, base: nat, start: uint16)
  {
    forall k :: base <= k < |sent| ==>
      |sent[k]| == 32 && Read16(sent[k][2..4]) == PacketSeqCtrl(CountFrom(start, k - base))
  }

  /** One packet per successful write, and the sent packets carry consecutive sequence
      counts from the starting count on, with no gap where a write failed. */
  lemma {:induction false} TransmittedCounts(start: uint16, writes: seq<bool>, clock: nat -> int, payloadFor: nat -> bool -> TelemetryPayload)
    ensures |Transmitted(start, writes, clock, payloadFor)| == Successes(writes)
    ensures ConsecutiveCounts(Transmitted(start, writes, clock, payloadFor), 0, start)
  {
    if writes != [] {
      var prefix := writes[..|writes| - 1];
      TransmittedCounts(start, prefix, clock, payloadFor);
      if writes[|writes| - 1] {
        var count := CountFrom(start, Successes(prefix));
        var payload := payloadFor(|writes| - 1)(AnomalyRequested(count));
        var p := PacketFor(count, UnixTimestamp(clock(|writes| - 1)), payload);
        PacketSeqField(count, UnixTimestamp(clock(|writes| - 1)), payload);
        SentStep(Transmitted(start, prefix, clock, payloadFor), p, 0, start, count);
      }
    }
  }

  /** Appending the packet for the next count keeps the sent packets' counts consecutive. */
  lemma SentStep(before: seq<seq<byte>>, p: seq<byte>, base: nat, start: uint16, count: uint16)
    requires base <= |before|
    requires ConsecutiveCounts(before, base, start)
    requires |p| == 32 && Read16(p[2..4]) == PacketSeqCtrl(count)
    requires count == CountFrom(start, |before| - base)
    ensures ConsecutiveCounts(before + [p], base, start)
  {
    var after := before + [p];
    assert after[|before|] == p;
    assert forall k :: base <= k < |before| ==> after[k] == before[k];
  }
}
