/** The ingestion service: `parseCCSDSPacket` reads the three structs from a
    `bytes.Reader` in turn, `processPacket` stores the payload and updates the Prometheus
    gauges and counters, and the UDP loop reads each datagram into one shared buffer.
    The database, the clock and the network are parameters. */
module Ingestion {
  import opened Wrappers
  import opened Ccsds
  import Float32

  /** The errors `io.ReadFull` reports: nothing left at all, or only part of what was asked. */
  datatype ReadError = EOF | UnexpectedEOF

  datatype Part = PrimaryPart | SecondaryPart | PayloadPart

  /** "packet too short: N bytes", or "error reading <part>: <cause>". */
  datatype ParseError = PacketTooShort(length: nat) | ReadFailed(part: Part, cause: ReadError)

  /** `io.ReadFull` of `n` bytes from a `bytes.Reader` at offset `pos`: the bytes and the
      new offset, or the error and the offset after the partial read. */
  function ReadFullAt(data: seq<byte>, pos: nat, n: nat): (r: (Result<seq<byte>, ReadError>, nat))
    requires pos <= |data| && 0 < n
    ensures r.1 <= |data|
  {
    if pos == |data| then (Failure(EOF), pos)
    else if pos + n > |data| then (Failure(UnexpectedEOF), |data|)
    else (Success(data[pos..pos + n]), pos + n)
  }

  /** The outcome of `parseCCSDSPacket`, following its reads one after another. */
  function Parse(data: seq<byte>): Result<TelemetryPayload, ParseError>
  {
    if |data| < 16 then Failure(PacketTooShort(|data|))
    else
      var (primary, afterPrimary) := ReadFullAt(data, 0, PRIMARY_HEADER_SIZE);
      match primary
      case Failure(e) => Failure(ReadFailed(PrimaryPart, e))
      case Success(_) =>
        var (secondary, afterSecondary) := ReadFullAt(data, afterPrimary, SECONDARY_HEADER_SIZE);
        match secondary
        case Failure(e) => Failure(ReadFailed(SecondaryPart, e))
        case Success(_) =>
          var (payload, _) := ReadFullAt(data, afterSecondary, PAYLOAD_SIZE);
          match payload
          case Failure(e) => Failure(ReadFailed(PayloadPart, e))
          case Success(bytes) => Success(DecodePayload(bytes))
  }

  /** Parsing succeeds exactly for 32 bytes or more, with the payload decoded from bytes
      16..31; shorter input fails with "packet too short" below 16 bytes, and at the
      payload read otherwise: with EOF at exactly 16 bytes, with UnexpectedEOF at 17 to 31.
      The header reads never fail. */
  lemma ParseOutcomes(data: seq<byte>)
    ensures Parse(data).Success? <==> |data| >= PACKET_SIZE
    ensures |data| >= PACKET_SIZE ==> Parse(data) == Success(DecodePayload(data[16..32]))
    ensures |data| < 16 ==> Parse(data) == Failure(PacketTooShort(|data|))
    ensures |data| == 16 ==> Parse(data) == Failure(ReadFailed(PayloadPart, EOF))
    ensures 16 < |data| < PACKET_SIZE ==> Parse(data) == Failure(ReadFailed(PayloadPart, UnexpectedEOF))
  {
    if |data| >= 16 {
      assert ReadFullAt(data, 0, PRIMARY_HEADER_SIZE) == (Success(data[0..6]), 6);
      assert ReadFullAt(data, 6, SECONDARY_HEADER_SIZE) == (Success(data[6..16]), 16);
    }
  }

  /** The headers are read and discarded, and trailing bytes are ignored: two inputs of at
      least 32 bytes that agree on bytes 16..31 parse alike. */
  lemma ParseDependsOnlyOnPayloadBytes(a: seq<byte>, b: seq<byte>)
    requires |a| >= PACKET_SIZE && |b| >= PACKET_SIZE
    requires a[16..32] == b[16..32]
    ensures Parse(a) == Parse(b)
  {
    ParseOutcomes(a);
    ParseOutcomes(b);
  }

  /** A `bytes.Reader`: the data and the read offset. */
  class Reader {
    var data: seq<byte>
    var pos: nat

    constructor(d: seq<byte>)
      ensures data == d && pos == 0
    {
      data := d;
      pos := 0;
    }

    /** `binary.Read` of an n-byte struct, which reads with `io.ReadFull`. */
    method ReadFull(n: nat) returns (r: Result<seq<byte>, ReadError>)
      requires 0 < n && pos <= |data|
      modifies this
      ensures data == old(data)
      ensures (r, pos) == ReadFullAt(old(data), old(pos), n)
    {
      if pos == |data| {
        return Failure(EOF);
      }
      if pos + n > |data| {
        pos := |data|;
        return Failure(UnexpectedEOF);
      }
      r := Success(data[pos..pos + n]);
      pos := pos + n;
    }
  }

  /** `parseCCSDSPacket`: the length check, then three reads with an early return on each
      error. The header structs are decoded and dropped, as in the source. */
  method ParseCCSDSPacket(data: seq<byte>) returns (r: Result<TelemetryPayload, ParseError>)
    ensures r == Parse(data)
  {
    if |data| < 16 {
      return Failure(PacketTooShort(|data|));
    }
    var reader := new Reader(data);
    var primary := reader.ReadFull(PRIMARY_HEADER_SIZE);
    match primary {
      case Failure(e) => return Failure(ReadFailed(PrimaryPart, e));
      case Success(bytes) => var _ := DecodePrimary(bytes);
    }
    var secondary := reader.ReadFull(SECONDARY_HEADER_SIZE);
    match secondary {
      case Failure(e) => return Failure(ReadFailed(SecondaryPart, e));
      case Success(bytes) => var _ := DecodeSecondary(bytes);
    }
    var payload := reader.ReadFull(PAYLOAD_SIZE);
    match payload {
      case Failure(e) => return Failure(ReadFailed(PayloadPart, e));
      case Success(bytes) => return Success(DecodePayload(bytes));
    }
  }

  /** The anomaly test of `processPacket`: some metric below or above its band. Go compares
      the float32 value with the constant, so NaN never counts. */
  predicate OutOfBand(p: TelemetryPayload)
  {
    var temperature, battery := Float32.Decode(p.temperature), Float32.Decode(p.battery);
    var altitude, signal := Float32.Decode(p.altitude), Float32.Decode(p.signal);
    Float32.Below(temperature, 0.0) || Float32.Above(temperature, 100.0)
    || Float32.Below(battery, 20.0) || Float32.Above(battery, 100.0)
    || Float32.Below(altitude, 300.0) || Float32.Above(altitude, 550.0)
    || Float32.Below(signal, -90.0) || Float32.Above(signal, -40.0)
  }

  /** A payload is anomalous exactly when some metric lies outside its closed band:
      temperature [0, 100], battery [20, 100], altitude [300, 550], signal [-90, -40]. */
  lemma OutOfBandMeaning(p: TelemetryPayload)
    ensures OutOfBand(p) <==>
      Float32.Outside(Float32.Decode(p.temperature), 0.0, 100.0)
      || Float32.Outside(Float32.Decode(p.battery), 20.0, 100.0)
      || Float32.Outside(Float32.Decode(p.altitude), 300.0, 550.0)
      || Float32.Outside(Float32.Decode(p.signal), -90.0, -40.0)
  {
    Float32.OutsideBand(Float32.Decode(p.temperature), 0.0, 100.0);
    Float32.OutsideBand(Float32.Decode(p.battery), 20.0, 100.0);
    Float32.OutsideBand(Float32.Decode(p.altitude), 300.0, 550.0);
    Float32.OutsideBand(Float32.Decode(p.signal), -90.0, -40.0);
  }

  /** Values on a band edge are not anomalous, and neither is a payload of NaNs. */
  lemma BandEdgesAndNaN(p: TelemetryPayload)
    ensures (Float32.Decode(p.temperature) == Float32.Finite(100.0)
             && Float32.Decode(p.battery) == Float32.Finite(20.0)
             && Float32.Decode(p.altitude) == Float32.Finite(550.0)
             && Float32.Decode(p.signal) == Float32.Finite(-90.0)) ==> !OutOfBand(p)
    ensures (Float32.Decode(p.temperature).NaN? && Float32.Decode(p.battery).NaN?
             && Float32.Decode(p.altitude).NaN? && Float32.Decode(p.signal).NaN?) ==> !OutOfBand(p)
  {
  }

  /** The row `storeTelemetry` inserts: the packet ID, sequence control and subsystem
      columns are the constant 1, whatever the packet's headers held. */
  datatype StoredRow = StoredRow(
    timestamp: string,
    packetId: int,
    packetSeqCtrl: int,
    subsystemId: int,
    temperature: Float32.Float,
    battery: Float32.Float,
    altitude: Float32.Float,
    signalStrength: Float32.Float)

  function RowFor(p: TelemetryPayload, now: string): (row: StoredRow)
    ensures row.packetId == 1 && row.packetSeqCtrl == 1 && row.subsystemId == 1
  {
    StoredRow(now, 1, 1, 1, Float32.Decode(p.temperature), Float32.Decode(p.battery), Float32.Decode(p.altitude), Float32.Decode(p.signal))
  }

  /** The service's observable state: the four gauges, the two counters and the
      `telemetry` table. */
  class IngestionService {
    var temperatureGauge: Float32.Float
    var batteryGauge: Float32.Float
    var altitudeGauge: Float32.Float
    var signalStrengthGauge: Float32.Float
    var packetCounter: nat
    var anomalyCounter: nat
    var table: seq<StoredRow>

    /** Every stored packet was counted once, and every anomaly is a counted packet. */
    ghost predicate Valid()
      reads this
    {
      anomalyCounter <= packetCounter == |table|
    }

    constructor()
      ensures Valid()
      ensures packetCounter == 0 && anomalyCounter == 0 && table == []
      ensures temperatureGauge == batteryGauge == altitudeGauge == signalStrengthGauge == Float32.Finite(0.0)
    {
      temperatureGauge, batteryGauge, altitudeGauge, signalStrengthGauge := Float32.Finite(0.0), Float32.Finite(0.0), Float32.Finite(0.0), Float32.Finite(0.0);
      packetCounter, anomalyCounter := 0, 0;
      table := [];
    }

    /** `storeTelemetry`: insert the row at time `now`; `succeeds` is whether `db.Exec`
        returned no error. */
    method StoreTelemetry(p: TelemetryPayload, now: string, succeeds: bool) returns (ok: bool)
      modifies this
      ensures ok == succeeds
      ensures table == old(table) + (if succeeds then [RowFor(p, now)] else [])
      ensures packetCounter == old(packetCounter) && anomalyCounter == old(anomalyCounter)
      ensures temperatureGauge == old(temperatureGauge) && batteryGauge == old(batteryGauge)
      ensures altitudeGauge == old(altitudeGauge) && signalStrengthGauge == old(signalStrengthGauge)
    {
      if succeeds {
        table := table + [RowFor(p, now)];
      }
      ok := succeeds;
    }

    /** `processPacket`: a parse or store error returns early and changes nothing else;
        otherwise the gauges take the payload's values, the packet counter advances, and
        the anomaly counter advances exactly when some metric is out of band. */
    method ProcessPacket(data: seq<byte>, now: string, storeSucceeds: bool)
      requires Valid()
      modifies this
      ensures Valid()
      ensures Parse(data).Failure? || !storeSucceeds ==>
        table == old(table) && packetCounter == old(packetCounter) && anomalyCounter == old(anomalyCounter)
        && temperatureGauge == old(temperatureGauge) && batteryGauge == old(batteryGauge)
        && altitudeGauge == old(altitudeGauge) && signalStrengthGauge == old(signalStrengthGauge)
      ensures Parse(data).Success? && storeSucceeds ==>
        var p := Parse(data).value;
        && table == old(table) + [RowFor(p, now)]
        && packetCounter == old(packetCounter) + 1
        && anomalyCounter == old(anomalyCounter) + (if OutOfBand(p) then 1 else 0)
        && temperatureGauge == Float32.Decode(p.temperature)
        && batteryGauge == Float32.Decode(p.battery)
        && altitudeGauge == Float32.Decode(p.altitude)
        && signalStrengthGauge == Float32.Decode(p.signal)
    {
      var parsed := ParseCCSDSPacket(data);
      if parsed.Failure? {
        return;
      }
      var telemetry := parsed.value;
      var stored := StoreTelemetry(telemetry, now, storeSucceeds);
      if !stored {
        return;
      }
      temperatureGauge := Float32.Decode(telemetry.temperature);
      batteryGauge := Float32.Decode(telemetry.battery);
      altitudeGauge := Float32.Decode(telemetry.altitude);
      signalStrengthGauge := Float32.Decode(telemetry.signal);
      packetCounter := packetCounter + 1;
      if OutOfBand(telemetry) {
        anomalyCounter := anomalyCounter + 1;
      }
    }
  }

  /** The size of the UDP read buffer in `main`. */
  const UDP_BUFFER_SIZE: nat := 1024

  /** The UDP loop's single read buffer, reused for every datagram. */
  class Receiver {
    const buffer: array<byte>

    constructor()
      ensures buffer.Length == UDP_BUFFER_SIZE && fresh(buffer)
    {
      buffer := new byte[UDP_BUFFER_SIZE](_ => 0);
    }

    /** `conn.ReadFrom(buffer)`: the datagram is copied to the front of the buffer and cut
        to the buffer's size; the rest of the buffer keeps what it held. */
    method ReadFrom(datagram: seq<byte>) returns (n: nat)
      modifies buffer
      ensures n == if |datagram| < buffer.Length then |datagram| else buffer.Length
      ensures buffer[..n] == datagram[..n]
      ensures buffer[n..] == old(buffer[n..])
    {
      n := if |datagram| < buffer.Length then |datagram| else buffer.Length;
      forall i | 0 <= i < n {
        buffer[i] := datagram[i];
      }
    }

    /** Two datagrams arrive, and `go processPacket(buffer[:n])` hands each one over as a
        slice of the shared buffer. With the schedule where the first goroutine starts
        parsing only after the second read, the first packet is parsed from the second
        datagram's bytes. */
    method ReceiveTwoAsWritten(first: seq<byte>, second: seq<byte>)
      returns (parsedFirst: Result<TelemetryPayload, ParseError>, parsedSecond: Result<TelemetryPayload, ParseError>)
      modifies buffer
      ensures |first| == |second| <= buffer.Length ==> parsedFirst == Parse(second)
      ensures |second| <= buffer.Length ==> parsedSecond == Parse(second)
    {
      var n1 := ReadFrom(first);
      var n2 := ReadFrom(second);
      assert n1 == n2 ==> buffer[..n1] == second[..n2];
      assert |second| <= buffer.Length ==> second[..n2] == second;
      parsedFirst := ParseCCSDSPacket(buffer[..n1]);
      parsedSecond := ParseCCSDSPacket(buffer[..n2]);
    }

    /** The corrected hand-off: the goroutine gets its own copy of the datagram's bytes, so
        each packet is parsed from its own datagram whatever the schedule. */
    method ReceiveTwo(first: seq<byte>, second: seq<byte>)
      returns (parsedFirst: Result<TelemetryPayload, ParseError>, parsedSecond: Result<TelemetryPayload, ParseError>)
      modifies buffer
      ensures |first| <= buffer.Length ==> parsedFirst == Parse(first)
      ensures |second| <= buffer.Length ==> parsedSecond == Parse(second)
    {
      var n1 := ReadFrom(first);
      var packet1 := buffer[..n1];
      assert |first| <= buffer.Length ==> packet1 == first;
      var n2 := ReadFrom(second);
      var packet2 := buffer[..n2];
      assert |second| <= buffer.Length ==> packet2 == second;
      parsedFirst := ParseCCSDSPacket(packet1);
      parsedSecond := ParseCCSDSPacket(packet2);
    }
  }

  /** Two packets of equal length whose payloads differ parse differently, so the shared
      buffer loses the first of them: here an all-zero packet and one whose temperature
      word starts with 0x42. */
  lemma SharedBufferLosesPacket()
    ensures var zeros: seq<byte> := seq(PACKET_SIZE, _ => 0);
            var other: seq<byte> := zeros[16 := 0x42];
            |zeros| == |other| && Parse(zeros) != Parse(other)
  {
    var zeros: seq<byte> := seq(PACKET_SIZE, _ => 0);
    var other: seq<byte> := zeros[16 := 0x42];
    ParseOutcomes(zeros);
    ParseOutcomes(other);
    var word := other[16..32][0..4];
    assert word == [0x42, 0, 0, 0];
    assert word[..2] == [0x42, 0] && word[2..] == [0, 0];
    assert Read32(word) == 0x4200_0000;
    assert zeros[16..32][0..4] == [0, 0, 0, 0];
    assert Read32(zeros[16..32][0..4]) == 0;
  }
}
