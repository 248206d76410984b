/** The generator and the ingestion service together: every datagram the generator
    sends is parsed by the ingestion service back into the payload it was built from. */
module Link {
  import opened Wrappers
  import opened Ccsds
  import opened Generator
  import opened Ingestion

  /** A generated packet parses to its payload, even with trailing bytes after it. */
  lemma GeneratedPacketParses(seqCount: uint16, timestamp: uint64, payload: TelemetryPayload, trailer: seq<byte>)
    ensures Parse(PacketFor(seqCount, timestamp, payload) + trailer) == Success(payload)
  {
    var packet := PacketFor(seqCount, timestamp, payload);
    PacketFields(seqCount, timestamp, payload);
    ParseOutcomes(packet + trailer);
    assert (packet + trailer)[16..32] == packet[16..32];
  }

  /** The k-th datagram parses to the readings drawn at tick `ticks[k]` for count
      `start + k`. */
  predicate ParsesToDrawn(sent: seq<seq<byte>>, ticks: seq<nat>, start: uint16, payloadFor: nat -> bool -> TelemetryPayload)
  {
    && |ticks| == |sent|
    && forall k :: 0 <= k < |sent| ==> Parse(sent[k]) == Success(payloadFor(ticks[k])(AnomalyRequested(CountFrom(start, k))))
  }

  /** Sending one more datagram, which parses to the readings drawn at tick `t` for the
      next count, keeps `ParsesToDrawn`. */
  lemma ParsesStep(before: seq<seq<byte>>, ticks: seq<nat>, start: uint16, payloadFor: nat -> bool -> TelemetryPayload, t: nat, p: seq<byte>)
    requires ParsesToDrawn(before, ticks, start, payloadFor)
    requires Parse(p) == Success(payloadFor(t)(AnomalyRequested(CountFrom(start, |before|))))
    ensures ParsesToDrawn(before + [p], ticks + [t], start, payloadFor)
  {
    var sent := before + [p];
    assert forall k :: 0 <= k < |before| ==> sent[k] == before[k] && (ticks + [t])[k] == ticks[k];
    assert sent[|before|] == p;
  }

  /** The k-th datagram of a run parses to the readings drawn at the tick that sent it,
      the k-th successful one, for the k-th count; so the ingestion side sees an anomaly
      request exactly every fifth count. */
  lemma {:induction false} TransmittedParses(start: uint16, writes: seq<bool>, clock: nat -> int, payloadFor: nat -> bool -> TelemetryPayload)
    ensures var sent := Transmitted(start, writes, clock, payloadFor);
      var ticks := SuccessTicks(writes);
      && |ticks| == |sent|
      && forall k :: 0 <= k < |sent| ==> Parse(sent[k]) == Success(payloadFor(ticks[k])(AnomalyRequested(CountFrom(start, k))))
  {
    if writes != [] {
      var prefix := writes[..|writes| - 1];
      TransmittedParses(start, prefix, clock, payloadFor);
      TransmittedCounts(start, prefix, clock, payloadFor);
      var before := Transmitted(start, prefix, clock, payloadFor);
      assert ParsesToDrawn(before, SuccessTicks(prefix), start, payloadFor);
      if writes[|writes| - 1] {
        var count := CountFrom(start, Successes(prefix));
        var payload := payloadFor(|writes| - 1)(AnomalyRequested(count));
        var p := PacketFor(count, UnixTimestamp(clock(|writes| - 1)), payload);
        assert Parse(p) == Success(payload) by {
          GeneratedPacketParses(count, UnixTimestamp(clock(|writes| - 1)), payload, []);
          assert p + [] == p;
        }
        ParsesStep(before, SuccessTicks(prefix), start, payloadFor, |writes| - 1, p);
      }
      assert ParsesToDrawn(Transmitted(start, writes, clock, payloadFor), SuccessTicks(writes), start, payloadFor);
    }
  }
}
