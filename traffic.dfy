/** The counter-to-rate engine behind the back end's /api/traffic route.

    Each request takes a fresh pair of interface octet counters, turns the
    difference against the previous pair into bytes and bits per second, and
    then remembers the fresh pair for the next request. The device query is
    a parameter (`Fetch`): either a sample or the message of the failure.
 */
module Traffic {

  /** Largest value of a 64-bit counter, 2^64 - 1 (the back end's MAX_COUNTER64). */
  const MAX_COUNTER64: int := 0xFFFF_FFFF_FFFF_FFFF

  /** Number of distinct 64-bit counter values, 2^64. */
  const MODULUS64: int := MAX_COUNTER64 + 1

  /** Number of distinct 32-bit counter values, 2^32. */
  const MODULUS32: int := 0x1_0000_0000

  type Counter64 = x: int | 0 <= x <= MAX_COUNTER64

  datatype Option<T> = None | Some(value: T)

  /** One reading of the device: the in and out octet counters and the
      wall-clock time of the reading in milliseconds. */
  datatype Sample = Sample(inOctets: Counter64, outOctets: Counter64, timestamp: int)

  /** Outcome of querying the device: a sample, or the failure's message. */
  datatype Fetch = Fetched(sample: Sample) | Failed(reason: string)

  /** The remembered previous sample and whether one has been taken. */
  datatype Stats = Stats(inOctets: Counter64, outOctets: Counter64, timestamp: int, initialized: bool)

  /** The record the route answers with; the four rates are rounded integers. */
  datatype Response = Response(
    inBitsPerSecond: int,
    outBitsPerSecond: int,
    inBytesPerSecond: int,
    outBytesPerSecond: int,
    error: Option<string>,
    message: string)

  /** Unrounded rates of one channel. */
  datatype Rate = Rate(bytesPerSecond: real, bitsPerSecond: real)

  const FIRST_COLLECTION_MESSAGE: string := "Primeira coleta. Taxas serão exibidas na próxima requisição."
  const FETCH_FAILED_MESSAGE: string := "Falha ao obter dados do MikroTik."

  /** The tracker's state when the process starts: zero counters, time 0, no sample yet. */
  const INITIAL_STATS: Stats := Stats(0, 0, 0, false)

  /** Octets counted on one channel between two readings, with the one-wrap
      correction exactly as the back end writes it: MAX_COUNTER64 - last + current.
      Without a wrap it recovers `current`; with one wrap it lands one short of
      `current` modulo 2^64 (see DeltaWrapIsOneShort). */
  function Delta(last: Counter64, current: Counter64): (d: int)
    ensures 0 <= d <= MAX_COUNTER64
    ensures current >= last ==> last + d == current
    ensures current < last ==> (last + d + 1) % MODULUS64 == current
  {
    var d := current - last;
    if d < 0 then MAX_COUNTER64 - last + current else d
  }

  /** Math.round: the nearest integer, halves rounded up. */
  function Round(x: real): (n: int)
    ensures n as real - 0.5 <= x < n as real + 0.5
  {
    (x + 0.5).Floor
  }

  /** Unrounded rates of one channel over `elapsedMs` milliseconds. */
  function ChannelRate(last: Counter64, current: Counter64, elapsedMs: int): (r: Rate)
    requires elapsedMs > 0
    ensures r.bytesPerSecond >= 0.0
    ensures r.bytesPerSecond * (elapsedMs as real) == Delta(last, current) as real * 1000.0
    ensures r.bitsPerSecond == 8.0 * r.bytesPerSecond
  {
    var bytesPerSecond := Delta(last, current) as real / (elapsedMs as real / 1000.0);
    Rate(bytesPerSecond, bytesPerSecond * 8.0)
  }

  /** A rate is computed only once a previous sample exists and time has advanced. */
  predicate ComputesRates(s: Stats, current: Sample)
  {
    s.initialized && current.timestamp - s.timestamp > 0
  }

  /** The answer to one request, given the tracker state before it. */
  function Respond(s: Stats, fetch: Fetch): (r: Response)
    ensures r.error.Some? <==> fetch.Failed?
    ensures fetch.Failed? ==> r.error == Some(fetch.reason) && r.message == FETCH_FAILED_MESSAGE
    ensures r.inBitsPerSecond >= 0 && r.outBitsPerSecond >= 0
    ensures r.inBytesPerSecond >= 0 && r.outBytesPerSecond >= 0
    ensures (fetch.Failed? || !ComputesRates(s, fetch.sample)) ==>
      r.inBitsPerSecond == r.outBitsPerSecond == r.inBytesPerSecond == r.outBytesPerSecond == 0
    ensures fetch.Fetched? ==>
      (r.message == FIRST_COLLECTION_MESSAGE <==> !ComputesRates(s, fetch.sample))
  {
    match fetch
    case Failed(reason) =>
      Response(0, 0, 0, 0, Some(reason), FETCH_FAILED_MESSAGE)
    case Fetched(current) =>
      if ComputesRates(s, current) then
        var elapsedMs := current.timestamp - s.timestamp;
        var rin := ChannelRate(s.inOctets, current.inOctets, elapsedMs);
        var rout := ChannelRate(s.outOctets, current.outOctets, elapsedMs);
        Response(Round(rin.bitsPerSecond), Round(rout.bitsPerSecond),
                 Round(rin.bytesPerSecond), Round(rout.bytesPerSecond), None, "")
      else
        Response(0, 0, 0, 0, None, FIRST_COLLECTION_MESSAGE)
  }

  /** The tracker state after one request. */
  function NextStats(s: Stats, fetch: Fetch): (t: Stats)
    ensures fetch.Failed? ==> t == s
    ensures fetch.Fetched? ==> t.initialized
    ensures fetch.Fetched? ==> t.inOctets == fetch.sample.inOctets && t.outOctets == fetch.sample.outOctets
    ensures fetch.Fetched? ==> t.timestamp == fetch.sample.timestamp
  {
    match fetch
    case Failed(_) => s
    case Fetched(current) => Stats(current.inOctets, current.outOctets, current.timestamp, true)
  }

  /** The module-level tracker record, updated in place by every request. */
  class Tracker {
    var lastIn: Counter64
    var lastOut: Counter64
    var lastTimestamp: int
    var initialized: bool

    function Snapshot(): Stats
      reads this
    {
      Stats(lastIn, lastOut, lastTimestamp, initialized)
    }

    constructor ()
      ensures Snapshot() == INITIAL_STATS
    {
      lastIn, lastOut, lastTimestamp, initialized := 0, 0, 0, false;
    }

    /** One request to the traffic route: answer from the previous sample,
        then remember the current one. A failed fetch changes nothing. */
    method HandleTraffic(fetch: Fetch) returns (r: Response)
      modifies this
      ensures r == Respond(old(Snapshot()), fetch)
      ensures Snapshot() == NextStats(old(Snapshot()), fetch)
      ensures fetch.Failed? ==> unchanged(this)
    {
      match fetch {
        case Failed(reason) =>
          r := Response(0, 0, 0, 0, Some(reason), FETCH_FAILED_MESSAGE);
        case Fetched(current) =>
          var elapsedMs := current.timestamp - lastTimestamp;
          r := Response(0, 0, 0, 0, None, "");
          if initialized && elapsedMs > 0 {
            var deltaIn := current.inOctets - lastIn;
            var deltaOut := current.outOctets - lastOut;
            if deltaIn < 0 { deltaIn := MAX_COUNTER64 - lastIn + current.inOctets; }
            if deltaOut < 0 { deltaOut := MAX_COUNTER64 - lastOut + current.outOctets; }
            var inBytesPerSec := deltaIn as real / (elapsedMs as real / 1000.0);
            var outBytesPerSec := deltaOut as real / (elapsedMs as real / 1000.0);
            r := r.(inBytesPerSecond := Round(inBytesPerSec),
                    outBytesPerSecond := Round(outBytesPerSec),
                    inBitsPerSecond := Round(inBytesPerSec * 8.0),
                    outBitsPerSecond := Round(outBytesPerSec * 8.0));
          } else {
            r := r.(message := FIRST_COLLECTION_MESSAGE);
            initialized := true;
          }
          lastIn, lastOut, lastTimestamp := current.inOctets, current.outOctets, current.timestamp;
      }
    }
  }

  /** The tracker state after a series of requests, taken in order. */
  function Run(s: Stats, fetches: seq<Fetch>): Stats
    decreases |fetches|
  {
    if fetches == [] then s
    else NextStats(Run(s, fetches[..|fetches| - 1]), fetches[|fetches| - 1])
  }

  /** The most recent successfully fetched sample, if any. */
  function LastSample(fetches: seq<Fetch>): Option<Sample>
    decreases |fetches|
  {
    if fetches == [] then None
    else match fetches[|fetches| - 1]
      case Fetched(c) => Some(c)
      case Failed(_) => LastSample(fetches[..|fetches| - 1])
  }

  // ---------------------------------------------------------------------------
  // Properties of the wrap correction

  /** With a wrap, the correction is one less than the true modular difference
      (current - last) mod 2^64 that a counter passing 2^64 - 1 -> 0 produces. */
  lemma DeltaWrapIsOneShort(last: Counter64, current: Counter64)
    requires current < last
    ensures Delta(last, current) == (current - last) % MODULUS64 - 1
  {
    var k := current - last + MODULUS64;
    assert 0 <= k < MODULUS64;
    assert (current - last) % MODULUS64 == k by {
      assert current - last == -1 * MODULUS64 + k;
    }
  }

  /** Without a wrap, the delta is the modular difference itself. */
  lemma DeltaNoWrapIsModular(last: Counter64, current: Counter64)
    requires current >= last
    ensures Delta(last, current) == (current - last) % MODULUS64
  {
  }

  /** The wrap example: from 2^64 - 100 to 50 counts 99 + 50 = 149 octets. */
  lemma WrapExample()
    ensures Delta(MODULUS64 - 100, 50) == 149
  {
  }

  /** The polled counters are ifInOctets/ifOutOctets of the interfaces table,
      which are 32 bits wide. When such a counter wraps, the 64-bit correction
      reports at least 2^64 - 2^32 octets, not the (current - last) mod 2^32
      octets that passed: it overshoots the 32-bit modular difference by
      exactly 2^64 - 1 - 2^32. */
  lemma Counter32WrapOverstates(last: Counter64, current: Counter64)
    requires current < last < MODULUS32
    ensures Delta(last, current) >= MODULUS64 - MODULUS32
    ensures Delta(last, current) - (current - last) % MODULUS32 == MAX_COUNTER64 - MODULUS32
  {
  }

  // ---------------------------------------------------------------------------
  // Properties of a request

  /** The first request reports zeros and the first-collection message, whatever
      the counters, and leaves the tracker initialized with the sample stored. */
  lemma FirstRequestReportsZeros(s: Stats, current: Sample)
    requires !s.initialized
    ensures Respond(s, Fetched(current)) == Response(0, 0, 0, 0, None, FIRST_COLLECTION_MESSAGE)
    ensures NextStats(s, Fetched(current)) == Stats(current.inOctets, current.outOctets, current.timestamp, true)
  {
  }

  /** Once initialized, a timestamp that does not advance also yields zeros,
      even when the counters moved. */
  lemma StalledClockReportsZeros(s: Stats, current: Sample)
    requires s.initialized && current.timestamp <= s.timestamp
    ensures Respond(s, Fetched(current)) == Response(0, 0, 0, 0, None, FIRST_COLLECTION_MESSAGE)
  {
  }

  /** A failed fetch answers with zeros and the failure's message and keeps the state. */
  lemma FailureKeepsStats(s: Stats, reason: string)
    ensures Respond(s, Failed(reason)) == Response(0, 0, 0, 0, Some(reason), FETCH_FAILED_MESSAGE)
    ensures NextStats(s, Failed(reason)) == s
  {
  }

  /** When rates are computed, each reported figure is the rounded unrounded rate. */
  lemma ComputedRates(s: Stats, current: Sample)
    requires ComputesRates(s, current)
    ensures var elapsedMs := current.timestamp - s.timestamp;
            var rin := ChannelRate(s.inOctets, current.inOctets, elapsedMs);
            var rout := ChannelRate(s.outOctets, current.outOctets, elapsedMs);
            Respond(s, Fetched(current)) ==
              Response(Round(8.0 * rin.bytesPerSecond), Round(8.0 * rout.bytesPerSecond),
                       Round(rin.bytesPerSecond), Round(rout.bytesPerSecond), None, "")
  {
  }

  /** Ingress and egress are independent: the in figures depend only on the in
      counters and the timestamps, the out figures only on the out counters. */
  lemma ChannelsIndependent(s1: Stats, s2: Stats, c1: Sample, c2: Sample)
    requires s1.initialized == s2.initialized && s1.timestamp == s2.timestamp
    requires c1.timestamp == c2.timestamp
    ensures s1.inOctets == s2.inOctets && c1.inOctets == c2.inOctets ==>
      Respond(s1, Fetched(c1)).inBytesPerSecond == Respond(s2, Fetched(c2)).inBytesPerSecond &&
      Respond(s1, Fetched(c1)).inBitsPerSecond == Respond(s2, Fetched(c2)).inBitsPerSecond
    ensures s1.outOctets == s2.outOctets && c1.outOctets == c2.outOctets ==>
      Respond(s1, Fetched(c1)).outBytesPerSecond == Respond(s2, Fetched(c2)).outBytesPerSecond &&
      Respond(s1, Fetched(c1)).outBitsPerSecond == Respond(s2, Fetched(c2)).outBitsPerSecond
  {
  }

  /** Rounding bytes/s and 8 x bytes/s separately keeps the reported bit rate
      within 4 of eight times the reported byte rate. */
  lemma RoundedBitsNearEightTimesBytes(x: real)
    ensures -4 <= Round(8.0 * x) - 8 * Round(x) <= 4
  {
    var b, n := Round(8.0 * x), Round(x);
    assert b as real - 0.5 <= 8.0 * x < b as real + 0.5;
    assert 8.0 * (n as real) - 4.0 <= 8.0 * x < 8.0 * (n as real) + 4.0;
    assert (b - 8 * n) as real < 4.5;
    assert (b - 8 * n) as real > -4.5;
  }

  /** The second request after start measures the traffic between the first
      sample and the second one. */
  lemma SecondRequestMeasuresFirstInterval(c1: Sample, c2: Sample)
    requires c1.timestamp < c2.timestamp
    ensures Respond(INITIAL_STATS, Fetched(c1)) == Response(0, 0, 0, 0, None, FIRST_COLLECTION_MESSAGE)
    ensures var s1 := NextStats(INITIAL_STATS, Fetched(c1));
            var elapsedMs := c2.timestamp - c1.timestamp;
            var rin := ChannelRate(c1.inOctets, c2.inOctets, elapsedMs);
            var rout := ChannelRate(c1.outOctets, c2.outOctets, elapsedMs);
            Respond(s1, Fetched(c2)) ==
              Response(Round(rin.bitsPerSecond), Round(rout.bitsPerSecond),
                       Round(rin.bytesPerSecond), Round(rout.bytesPerSecond), None, "") &&
            NextStats(s1, Fetched(c2)) == Stats(c2.inOctets, c2.outOctets, c2.timestamp, true)
  {
  }

  /** Across any series of requests, the tracker holds the most recent
      successfully fetched sample, initialized; failures in between are
      transparent, and with no success at all the state is unchanged. */
  lemma {:induction false} RunKeepsLastSample(s: Stats, fetches: seq<Fetch>)
    ensures Run(s, fetches) ==
      match LastSample(fetches)
      case None => s
      case Some(c) => Stats(c.inOctets, c.outOctets, c.timestamp, true)
  {
    if fetches != [] {
      RunKeepsLastSample(s, fetches[..|fetches| - 1]);
    }
  }

  /** So the answer to the next request is the one the most recent success
      alone would give: after any series with a success, a later sample's
      whole response (rates, error, message) is computed against that sample;
      when its clock has advanced, the four figures are the rounded rates from it. */
  lemma NextRequestDiffsLastSample(s: Stats, fetches: seq<Fetch>, current: Sample)
    requires LastSample(fetches).Some?
    ensures var last := LastSample(fetches).value;
            Respond(Run(s, fetches), Fetched(current)) ==
              Respond(Stats(last.inOctets, last.outOctets, last.timestamp, true), Fetched(current))
    ensures var last := LastSample(fetches).value;
            var elapsedMs := current.timestamp - last.timestamp;
            elapsedMs > 0 ==>
              var rin := ChannelRate(last.inOctets, current.inOctets, elapsedMs);
              var rout := ChannelRate(last.outOctets, current.outOctets, elapsedMs);
              Respond(Run(s, fetches), Fetched(current)) ==
                Response(Round(rin.bitsPerSecond), Round(rout.bitsPerSecond),
                         Round(rin.bytesPerSecond), Round(rout.bytesPerSecond), None, "")
  {
    RunKeepsLastSample(s, fetches);
  }

  /** In 1000 -> 3000 over 1000 ms is 2000 B/s and 16000 b/s; an idle out channel is 0. */
  lemma SteadyExample()
    ensures Respond(Stats(1000, 2000, 0, true), Fetched(Sample(3000, 2000, 1000))) ==
            Response(16000, 0, 2000, 0, None, "")
  {
    var rin := ChannelRate(1000, 3000, 1000);
    assert rin.bytesPerSecond == 2000.0;
    var rout := ChannelRate(2000, 2000, 1000);
    assert rout.bytesPerSecond == 0.0;
  }

  /** The wrap from 2^64 - 100 to 50 over one second reports 149 B/s. */
  lemma WrapRateExample()
    ensures Respond(Stats(MODULUS64 - 100, 0, 0, true), Fetched(Sample(50, 0, 1000))).inBytesPerSecond == 149
  {
    var rin := ChannelRate(MODULUS64 - 100, 50, 1000);
    assert rin.bytesPerSecond == 149.0;
  }
}
