# Interface traffic monitor: rate engine and chart window

This project models the core of a small monitor. The monitor polls a router's
interface octet counters over SNMP and shows the throughput in a browser.

- `traffic.dfy` (module `Traffic`) models the back end's `/api/traffic` route.
  A `Tracker` object holds the previous sample (in and out octets, timestamp)
  and an `initialized` flag. `HandleTraffic` receives the result of querying the
  device: a `Sample` or a failure message.
  - A failure answers with zeros and the failure's message, and the tracker
    stays as it was.
  - On the first sample, or when the clock has not moved forward, the answer is
    zeros plus the "first collection" message.
  - Otherwise each channel's delta is corrected for one wrap. The delta is
    divided by the elapsed time, giving bytes/s and bits/s, which are rounded the
    way `Math.round` rounds.
  - Every successful query then stores the new sample and sets `initialized`.
  The method is proved equal to the pure functions `Respond` and `NextStats`.
  The properties are lemmas about those functions.
- `chart.dfy` (module `Chart`) models the front end. It covers the unit chosen by
  `formatBitrate`, and the chart's sliding window of at most `MAX_DATA_POINTS = 60`
  points, as kept by `addDataToChart`. `ChartData.Add` pushes onto the label
  sequence and the two series. On overflow it shifts the oldest label off the
  labels, then a loop shifts the oldest entry off every series. It is proved
  equal to the pure function `AddPoint`, and the window properties are lemmas
  about `AddPoint`.

Time is an integer count of milliseconds, so "elapsed seconds > 0" is the same
as `current.timestamp > last.timestamp`. Unrounded rates are exact `real`
values: `delta / (elapsedMs / 1000)`.

The wrap correction is modelled exactly as written, `MAX_COUNTER64 - last +
current` with `MAX_COUNTER64 = 2^64 - 1`. `DeltaWrapIsOneShort` proves that this
is one less than the modular difference `(current - last) mod 2^64`.
`Counter32WrapOverstates` records a related property. The OIDs that are polled
(`...2.2.1.10` and `...2.2.1.16`) are `ifInOctets`/`ifOutOctets`, which are
32-bit counters. If such a counter wraps, the 64-bit correction reports at
least `2^64 - 2^32` octets: exactly `2^64 - 1 - 2^32` more than the 32-bit
modular difference. The model keeps the code's behaviour.

The route has no status field and no separate rate function. It computes inline
in the route handler and answers with its four rates, `error` (null or the
failure's message) and `message` (empty, the first-collection text, or the
failure text). `Response` carries exactly those fields.

## Model

| member | source | states |
|---|---|---|
| `Traffic.Delta` | back-end/back.js:81-85 | the octet delta lies in [0, 2^64-1]; with no wrap, last + delta = current; with a wrap, last + delta + 1 = current modulo 2^64 |
| `Traffic.DeltaWrapIsOneShort` | back-end/back.js:84-85 | on a wrap, the delta is precisely (current - last) mod 2^64 minus one, since MAX_COUNTER64 = 2^64 - 1 |
| `Traffic.DeltaNoWrapIsModular` | back-end/back.js:81-82 | without a wrap, the delta equals the modular difference |
| `Traffic.WrapExample` | back-end/back.js:20 | the delta from 2^64-100 to 50 is 149 |
| `Traffic.Counter32WrapOverstates` | back-end/back.js:15-16 | when the counters are 32-bit (as ifInOctets/ifOutOctets are) and wrap, the reported delta is at least 2^64 - 2^32, and exceeds the 32-bit modular difference by exactly 2^64 - 1 - 2^32 |
| `Traffic.Round` | back-end/back.js:92-95 | the rounded rate is within half a unit of the unrounded rate, with halves rounded up |
| `Traffic.ChannelRate` | back-end/back.js:87-95 | bytes/s is non-negative; bytes/s × elapsed ms = delta × 1000; bits/s = 8 × bytes/s, before rounding |
| `Traffic.Respond` | back-end/back.js:67-114 | error is set exactly when the fetch failed, and carries its message; all rates are non-negative; rates are zero unless `ComputesRates` holds, that is unless the tracker is initialized and the new timestamp is later than the stored one (the guard at back-end/back.js:70-80, in integer milliseconds); the first-collection message appears exactly when a sample was fetched but `ComputesRates` fails |
| `Traffic.NextStats` | back-end/back.js:99-102 | a failed fetch keeps the state; a successful one stores the sample's in, out and timestamp and sets initialized |
| `Traffic.Tracker.constructor` | back-end/back.js:22-27 | the tracker starts with zero counters, time 0 and initialized false |
| `Traffic.Tracker.HandleTraffic` | back-end/back.js:67-116 | the response is Respond of the old state and the new state is NextStats of it; a failed fetch leaves the object unchanged |
| `Traffic.FirstRequestReportsZeros` | back-end/back.js:97-100 | an uninitialized tracker answers all-zero rates with the first-collection message, whatever the counters, and becomes initialized holding the sample |
| `Traffic.StalledClockReportsZeros` | back-end/back.js:70-80 | an initialized tracker whose new timestamp is not later answers all zeros and the first-collection message, even if counters moved |
| `Traffic.FailureKeepsStats` | back-end/back.js:105-114 | a failed fetch answers zeros, the failure message and the error text, and leaves the stored sample alone |
| `Traffic.ComputedRates` | back-end/back.js:87-96 | a computed answer reports round(bytes/s) and round(8 × bytes/s) per channel, with no error and an empty message |
| `Traffic.ChannelsIndependent` | back-end/back.js:81-88 | the in figures depend only on the in counters and the timestamps; the out figures depend only on the out counters and the timestamps |
| `Traffic.RoundedBitsNearEightTimesBytes` | back-end/back.js:92-95 | rounding separately keeps the reported bits/s within 4 of 8 × the reported bytes/s |
| `Traffic.SecondRequestMeasuresFirstInterval` | back-end/back.js:80-102 | from the initial state, the first request answers all zeros with the first-collection message; the second answers in full: rounded bits/s and bytes/s from the first sample to the second on both channels, no error, an empty message; and it stores the second sample |
| `Traffic.RunKeepsLastSample` | back-end/back.js:99-114 | after any series of requests the tracker holds the most recent successfully fetched sample and is initialized; failures leave it alone; with no success the state is the starting one |
| `Traffic.NextRequestDiffsLastSample` | back-end/back.js:80-95 | after any series with a success, the whole answer to a later sample equals the answer an initialized tracker holding only the most recent success would give; when the clock has advanced, that is the four rounded rates from that sample, no error and an empty message |
| `Traffic.SteadyExample` | back-end/back.js:81-95 | in 1000→3000 over 1000 ms answers 2000 B/s and 16000 b/s; an unchanged out counter answers 0 |
| `Traffic.WrapRateExample` | back-end/back.js:84-92 | a wrap from 2^64-100 to 50 over one second answers 149 B/s |
| `Chart.UnitFor` | front-end/script.js:20-25 | bps exactly below 1000, Kbps exactly in [1000, 10^6), Mbps exactly in [10^6, 10^9), Gbps exactly from 10^9 |
| `Chart.UnitForMonotone` | front-end/script.js:20-25 | a larger bit rate never gets a smaller unit |
| `Chart.ShownValueInRange` | front-end/script.js:21-24 | for a non-negative rate, the exact quotient bits / Divisor(UnitFor(bits)) is below 1000 outside Gbps and at least 1 outside bps |
| `Chart.Shift` | front-end/script.js:84-85 | shifting a non-empty sequence drops exactly its first element; an empty one stays empty |
| `Chart.AddPoint` | front-end/script.js:78-86 | one call keeps the number of series; its contents are stated by the four AddPoint lemmas below |
| `Chart.AddAll` | front-end/script.js:78-86 | repeated calls keep the number of series |
| `Chart.Latest` | front-end/script.js:83-86 | the reference window: at most 60 entries and a suffix of the input; all of it when at most 60 long, exactly its last 60 entries otherwise |
| `Chart.AddAllKeepsLatest` | front-end/script.js:78-86 | from the empty two-series chart, after any sequence of calls the labels are exactly the latest 60 labels added, and each series holds exactly the matching latest 60 values |
| `Chart.AddPointAppends` | front-end/script.js:79-83 | the new label is last; below the limit the labels and both series gain exactly the new entry at the end, and everything else is unchanged |
| `Chart.AddPointDropsOldest` | front-end/script.js:83-86 | at the limit, exactly the oldest label leaves, and every series, after the push, loses its first entry |
| `Chart.AddPointBounded` | front-end/script.js:83-86 | a window of at most 60 labels still has at most 60 afterwards |
| `Chart.AddPointKeepsAligned` | front-end/script.js:79-85 | with the chart's two series, equal lengths stay equal and each series ends with its new value |
| `Chart.ChartData.constructor` | front-end/script.js:100-116 | the chart starts with no labels and two empty series |
| `Chart.ChartData.Add` | front-end/script.js:78-86 | the new window is AddPoint of the old one; it stays within 60 labels and stays aligned |

## Left out

- The SNMP session, `fetchTraffic` and `fetchInterfaceName` are foreign library and network I/O. The fetch is the parameter `Fetch`: a sample or a failure message.
- Express routing, CORS, the HTTP status 500 on failure, JSON serialisation, the `/` page and `app.listen` are HTTP plumbing.
- The `console.error` logging of a failed fetch is console I/O.
- The time source `Date.now()` is part of the sample.
- `Traffic.ChannelRate`: computes exact rationals. The code converts the delta with `Number(...)` and divides in IEEE doubles, which lose precision for large counters. Float rounding is not modelled; `Math.round` is modelled as floor(x + 0.5) on exact values.
- Concurrent requests interleaving between the `await` and the state update are not modelled. The model handles one request at a time.
- The front end's DOM updates, `fetch` polling, `setInterval`, pause/resume, status text, the Chart.js configuration and `chart.update()` are UI and I/O.
- The front end's scrape of the configuration page with a regular expression is UI and I/O.
- The `toFixed` value strings of `formatBitrate` are float formatting. The model covers the unit only, plus the divisor the value is scaled by. Rounding with `toFixed(2)` can display "1000.00" just below the Kbps→Mbps and Mbps→Gbps thresholds (for example 999999 bits/s shows as 1000.00 Kbps), so the bound in `Chart.ShownValueInRange` is on the exact quotient, not on the displayed string.
- The `/ 1000` Kbps scaling of chart points is float formatting. Series values are exact reals passed in.
