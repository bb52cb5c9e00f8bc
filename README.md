# wagmi: handler and load-test aggregation, modelled in Dafny

The repository has two small Rust programs. One is a web service whose single
endpoint, `POST /wagmi`, answers a liveness ping or adds two bounded operands.
The other is a load-test driver that sends many identical requests to the
service and reports on them.

This project models the logic of both:

- `wagmi.dfy`, module `Wagmi` (from `src/main.rs`): the request handler is a
  pure function. It maps the deserialized body (two optional JSON values) and
  a clock reading to one of three responses: a ping, a sum or a 400 "Invalid
  input". Lemmas show that the outcome is total and exclusive, that the sum
  bound is inclusive, and that negative, missing and non-numeric operands are
  refused.
- `load_test.dfy`, module `LoadTest` (from `src/load_test.rs`): one record per
  request, `(index, status, latency, success)`. The model covers the
  success/failure partition, the in-place sort of the latencies, the
  nearest-rank percentile and the status-code histogram. The histogram is
  built by a loop that updates a map in place. The concurrent fan-out
  becomes `Dispatch`, which yields one record per index. The results may
  come back in any order, so any permutation of those records is accepted
  (`Collected`). Lemmas show that every index appears exactly once and that
  the counts and the histogram account for every request. They also show
  that the percentiles are monotone and that the report does not depend on
  the order of the results.

The two meet in `Wagmi.SampleBodies`: the body the driver sends,
`{"a": 5, "b": 10}`, is answered with the sum 15.

`wagmi_handler` reads the clock on every ping (`src/main.rs:31`), so the model takes
the reading as the parameter `now`.

## Model

| member | source | states |
|---|---|---|
| `Wagmi.AsNumber` | src/main.rs:38 | `as_f64` yields a value exactly for a JSON number, and that value is the number |
| `Wagmi.StatusOf` | src/main.rs:33-53 | the status is 200 or 400, and it is 400 exactly for the error response |
| `Wagmi.Handle` | src/main.rs:28-54 | ping iff both operands are absent; sum iff both are numbers, non-negative, and add up to at most 100; error otherwise. A ping carries "wagmi", "Rust" and the given timestamp. A sum echoes both operands with `result = a + b` and "success". An error says "Invalid input" |
| `Wagmi.PingWhateverElse` | src/main.rs:30-34 | a body with both operands absent or null gets the 200 ping with message "wagmi", lang "Rust" and the supplied timestamp |
| `Wagmi.ValidAdditionAnswersSum` | src/main.rs:37-46 | two numbers `a, b >= 0` with `a + b <= 100` get 200 with `result = a + b`, echoing `a` and `b`, status "success" |
| `Wagmi.SumBoundary` | src/main.rs:39-53 | a sum of exactly 100 is accepted; a sum above 100 gets "Invalid input" |
| `Wagmi.NegativeRejected` | src/main.rs:39-53 | a negative `a` or a negative `b` gets 400 "Invalid input" |
| `Wagmi.MalformedRejected` | src/main.rs:36-53 | exactly one operand present, or a present operand that is not a number, gets 400 "Invalid input" |
| `Wagmi.ClassificationIsTotalAndExclusive` | src/main.rs:28-54 | no request is both a ping and a valid addition, so with `Handle`'s three if-and-only-if clauses every request gets exactly one outcome; the outcome depends only on `a` and `b`, and the clock only fills in a ping's timestamp |
| `Wagmi.SampleBodies` | src/main.rs:37-53 | `{a:5,b:10}` gets the sum 15; `{a:60,b:50}`, `{a:-1,b:5}` and `{a:5}` get "Invalid input" |
| `LoadTest.MakeRecord` | src/load_test.rs:35-41 | the record carries the request's index and latency; success iff the send returned a response; the status is that response's status, and 0 exactly when the send failed |
| `LoadTest.Dispatch` | src/load_test.rs:22-46 | a run of `n` attempts yields `n` records; record `i` has index `i` and keeps the status-0 convention |
| `LoadTest.CollectedRecords` | src/load_test.rs:44-46 | `Collected` models `buffer_unordered(..).collect()`: the results are the run's records, each exactly once, in any order. So there are as many results as requests, and every result is a record of the run |
| `LoadTest.Latencies` | src/load_test.rs:54-56 | `durations` has one latency per result, the latency of the result at the same position |
| `LoadTest.CountIf` | src/load_test.rs:51 | a filtered count is at most the length, and it is 0 exactly when no record passes the filter |
| `LoadTest.PartitionAddsUp` | src/load_test.rs:51-52 | `success_count + failure_count == results.len()` |
| `LoadTest.ConnectionErrorsAreFailures` | src/load_test.rs:35-38 | among records that keep the status-0 convention, the number with status 0 equals the number of failures |
| `LoadTest.CountIfIgnoresOrder` | src/load_test.rs:44-51 | a filtered count is the same for any collection order of the same records |
| `LoadTest.HistogramEntry` | src/load_test.rs:81-84 | a status is a key exactly when some record carries it; a key's count is between 1 and `results.len()`; an absent status has no record |
| `LoadTest.BumpCountsOne` | src/load_test.rs:83 | one `*status_counts.entry(s).or_insert(0) += 1` adds `s` as a key if it was missing, raises its count by one, and leaves every other count unchanged |
| `LoadTest.HistogramSnoc` | src/load_test.rs:82-83 | adding one record changes the histogram by one `entry(status).or_insert(0) += 1` |
| `LoadTest.HistogramSum` | src/load_test.rs:81-84 | the histogram's counts add up to `results.len()` |
| `LoadTest.HistogramIgnoresOrder` | src/load_test.rs:81-84 | the histogram is the same for any collection order of the same records |
| `LoadTest.CountStatuses` | src/load_test.rs:81-84 | the loop over a map that it updates in place builds exactly the histogram: every status that occurs, mapped to its number of records |
| `LoadTest.SortInPlace` | src/load_test.rs:62-63 | after `sort()` the latencies are in ascending order and are a permutation of what was there before |
| `LoadTest.SortedPermutationsEqual` | src/load_test.rs:62-63 | two sorted permutations of the same latencies are equal, so the sort determines `sorted_durations` |
| `LoadTest.PercentileIndex` | src/load_test.rs:104-105 | the index is a valid index; it is the largest index not above `len * p`, or 0, or the last index when the clamp applies |
| `LoadTest.Percentile` | src/load_test.rs:99-107 | an empty list gives zero duration; a non-empty list gives one of its own elements |
| `LoadTest.PercentileAtTop` | src/load_test.rs:104-106 | for `p >= 1` the clamp selects the last (largest) latency |
| `LoadTest.PercentileOfOne` | src/load_test.rs:104-106 | a one-element list gives its element for every `p`, 0.99 included |
| `LoadTest.PercentileIndexMonotone` | src/load_test.rs:104-105 | `p <= q` implies the index for `p` is at most the index for `q` |
| `LoadTest.PercentileMonotone` | src/load_test.rs:104-106 | on a sorted list, `p <= q` implies `percentile(s, p) <= percentile(s, q)` |
| `LoadTest.Aggregate` | src/load_test.rs:51-84 | the report has the success count and the failure count of the results. Its percentiles are read off a sorted permutation of the latencies, with p50 <= p90 <= p99. Each percentile is 0 when there are no results, and otherwise a latency that some record has. Its status counts are the histogram |
| `LoadTest.RunAccounting` | src/load_test.rs:22-52 | whatever the collection order: one record per request; the indices are a permutation of `0..total_requests`; every record keeps the status-0 convention; successes plus failures, and the histogram's counts, both equal `total_requests`; the status-0 count equals the failure count |
| `LoadTest.ReportIgnoresOrder` | src/load_test.rs:44-84 | two collection orders of the same records give the same counts, the same histogram and the same sorted latencies, hence the same percentiles |
| `LoadTest.ReportRun` | src/load_test.rs:22-84 | for a run of `total_requests` requests, success plus failure counts equal `total_requests`. The status counts also add up to `total_requests`. The failure count is the status-0 count, or 0 when no request failed. p50 <= p90 <= p99 |

## Left out

- Load driver I/O: the reqwest client and its settings, the tokio runtime, the 100 ms warm-up sleep and the `Instant` timing (`src/load_test.rs:6-20, 28-40`) are not modelled. Each request's outcome and latency are an input (`Attempt`).
- Concurrency: the bound of 2500 requests in flight enforced by `buffer_unordered` is not modelled. Only its result is: every request sent once, results in any order.
- Floating-point figures: the mean latency, the requests per second and the status percentages (`src/load_test.rs:58-60, 74, 93`) are f64 arithmetic for printing. That the percentages sum to 100% is covered only in its integer form, `HistogramSum`.
- The report printing and the histogram's iteration order when printed (`src/load_test.rs:69-79, 86-94`) are formatting only.
- The `i32` counter that `or_insert(0)` infers for the histogram is a natural number here. It cannot overflow with 10,000 requests.
- LoadTest.PercentileIndex: `len as f64 * p` is computed over exact reals. The f64 rounding of the product is not modelled. The saturation of `as usize` at 0 for a negative product is modelled.
- Wagmi.Handle: compares and adds over exact reals. The f64 rounding of `a + b` in the bound check and in `result` is not modelled.
- Server bootstrap: the actix-web server, the `PORT` variable, the workers and the connection limit (`src/main.rs:56-67`) are not modelled. Neither is the 404 for other paths.
- Serde: parsing and serializing JSON is not modelled. The handler receives the parsed body, where absent and `null` fields are both `None`. A body that fails to parse is rejected by the framework before the handler runs, and that is not modelled either. Responses are datatypes, not JSON text.
- The clock read `Utc::now().to_rfc3339()` (`src/main.rs:31`) becomes the parameter `now`.
- The constant `PING_BASE` (`src/main.rs:6`) is never used.
