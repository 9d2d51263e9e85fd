# cryptoflux core, modelled in Dafny

cryptoflux polls a cryptocurrency quote API, maps the response to a price
series and writes the series to InfluxDB. This project models the three
pure, sequential pieces of it and proves their properties:

- **Series model** (`asset.dfy`, module `Asset`): the `Coin` record, the
  `Series` sort interface (`Len`, `Swap`, `Less` by timestamp) and the
  decoded response shape (`ResponseObject`, `CmcQuote`, `Quote`, `Price`;
  only the `USD` quote is kept).
- **Quote fetcher** (`ticker.dfy`, module `Ticker`): `Tick` as a
  short-circuiting pipeline. It builds the GET request with the fixed query
  parameters and the API-key header, sends it, checks the status, reads and
  decodes the body, reads the clock once and maps the quotes to coins. The
  environment, HTTP client, JSON decoder and clock are an `Exchange` of
  given outcomes. A `Tick` returns its result with the list of steps it
  took (`Send`, `ReadBody`, `Decode`, `ReadClock`).
- **Series store** (`coinbase.dfy`, module `CoinBase`): `Store` against an
  abstract InfluxDB client. The `Backend` record holds the outcome of batch
  creation, a rejection function standing for `client.NewPoint`, and the
  `Write` and `Close` results. A `Store` returns its error together with
  the calls it made (`NewBatch`, `NewPoint`, `Write`, `Close`).
- `decimal.dfy` (module `Decimal`) renders an `int` the way Go's `%d` does
  and parses it back. `wrappers.dfy` holds `Option`, `Result` and the shared `Wrap` used by both error types.

Prices are a type parameter `P` that is only copied, never inspected.
Timestamps are integers (nanoseconds), so `time.Time.Before` is `<`.

## Model

| member | source | states |
|---|---|---|
| `Asset.Len` | coin.go:23-25 | the length is the number of coins in the series, counting repeated coins |
| `Asset.Swap` | coin.go:27-29 | the old element j ends up at i and the old element i at j; every other position, the length and the multiset of coins are unchanged |
| `Asset.SwapSwap` | coin.go:27-29 | swapping twice restores the series, the swap is symmetric in i and j, and `Swap(i, i)` changes nothing |
| `Asset.LessIsStrictOrder` | coin.go:31-33 | `Asset.Less` (timestamp `Before`, as `<` on nanoseconds) is irreflexive, asymmetric and transitive over the positions of any series |
| `Asset.LessReadsOnlyTimestamps` | coin.go:31-33 | two series whose coins at i and j have the same timestamps give the same `Less(i, j)`, whatever their names, symbols and prices |
| `Asset.EqualTimestampsAreUnordered` | coin.go:31-33 | coins with equal timestamps are not `Less` in either direction |
| `Asset.LessAfterSwap` | coin.go:27-33 | after `Swap(i, j)`, `Less(i, j)` answers what `Less(j, i)` answered before |
| `Asset.UniformSeriesIsSorted` | coin.go:31-33 | a series whose coins share one timestamp (the empty series included) is sorted |
| `Asset.UniformSeriesStaysSortedUnderSwap` | coin.go:27-33 | swapping two coins of such a series keeps every timestamp, so it stays sorted |
| `Decimal.IntToString` | http/ticker.go:75 | `%d` output is non-empty, starts with a minus sign exactly when the number is negative, continues with at least one digit and no leading zero, and holds no comma |
| `Decimal.ParseNatToString` | http/ticker.go:75 | reading back the decimal digits of a natural number gives that number |
| `Decimal.IntToStringRoundTrip` | http/ticker.go:75 | reading back the `%d` text of any integer gives that integer |
| `Ticker.AddQueryParams` | http/ticker.go:80-86 | `start=1`, `limit=500` and `convert=USD` are appended after any values the endpoint URL already had for those keys; all other keys are unchanged |
| `Ticker.BuildRequest` | http/ticker.go:62-67 | every request built is a GET to the endpoint; query keys other than the three fixed ones keep the endpoint's values; the last value of `start`, `limit` and `convert` is `1`, `500` and `USD`; `X-CMC_PRO_API_KEY` is the only header and holds exactly the API key |
| `Ticker.IsSuccessfulIs2xx` | http/ticker.go:88-90 | `Ticker.IsSuccessful` holds exactly when it is in the 2xx class; 199 and 300 are rejected, 200 and 299 accepted |
| `Ticker.Retrieve` | http/ticker.go:61-78 | a response comes back exactly when the request was built, the transport succeeded and the status is 2xx; the request is sent once, and only when it could be built; otherwise the failing stage's error is returned (request, transport, or the status code and text) |
| `Ticker.ExtractResponseObject` | http/ticker.go:92-104 | decoding succeeds exactly when the body was read and it decodes, and then it yields the decoded object; a failed read returns the read error and is not followed by decoding |
| `Ticker.MapToSeries` | http/ticker.go:106-117 | one coin per quote (`Ticker.ToCoin`) in input order: same length, symbol, name and USD price copied from `data[i]`, and every coin stamped with the one timestamp given |
| `Ticker.Tick` | http/ticker.go:43-59 | success exactly when every stage succeeds, and then the series maps the decoded quotes; no step is taken when no request can be built; otherwise the steps are always the start of `Ticker.Pipeline` (send, read body, decode, read clock) and, on success, all of it, so the body is read and decoded before the clock; the clock is read exactly when everything before it succeeded |
| `Ticker.TickStepsInOrder` | http/ticker.go:43-59 | the request is sent first, once, with the fixed parameters; the clock is read at most once, as the last step, and only on success |
| `Ticker.TickStopsAtFirstFailure` | http/ticker.go:43-104 | a failure in request construction, transport, status, body read or decode gives no series, returns that stage's error, and takes no later step |
| `Ticker.WrappedMessageKeepsCause` | http/ticker.go:64-101 | every fetcher error except the status error is wrapped: its `TickError.Message` ends with a colon, a space and the underlying cause |
| `Ticker.UnsuccessfulMessageCarriesStatus` | http/ticker.go:74-75 | the unsuccessful-response message starts with "failed to retrieve successful response", and the status code can be read back from it |
| `Ticker.TickRejectsUnsuccessfulStatus` | http/ticker_test.go:50-69 | a non-2xx status gives no series and an error with that prefix carrying the status code; the body is never read and the clock is never read |
| `Ticker.TickSeriesIsUniform` | http/ticker.go:54-58 | every coin of a fetched series carries the clock reading, so the series is sorted; empty `data` gives an empty series, not an error |
| `Ticker.TickMapsFixture` | http/ticker_test.go:14-48 | the three-asset fixture maps to Bitcoin, XRP and Ethereum in that order, with their symbols and prices and the clock's time |
| `CoinBase.ToPoint` | influxdb/coinbase.go:56-67 | a point has empty tags and exactly the fields `name` and `priceInDollar` |
| `CoinBase.PointRoundTrip` | influxdb/coinbase.go:56-67 | reading a point back gives the coin: measurement = symbol, field `name` = name, field `priceInDollar` = price, time = timestamp |
| `CoinBase.CreatePoint` | influxdb/coinbase.go:56-72 | the point is returned exactly when the client accepts it; it is then exactly `ToPoint` of the coin (empty tags, two fields; `PointRoundTrip` reads it back as the coin); otherwise the client's error is returned together with the coin |
| `CoinBase.FirstRejected` | influxdb/coinbase.go:35-41 | the loop stops at the first coin whose point is rejected; every coin before it was accepted |
| `CoinBase.Store` | influxdb/coinbase.go:25-53 | the batch is created first, for the configured database with precision "ns"; `Close` is called exactly once, as the last call; `Write` is called at most once, exactly when the batch and every point were built; it then receives exactly `ToPoint` of each coin in series order, after one `NewPoint` call per coin in that order; success exactly when that write is accepted; a batch failure or a write failure is returned as that error |
| `CoinBase.StoreStopsAtRejectedPoint` | influxdb/coinbase.go:35-39 | when coin n is the first one rejected, the error names coin n, exactly the points of coins 0..n were built, and `Write` is never called |
| `CoinBase.StoreErrorMessageKeepsCause` | influxdb/coinbase.go:33-69 | `StoreError.Message` wraps each store error: the batch, point or write context (the point one naming the coin in brackets), a colon and the client's cause |
| `CoinBase.StoreWrapsWriteError` | influxdb/coinbase.go:42-44 | a rejected write is returned wrapped: the message starts with "failed to store batch for series: " and ends with the client's cause |
| `CoinBase.StoreIgnoresCloseError` | influxdb/coinbase.go:26-30 | the error of `Close` changes neither the result nor the calls made |
| `CoinBase.StoreEmptySeries` | influxdb/coinbase.go:35-45 | an empty series still writes a zero-point batch and closes; it succeeds exactly when the write succeeds |
| `CoinBase.StoreSingleCoin` | influxdb/coinbase_integration_test.go:44-64 | storing one Bitcoin coin writes exactly one point, measurement "BTC", with its name, price and time |

## Notes

- Names and symbols are never checked for being non-empty.
- An empty series is still written, as a zero-point batch.
- The request-construction error keeps the source's own wording, "failed to crate response".

## Left out

- Asset.Swap: Go swaps the two elements in place; the model returns the swapped series as a new value.
- Asset.Swap and Asset.Less: Go panics on an index out of range; their `requires` rule such indexes out, so the panic is not modelled.
- Real HTTP, JSON decoding and the InfluxDB client: they are outcomes given to the model. These are the request outcome, the `client.Do` reply, the body read, a decoder function, batch creation, point rejection, and the `Write` and `Close` results.
- Environment-variable lookups (`TICKER_ENDPOINT`, `TICKER_API_KEY`, `INFLUX_DB_NAME`): they are parameters.
- The clock: its reading is a parameter. The `ReadClock` step records when it is consulted.
- Encoding the query into `RawQuery` (`url.Values.Encode`, which sorts keys and percent-escapes) is not modelled; the query stays a map of values.
- Header-name canonicalisation (`net/http` rewrites `X-CMC_PRO_API_KEY` into its canonical MIME form) is not modelled; the header is kept under the name the source writes.
- The HTTP response body is never closed by the source, so the model has no body-close step.
- `mapToSeries` has an error result, but it is always nil. The model returns the series alone, so `Tick`'s check after it has no counterpart.
- The `%v` text of a coin in a point-construction error needs Go's float and time formatting. It is a parameter of `StoreError.Message`.
- Logging (of the `Close` error and elsewhere) is dropped.
- cmd/cryptoflux/main.go is not part of this model. It holds the timer, signal handling, client construction and the poll loop.
- The Docker and live-database parts of influxdb/coinbase_integration_test.go are not modelled. Only its expected point shape appears, in `CoinBase.StoreSingleCoin`.
- Float prices are opaque, so the test's epsilon comparison has no counterpart: prices are copied exactly.
