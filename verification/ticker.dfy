/** The quote fetcher of `http/ticker.go`: `Tick` builds a GET request,
    sends it, checks the status, reads and decodes the body and maps the
    decoded quotes to a `Series` stamped with one clock reading. Each stage
    short-circuits on failure.

    The environment, the HTTP client, the JSON decoder and the clock are
    given as an `Exchange` of outcomes; a `Tick` returns its result together
    with the steps it took, so that what did not run can be stated. */
module Ticker {
  import opened Wrappers
  import opened Asset
  import Decimal

  type Byte = bv8

  /** `url.Values`: each query key with its values in the order they were added. */
  type Values = map<string, seq<string>>

  const ApiKeyHeader := "X-CMC_PRO_API_KEY"

  datatype Request = Request(verb: string, url: string, query: Values, header: map<string, seq<string>>)

  /** What `client.Do` hands back: status code, status text and the outcome
      of reading the whole body. */
  datatype Response = Response(statusCode: int, status: string, body: Result<seq<Byte>, string>)

  /** Everything a `Tick` depends on besides its own logic.
      `newRequest` is the outcome of `http.NewRequest` on the configured
      endpoint: the query already present in its URL, or why no request could
      be built. `decode` stands for `json.Unmarshal`; `now` is the value the
      clock returns when read. */
  datatype Exchange<P> = Exchange(
    endpoint: string,
    newRequest: Result<Values, string>,
    apiKey: string,
    reply: Result<Response, string>,
    decode: seq<Byte> -> Result<ResponseObject<P>, string>,
    now: Timestamp)

  /** The observable steps of a `Tick`, in the order they happen. */
  datatype Step = Send(request: Request) | ReadBody | Decode | ReadClock

  datatype TickError =
    | RequestError(cause: string)
    | TransportError(cause: string)
    | UnsuccessfulResponse(statusCode: int, status: string)
    | ReadError(cause: string)
    | DecodeError(cause: string)
  {
    /** The text of the returned Go error. */
    function Message(): string
    {
      match this
      case RequestError(c) => Wrap("failed to crate response", c)
      case TransportError(c) => Wrap("failed to retrieve response from ticker", c)
      case UnsuccessfulResponse(code, status) =>
        UnsuccessfulHead + Decimal.IntToString(code) + ", " + status + "]"
      case ReadError(c) => Wrap("failed to read response from ticker", c)
      case DecodeError(c) => Wrap("failed to marshal response to quote", c)
    }
  }

  const UnsuccessfulPrefix := "failed to retrieve successful response"
  const UnsuccessfulHead := UnsuccessfulPrefix + ", got status ["

  datatype Retrieved = Retrieved(result: Result<Response, TickError>, steps: seq<Step>)

  datatype TickOutcome<P> = TickOutcome(result: Result<Series<P>, TickError>, steps: seq<Step>)

  // ---- request construction ----

  function Lookup(q: Values, key: string): seq<string>
  {
    if key in q then q[key] else []
  }

  /** `Values.Add`: append one value to a key. */
  function AddValue(q: Values, key: string, value: string): Values
  {
    q[key := Lookup(q, key) + [value]]
  }

  function AddQueryParams(q: Values): (r: Values)
    ensures r.Keys == q.Keys + {"start", "limit", "convert"}
    ensures r["start"] == Lookup(q, "start") + ["1"]
    ensures r["limit"] == Lookup(q, "limit") + ["500"]
    ensures r["convert"] == Lookup(q, "convert") + ["USD"]
    ensures forall k :: k in q && k != "start" && k != "limit" && k != "convert" ==> r[k] == q[k]
  {
    AddValue(AddValue(AddValue(q, "start", "1"), "limit", "500"), "convert", "USD")
  }

  /** The GET request `retrieve` sends: the endpoint's query plus the fixed
      parameters, and the API key header. */
  function BuildRequest(endpoint: string, query: Values, apiKey: string): (req: Request)
    ensures CarriesFixedParams(req, apiKey)
    ensures req.url == endpoint
    ensures req.header.Keys == {ApiKeyHeader}
    ensures forall k :: k in query && k != "start" && k != "limit" && k != "convert" ==> k in req.query && req.query[k] == query[k]
  {
    Request("GET", endpoint, AddQueryParams(query), map[ApiKeyHeader := [apiKey]])
  }

  /** The value most recently added under `key` is `value`. */
  ghost predicate LastValueIs(q: Values, key: string, value: string)
  {
    key in q && |q[key]| > 0 && q[key][|q[key]| - 1] == value
  }

  /** The request asks for the first 500 listings converted to USD, with the key. */
  ghost predicate CarriesFixedParams(req: Request, apiKey: string)
  {
    && req.verb == "GET"
    && LastValueIs(req.query, "start", "1")
    && LastValueIs(req.query, "limit", "500")
    && LastValueIs(req.query, "convert", "USD")
    && ApiKeyHeader in req.header && req.header[ApiKeyHeader] == [apiKey]
  }

  // ---- the pipeline ----

  /** `isSuccessful`: the status lies in the 2xx class. */
  predicate IsSuccessful(statusCode: int)
  {
    statusCode >= 200 && statusCode <= 299
  }

  lemma IsSuccessfulIs2xx(statusCode: int)
    ensures IsSuccessful(statusCode) <==> statusCode / 100 == 2
    ensures !IsSuccessful(199) && IsSuccessful(200) && IsSuccessful(299) && !IsSuccessful(300)
  {
  }

  /** `retrieve`: build, send, check the status. */
  function Retrieve<P>(x: Exchange<P>): (r: Retrieved)
    ensures r.result.Success? <==>
      x.newRequest.Success? && x.reply.Success? && IsSuccessful(x.reply.value.statusCode)
    ensures r.result.Success? ==> r.result.value == x.reply.value
    ensures x.newRequest.Failure? ==> r.steps == []
    ensures x.newRequest.Success? ==> r.steps == [Send(BuildRequest(x.endpoint, x.newRequest.value, x.apiKey))]
    // each failing stage returns its own error
    ensures x.newRequest.Failure? ==> r.result == Failure(RequestError(x.newRequest.error))
    ensures x.newRequest.Success? && x.reply.Failure? ==> r.result == Failure(TransportError(x.reply.error))
    ensures x.newRequest.Success? && x.reply.Success? && !IsSuccessful(x.reply.value.statusCode) ==>
      r.result == Failure(UnsuccessfulResponse(x.reply.value.statusCode, x.reply.value.status))
  {
    match x.newRequest
    case Failure(e) => Retrieved(Failure(RequestError(e)), [])
    case Success(query) =>
      var sent := [Send(BuildRequest(x.endpoint, query, x.apiKey))];
      match x.reply
      case Failure(e) => Retrieved(Failure(TransportError(e)), sent)
      case Success(response) =>
        if !IsSuccessful(response.statusCode) then
          Retrieved(Failure(UnsuccessfulResponse(response.statusCode, response.status)), sent)
        else
          Retrieved(Success(response), sent)
  }

  datatype Extracted<P> = Extracted(result: Result<ResponseObject<P>, TickError>, steps: seq<Step>)

  /** `extractResponseObject`: read the whole body, then decode it; a
      failed read is never followed by decoding. */
  function ExtractResponseObject<P>(body: Result<seq<Byte>, string>, decode: seq<Byte> -> Result<ResponseObject<P>, string>)
    : (r: Extracted<P>)
    ensures r.result.Success? <==> body.Success? && decode(body.value).Success?
    ensures r.result.Success? ==> r.result.value == decode(body.value).value
    ensures body.Failure? ==> r.result == Failure(ReadError(body.error)) && r.steps == [ReadBody]
    ensures body.Success? ==> r.steps == [ReadBody, Decode]
    ensures body.Success? && decode(body.value).Failure? ==> r.result == Failure(DecodeError(decode(body.value).error))
  {
    match body
    case Failure(e) => Extracted(Failure(ReadError(e)), [ReadBody])
    case Success(bytes) =>
      match decode(bytes)
      case Failure(e) => Extracted(Failure(DecodeError(e)), [ReadBody, Decode])
      case Success(obj) => Extracted(Success(obj), [ReadBody, Decode])
  }

  function ToCoin<P>(q: CmcQuote<P>, timestamp: Timestamp): Coin<P>
  {
    Coin(q.name, q.symbol, timestamp, q.quote.usd.price)
  }

  /** `mapToSeries`: one coin per decoded quote, in order, all stamped with
      the one timestamp given. The source's error result is always nil. */
  function MapToSeries<P>(r: ResponseObject<P>, timestamp: Timestamp): (s: Series<P>)
    ensures |s| == |r.data|
    ensures forall i :: 0 <= i < |r.data| ==>
      && s[i].symbol == r.data[i].symbol
      && s[i].name == r.data[i].name
      && s[i].priceInDollar == r.data[i].quote.usd.price
      && s[i].timestamp == timestamp
    decreases |r.data|
  {
    if |r.data| == 0 then []
    else [ToCoin(r.data[0], timestamp)] + MapToSeries(ResponseObject(r.data[1..]), timestamp)
  }

  /** Every step of a `Tick` in order: send the request, read the body,
      decode it, read the clock. */
  function Pipeline<P>(x: Exchange<P>): (steps: seq<Step>)
    requires x.newRequest.Success?
    ensures |steps| == 4 && steps[0].Send? && CarriesFixedParams(steps[0].request, x.apiKey)
  {
    [Send(BuildRequest(x.endpoint, x.newRequest.value, x.apiKey)), ReadBody, Decode, ReadClock]
  }

  /** `Tick`. */
  function Tick<P>(x: Exchange<P>): (o: TickOutcome<P>)
    ensures o.result.Success? <==>
      && x.newRequest.Success? && x.reply.Success? && IsSuccessful(x.reply.value.statusCode)
      && x.reply.value.body.Success? && x.decode(x.reply.value.body.value).Success?
    ensures o.result.Success? ==>
      o.result.value == MapToSeries(x.decode(x.reply.value.body.value).value, x.now)
    // nothing happens when no request can be built; otherwise the steps
    // taken are always the start of the full pipeline, and all of it on success
    ensures o.steps == [] <==> x.newRequest.Failure?
    ensures x.newRequest.Success? ==> o.steps <= Pipeline(x)
    ensures o.result.Success? ==> o.steps == Pipeline(x)
    // the clock is read exactly when everything before it succeeded
    ensures ReadClock in o.steps <==> o.result.Success?
  {
    var retrieved := Retrieve(x);
    match retrieved.result
    case Failure(e) => TickOutcome(Failure(e), retrieved.steps)
    case Success(response) =>
      var req := BuildRequest(x.endpoint, x.newRequest.value, x.apiKey);
      var extracted := ExtractResponseObject(response.body, x.decode);
      assert retrieved.steps == [Send(req)];
      match extracted.result
      case Failure(e) =>
        assert extracted.steps == [ReadBody] || extracted.steps == [ReadBody, Decode];
        TickOutcome(Failure(e), retrieved.steps + extracted.steps)
      case Success(obj) =>
        assert retrieved.steps + extracted.steps + [ReadClock] == [Send(req), ReadBody, Decode, ReadClock];
        TickOutcome(Success(MapToSeries(obj, x.now)), retrieved.steps + extracted.steps + [ReadClock])
  }

  // ---- properties ----

  /** The request is sent first, once, with the fixed parameters; the clock
      is read at most once, as the last step, and only on success. */
  lemma TickStepsInOrder<P>(x: Exchange<P>)
    ensures Tick(x).steps != [] ==>
      Tick(x).steps[0].Send? && CarriesFixedParams(Tick(x).steps[0].request, x.apiKey)
    ensures forall k :: 0 < k < |Tick(x).steps| ==> !Tick(x).steps[k].Send?
    ensures forall k :: 0 <= k < |Tick(x).steps| && Tick(x).steps[k] == ReadClock ==>
      k == |Tick(x).steps| - 1 && Tick(x).result.Success?
  {
    var o := Tick(x);
    if o.steps != [] {
      var full := Pipeline(x);
      assert forall k :: 0 <= k < |o.steps| ==> o.steps[k] == full[k];
      assert ReadClock !in full[..3];
    }
  }

  /** A failure at one stage ends the `Tick`: the error names that stage and
      no later step is taken. */
  lemma TickStopsAtFirstFailure<P>(x: Exchange<P>)
    ensures x.newRequest.Failure? ==>
      Tick(x) == TickOutcome(Failure(RequestError(x.newRequest.error)), [])
    ensures x.newRequest.Success? && x.reply.Failure? ==>
      Tick(x).result == Failure(TransportError(x.reply.error)) && |Tick(x).steps| == 1
    ensures x.newRequest.Success? && x.reply.Success? && !IsSuccessful(x.reply.value.statusCode) ==>
      Tick(x).result == Failure(UnsuccessfulResponse(x.reply.value.statusCode, x.reply.value.status))
      && |Tick(x).steps| == 1
    ensures x.newRequest.Success? && x.reply.Success? && IsSuccessful(x.reply.value.statusCode)
            && x.reply.value.body.Failure? ==>
      Tick(x).result == Failure(ReadError(x.reply.value.body.error)) && Tick(x).steps[1..] == [ReadBody]
    ensures x.newRequest.Success? && x.reply.Success? && IsSuccessful(x.reply.value.statusCode)
            && x.reply.value.body.Success? && x.decode(x.reply.value.body.value).Failure? ==>
      Tick(x).result == Failure(DecodeError(x.decode(x.reply.value.body.value).error))
      && Tick(x).steps[1..] == [ReadBody, Decode]
  {
  }

  /** The characters of `s` before the first `stop`. */
  function TakeUntil(s: string, stop: char): (r: string)
    ensures r <= s && stop !in r
  {
    if |s| == 0 || s[0] == stop then [] else [s[0]] + TakeUntil(s[1..], stop)
  }

  lemma {:induction false} TakeUntilStops(a: string, stop: char, b: string)
    requires stop !in a
    ensures TakeUntil(a + [stop] + b, stop) == a
  {
    if |a| > 0 {
      assert (a + [stop] + b)[1..] == a[1..] + [stop] + b;
      TakeUntilStops(a[1..], stop, b);
    }
  }

  /** The status code read back from an unsuccessful-response message. */
  function ReportedStatus(message: string): Option<int>
  {
    if UnsuccessfulHead <= message then
      Decimal.ParseInt(TakeUntil(message[|UnsuccessfulHead|..], ','))
    else None
  }

  lemma UnsuccessfulMessageCarriesStatus(statusCode: int, status: string)
    ensures UnsuccessfulPrefix <= UnsuccessfulResponse(statusCode, status).Message()
    ensures ReportedStatus(UnsuccessfulResponse(statusCode, status).Message()) == Some(statusCode)
  {
    var digits := Decimal.IntToString(statusCode);
    var message := UnsuccessfulResponse(statusCode, status).Message();
    assert message == UnsuccessfulHead + (digits + [','] + (" " + status + "]"));
    assert message[|UnsuccessfulHead|..] == digits + [','] + (" " + status + "]");
    TakeUntilStops(digits, ',', " " + status + "]");
    Decimal.IntToStringRoundTrip(statusCode);
  }

  /** The cause of a wrapped error survives at the end of its message,
      after the stage's own context. */
  lemma WrappedMessageKeepsCause(e: TickError)
    requires !e.UnsuccessfulResponse?
    ensures |e.Message()| >= |e.cause| + 2
    ensures e.Message()[|e.Message()| - |e.cause|..] == e.cause
    ensures e.Message()[|e.Message()| - |e.cause| - 2..|e.Message()| - |e.cause|] == ": "
  {
  }

  /** A status outside 200..299 gives no series and an error whose message
      starts with the fixed prefix and carries the status code; the body is
      never read and the clock never consulted. */
  lemma TickRejectsUnsuccessfulStatus<P>(x: Exchange<P>)
    requires x.newRequest.Success? && x.reply.Success?
    requires !IsSuccessful(x.reply.value.statusCode)
    ensures Tick(x).result.Failure?
    ensures UnsuccessfulPrefix <= Tick(x).result.error.Message()
    ensures ReportedStatus(Tick(x).result.error.Message()) == Some(x.reply.value.statusCode)
    ensures ReadBody !in Tick(x).steps && ReadClock !in Tick(x).steps
  {
    UnsuccessfulMessageCarriesStatus(x.reply.value.statusCode, x.reply.value.status);
  }

  /** Every coin of a fetched series carries the clock reading, so the series
      is sorted and stays sorted under `Swap`; an empty `data` gives an empty
      series, not an error. */
  lemma TickSeriesIsUniform<P>(x: Exchange<P>)
    requires Tick(x).result.Success?
    ensures forall k :: 0 <= k < |Tick(x).result.value| ==> Tick(x).result.value[k].timestamp == x.now
    ensures Sorted(Tick(x).result.value)
    ensures x.decode(x.reply.value.body.value).value.data == [] ==> Tick(x).result.value == []
  {
    UniformSeriesIsSorted(Tick(x).result.value, x.now);
  }

  // ---- the fixture of the ticker test: Bitcoin, XRP, Ethereum ----

  function FixtureResponse(): ResponseObject<real>
  {
    ResponseObject([
      CmcQuote(1, "Bitcoin", "BTC", Quote(Price(3835.36079075))),
      CmcQuote(52, "XRP", "XRP", Quote(Price(0.32529476168))),
      CmcQuote(1027, "Ethereum", "ETH", Quote(Price(122.042554949)))])
  }

  lemma TickMapsFixture(x: Exchange<real>)
    requires x.newRequest.Success? && x.reply.Success? && x.reply.value.statusCode == 200
    requires x.reply.value.body.Success? && x.decode(x.reply.value.body.value) == Success(FixtureResponse())
    ensures Tick(x).result.Success? && |Tick(x).result.value| == 3
    ensures Tick(x).result.value[0] == Coin("Bitcoin", "BTC", x.now, 3835.36079075)
    ensures Tick(x).result.value[1] == Coin("XRP", "XRP", x.now, 0.32529476168)
    ensures Tick(x).result.value[2] == Coin("Ethereum", "ETH", x.now, 122.042554949)
  {
  }
}
