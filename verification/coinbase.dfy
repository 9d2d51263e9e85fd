/** The series store of `influxdb/coinbase.go`: `Store` builds a batch
    (precision "ns", the configured database), turns every coin into a
    point, gives up at the first point that cannot be built, writes the
    batch once and closes the client on every way out.

    The InfluxDB client is given as a `Backend` of outcomes: whether the
    batch can be created, which candidate points `client.NewPoint` rejects,
    and what `Write` and `Close` return. A `Store` returns its error (None
    for nil) together with the calls it made. */
module CoinBase {
  import opened Wrappers
  import opened Asset

  const Precision := "ns"

  datatype BatchConfig = BatchConfig(database: string, precision: string)

  /** A field value: the coin's name or its price. */
  datatype Field<P> = Text(text: string) | Number(number: P)

  datatype Point<P> = Point(measurement: string, tags: map<string, string>, fields: map<string, Field<P>>, time: Timestamp)

  datatype BatchPoints<P> = BatchPoints(config: BatchConfig, points: seq<Point<P>>)

  /** What `Store` asks of the client library, in order. */
  datatype Call<P> = NewBatch(config: BatchConfig) | NewPoint(candidate: Point<P>) | Write(batch: BatchPoints<P>) | Close

  datatype StoreError<P> =
    | BatchError(cause: string)
    | PointError(coin: Coin<P>, cause: string)
    | WriteError(cause: string)
  {
    /** The text of the returned Go error. `showCoin` is the `%v` rendering
        of a coin, which belongs to Go's formatting. */
    function Message(showCoin: Coin<P> -> string): string
    {
      match this
      case BatchError(c) => Wrap("failed to create batch points for series", c)
      case PointError(coin, c) => Wrap("failed to create point for coin [" + showCoin(coin) + "]", c)
      case WriteError(c) => Wrap("failed to store batch for series", c)
    }
  }


  /** The client's answers: the error of `NewBatchPoints`, the error
      `NewPoint` gives for a candidate point (None when it accepts it), and
      the errors of `Write` and `Close`. */
  datatype Backend<!P> = Backend(
    batchError: Option<string>,
    rejectPoint: Point<P> -> Option<string>,
    writeError: Option<string>,
    closeError: Option<string>)

  datatype StoreOutcome<P> = StoreOutcome(error: Option<StoreError<P>>, calls: seq<Call<P>>)

  // ---- points ----

  /** The point `createPoint` asks for: measurement = symbol, no tags, the
      fields `name` and `priceInDollar`, time = timestamp. */
  function ToPoint<P>(c: Coin<P>): (p: Point<P>)
    ensures p.tags == map[] && p.fields.Keys == {"name", "priceInDollar"}
  {
    Point(c.symbol, map[], map["name" := Text(c.name), "priceInDollar" := Number(c.priceInDollar)], c.timestamp)
  }

  /** A stored point read back as a coin, the way a query on the
      measurement sees it. */
  function ReadBack<P>(p: Point<P>): Option<Coin<P>>
  {
    if "name" in p.fields && p.fields["name"].Text? && "priceInDollar" in p.fields && p.fields["priceInDollar"].Number?
    then Some(Coin(p.fields["name"].text, p.measurement, p.time, p.fields["priceInDollar"].number))
    else None
  }

  /** Nothing of a coin is lost in its point. */
  lemma PointRoundTrip<P>(c: Coin<P>)
    ensures ReadBack(ToPoint(c)) == Some(c)
    ensures ToPoint(c).measurement == c.symbol && ToPoint(c).time == c.timestamp
  {
  }

  /** `createPoint`: the point for the coin, or the client's error wrapped
      with the coin. */
  function CreatePoint<P>(c: Coin<P>, reject: Point<P> -> Option<string>): (r: Result<Point<P>, StoreError<P>>)
    ensures r.Success? <==> Accepted(c, reject)
    ensures r.Success? ==> r.value == ToPoint(c)
    ensures r.Failure? ==> r.error == PointError(c, reject(ToPoint(c)).value)
  {
    match reject(ToPoint(c))
    case Some(e) => Failure(PointError(c, e))
    case None => Success(ToPoint(c))
  }

  /** Whether `client.NewPoint` accepts the point of coin `c`. */
  predicate Accepted<P>(c: Coin<P>, reject: Point<P> -> Option<string>)
  {
    reject(ToPoint(c)).None?
  }

  /** The loop of `Store` over the series, as far as it gets: the index of
      the first coin whose point is rejected, or `|s|` when none is. */
  function FirstRejected<P>(s: Series<P>, reject: Point<P> -> Option<string>): (n: nat)
    ensures n <= |s|
    ensures forall k :: 0 <= k < n ==> Accepted(s[k], reject)
    ensures n < |s| ==> !Accepted(s[n], reject)
    decreases |s|
  {
    if |s| == 0 || !Accepted(s[0], reject) then 0 else 1 + FirstRejected(s[1..], reject)
  }

  /** The points of the coins, in order. */
  function Points<P>(s: Series<P>): (points: seq<Point<P>>)
    ensures |points| == |s|
    ensures forall k :: 0 <= k < |s| ==> points[k] == ToPoint(s[k])
  {
    seq(|s|, k requires 0 <= k < |s| => ToPoint(s[k]))
  }

  // ---- the store ----

  function Attempts<P>(points: seq<Point<P>>): (calls: seq<Call<P>>)
    ensures |calls| == |points|
    ensures forall k :: 0 <= k < |points| ==> calls[k] == NewPoint(points[k])
  {
    seq(|points|, k requires 0 <= k < |points| => NewPoint(points[k]))
  }

  /** The batch handed to `Write`, if any was: it can only be the call just
      before the final `Close`. */
  function Written<P>(calls: seq<Call<P>>): Option<BatchPoints<P>>
  {
    if |calls| >= 2 && calls[|calls| - 2].Write? then Some(calls[|calls| - 2].batch) else None
  }

  /** How `Store` ends when the point of coin `n` is the first one rejected:
      the batch, the points of coins `0..n`, then `Close`, and the error of
      `createPoint` for coin `n`. */
  function StopAtRejected<P>(series: Series<P>, config: BatchConfig, reject: Point<P> -> Option<string>, n: nat)
    : (o: StoreOutcome<P>)
    requires n < |series| && !Accepted(series[n], reject)
    ensures o.error == Some(PointError(series[n], reject(ToPoint(series[n])).value))
    ensures |o.calls| == n + 3 && o.calls[0] == NewBatch(config) && o.calls[n + 2] == Close
    ensures forall k :: 0 <= k <= n ==> o.calls[k + 1] == NewPoint(ToPoint(series[k]))
    ensures forall k :: 0 <= k < |o.calls| - 1 ==> !o.calls[k].Close? && !o.calls[k].Write?
    ensures Written(o.calls).None?
  {
    var failed := CreatePoint(series[n], reject);
    StoreOutcome(Some(failed.error), [NewBatch(config)] + Attempts(Points(series[..n + 1])) + [Close])
  }

  /** How `Store` ends when every point was built: the batch, one point per
      coin, the single `Write` of all of them, then `Close`. */
  function WriteAll<P>(series: Series<P>, config: BatchConfig, writeError: Option<string>): (o: StoreOutcome<P>)
    ensures |o.calls| == |series| + 3 && o.calls[0] == NewBatch(config)
    ensures forall k :: 0 <= k < |series| ==> o.calls[k + 1] == NewPoint(ToPoint(series[k]))
    ensures o.calls[|series| + 1] == Write(BatchPoints(config, Points(series)))
    ensures o.calls[|series| + 2] == Close
    ensures o.error == if writeError.Some? then Some(WriteError(writeError.value)) else None
    ensures forall k :: 0 <= k < |o.calls| - 1 ==> !o.calls[k].Close?
    ensures forall k :: 0 <= k < |o.calls| && o.calls[k].Write? ==> k == |o.calls| - 2
    ensures Written(o.calls) == Some(BatchPoints(config, Points(series)))
  {
    var written := [NewBatch(config)] + Attempts(Points(series)) + [Write(BatchPoints(config, Points(series))), Close];
    match writeError
    case Some(e) => StoreOutcome(Some(WriteError(e)), written)
    case None => StoreOutcome(None, written)
  }

  /** `Store`. The error of `Close` is only logged by the source, so it never
      reaches the result. */
  function Store<P>(series: Series<P>, database: string, backend: Backend<P>): (o: StoreOutcome<P>)
    // the batch is configured first, with the database and nanosecond precision
    ensures |o.calls| >= 2 && o.calls[0] == NewBatch(BatchConfig(database, Precision))
    // Close is called exactly once, as the last call
    ensures o.calls[|o.calls| - 1] == Close
    ensures forall k :: 0 <= k < |o.calls| - 1 ==> !o.calls[k].Close?
    // Write is called at most once, just before Close
    ensures forall k :: 0 <= k < |o.calls| && o.calls[k].Write? ==> k == |o.calls| - 2
    // Write is reached exactly when the batch and every point could be built,
    // and then it receives one point per coin, in series order
    ensures Written(o.calls).Some? <==>
      backend.batchError.None? && forall i :: 0 <= i < |series| ==> Accepted(series[i], backend.rejectPoint)
    ensures Written(o.calls).Some? ==>
      && Written(o.calls).value.config == BatchConfig(database, Precision)
      && |Written(o.calls).value.points| == |series|
      && forall i :: 0 <= i < |series| ==> Written(o.calls).value.points[i] == ToPoint(series[i])
    // on the way to the write, one NewPoint call per coin, in series order
    ensures Written(o.calls).Some? ==>
      && |o.calls| == |series| + 3
      && forall k :: 0 <= k < |series| ==> o.calls[k + 1] == NewPoint(ToPoint(series[k]))
    // success exactly when the write was made and accepted
    ensures o.error.None? <==> Written(o.calls).Some? && backend.writeError.None?
    ensures backend.batchError.Some? ==>
      o.calls == [NewBatch(BatchConfig(database, Precision)), Close]
      && o.error == Some(BatchError(backend.batchError.value))
    ensures Written(o.calls).Some? && backend.writeError.Some? ==>
      o.error == Some(WriteError(backend.writeError.value))
  {
    var config := BatchConfig(database, Precision);
    match backend.batchError
    case Some(e) => StoreOutcome(Some(BatchError(e)), [NewBatch(config), Close])
    case None =>
      var n := FirstRejected(series, backend.rejectPoint);
      if n < |series| then StopAtRejected(series, config, backend.rejectPoint, n)
      else WriteAll(series, config, backend.writeError)
  }

  // ---- properties ----

  /** When the point of coin `n` is the first one rejected, the error names
      that coin, exactly the points of coins `0..n` were built, and neither
      a later point nor the write is attempted. */
  lemma StoreStopsAtRejectedPoint<P>(series: Series<P>, database: string, backend: Backend<P>, n: nat)
    requires backend.batchError.None?
    requires n < |series|
    requires forall k :: 0 <= k < n ==> Accepted(series[k], backend.rejectPoint)
    requires !Accepted(series[n], backend.rejectPoint)
    ensures Store(series, database, backend).error
            == Some(PointError(series[n], backend.rejectPoint(ToPoint(series[n])).value))
    ensures |Store(series, database, backend).calls| == n + 3
    ensures forall k :: 0 <= k <= n ==> Store(series, database, backend).calls[k + 1] == NewPoint(ToPoint(series[k]))
    ensures Written(Store(series, database, backend).calls).None?
  {
    FirstRejectedAt(series, backend.rejectPoint, n);
    assert Store(series, database, backend) == StopAtRejected(series, BatchConfig(database, Precision), backend.rejectPoint, n);
  }

  /** The loop stops exactly at a rejected coin that follows only accepted ones. */
  lemma FirstRejectedAt<P>(s: Series<P>, reject: Point<P> -> Option<string>, n: nat)
    requires n < |s|
    requires forall k :: 0 <= k < n ==> Accepted(s[k], reject)
    requires !Accepted(s[n], reject)
    ensures FirstRejected(s, reject) == n
  {
  }

  /** Every store error is wrapped: its message is the store's context for
      that failure, a colon and the client's cause; a point error names the
      coin inside brackets. */
  lemma StoreErrorMessageKeepsCause<P>(e: StoreError<P>, showCoin: Coin<P> -> string)
    ensures e.BatchError? ==> e.Message(showCoin) == "failed to create batch points for series: " + e.cause
    ensures e.PointError? ==> e.Message(showCoin) == "failed to create point for coin [" + showCoin(e.coin) + "]: " + e.cause
    ensures e.WriteError? ==> e.Message(showCoin) == "failed to store batch for series: " + e.cause
    ensures e.Message(showCoin)[|e.Message(showCoin)| - |e.cause|..] == e.cause
  {
    match e
    case BatchError(c) =>
      assert e.Message(showCoin) == Wrap("failed to create batch points for series", c);
    case PointError(coin, c) =>
      assert e.Message(showCoin) == Wrap("failed to create point for coin [" + showCoin(coin) + "]", c);
    case WriteError(c) =>
      assert e.Message(showCoin) == Wrap("failed to store batch for series", c);
  }

  /** A failed `Write` is reported wrapped: the message keeps the client's
      cause at its end, after the store's own context. */
  lemma StoreWrapsWriteError<P>(series: Series<P>, database: string, backend: Backend<P>, showCoin: Coin<P> -> string)
    requires Written(Store(series, database, backend).calls).Some? && backend.writeError.Some?
    ensures var message := Store(series, database, backend).error.value.Message(showCoin);
      && "failed to store batch for series: " <= message
      && message[|message| - |backend.writeError.value|..] == backend.writeError.value
  {
    var e := Store(series, database, backend).error.value;
    assert e == WriteError(backend.writeError.value);
    StoreErrorMessageKeepsCause(e, showCoin);
  }

  /** The error returned by `Close` changes neither the result nor the calls. */
  lemma StoreIgnoresCloseError<P>(series: Series<P>, database: string, backend: Backend<P>, closeError: Option<string>)
    ensures Store(series, database, backend) == Store(series, database, backend.(closeError := closeError))
  {
  }

  /** An empty series still writes a batch, with no points, and still closes. */
  lemma StoreEmptySeries<P>(database: string, backend: Backend<P>)
    requires backend.batchError.None?
    ensures Store([], database, backend).calls ==
      [NewBatch(BatchConfig(database, Precision)), Write(BatchPoints(BatchConfig(database, Precision), [])), Close]
    ensures Store([], database, backend).error.None? <==> backend.writeError.None?
  {
  }

  /** The integration scenario: one Bitcoin coin becomes exactly one point
      of measurement "BTC" with its name, price and time. */
  lemma StoreSingleCoin(database: string, backend: Backend<real>, t: Timestamp)
    requires backend.batchError.None? && backend.writeError.None?
    requires forall p :: backend.rejectPoint(p).None?
    ensures var o := Store([Coin("Bitcoin", "BTC", t, 3874.8765)], database, backend);
      && o.error.None?
      && Written(o.calls).Some?
      && Written(o.calls).value.points == [Point("BTC", map[], map["name" := Text("Bitcoin"), "priceInDollar" := Number(3874.8765)], t)]
  {
  }
}
