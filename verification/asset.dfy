/** The series model of package `asset`: the `Coin` record, the `Series`
    sort interface (`Len`, `Swap`, `Less`) and the decoded shape of the quote
    API's response.

    A price is a `float64` in the source that is only ever copied, so it is a
    type parameter `P` here. A `time.Time` is an integer count of nanoseconds,
    so `Before` is `<`. */
module Asset {

  /** An instant, in nanoseconds. */
  type Timestamp = int

  /** One asset's snapshot. */
  datatype Coin<P> = Coin(name: string, symbol: string, timestamp: Timestamp, priceInDollar: P)

  /** An ordered sequence of coins. */
  type Series<P> = seq<Coin<P>>

  /** `Len` of the sort interface: the number of coins, duplicates included. */
  function Len<P>(s: Series<P>): (n: nat)
    ensures n == |multiset(s)|
  {
    |s|
  }

  /** `Swap` of the sort interface. Go swaps in place; here the swapped
      series is returned. Go panics on an index out of range, which the
      `requires` excludes. */
  function Swap<P>(s: Series<P>, i: int, j: int): (r: Series<P>)
    requires 0 <= i < |s| && 0 <= j < |s|
    ensures |r| == |s|
    ensures r[i] == s[j] && r[j] == s[i]
    ensures forall k :: 0 <= k < |s| && k != i && k != j ==> r[k] == s[k]
    ensures multiset(r) == multiset(s)
  {
    s[i := s[j]][j := s[i]]
  }

  /** `Less` of the sort interface: coin `i` was captured strictly before coin `j`. */
  predicate Less<P>(s: Series<P>, i: int, j: int)
    requires 0 <= i < |s| && 0 <= j < |s|
  {
    s[i].timestamp < s[j].timestamp
  }

  /** No coin is `Less` than an earlier one: the order `sort.Sort` would establish. */
  ghost predicate Sorted<P>(s: Series<P>)
  {
    forall i, j :: 0 <= i < j < |s| ==> !Less(s, j, i)
  }

  lemma {:induction false} SwapSwap<P>(s: Series<P>, i: int, j: int)
    requires 0 <= i < |s| && 0 <= j < |s|
    ensures Swap(Swap(s, i, j), i, j) == s
    ensures Swap(s, i, j) == Swap(s, j, i)
    ensures Swap(s, i, i) == s
  {
  }

  lemma LessIsStrictOrder<P>(s: Series<P>)
    ensures forall i :: 0 <= i < |s| ==> !Less(s, i, i)
    ensures forall i, j :: 0 <= i < |s| && 0 <= j < |s| && Less(s, i, j) ==> !Less(s, j, i)
    ensures forall i, j, k :: 0 <= i < |s| && 0 <= j < |s| && 0 <= k < |s| && Less(s, i, j) && Less(s, j, k) ==> Less(s, i, k)
  {
  }

  /** Only the timestamps decide `Less`: two series whose coins at `i` and
      `j` carry the same timestamps agree, whatever their names, symbols and
      prices. */
  lemma LessReadsOnlyTimestamps<P>(s: Series<P>, t: Series<P>, i: int, j: int)
    requires 0 <= i < |s| && 0 <= j < |s| && 0 <= i < |t| && 0 <= j < |t|
    requires s[i].timestamp == t[i].timestamp && s[j].timestamp == t[j].timestamp
    ensures Less(s, i, j) <==> Less(t, i, j)
  {
  }

  lemma EqualTimestampsAreUnordered<P>(s: Series<P>, i: int, j: int)
    requires 0 <= i < |s| && 0 <= j < |s|
    requires s[i].timestamp == s[j].timestamp
    ensures !Less(s, i, j) && !Less(s, j, i)
  {
  }

  /** Swapping exchanges the roles of the two indexes in `Less`. */
  lemma LessAfterSwap<P>(s: Series<P>, i: int, j: int)
    requires 0 <= i < |s| && 0 <= j < |s|
    ensures Less(Swap(s, i, j), i, j) <==> Less(s, j, i)
  {
  }

  /** A series whose coins all carry one timestamp is already sorted. */
  lemma UniformSeriesIsSorted<P>(s: Series<P>, t: Timestamp)
    requires forall k :: 0 <= k < |s| ==> s[k].timestamp == t
    ensures Sorted(s)
  {
  }

  /** Swapping two coins of such a series keeps every timestamp, so the
      series stays sorted. */
  lemma UniformSeriesStaysSortedUnderSwap<P>(s: Series<P>, t: Timestamp, i: int, j: int)
    requires forall k :: 0 <= k < |s| ==> s[k].timestamp == t
    requires 0 <= i < |s| && 0 <= j < |s|
    ensures forall k :: 0 <= k < |s| ==> Swap(s, i, j)[k].timestamp == t
    ensures Sorted(Swap(s, i, j))
  {
  }

  // ---- decoded response of the quote API (quote.go) ----

  /** The USD price entry; only `price` is decoded. */
  datatype Price<P> = Price(price: P)

  /** The `quote` object; only its `USD` key is decoded, any other currency is ignored. */
  datatype Quote<P> = Quote(usd: Price<P>)

  /** One element of `data`. */
  datatype CmcQuote<P> = CmcQuote(id: int, name: string, symbol: string, quote: Quote<P>)

  /** The decoded response body. */
  datatype ResponseObject<P> = ResponseObject(data: seq<CmcQuote<P>>)
}
