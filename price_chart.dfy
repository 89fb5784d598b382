/** The live price chart: a rolling window of the last 100 prices, fed one
    socket message at a time, the y-axis range recomputed from the window
    with padding, and the headline price. The socket itself, the clock and
    number parsing are outside the model: a message arrives already parsed,
    and its time stamp is a parameter. */
module PriceChart {

  /** How many points the window keeps. */
  const WINDOW: nat := 100
  /** The smallest padding above and below the plotted prices. */
  const MIN_PADDING: real := 25.0
  /** The padding as a fraction of the price spread. */
  const PADDING_RATIO: real := 0.05

  datatype PricePoint = PricePoint(time: string, price: real)

  /** The last n elements of s, or all of s when it is shorter. */
  function Last<T>(s: seq<T>, n: nat): (r: seq<T>)
    ensures |r| == if |s| <= n then |s| else n
    ensures r == s[|s| - |r|..]
  {
    if |s| <= n then s else s[|s| - n..]
  }

  lemma LastOfLast<T>(s: seq<T>, t: seq<T>, n: nat)
    ensures Last(Last(s, n) + t, n) == Last(s + t, n)
  {
    var k := |s| - |Last(s, n)|;
    assert Last(s, n) + t == (s + t)[k..];
  }

  /** The message handler's update: append the new point, then keep only
      the last 100. */
  function Append(prev: seq<PricePoint>, p: PricePoint): (r: seq<PricePoint>)
    ensures |r| == if |prev| + 1 <= WINDOW then |prev| + 1 else WINDOW
    ensures r[|r| - 1] == p
    ensures r == (prev + [p])[|prev| + 1 - |r|..]
  {
    var updated := prev + [p];
    if |updated| > WINDOW then updated[|updated| - WINDOW..] else updated
  }

  /** Below capacity nothing is dropped; at capacity exactly the oldest point
      is, and the rest keep their order. */
  lemma AppendDropsOnlyTheOldest(prev: seq<PricePoint>, p: PricePoint)
    ensures |prev| < WINDOW ==> Append(prev, p) == prev + [p]
    ensures |prev| == WINDOW ==> Append(prev, p) == prev[1..] + [p]
  {
    if |prev| == WINDOW {
      assert (prev + [p])[1..] == prev[1..] + [p];
    }
  }

  /** The window after a run of points, from one that held `window`. */
  function Feed(window: seq<PricePoint>, points: seq<PricePoint>): seq<PricePoint>
    decreases |points|
  {
    if points == [] then window else Feed(Append(window, points[0]), points[1..])
  }

  /** However many points arrive, the window holds exactly the last 100 of
      everything seen, in arrival order. */
  lemma {:induction false} FeedKeepsLast(window: seq<PricePoint>, points: seq<PricePoint>)
    requires |window| <= WINDOW
    ensures Feed(window, points) == Last(window + points, WINDOW)
    decreases |points|
  {
    if points == [] {
      assert window + points == window;
    } else {
      var next := Append(window, points[0]);
      assert next == Last(window + [points[0]], WINDOW);
      FeedKeepsLast(next, points[1..]);
      LastOfLast(window + [points[0]], points[1..], WINDOW);
      assert window + [points[0]] + points[1..] == window + points;
    }
  }

  // ---------------------------------------------------------------- range

  datatype Range = Range(min: real, max: real)

  const INITIAL_RANGE: Range := Range(0.0, 0.0)

  function MinPrice(s: seq<PricePoint>): (r: real)
    requires |s| > 0
    ensures forall i :: 0 <= i < |s| ==> r <= s[i].price
    ensures exists i :: 0 <= i < |s| && s[i].price == r
  {
    if |s| == 1 then s[0].price
    else
      var rest := MinPrice(s[1..]);
      assert forall i :: 1 <= i < |s| ==> s[i] == s[1..][i - 1];
      if s[0].price <= rest then s[0].price else rest
  }

  function MaxPrice(s: seq<PricePoint>): (r: real)
    requires |s| > 0
    ensures forall i :: 0 <= i < |s| ==> s[i].price <= r
    ensures exists i :: 0 <= i < |s| && s[i].price == r
  {
    if |s| == 1 then s[0].price
    else
      var rest := MaxPrice(s[1..]);
      assert forall i :: 1 <= i < |s| ==> s[i] == s[1..][i - 1];
      if s[0].price >= rest then s[0].price else rest
  }

  /** Five per cent of the spread, but never less than 25. */
  function Padding(lo: real, hi: real): (r: real)
    ensures r >= MIN_PADDING
    ensures r >= (hi - lo) * PADDING_RATIO
    ensures r == MIN_PADDING || r == (hi - lo) * PADDING_RATIO
  {
    var spread := (hi - lo) * PADDING_RATIO;
    if spread >= MIN_PADDING then spread else MIN_PADDING
  }

  /** The y-axis range of a non-empty window: the lowest and highest price,
      widened by the padding on both sides. The range is tight: every price
      is at least the padding from each end, and some price is exactly the
      padding from each. */
  function PriceRange(s: seq<PricePoint>): (r: Range)
    requires |s| > 0
    ensures r.max - r.min >= 2.0 * MIN_PADDING
    ensures forall i :: 0 <= i < |s| ==>
      s[i].price - r.min >= Padding(MinPrice(s), MaxPrice(s)) &&
      r.max - s[i].price >= Padding(MinPrice(s), MaxPrice(s))
    ensures exists i :: 0 <= i < |s| && s[i].price - r.min == Padding(MinPrice(s), MaxPrice(s))
    ensures exists i :: 0 <= i < |s| && r.max - s[i].price == Padding(MinPrice(s), MaxPrice(s))
  {
    var lo := MinPrice(s);
    var hi := MaxPrice(s);
    var padding := Padding(lo, hi);
    Range(lo - padding, hi + padding)
  }

  /** Every price in the window lies strictly inside the axis range, at least
      25 away from either end. */
  lemma {:induction false} PricesInsideRange(s: seq<PricePoint>, i: nat)
    requires i < |s|
    ensures PriceRange(s).min + MIN_PADDING <= s[i].price <= PriceRange(s).max - MIN_PADDING
    ensures PriceRange(s).min < s[i].price < PriceRange(s).max
  {
    var lo := MinPrice(s);
    var hi := MaxPrice(s);
    assert lo <= s[i].price <= hi;
  }

  // ---------------------------------------------------------------- messages

  /** A socket message as the handler sees it: a ticker update with its last price, or a
      payload that does not parse, which the handler catches and drops. */
  datatype Message = Update(price: real) | Malformed

  datatype ChartState = ChartState(marketData: seq<PricePoint>, priceRange: Range, isLoading: bool)

  const INITIAL: ChartState := ChartState([], INITIAL_RANGE, true)

  /** The range effect: recomputed from a non-empty window, left alone for an
      empty one. */
  function RefreshRange(s: ChartState): (r: ChartState)
    ensures r.marketData == s.marketData && r.isLoading == s.isLoading
    ensures |s.marketData| > 0 ==> r.priceRange == PriceRange(s.marketData)
    ensures |s.marketData| == 0 ==> r == s
  {
    if |s.marketData| > 0 then s.(priceRange := PriceRange(s.marketData)) else s
  }

  /** One message, followed by the range effect; `now` is the local time
      stamp the handler takes from the clock. */
  function Receive(s: ChartState, msg: Message, now: string): (r: ChartState)
    ensures msg.Malformed? ==> r == s
    ensures msg.Update? ==> r.marketData == Append(s.marketData, PricePoint(now, msg.price)) && !r.isLoading
    ensures msg.Update? ==> r.priceRange == PriceRange(r.marketData)
  {
    match msg
    case Update(price) =>
      RefreshRange(s.(marketData := Append(s.marketData, PricePoint(now, price)), isLoading := false))
    case Malformed => s
  }

  /** What every reachable chart state satisfies: the spinner shows exactly
      until the first point, the window holds at most 100 points, and the
      range is the padded range of the window, or the initial one while it is
      empty. */
  predicate ChartInv(s: ChartState)
  {
    && |s.marketData| <= WINDOW
    && (s.isLoading <==> |s.marketData| == 0)
    && (|s.marketData| > 0 ==> s.priceRange == PriceRange(s.marketData))
    && (|s.marketData| == 0 ==> s.priceRange == INITIAL_RANGE)
  }

  lemma InitialSatisfiesInv()
    ensures ChartInv(INITIAL)
  {
  }

  lemma ReceivePreservesInv(s: ChartState, msg: Message, now: string)
    requires ChartInv(s)
    ensures ChartInv(Receive(s, msg, now))
  {
  }

  // ---------------------------------------------------------------- headline

  datatype Headline = Loading | Showing(price: real) | NoData

  /** The header: the spinner while loading, else the latest price, else a
      "no data" note. */
  function HeadlineOf(s: ChartState): (h: Headline)
    ensures h == Loading <==> s.isLoading
    ensures h.Showing? <==> !s.isLoading && |s.marketData| > 0
    ensures h.Showing? ==> h.price == s.marketData[|s.marketData| - 1].price
  {
    if s.isLoading then Loading
    else if |s.marketData| > 0 then Showing(s.marketData[|s.marketData| - 1].price)
    else NoData
  }

  /** After an update the header shows its price. */
  lemma HeadlineShowsLatestPrice(s: ChartState, price: real, now: string)
    ensures HeadlineOf(Receive(s, Update(price), now)) == Showing(price)
  {
  }

  /** In a reachable state the "no data" note never shows. */
  lemma NoDataNeverShown(s: ChartState)
    requires ChartInv(s)
    ensures HeadlineOf(s) != NoData
  {
  }
}
