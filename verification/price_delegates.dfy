/**
 * The asset price delegates a market-making strategy reads its reference
 * price from:
 *
 *  - `OrderBookAssetPriceDelegate`: one market's order book for one pair;
 *  - `OrderBookInverseAssetPriceDelegate`: the same book read the other way
 *    round (price 1/p, pair QUOTE-BASE);
 *  - `MultiMarketAssetPriceDelegate`: a chain of such books whose tokens
 *    meet end to end, priced as the product of the hop prices.
 *
 * A market is a value: its identity, its readiness and the top of each
 * order book it holds. Prices are exact positive reals.
 */
module AssetPriceDelegates {
  import opened Wrappers
  import opened Strings

  /** A strictly positive price. */
  type Price = r: real | r > 0.0 witness 1.0

  /** The order-book price types a delegate serves. */
  datatype PriceType = MidPrice | BestBid | BestAsk

  /** The top of one order book. */
  datatype BookTop = BookTop(bestBid: Price, bestAsk: Price)

  /** A connector as the delegates see it; `id` stands for object identity. */
  datatype Market = Market(id: nat, ready: bool, orderBooks: map<string, BookTop>)

  /** The mid price of a book: halfway between its best bid and best ask. */
  function Mid(b: BookTop): (p: Price)
    ensures p - b.bestBid == b.bestAsk - p
  {
    (b.bestBid + b.bestAsk) / 2.0
  }

  /** The book's price of the given type. */
  function BookPrice(b: BookTop, pt: PriceType): Price
  {
    match pt
    case MidPrice => Mid(b)
    case BestBid => b.bestBid
    case BestAsk => b.bestAsk
  }

  /** `get_order_book` raises for a pair the market holds no book for. */
  datatype PriceError = NoOrderBook(tradingPair: string)

  // ---------------------------------------------------------------------------
  // Direct and inverse delegates
  // ---------------------------------------------------------------------------

  datatype OrderBookDelegate = OrderBookDelegate(market: Market, tradingPair: string)

  /** `get_price_by_type`: the price of the delegate's book; an error exactly when the book is missing. */
  function DirectPrice(d: OrderBookDelegate, pt: PriceType): (r: Result<Price, PriceError>)
    ensures r.Ok? <==> d.tradingPair in d.market.orderBooks
    ensures r.Err? ==> r.error == NoOrderBook(d.tradingPair)
  {
    if d.tradingPair in d.market.orderBooks then Ok(BookPrice(d.market.orderBooks[d.tradingPair], pt))
    else Err(NoOrderBook(d.tradingPair))
  }

  /** `get_mid_price`: the market's mid price for the pair. */
  function DirectMidPrice(d: OrderBookDelegate): (r: Result<Price, PriceError>)
    ensures r.Ok? <==> d.tradingPair in d.market.orderBooks
    ensures r.Ok? ==> r.value - d.market.orderBooks[d.tradingPair].bestBid
                      == d.market.orderBooks[d.tradingPair].bestAsk - r.value
    ensures r.Err? ==> r.error == NoOrderBook(d.tradingPair)
  {
    if d.tradingPair in d.market.orderBooks then Ok(Mid(d.market.orderBooks[d.tradingPair]))
    else Err(NoOrderBook(d.tradingPair))
  }

  /** The mid price and the MidPrice price type agree. */
  lemma DirectMidPriceIsMidPriceType(d: OrderBookDelegate)
    ensures DirectMidPrice(d) == DirectPrice(d, MidPrice)
    ensures DirectMidPrice(d).Ok? ==>
              d.market.orderBooks[d.tradingPair].bestBid <= DirectMidPrice(d).value <= d.market.orderBooks[d.tradingPair].bestAsk
              || d.market.orderBooks[d.tradingPair].bestAsk <= DirectMidPrice(d).value <= d.market.orderBooks[d.tradingPair].bestBid
  {
  }

  datatype InverseDelegate = InverseDelegate(direct: OrderBookDelegate)

  /** `OrderBookInverseAssetPriceDelegate.create_for(market, trading_pair)`. */
  function CreateFor(market: Market, tradingPair: string): (r: InverseDelegate)
    ensures r.direct.market == market && r.direct.tradingPair == tradingPair
  {
    InverseDelegate(OrderBookDelegate(market, tradingPair))
  }

  /** The reciprocal of a direct price, keeping an error as it is. */
  function Reciprocal(r: Result<Price, PriceError>): (s: Result<Price, PriceError>)
    ensures s.Ok? <==> r.Ok?
    ensures s.Ok? ==> s.value * r.value == 1.0
    ensures s.Err? ==> s.error == r.error
  {
    match r
    case Ok(p) => Ok(1.0 / p)
    case Err(e) => Err(e)
  }

  /** `get_price_by_type` of the inverse: 1 / the direct price of the same type. */
  function InversePrice(d: InverseDelegate, pt: PriceType): (r: Result<Price, PriceError>)
    ensures r.Ok? <==> DirectPrice(d.direct, pt).Ok?
    ensures r.Ok? ==> r.value * DirectPrice(d.direct, pt).value == 1.0
    ensures r.Err? ==> r.error == DirectPrice(d.direct, pt).error
  {
    Reciprocal(DirectPrice(d.direct, pt))
  }

  /** `get_mid_price` of the inverse: 1 / the direct mid price. */
  function InverseMidPrice(d: InverseDelegate): (r: Result<Price, PriceError>)
    ensures r.Ok? <==> DirectMidPrice(d.direct).Ok?
    ensures r.Ok? ==> r.value * DirectMidPrice(d.direct).value == 1.0
    ensures r.Err? ==> r.error == DirectMidPrice(d.direct).error
  {
    Reciprocal(DirectMidPrice(d.direct))
  }

  /** The inverse delegate's price times the direct delegate's price is one, for every price type. */
  lemma InversePriceIsReciprocal(d: InverseDelegate, pt: PriceType)
    ensures InversePrice(d, pt).Ok? <==> DirectPrice(d.direct, pt).Ok?
    ensures InversePrice(d, pt).Ok? ==> InversePrice(d, pt).value == 1.0 / DirectPrice(d.direct, pt).value
    ensures InverseMidPrice(d).Ok? ==> InverseMidPrice(d).value == 1.0 / DirectMidPrice(d.direct).value
  {
    var r := DirectPrice(d.direct, pt);
    if r.Ok? {
      assert InversePrice(d, pt).value * r.value == 1.0;
    }
    var m := DirectMidPrice(d.direct);
    if m.Ok? {
      assert InverseMidPrice(d).value * m.value == 1.0;
    }
  }

  /** `ready` of the inverse: the wrapped market's readiness. */
  function InverseReady(d: InverseDelegate): (r: bool)
    ensures r <==> InverseMarket(d).ready
  {
    d.direct.market.ready
  }

  /** `market` of the inverse: the wrapped market. */
  function InverseMarket(d: InverseDelegate): Market
  {
    d.direct.market
  }

  /** `all_markets` of the inverse: the wrapped market alone. */
  function InverseAllMarkets(d: InverseDelegate): (r: seq<Market>)
    ensures r == [InverseMarket(d)]
  {
    [d.direct.market]
  }

  /** `trading_pair` of the inverse: the direct pair with base and quote swapped (None where the pair does not split). */
  function InverseTradingPair(d: InverseDelegate): (r: Option<string>)
    ensures r.Some? <==> SplitPair(d.direct.tradingPair).Some?
    ensures r.Some? ==> SplitPair(r.value) == Some((SplitPair(d.direct.tradingPair).value.1, SplitPair(d.direct.tradingPair).value.0))
  {
    match SplitPair(d.direct.tradingPair)
    case None => None
    case Some((base, quote)) =>
      PairRoundTrip(quote, base);
      Some(CombinePair(quote, base))
  }

  /** Inverting the inverse's pair once more gives back the direct pair. */
  lemma InverseTradingPairInvolution(d: InverseDelegate, m: Market)
    requires InverseTradingPair(d).Some?
    ensures InverseTradingPair(CreateFor(m, InverseTradingPair(d).value)) == Some(d.direct.tradingPair)
  {
    var (base, quote) := SplitPair(d.direct.tradingPair).value;
    PairRoundTrip(quote, base);
  }

  /** The inverse exposes the wrapped market, its readiness, and only that market. */
  lemma InverseExposesMarket(d: InverseDelegate)
    ensures InverseReady(d) <==> d.direct.market.ready
    ensures InverseMarket(d) == d.direct.market
    ensures InverseAllMarkets(d) == [InverseMarket(d)]
  {
  }

  /** `create_for` builds the same delegate as wrapping a direct delegate by hand. */
  lemma CreateForMatchesExplicit(market: Market, tradingPair: string)
    ensures var explicit := InverseDelegate(OrderBookDelegate(market, tradingPair));
            InverseMidPrice(CreateFor(market, tradingPair)) == InverseMidPrice(explicit)
            && InverseMarket(CreateFor(market, tradingPair)) == InverseMarket(explicit)
            && InversePrice(CreateFor(market, tradingPair), BestBid) == InversePrice(explicit, BestBid)
  {
  }

  // ---------------------------------------------------------------------------
  // Multi-market delegate
  // ---------------------------------------------------------------------------

  /** One hop of a chain: a direct delegate, used as is or through its inverse. */
  datatype Hop = Hop(delegate: OrderBookDelegate, inverted: bool)

  /** The hop's (base, quote) in the direction it is used. */
  function HopTokens(h: Hop): (r: Option<(string, string)>)
    ensures r.Some? <==> SplitPair(h.delegate.tradingPair).Some?
  {
    match SplitPair(h.delegate.tradingPair)
    case None => None
    case Some((base, quote)) => if h.inverted then Some((quote, base)) else Some((base, quote))
  }

  /** The price a hop contributes: the direct price, or its reciprocal for an inverted hop. */
  function HopPrice(h: Hop, pt: PriceType): Result<Price, PriceError>
  {
    if h.inverted then InversePrice(InverseDelegate(h.delegate), pt) else DirectPrice(h.delegate, pt)
  }

  datatype MultiMarketDelegate = MultiMarketDelegate(hops: seq<Hop>)

  /** Why `for_markets` refuses a list of (market, pair). */
  datatype BuildError =
    | TooFewMarkets
    | MalformedPair(tradingPair: string)
    | Disconnected(previousPair: string, nextPair: string)

  /** The `ValueError` text `for_markets` raises with. */
  function BuildErrorMessage(e: BuildError): (msg: Option<string>)
    ensures msg.Some? <==> !e.MalformedPair?
  {
    match e
    case TooFewMarkets =>
      Some("A MultiMarketAssetPriceDelegate requires more than one reference market to be created")
    case Disconnected(previous, next) =>
      Some("It is impossible to configure a price provider combining the prices from " + previous
           + " with the prices from " + next)
    case MalformedPair(_) => None
  }

  /**
   * Orients the remaining pairs of a chain whose last hop ends in
   * `prevQuote` and presents `prevPair`: a pair whose base is `prevQuote`
   * is used directly, otherwise one whose quote is `prevQuote` is used
   * inverted, otherwise the chain is broken between `prevPair` and it.
   */
  function Orient(prevQuote: string, prevPair: string, pairs: seq<string>): (r: Result<seq<bool>, BuildError>)
    ensures r.Ok? ==> |r.value| == |pairs|
    decreases |pairs|
  {
    if pairs == [] then Ok([])
    else
      match SplitPair(pairs[0])
      case None => Err(MalformedPair(pairs[0]))
      case Some((base, quote)) =>
        if base == prevQuote then
          match Orient(quote, pairs[0], pairs[1..])
          case Ok(rest) => Ok([false] + rest)
          case Err(e) => Err(e)
        else if quote == prevQuote then
          match Orient(base, CombinePair(quote, base), pairs[1..])
          case Ok(rest) => Ok([true] + rest)
          case Err(e) => Err(e)
        else Err(Disconnected(prevPair, pairs[0]))
  }

  /** The orientation of a whole chain: the first hop is always direct. */
  function OrientChain(pairs: seq<string>): (r: Result<seq<bool>, BuildError>)
    ensures r.Ok? ==> |r.value| == |pairs|
  {
    if |pairs| < 2 then Err(TooFewMarkets)
    else
      match SplitPair(pairs[0])
      case None => Err(MalformedPair(pairs[0]))
      case Some((_, quote)) =>
        match Orient(quote, pairs[0], pairs[1..])
        case Ok(rest) => Ok([false] + rest)
        case Err(e) => Err(e)
  }

  function PairsOf(infos: seq<(Market, string)>): (r: seq<string>)
    ensures |r| == |infos| && forall i :: 0 <= i < |infos| ==> r[i] == infos[i].1
  {
    seq(|infos|, i requires 0 <= i < |infos| => infos[i].1)
  }

  function HopsOf(infos: seq<(Market, string)>, flags: seq<bool>): (r: seq<Hop>)
    requires |flags| == |infos|
    ensures |r| == |infos|
    ensures forall i :: 0 <= i < |infos| ==> r[i] == Hop(OrderBookDelegate(infos[i].0, infos[i].1), flags[i])
  {
    seq(|infos|, i requires 0 <= i < |infos| => Hop(OrderBookDelegate(infos[i].0, infos[i].1), flags[i]))
  }

  /** `MultiMarketAssetPriceDelegate.for_markets`. */
  function ForMarkets(infos: seq<(Market, string)>): (r: Result<MultiMarketDelegate, BuildError>)
    ensures |infos| < 2 ==> r == Err(TooFewMarkets)
  {
    match OrientChain(PairsOf(infos))
    case Ok(flags) => Ok(MultiMarketDelegate(HopsOf(infos, flags)))
    case Err(e) => Err(e)
  }

  /** One step of `Orient` on a pair built from two tokens. */
  lemma OrientStep(prevQuote: string, prevPair: string, base: string, quote: string, rest: seq<string>)
    requires '-' !in base && '-' !in quote && (base == prevQuote || quote == prevQuote)
    requires Orient(if base == prevQuote then quote else base,
                    if base == prevQuote then CombinePair(base, quote) else CombinePair(quote, base), rest).Ok?
    ensures Orient(prevQuote, prevPair, [CombinePair(base, quote)] + rest)
            == Ok([base != prevQuote]
                  + Orient(if base == prevQuote then quote else base,
                           if base == prevQuote then CombinePair(base, quote) else CombinePair(quote, base), rest).value)
    ensures rest == [] ==> Orient(prevQuote, prevPair, [CombinePair(base, quote)]) == Ok([base != prevQuote])
  {
    PairRoundTrip(base, quote);
    assert ([CombinePair(base, quote)] + rest)[1..] == rest;
    if rest == [] {
      assert [CombinePair(base, quote)] + rest == [CombinePair(base, quote)];
      assert [base != prevQuote] + [] == [base != prevQuote];
    }
  }

  /** The hops meet end to end, starting at token `from`. */
  ghost predicate Chained(from: string, hops: seq<Hop>)
    decreases |hops|
  {
    hops == []
    || (HopTokens(hops[0]).Some? && HopTokens(hops[0]).value.0 == from
        && Chained(HopTokens(hops[0]).value.1, hops[1..]))
  }

  /** The token a chained sequence of hops ends at. */
  function EndToken(from: string, hops: seq<Hop>): string
    requires Chained(from, hops)
    decreases |hops|
  {
    if hops == [] then from else EndToken(HopTokens(hops[0]).value.1, hops[1..])
  }

  /** What `for_markets` guarantees of the delegates it builds. */
  ghost predicate Valid(m: MultiMarketDelegate)
  {
    |m.hops| >= 2 && !m.hops[0].inverted && HopTokens(m.hops[0]).Some?
    && Chained(HopTokens(m.hops[0]).value.0, m.hops)
  }

  /** `trading_pair`: the first hop's base and the last hop's quote, in the direction each is used. */
  function TradingPair(m: MultiMarketDelegate): (r: string)
    requires Valid(m)
    ensures r == CombinePair(HopTokens(m.hops[0]).value.0, EndToken(HopTokens(m.hops[0]).value.0, m.hops))
  {
    LastTokenIsEnd(HopTokens(m.hops[0]).value.0, m.hops);
    CombinePair(HopTokens(m.hops[0]).value.0, HopTokens(m.hops[|m.hops| - 1]).value.1)
  }

  lemma {:induction false} LastTokenIsEnd(from: string, hops: seq<Hop>)
    requires hops != [] && Chained(from, hops)
    ensures HopTokens(hops[|hops| - 1]).Some?
    ensures EndToken(from, hops) == HopTokens(hops[|hops| - 1]).value.1
    decreases |hops|
  {
    if |hops| > 1 {
      LastTokenIsEnd(HopTokens(hops[0]).value.1, hops[1..]);
    }
  }

  /** `all_markets`: each hop's market, in hop order. */
  function AllMarkets(m: MultiMarketDelegate): (r: seq<Market>)
    ensures |r| == |m.hops|
    ensures forall i :: 0 <= i < |m.hops| ==> r[i] == m.hops[i].delegate.market
  {
    seq(|m.hops|, i requires 0 <= i < |m.hops| => m.hops[i].delegate.market)
  }

  /** `market`: a chain has no single market. */
  function SingleMarket(m: MultiMarketDelegate): (r: Option<Market>)
    ensures r.None?
  {
    None
  }

  /** `ready`: every hop's market is ready. */
  predicate Ready(m: MultiMarketDelegate)
    ensures Ready(m) <==> forall market | market in AllMarkets(m) :: market.ready
  {
    forall i :: 0 <= i < |m.hops| ==> m.hops[i].delegate.market.ready
  }

  /** The product of two prices. */
  function Times(a: Price, b: Price): Price
  {
    a * b
  }

  /** The product of the hop prices; the first hop without a book stops it. */
  function ChainPrice(hops: seq<Hop>, pt: PriceType): (r: Result<Price, PriceError>)
    ensures r.Err? ==> exists i :: 0 <= i < |hops| && HopPrice(hops[i], pt) == Err(r.error)
    decreases |hops|
  {
    if hops == [] then Ok(1.0)
    else
      match HopPrice(hops[0], pt)
      case Err(e) => Err(e)
      case Ok(p) =>
        match ChainPrice(hops[1..], pt)
        case Err(e) =>
          var i :| 0 <= i < |hops[1..]| && HopPrice(hops[1..][i], pt) == Err(e);
          assert HopPrice(hops[i + 1], pt) == Err(e);
          Err(e)
        case Ok(q) => Ok(Times(p, q))
  }

  /** `get_price_by_type`. */
  function MultiPrice(m: MultiMarketDelegate, pt: PriceType): (r: Result<Price, PriceError>)
    ensures r.Ok? <==> forall i :: 0 <= i < |m.hops| ==> m.hops[i].delegate.tradingPair in m.hops[i].delegate.market.orderBooks
    ensures r.Err? ==> exists i :: 0 <= i < |m.hops| && HopPrice(m.hops[i], pt) == Err(r.error)
  {
    ChainPriceDefined(m.hops, pt);
    ChainPrice(m.hops, pt)
  }

  /** `get_mid_price`. */
  function MultiMidPrice(m: MultiMarketDelegate): (r: Result<Price, PriceError>)
    ensures r == MultiPrice(m, MidPrice)
  {
    ChainPrice(m.hops, MidPrice)
  }

  // ---------------------------------------------------------------------------
  // Properties of the chain
  // ---------------------------------------------------------------------------

  lemma {:induction false} OrientChains(prevQuote: string, prevPair: string, infos: seq<(Market, string)>)
    requires Orient(prevQuote, prevPair, PairsOf(infos)).Ok?
    ensures Chained(prevQuote, HopsOf(infos, Orient(prevQuote, prevPair, PairsOf(infos)).value))
    decreases |infos|
  {
    if infos != [] {
      var pairs := PairsOf(infos);
      var flags := Orient(prevQuote, prevPair, pairs).value;
      var hops := HopsOf(infos, flags);
      assert PairsOf(infos[1..]) == pairs[1..];
      var (base, quote) := SplitPair(pairs[0]).value;
      if base == prevQuote {
        OrientChains(quote, pairs[0], infos[1..]);
        assert HopsOf(infos[1..], flags[1..]) == hops[1..];
      } else {
        OrientChains(base, CombinePair(quote, base), infos[1..]);
        assert HopsOf(infos[1..], flags[1..]) == hops[1..];
      }
    }
  }

  /** A delegate built by `for_markets` is a chain over the given markets and pairs, in the given order. */
  lemma ForMarketsBuildsChain(infos: seq<(Market, string)>)
    requires ForMarkets(infos).Ok?
    ensures var m := ForMarkets(infos).value;
            Valid(m)
            && |m.hops| == |infos|
            && (forall i :: 0 <= i < |infos| ==> m.hops[i].delegate == OrderBookDelegate(infos[i].0, infos[i].1))
            && AllMarkets(m) == seq(|infos|, i requires 0 <= i < |infos| => infos[i].0)
            && SingleMarket(m) == None
  {
    var pairs := PairsOf(infos);
    var flags := OrientChain(pairs).value;
    var hops := HopsOf(infos, flags);
    var (base, quote) := SplitPair(pairs[0]).value;
    assert PairsOf(infos[1..]) == pairs[1..];
    OrientChains(quote, pairs[0], infos[1..]);
    assert HopsOf(infos[1..], flags[1..]) == hops[1..];
    assert HopTokens(hops[0]) == Some((base, quote));
  }

  /** A chain's delegate is ready exactly when every market it was built from is ready. */
  lemma ForMarketsReady(infos: seq<(Market, string)>)
    requires ForMarkets(infos).Ok?
    ensures Ready(ForMarkets(infos).value) <==> forall i :: 0 <= i < |infos| ==> infos[i].0.ready
  {
    ForMarketsBuildsChain(infos);
  }

  /** A pair of tokens, one of them the previous quote: whichever way is picked, the chain continues the same. */
  lemma {:induction false} OrientComplete(prevQuote: string, prevPair: string, infos: seq<(Market, string)>, flags: seq<bool>)
    requires |flags| == |infos| && Chained(prevQuote, HopsOf(infos, flags))
    ensures Orient(prevQuote, prevPair, PairsOf(infos)).Ok?
    ensures Chained(prevQuote, HopsOf(infos, Orient(prevQuote, prevPair, PairsOf(infos)).value))
    ensures EndToken(prevQuote, HopsOf(infos, Orient(prevQuote, prevPair, PairsOf(infos)).value))
            == EndToken(prevQuote, HopsOf(infos, flags))
    decreases |infos|
  {
    if infos != [] {
      var pairs := PairsOf(infos);
      var hops := HopsOf(infos, flags);
      assert PairsOf(infos[1..]) == pairs[1..];
      assert HopsOf(infos[1..], flags[1..]) == hops[1..];
      var (base, quote) := SplitPair(pairs[0]).value;
      var next := HopTokens(hops[0]).value.1;
      if base == prevQuote {
        // Either orientation leaves the chain at the same token: if the hop
        // was inverted, its quote is the previous quote as well.
        assert next == quote;
        OrientComplete(quote, pairs[0], infos[1..], flags[1..]);
      } else {
        assert flags[0] && quote == prevQuote && next == base;
        OrientComplete(base, CombinePair(quote, base), infos[1..], flags[1..]);
      }
      OrientChains(prevQuote, prevPair, infos);
      var got := Orient(prevQuote, prevPair, pairs).value;
      assert HopsOf(infos[1..], got[1..]) == HopsOf(infos, got)[1..];
    }
  }

  /**
   * `for_markets` succeeds on every list of two or more pairs that can be
   * oriented into a chain (first hop direct), and the chain it builds
   * quotes the same pair.
   */
  lemma ForMarketsComplete(infos: seq<(Market, string)>, flags: seq<bool>)
    requires |infos| >= 2 && |flags| == |infos| && !flags[0]
    requires HopTokens(HopsOf(infos, flags)[0]).Some?
    requires Chained(HopTokens(HopsOf(infos, flags)[0]).value.0, HopsOf(infos, flags))
    ensures ForMarkets(infos).Ok? && Valid(ForMarkets(infos).value)
    ensures TradingPair(ForMarkets(infos).value) == TradingPair(MultiMarketDelegate(HopsOf(infos, flags)))
  {
    var hops := HopsOf(infos, flags);
    var pairs := PairsOf(infos);
    var (base, quote) := SplitPair(pairs[0]).value;
    assert HopTokens(hops[0]) == Some((base, quote));
    assert HopsOf(infos[1..], flags[1..]) == hops[1..];
    assert PairsOf(infos[1..]) == pairs[1..];
    OrientComplete(quote, pairs[0], infos[1..], flags[1..]);
    ForMarketsBuildsChain(infos);
    var got := OrientChain(pairs).value;
    var built := HopsOf(infos, got);
    assert HopsOf(infos[1..], got[1..]) == built[1..];
    assert HopTokens(built[0]) == Some((base, quote));
  }

  /** A broken chain is reported between a pair of the list and one after it. */
  lemma {:induction false} OrientErrorNamesNextPair(prevQuote: string, prevPair: string, pairs: seq<string>)
    requires Orient(prevQuote, prevPair, pairs).Err?
    ensures Orient(prevQuote, prevPair, pairs).error.Disconnected? ==>
              Orient(prevQuote, prevPair, pairs).error.nextPair in pairs
    ensures Orient(prevQuote, prevPair, pairs).error.MalformedPair? ==>
              Orient(prevQuote, prevPair, pairs).error.tradingPair in pairs
              && SplitPair(Orient(prevQuote, prevPair, pairs).error.tradingPair).None?
    ensures !Orient(prevQuote, prevPair, pairs).error.TooFewMarkets?
    decreases |pairs|
  {
    var (base, quote) := if SplitPair(pairs[0]).Some? then SplitPair(pairs[0]).value else ("", "");
    if SplitPair(pairs[0]).Some? {
      if base == prevQuote {
        if Orient(quote, pairs[0], pairs[1..]).Err? {
          OrientErrorNamesNextPair(quote, pairs[0], pairs[1..]);
        }
      } else if quote == prevQuote {
        if Orient(base, CombinePair(quote, base), pairs[1..]).Err? {
          OrientErrorNamesNextPair(base, CombinePair(quote, base), pairs[1..]);
        }
      }
    }
  }

  /** The ratio of two token values. */
  function Ratio(a: Price, b: Price): Price
  {
    a / b
  }

  /**
   * How `for_markets` fails: "more than one reference market" exactly when
   * fewer than two are given; a broken chain names a pair after the first;
   * a pair that is not BASE-QUOTE is one of the given pairs.
   */
  lemma ForMarketsErrors(infos: seq<(Market, string)>)
    requires ForMarkets(infos).Err?
    ensures ForMarkets(infos).error.TooFewMarkets? <==> |infos| < 2
    ensures ForMarkets(infos).error.Disconnected? ==> ForMarkets(infos).error.nextPair in PairsOf(infos)[1..]
    ensures ForMarkets(infos).error.MalformedPair? ==>
              ForMarkets(infos).error.tradingPair in PairsOf(infos)
              && SplitPair(ForMarkets(infos).error.tradingPair).None?
  {
    var pairs := PairsOf(infos);
    if |infos| >= 2 && SplitPair(pairs[0]).Some? {
      OrientErrorNamesNextPair(SplitPair(pairs[0]).value.1, pairs[0], pairs[1..]);
      assert forall p :: p in pairs[1..] ==> p in pairs;
    }
  }

  /** Helper for the cross-rate: an empty chain is worth one. */
  lemma RatioSelf(a: Price)
    ensures Ratio(a, a) == 1.0
  {
    assert a / a == 1.0;
  }

  /** Helper for the cross-rate: a chain of ratios collapses to the ratio of its ends. */
  lemma Telescope(a: Price, b: Price, c: Price)
    ensures Times(Ratio(a, b), Ratio(b, c)) == Ratio(a, c)
  {
  }

  /** Helper for the cross-rate: an inverted ratio is the ratio taken the other way. */
  lemma InvertRatio(a: Price, b: Price)
    ensures 1.0 / Ratio(a, b) == Ratio(b, a)
  {
  }

  /**
   * Every hop's book prices its pair at the ratio of the two tokens'
   * values `v` (base value over quote value).
   */
  ghost predicate ConsistentBooks(hops: seq<Hop>, v: string -> Price, pt: PriceType)
  {
    forall i :: 0 <= i < |hops| ==>
      var d := hops[i].delegate;
      d.tradingPair in d.market.orderBooks && SplitPair(d.tradingPair).Some?
      && BookPrice(d.market.orderBooks[d.tradingPair], pt)
         == Ratio(v(SplitPair(d.tradingPair).value.0), v(SplitPair(d.tradingPair).value.1))
  }

  /**
   * The cross rate: when every book prices its pair consistently with one
   * valuation of the tokens, the chain's price is the value of its first
   * token over the value of its last, whichever hops are inverted.
   */
  lemma {:induction false} ChainPriceIsCrossRate(from: string, hops: seq<Hop>, v: string -> Price, pt: PriceType)
    requires Chained(from, hops) && ConsistentBooks(hops, v, pt)
    ensures ChainPrice(hops, pt) == Ok(Ratio(v(from), v(EndToken(from, hops))))
    decreases |hops|
  {
    if hops == [] {
      RatioSelf(v(from));
      assert ChainPrice(hops, pt) == Ok(1.0);
      assert EndToken(from, hops) == from;
    } else {
      var h := hops[0];
      var (base, quote) := SplitPair(h.delegate.tradingPair).value;
      var next := HopTokens(h).value.1;
      assert ConsistentBooks(hops[1..], v, pt) by {
        forall i | 0 <= i < |hops[1..]| ensures hops[1..][i] == hops[i + 1] { }
      }
      ChainPriceIsCrossRate(next, hops[1..], v, pt);
      var end := EndToken(next, hops[1..]);
      assert ChainPrice(hops[1..], pt) == Ok(Ratio(v(next), v(end)));
      assert DirectPrice(h.delegate, pt) == Ok(Ratio(v(base), v(quote)));
      if h.inverted {
        InvertRatio(v(base), v(quote));
      }
      assert HopPrice(h, pt) == Ok(Ratio(v(from), v(next)));
      Telescope(v(from), v(next), v(end));
      assert EndToken(from, hops) == end;
      ChainPriceCons(hops, pt);
      assert ChainPrice(hops, pt) == Ok(Ratio(v(from), v(end)));
    }
  }

  lemma ChainPriceCons(hops: seq<Hop>, pt: PriceType)
    requires hops != [] && HopPrice(hops[0], pt).Ok? && ChainPrice(hops[1..], pt).Ok?
    ensures ChainPrice(hops, pt).Ok?
    ensures ChainPrice(hops, pt).value == Times(HopPrice(hops[0], pt).value, ChainPrice(hops[1..], pt).value)
  {
  }

  /** The chain's price exists exactly when every hop's market holds the hop's book. */
  lemma {:induction false} ChainPriceDefined(hops: seq<Hop>, pt: PriceType)
    ensures ChainPrice(hops, pt).Ok? <==>
            forall i :: 0 <= i < |hops| ==> hops[i].delegate.tradingPair in hops[i].delegate.market.orderBooks
    decreases |hops|
  {
    if hops != [] {
      ChainPriceDefined(hops[1..], pt);
      assert forall i :: 1 <= i < |hops| ==> hops[i] == hops[1..][i - 1];
    }
  }

  /** `get_mid_price` and `get_price_by_type(MidPrice)` agree on a chain. */
  lemma MultiMidPriceIsMidPriceType(m: MultiMarketDelegate)
    ensures MultiMidPrice(m) == MultiPrice(m, MidPrice)
  {
  }
}

/**
 * The delegate scenarios of the strategy's unit tests, as lemmas over the
 * model. The tests' tokens (TOK1, TOK2, ...) are any distinct tokens
 * without a dash.
 */
module AssetPriceDelegateScenarios {
  import opened Wrappers
  import opened Strings
  import opened AssetPriceDelegates

  predicate Token(t: string)
  {
    '-' !in t
  }

  /** A market holding one book. */
  function OneBook(id: nat, ready: bool, pair: string, bid: Price, ask: Price): Market
  {
    Market(id, ready, map[pair := BookTop(bid, ask)])
  }

  /** Zero or one reference market is refused with the "more than one reference market" message. */
  lemma TooFewReferenceMarkets(m: Market)
    ensures ForMarkets([]) == Err(TooFewMarkets)
    ensures ForMarkets([(m, "COINALPHA-HBOT")]) == Err(TooFewMarkets)
    ensures BuildErrorMessage(TooFewMarkets)
            == Some("A MultiMarketAssetPriceDelegate requires more than one reference market to be created")
  {
  }

  /** TOK1-TOK2 then TOK2-TOK3: the pair is TOK1-TOK3, the markets are listed in order, there is no single market. */
  lemma DirectChainPair(m1: Market, m2: Market, t1: string, t2: string, t3: string)
    requires Token(t1) && Token(t2) && Token(t3)
    ensures var infos := [(m1, CombinePair(t1, t2)), (m2, CombinePair(t2, t3))];
            ForMarkets(infos).Ok?
            && Valid(ForMarkets(infos).value)
            && TradingPair(ForMarkets(infos).value) == CombinePair(t1, t3)
            && AllMarkets(ForMarkets(infos).value) == [m1, m2]
            && SingleMarket(ForMarkets(infos).value) == None
  {
    PairRoundTrip(t1, t2);
    var infos := [(m1, CombinePair(t1, t2)), (m2, CombinePair(t2, t3))];
    PairRoundTrip(t2, t3);
    OrientStep(t2, CombinePair(t1, t2), t2, t3, []);
    assert [CombinePair(t2, t3)] + [] == PairsOf(infos)[1..];
    assert Orient(t2, CombinePair(t1, t2), PairsOf(infos)[1..]) == Ok([false]);
    assert PairsOf(infos)[0] == CombinePair(t1, t2);
    assert [false] + [false] == [false, false];
    assert OrientChain(PairsOf(infos)) == Ok([false, false]);
    assert ForMarkets(infos) == Ok(MultiMarketDelegate(HopsOf(infos, [false, false])));
    ForMarketsBuildsChain(infos);
    assert seq(2, i requires 0 <= i < 2 => infos[i].0) == [m1, m2];
  }

  /** The chain is ready only once both markets are. */
  lemma ChainReadiness(m1: Market, m2: Market, t1: string, t2: string, t3: string)
    requires Token(t1) && Token(t2) && Token(t3)
    ensures var infos := [(m1, CombinePair(t1, t2)), (m2, CombinePair(t2, t3))];
            ForMarkets(infos).Ok? && (Ready(ForMarkets(infos).value) <==> m1.ready && m2.ready)
  {
    DirectChainPair(m1, m2, t1, t2, t3);
    var infos := [(m1, CombinePair(t1, t2)), (m2, CombinePair(t2, t3))];
    ForMarketsReady(infos);
    assert infos[0].0 == m1 && infos[1].0 == m2;
  }

  /** TOK1-TOK2, TOK2-TOK3, TOK8-TOK9: refused between TOK2-TOK3 and TOK8-TOK9. */
  lemma NoCommonToken(m1: Market, m2: Market, m3: Market, t1: string, t2: string, t3: string, t8: string, t9: string)
    requires Token(t1) && Token(t2) && Token(t3) && Token(t8) && Token(t9)
    requires t8 != t3 && t9 != t3
    ensures ForMarkets([(m1, CombinePair(t1, t2)), (m2, CombinePair(t2, t3)), (m3, CombinePair(t8, t9))])
            == Err(Disconnected(CombinePair(t2, t3), CombinePair(t8, t9)))
    ensures BuildErrorMessage(Disconnected(CombinePair(t2, t3), CombinePair(t8, t9)))
            == Some("It is impossible to configure a price provider combining the prices from " + CombinePair(t2, t3)
                    + " with the prices from " + CombinePair(t8, t9))
  {
    PairRoundTrip(t1, t2);
    PairRoundTrip(t2, t3);
    PairRoundTrip(t8, t9);
    var infos := [(m1, CombinePair(t1, t2)), (m2, CombinePair(t2, t3)), (m3, CombinePair(t8, t9))];
    var tail := [CombinePair(t2, t3)] + [CombinePair(t8, t9)];
    assert PairsOf(infos)[1..] == tail;
    assert tail[1..] == [CombinePair(t8, t9)];
    assert Orient(t3, CombinePair(t2, t3), [CombinePair(t8, t9)])
           == Err(Disconnected(CombinePair(t2, t3), CombinePair(t8, t9)));
    assert Orient(t2, CombinePair(t1, t2), tail) == Err(Disconnected(CombinePair(t2, t3), CombinePair(t8, t9)));
    assert PairsOf(infos)[0] == CombinePair(t1, t2);
  }

  /** TOK1-TOK2 then TOK3-TOK2: the second hop is inverted over the TOK3-TOK2 book and the pair is TOK1-TOK3. */
  lemma QuoteMatchUsesInverse(m1: Market, m2: Market, t1: string, t2: string, t3: string)
    requires Token(t1) && Token(t2) && Token(t3) && t3 != t2
    ensures var infos := [(m1, CombinePair(t1, t2)), (m2, CombinePair(t3, t2))];
            ForMarkets(infos).Ok?
            && Valid(ForMarkets(infos).value)
            && TradingPair(ForMarkets(infos).value) == CombinePair(t1, t3)
            && AllMarkets(ForMarkets(infos).value) == [m1, m2]
            && !ForMarkets(infos).value.hops[0].inverted
            && ForMarkets(infos).value.hops[1].inverted
            && ForMarkets(infos).value.hops[1].delegate.tradingPair == CombinePair(t3, t2)
  {
    PairRoundTrip(t1, t2);
    var infos := [(m1, CombinePair(t1, t2)), (m2, CombinePair(t3, t2))];
    PairRoundTrip(t3, t2);
    OrientStep(t2, CombinePair(t1, t2), t3, t2, []);
    assert [CombinePair(t3, t2)] + [] == PairsOf(infos)[1..];
    assert Orient(t2, CombinePair(t1, t2), PairsOf(infos)[1..]) == Ok([true]);
    assert PairsOf(infos)[0] == CombinePair(t1, t2);
    assert [false] + [true] == [false, true];
    assert OrientChain(PairsOf(infos)) == Ok([false, true]);
    assert ForMarkets(infos) == Ok(MultiMarketDelegate(HopsOf(infos, [false, true])));
    ForMarketsBuildsChain(infos);
    assert seq(2, i requires 0 <= i < 2 => infos[i].0) == [m1, m2];
  }

  /** Three direct hops: the mid price is 100 * 122.5 * 0.5. */
  lemma DirectChainMidPrice(r1: bool, r2: bool, r3: bool, t1: string, t2: string, t3: string, t4: string)
    requires Token(t1) && Token(t2) && Token(t3) && Token(t4)
    ensures var infos := [(OneBook(1, r1, CombinePair(t1, t2), 90.0, 110.0), CombinePair(t1, t2)),
                          (OneBook(2, r2, CombinePair(t2, t3), 120.0, 125.0), CombinePair(t2, t3)),
                          (OneBook(3, r3, CombinePair(t3, t4), 0.4, 0.6), CombinePair(t3, t4))];
            ForMarkets(infos).Ok?
            && MultiMidPrice(ForMarkets(infos).value) == Ok(100.0 * 122.5 * 0.5)
            && MultiPrice(ForMarkets(infos).value, MidPrice) == Ok(100.0 * 122.5 * 0.5)
  {
    PairRoundTrip(t1, t2);
    var infos := [(OneBook(1, r1, CombinePair(t1, t2), 90.0, 110.0), CombinePair(t1, t2)),
                  (OneBook(2, r2, CombinePair(t2, t3), 120.0, 125.0), CombinePair(t2, t3)),
                  (OneBook(3, r3, CombinePair(t3, t4), 0.4, 0.6), CombinePair(t3, t4))];
    PairRoundTrip(t3, t4);
    OrientStep(t3, CombinePair(t2, t3), t3, t4, []);
    assert [CombinePair(t3, t4)] + [] == [CombinePair(t3, t4)];
    PairRoundTrip(t2, t3);
    OrientStep(t2, CombinePair(t1, t2), t2, t3, [CombinePair(t3, t4)]);
    assert [CombinePair(t2, t3)] + [CombinePair(t3, t4)] == PairsOf(infos)[1..];
    assert [false] + [false] == [false, false];
    assert Orient(t2, CombinePair(t1, t2), PairsOf(infos)[1..]) == Ok([false, false]);
    assert PairsOf(infos)[0] == CombinePair(t1, t2);
    assert [false] + [false, false] == [false, false, false];
    assert OrientChain(PairsOf(infos)) == Ok([false, false, false]);
    assert ForMarkets(infos) == Ok(MultiMarketDelegate(HopsOf(infos, [false, false, false])));
    var hops := HopsOf(infos, [false, false, false]);
    assert HopPrice(hops[2], MidPrice) == Ok(0.5);
    assert HopPrice(hops[1], MidPrice) == Ok(122.5);
    assert HopPrice(hops[0], MidPrice) == Ok(100.0);
    assert hops[1..][1..][1..] == [];
    assert ChainPrice(hops[1..][1..], MidPrice) == Ok(0.5);
    assert ChainPrice(hops[1..], MidPrice) == Ok(122.5 * 0.5);
  }

  /** The chain TOK1-TOK2, TOK3-TOK2, TOK4-TOK3 is used direct, inverted, inverted. */
  lemma MixedChainOrientation(r1: bool, r2: bool, r3: bool, t1: string, t2: string, t3: string, t4: string)
    requires Token(t1) && Token(t2) && Token(t3) && Token(t4) && t3 != t2 && t4 != t3
    ensures var infos := [(OneBook(1, r1, CombinePair(t1, t2), 90.0, 110.0), CombinePair(t1, t2)),
                          (OneBook(2, r2, CombinePair(t3, t2), 120.0, 125.0), CombinePair(t3, t2)),
                          (OneBook(3, r3, CombinePair(t4, t3), 0.4, 0.6), CombinePair(t4, t3))];
            ForMarkets(infos) == Ok(MultiMarketDelegate(HopsOf(infos, [false, true, true])))
  {
    PairRoundTrip(t1, t2);
    var infos := [(OneBook(1, r1, CombinePair(t1, t2), 90.0, 110.0), CombinePair(t1, t2)),
                  (OneBook(2, r2, CombinePair(t3, t2), 120.0, 125.0), CombinePair(t3, t2)),
                  (OneBook(3, r3, CombinePair(t4, t3), 0.4, 0.6), CombinePair(t4, t3))];
    PairRoundTrip(t4, t3);
    OrientStep(t3, CombinePair(t2, t3), t4, t3, []);
    assert [CombinePair(t4, t3)] + [] == [CombinePair(t4, t3)];
    PairRoundTrip(t3, t2);
    OrientStep(t2, CombinePair(t1, t2), t3, t2, [CombinePair(t4, t3)]);
    assert [CombinePair(t3, t2)] + [CombinePair(t4, t3)] == PairsOf(infos)[1..];
    assert [true] + [true] == [true, true];
    assert Orient(t2, CombinePair(t1, t2), PairsOf(infos)[1..]) == Ok([true, true]);
    assert PairsOf(infos)[0] == CombinePair(t1, t2);
    assert [false] + [true, true] == [false, true, true];
  }

  /** Three hops that each price: the chain price is their product, in order. */
  lemma ChainPriceOfThree(hops: seq<Hop>, pt: PriceType, p0: Price, p1: Price, p2: Price)
    requires |hops| == 3
    requires HopPrice(hops[0], pt) == Ok(p0) && HopPrice(hops[1], pt) == Ok(p1) && HopPrice(hops[2], pt) == Ok(p2)
    ensures ChainPrice(hops, pt).Ok? && ChainPrice(hops, pt).value == Times(p0, Times(p1, Times(p2, 1.0)))
  {
    var h1 := hops[1..];
    var h2 := h1[1..];
    assert h1[0] == hops[1] && h2[0] == hops[2] && h2[1..] == [];
    ChainPriceCons(h2, pt);
    ChainPriceCons(h1, pt);
    ChainPriceCons(hops, pt);
  }

  /** One direct hop and two inverted ones: 100 * (1 / 122.5) * (1 / 0.5), quoted as TOK1-TOK4. */
  lemma MixedChainMidPrice(r1: bool, r2: bool, r3: bool, t1: string, t2: string, t3: string, t4: string)
    requires Token(t1) && Token(t2) && Token(t3) && Token(t4) && t3 != t2 && t4 != t3
    ensures var infos := [(OneBook(1, r1, CombinePair(t1, t2), 90.0, 110.0), CombinePair(t1, t2)),
                          (OneBook(2, r2, CombinePair(t3, t2), 120.0, 125.0), CombinePair(t3, t2)),
                          (OneBook(3, r3, CombinePair(t4, t3), 0.4, 0.6), CombinePair(t4, t3))];
            ForMarkets(infos).Ok? && Valid(ForMarkets(infos).value)
            && MultiMidPrice(ForMarkets(infos).value) == Ok(100.0 * (1.0 / 122.5) * (1.0 / 0.5))
            && TradingPair(ForMarkets(infos).value) == CombinePair(t1, t4)
  {
    var infos := [(OneBook(1, r1, CombinePair(t1, t2), 90.0, 110.0), CombinePair(t1, t2)),
                  (OneBook(2, r2, CombinePair(t3, t2), 120.0, 125.0), CombinePair(t3, t2)),
                  (OneBook(3, r3, CombinePair(t4, t3), 0.4, 0.6), CombinePair(t4, t3))];
    MixedChainOrientation(r1, r2, r3, t1, t2, t3, t4);
    var hops := HopsOf(infos, [false, true, true]);
    PairRoundTrip(t1, t2);
    PairRoundTrip(t4, t3);
    assert HopTokens(hops[0]) == Some((t1, t2)) && HopTokens(hops[2]) == Some((t3, t4));
    assert HopPrice(hops[2], MidPrice) == Ok(1.0 / 0.5);
    assert HopPrice(hops[1], MidPrice) == Ok(1.0 / 122.5);
    assert HopPrice(hops[0], MidPrice) == Ok(100.0);
    ChainPriceOfThree(hops, MidPrice, 100.0, 1.0 / 122.5, 1.0 / 0.5);
    ForMarketsBuildsChain(infos);
  }

  /** The chain TOK1-TOK2, TOK3-TOK2, TOK4-TOK3, TOK4-TOK5 is used direct, inverted, inverted, direct. */
  lemma LongChainOrientation(r1: bool, r2: bool, r3: bool, r4: bool,
                             t1: string, t2: string, t3: string, t4: string, t5: string)
    requires Token(t1) && Token(t2) && Token(t3) && Token(t4) && Token(t5) && t3 != t2 && t4 != t3
    ensures var infos := [(OneBook(1, r1, CombinePair(t1, t2), 90.0, 110.0), CombinePair(t1, t2)),
                          (OneBook(2, r2, CombinePair(t3, t2), 120.0, 125.0), CombinePair(t3, t2)),
                          (OneBook(3, r3, CombinePair(t4, t3), 0.4, 0.6), CombinePair(t4, t3)),
                          (OneBook(4, r4, CombinePair(t4, t5), 200.5, 202.7), CombinePair(t4, t5))];
            ForMarkets(infos) == Ok(MultiMarketDelegate(HopsOf(infos, [false, true, true, false])))
  {
    PairRoundTrip(t1, t2);
    var infos := [(OneBook(1, r1, CombinePair(t1, t2), 90.0, 110.0), CombinePair(t1, t2)),
                  (OneBook(2, r2, CombinePair(t3, t2), 120.0, 125.0), CombinePair(t3, t2)),
                  (OneBook(3, r3, CombinePair(t4, t3), 0.4, 0.6), CombinePair(t4, t3)),
                  (OneBook(4, r4, CombinePair(t4, t5), 200.5, 202.7), CombinePair(t4, t5))];
    PairRoundTrip(t4, t5);
    OrientStep(t4, CombinePair(t3, t4), t4, t5, []);
    assert [CombinePair(t4, t5)] + [] == [CombinePair(t4, t5)];
    PairRoundTrip(t4, t3);
    OrientStep(t3, CombinePair(t2, t3), t4, t3, [CombinePair(t4, t5)]);
    assert [CombinePair(t4, t3)] + [CombinePair(t4, t5)] == [CombinePair(t4, t3), CombinePair(t4, t5)];
    assert [true] + [false] == [true, false];
    assert Orient(t3, CombinePair(t2, t3), [CombinePair(t4, t3), CombinePair(t4, t5)]) == Ok([true, false]);
    PairRoundTrip(t3, t2);
    OrientStep(t2, CombinePair(t1, t2), t3, t2, [CombinePair(t4, t3), CombinePair(t4, t5)]);
    assert [CombinePair(t3, t2)] + [CombinePair(t4, t3), CombinePair(t4, t5)] == PairsOf(infos)[1..];
    assert [true] + [true, false] == [true, true, false];
    assert Orient(t2, CombinePair(t1, t2), PairsOf(infos)[1..]) == Ok([true, true, false]);
    assert PairsOf(infos)[0] == CombinePair(t1, t2);
    assert [false] + [true, true, false] == [false, true, true, false];
  }

  /** Four hops that each price: the chain price is their product, in order. */
  lemma ChainPriceOfFour(hops: seq<Hop>, pt: PriceType, p0: Price, p1: Price, p2: Price, p3: Price)
    requires |hops| == 4
    requires HopPrice(hops[0], pt) == Ok(p0) && HopPrice(hops[1], pt) == Ok(p1)
    requires HopPrice(hops[2], pt) == Ok(p2) && HopPrice(hops[3], pt) == Ok(p3)
    ensures ChainPrice(hops, pt).Ok? && ChainPrice(hops, pt).value == Times(p0, Times(p1, Times(p2, Times(p3, 1.0))))
  {
    var h1 := hops[1..];
    assert h1[0] == hops[1] && h1[1] == hops[2] && h1[2] == hops[3];
    ChainPriceOfThree(h1, pt, p1, p2, p3);
    ChainPriceCons(hops, pt);
  }

  /** Two direct and two inverted hops, quoted as TOK1-TOK5. */
  lemma LongChainMidPrice(r1: bool, r2: bool, r3: bool, r4: bool, t1: string, t2: string, t3: string, t4: string, t5: string)
    requires Token(t1) && Token(t2) && Token(t3) && Token(t4) && Token(t5) && t3 != t2 && t4 != t3
    ensures var infos := [(OneBook(1, r1, CombinePair(t1, t2), 90.0, 110.0), CombinePair(t1, t2)),
                          (OneBook(2, r2, CombinePair(t3, t2), 120.0, 125.0), CombinePair(t3, t2)),
                          (OneBook(3, r3, CombinePair(t4, t3), 0.4, 0.6), CombinePair(t4, t3)),
                          (OneBook(4, r4, CombinePair(t4, t5), 200.5, 202.7), CombinePair(t4, t5))];
            ForMarkets(infos).Ok? && Valid(ForMarkets(infos).value)
            && MultiMidPrice(ForMarkets(infos).value) == Ok(100.0 * (1.0 / 122.5) * (1.0 / 0.5) * 201.6)
            && TradingPair(ForMarkets(infos).value) == CombinePair(t1, t5)
  {
    var infos := [(OneBook(1, r1, CombinePair(t1, t2), 90.0, 110.0), CombinePair(t1, t2)),
                  (OneBook(2, r2, CombinePair(t3, t2), 120.0, 125.0), CombinePair(t3, t2)),
                  (OneBook(3, r3, CombinePair(t4, t3), 0.4, 0.6), CombinePair(t4, t3)),
                  (OneBook(4, r4, CombinePair(t4, t5), 200.5, 202.7), CombinePair(t4, t5))];
    LongChainOrientation(r1, r2, r3, r4, t1, t2, t3, t4, t5);
    var hops := HopsOf(infos, [false, true, true, false]);
    PairRoundTrip(t1, t2);
    PairRoundTrip(t4, t5);
    assert HopTokens(hops[0]) == Some((t1, t2)) && HopTokens(hops[3]) == Some((t4, t5));
    assert HopPrice(hops[3], MidPrice) == Ok(201.6);
    assert HopPrice(hops[2], MidPrice) == Ok(1.0 / 0.5);
    assert HopPrice(hops[1], MidPrice) == Ok(1.0 / 122.5);
    assert HopPrice(hops[0], MidPrice) == Ok(100.0);
    ChainPriceOfFour(hops, MidPrice, 100.0, 1.0 / 122.5, 1.0 / 0.5, 201.6);
    ForMarketsBuildsChain(infos);
  }

  /** The inverse delegate over COINALPHA-HBOT: reciprocal mid, mirrored readiness, swapped pair. */
  lemma InverseOverCoinAlpha(ready: bool, base: string, quote: string)
    requires Token(base) && Token(quote)
    ensures var d := CreateFor(OneBook(1, ready, CombinePair(base, quote), 9998.5, 10004.4), CombinePair(base, quote));
            InverseMidPrice(d) == Ok(1.0 / 10001.45)
            && InversePrice(d, MidPrice) == Ok(1.0 / 10001.45)
            && InverseReady(d) == ready
            && InverseAllMarkets(d) == [OneBook(1, ready, CombinePair(base, quote), 9998.5, 10004.4)]
            && InverseTradingPair(d) == Some(CombinePair(quote, base))
  {
    PairRoundTrip(base, quote);
    var d := CreateFor(OneBook(1, ready, CombinePair(base, quote), 9998.5, 10004.4), CombinePair(base, quote));
    assert DirectMidPrice(d.direct) == Ok(10001.45);
    assert DirectPrice(d.direct, MidPrice) == Ok(10001.45);
  }
}
