/**
 * The pure-market-making strategy's configuration checks: the validators
 * that answer a prompt's value with an optional error text, and the reset
 * `on_validate_price_source` applies to the other entries of the
 * configuration once a price source is accepted.
 */
module PmmConfigMap {
  import opened Wrappers
  import opened Strings
  import AssetPriceDelegates

  // ---------------------------------------------------------------------------
  // price_type
  // ---------------------------------------------------------------------------

  /** The price types accepted for every price source but the custom API. */
  const MarketPriceTypes: set<string> :=
    {"mid_price", "last_price", "last_own_trade_price", "best_bid", "best_ask", "inventory_cost"}

  const InvalidPriceType := "Invalid price type."

  /**
   * `validate_price_type`, given the configured price source: a custom API
   * source accepts only "custom"; every other source accepts the market
   * price types and not "custom".
   */
  function ValidatePriceType(priceSource: string, value: string): (error: Option<string>)
    ensures error.None? <==>
              (if priceSource == "custom_api" then value == "custom" else value in MarketPriceTypes)
    ensures error.Some? ==> error.value == InvalidPriceType
  {
    if priceSource != "custom_api" then
      if value in MarketPriceTypes then None else Some(InvalidPriceType)
    else if value != "custom" then Some(InvalidPriceType)
    else None
  }

  /** No value is accepted both with and without the custom API. */
  lemma PriceTypeSourcesExclusive(other: string, value: string)
    requires other != "custom_api"
    ensures !(ValidatePriceType("custom_api", value).None? && ValidatePriceType(other, value).None?)
  {
    assert "custom" !in MarketPriceTypes;
  }

  // ---------------------------------------------------------------------------
  // price_source_exchange
  // ---------------------------------------------------------------------------

  const SameAsMakerExchange := "Price source exchange cannot be the same as maker exchange."

  /**
   * `validate_price_source_exchange`: the maker exchange itself is refused;
   * any other name goes to the connector-name check, given here as
   * `validateConnector`.
   */
  function ValidatePriceSourceExchange(makerExchange: string, value: string,
                                       validateConnector: string -> Option<string>): (error: Option<string>)
    ensures value == makerExchange ==> error == Some(SameAsMakerExchange)
    ensures value != makerExchange ==> error == validateConnector(value)
  {
    if value == makerExchange then Some(SameAsMakerExchange) else validateConnector(value)
  }

  // ---------------------------------------------------------------------------
  // decimal lists
  // ---------------------------------------------------------------------------

  predicate IsDigit(c: char)
  {
    '0' <= c <= '9'
  }

  predicate AllDigits(s: string)
  {
    forall k :: 0 <= k < |s| ==> IsDigit(s[k])
  }

  /** The text of a finite decimal number: an optional sign, digits, at most one point, and at least one digit. */
  predicate IsDecimal(s: string)
    ensures IsDecimal(s) ==> exists k :: 0 <= k < |s| && IsDigit(s[k])
    ensures |s| > 0 && AllDigits(s) ==> IsDecimal(s)
  {
    var body := if |s| > 0 && (s[0] == '+' || s[0] == '-') then s[1..] else s;
    var parts := Split(body, '.');
    PointSplit(body);
    assert forall k :: 0 <= k < |body| ==> body[k] == s[k + |s| - |body|];
    (|parts| == 1 && |body| > 0 && AllDigits(body))
    || (|parts| == 2 && AllDigits(parts[0]) && AllDigits(parts[1]) && |parts[0]| + |parts[1]| > 0)
  }

  /** A string of digits is one piece; two pieces are the text either side of the point. */
  lemma PointSplit(body: string)
    ensures AllDigits(body) ==> Split(body, '.') == [body]
    ensures |Split(body, '.')| == 2 ==> body == Split(body, '.')[0] + "." + Split(body, '.')[1]
  {
    if AllDigits(body) {
      assert forall k :: 0 <= k < |body| ==> body[k] != '.';
      SplitWithout(body, '.');
    }
    var parts := Split(body, '.');
    if |parts| == 2 {
      JoinSplit(body, '.');
      assert Join(parts, '.') == parts[0] + ['.'] + Join(parts[1..], '.');
    }
  }

  const InvalidDecimalList := "Please enter valid decimal numbers"

  /** Whether every piece of a split list is a decimal, scanning from the front. */
  predicate AllDecimal(pieces: seq<string>)
  {
    forall k :: 0 <= k < |pieces| ==> IsDecimal(pieces[k])
  }

  /** `validate_decimal_list`: every comma-separated piece must parse as a decimal. */
  function ValidateDecimalList(value: string): (error: Option<string>)
    ensures error.None? <==> AllDecimal(Split(value, ','))
    ensures error.Some? ==> error.value == InvalidDecimalList
  {
    if AllDecimal(Split(value, ',')) then None else Some(InvalidDecimalList)
  }

  /** A list is valid exactly when its first entry is a decimal and the rest of the list is valid. */
  lemma DecimalListCons(first: string, rest: string)
    requires ',' !in first
    ensures ValidateDecimalList(first + "," + rest).None? <==>
            IsDecimal(first) && ValidateDecimalList(rest).None?
  {
    assert first + "," + rest == first + [','] + rest;
    SplitAtFirst(first, ',', rest);
    var tail := Split(rest, ',');
    var pieces := [first] + tail;
    assert Split(first + "," + rest, ',') == pieces;
    assert pieces[0] == first;
    assert forall k :: 1 <= k < |pieces| ==> pieces[k] == tail[k - 1];
    if AllDecimal(pieces) {
      forall k | 0 <= k < |tail| ensures IsDecimal(tail[k]) {
        assert pieces[k + 1] == tail[k];
      }
    }
  }

  /** A single entry without a comma is valid exactly when it is a decimal. */
  lemma DecimalListSingle(value: string)
    requires ',' !in value
    ensures ValidateDecimalList(value).None? <==> IsDecimal(value)
  {
    SplitWithout(value, ',');
    assert [value][0] == value;
  }

  /** Joining valid decimals with commas gives a valid list. */
  lemma {:induction false} DecimalListOfDecimals(values: seq<string>)
    requires |values| >= 1 && forall k :: 0 <= k < |values| ==> IsDecimal(values[k]) && ',' !in values[k]
    ensures ValidateDecimalList(Join(values, ',')).None?
  {
    SplitJoin(values, ',');
  }

  // ---------------------------------------------------------------------------
  // price_source
  // ---------------------------------------------------------------------------

  const PriceSources: set<string> := {"current_market", "external_market", "multi_market", "custom_api"}

  const InvalidPriceSource := "Invalid price source type."

  /** The `price_source` entry's validator. */
  function ValidatePriceSource(value: string): (error: Option<string>)
    ensures error.None? <==> value in PriceSources
    ensures error.Some? ==> error.value == InvalidPriceSource
  {
    if value in PriceSources then None else Some(InvalidPriceSource)
  }

  // ---------------------------------------------------------------------------
  // price_source_exchanges_and_markets
  // ---------------------------------------------------------------------------

  const TooFewReferenceMarkets := "The multi_market price source requires at least two reference markets."

  function NotExchangeMarketPair(entry: string): string
  {
    "The value " + entry + " is not a valid exchange:market pair"
  }

  /** The first entry that is not `exchange:market`, if any. */
  function FirstMalformedEntry(entries: seq<string>): (r: Option<string>)
    ensures r.Some? ==> r.value in entries && SplitOnce(r.value, ':').None?
    ensures r.None? <==> forall k :: 0 <= k < |entries| ==> SplitOnce(entries[k], ':').Some?
    ensures r.Some? ==> exists k :: 0 <= k < |entries| && entries[k] == r.value
                                    && forall j :: 0 <= j < k ==> SplitOnce(entries[j], ':').Some?
  {
    if entries == [] then None
    else if SplitOnce(entries[0], ':').None? then Some(entries[0])
    else
      var r := FirstMalformedEntry(entries[1..]);
      assert forall k :: 1 <= k < |entries| ==> entries[k] == entries[1..][k - 1];
      if r.Some? then
        var k :| 0 <= k < |entries[1..]| && entries[1..][k] == r.value
                 && forall j :: 0 <= j < k ==> SplitOnce(entries[1..][j], ':').Some?;
        assert entries[k + 1] == r.value;
        assert forall j :: 0 <= j < k + 1 ==> SplitOnce(entries[j], ':').Some?;
        r
      else r
  }

  /** The (exchange, market) of each entry. */
  function ExchangeMarkets(entries: seq<string>): (r: seq<(string, string)>)
    requires forall k :: 0 <= k < |entries| ==> SplitOnce(entries[k], ':').Some?
    ensures |r| == |entries|
    ensures forall k :: 0 <= k < |entries| ==> r[k] == SplitOnce(entries[k], ':').value
  {
    seq(|entries|, k requires 0 <= k < |entries| => SplitOnce(entries[k], ':').value)
  }

  function Markets(pairs: seq<(string, string)>): (r: seq<string>)
    ensures |r| == |pairs| && forall k :: 0 <= k < |pairs| ==> r[k] == pairs[k].1
  {
    seq(|pairs|, k requires 0 <= k < |pairs| => pairs[k].1)
  }

  /** The errors the per-market check reports, in entry order. */
  function MarketErrors(pairs: seq<(string, string)>, validateMarket: (string, string) -> Option<string>): (r: seq<string>)
    ensures |r| <= |pairs|
    ensures |r| == 0 <==> forall k :: 0 <= k < |pairs| ==> validateMarket(pairs[k].0, pairs[k].1).None?
    decreases |pairs|
  {
    if pairs == [] then []
    else
      var rest := MarketErrors(pairs[1..], validateMarket);
      assert forall k :: 1 <= k < |pairs| ==> pairs[k] == pairs[1..][k - 1];
      match validateMarket(pairs[0].0, pairs[0].1)
      case Some(e) => [e] + rest
      case None => rest
  }

  /**
   * The `price_source_exchanges_and_markets` validator: at least two
   * comma-separated `exchange:market` entries whose markets chain the way
   * `MultiMarketAssetPriceDelegate.for_markets` requires, each market
   * passing the per-market check (`validateMarket`); the per-market
   * errors are joined with newlines. `Err(pair)` stands for the unpacking
   * error Python raises for a market that is not BASE-QUOTE.
   */
  function ValidateExchangesAndMarkets(value: string, validateMarket: (string, string) -> Option<string>)
    : (r: Result<Option<string>, string>)
    ensures |Split(value, ',')| < 2 ==> r == Ok(Some(TooFewReferenceMarkets))
  {
    var entries := Split(value, ',');
    if |entries| < 2 then Ok(Some(TooFewReferenceMarkets))
    else
      match FirstMalformedEntry(entries)
      case Some(entry) => Ok(Some(NotExchangeMarketPair(entry)))
      case None =>
        var pairs := ExchangeMarkets(entries);
        match AssetPriceDelegates.OrientChain(Markets(pairs))
        case Err(e) =>
          if e.MalformedPair? then Err(e.tradingPair) else Ok(AssetPriceDelegates.BuildErrorMessage(e))
        case Ok(_) =>
          var errors := MarketErrors(pairs, validateMarket);
          if errors == [] then Ok(None) else Ok(Some(Join(errors, '\n')))
  }

  /**
   * A list of two or more well-formed entries whose markets chain is
   * accepted exactly when every market passes its own check.
   */
  lemma ExchangesAndMarketsAccepted(value: string, validateMarket: (string, string) -> Option<string>)
    requires |Split(value, ',')| >= 2
    requires forall k :: 0 <= k < |Split(value, ',')| ==> SplitOnce(Split(value, ',')[k], ':').Some?
    requires AssetPriceDelegates.OrientChain(Markets(ExchangeMarkets(Split(value, ',')))).Ok?
    ensures ValidateExchangesAndMarkets(value, validateMarket) == Ok(None) <==>
            forall k :: 0 <= k < |Split(value, ',')| ==>
              validateMarket(SplitOnce(Split(value, ',')[k], ':').value.0,
                             SplitOnce(Split(value, ',')[k], ':').value.1).None?
  {
    var pairs := ExchangeMarkets(Split(value, ','));
    assert forall k :: 0 <= k < |pairs| ==> pairs[k] == SplitOnce(Split(value, ',')[k], ':').value;
  }

  /** Every error the chain check reports is the text `for_markets` raises with. */
  lemma ExchangesAndMarketsChainError(value: string, validateMarket: (string, string) -> Option<string>)
    requires |Split(value, ',')| >= 2
    requires forall k :: 0 <= k < |Split(value, ',')| ==> SplitOnce(Split(value, ',')[k], ':').Some?
    requires AssetPriceDelegates.OrientChain(Markets(ExchangeMarkets(Split(value, ',')))).Err?
    requires !AssetPriceDelegates.OrientChain(Markets(ExchangeMarkets(Split(value, ',')))).error.MalformedPair?
    ensures ValidateExchangesAndMarkets(value, validateMarket)
            == Ok(AssetPriceDelegates.BuildErrorMessage(
                    AssetPriceDelegates.OrientChain(Markets(ExchangeMarkets(Split(value, ',')))).error))
    ensures ValidateExchangesAndMarkets(value, validateMarket).value.Some?
  {
  }

  // ---------------------------------------------------------------------------
  // The configuration entries on_validate_price_source resets
  // ---------------------------------------------------------------------------

  /** The entries of the configuration map these checks read and reset; `None` is an unset value. */
  class ConfigMap {
    var exchange: Option<string>
    var priceSource: Option<string>
    var priceType: Option<string>
    var priceSourceExchange: Option<string>
    var priceSourceMarket: Option<string>
    var takeIfCrossed: Option<bool>
    var priceSourceCustomApi: Option<string>

    constructor ()
      ensures exchange == None && priceSource == None && priceType == None
      ensures priceSourceExchange == None && priceSourceMarket == None
      ensures takeIfCrossed == None && priceSourceCustomApi == None
    {
      exchange := None;
      priceSource := None;
      priceType := None;
      priceSourceExchange := None;
      priceSourceMarket := None;
      takeIfCrossed := None;
      priceSourceCustomApi := None;
    }

    /**
     * `on_validate_price_source`: a source other than an external market
     * clears the external exchange, market and take-if-crossed; a source
     * other than the custom API clears the API address; the custom API
     * sets the price type to "custom". Nothing else changes.
     */
    method OnValidatePriceSource(value: string)
      modifies this
      ensures value != "external_market" ==>
                priceSourceExchange == None && priceSourceMarket == None && takeIfCrossed == None
      ensures value == "external_market" ==>
                priceSourceExchange == old(priceSourceExchange) && priceSourceMarket == old(priceSourceMarket)
                && takeIfCrossed == old(takeIfCrossed)
      ensures value != "custom_api" ==> priceSourceCustomApi == None && priceType == old(priceType)
      ensures value == "custom_api" ==>
                priceSourceCustomApi == old(priceSourceCustomApi) && priceType == Some("custom")
                && ValidatePriceType(value, priceType.value).None?
      ensures exchange == old(exchange) && priceSource == old(priceSource)
    {
      if value != "external_market" {
        priceSourceExchange := None;
        priceSourceMarket := None;
        takeIfCrossed := None;
      }
      if value != "custom_api" {
        priceSourceCustomApi := None;
      } else {
        priceType := Some("custom");
      }
    }
  }
}

/**
 * The configuration tests' scenarios, as lemmas and methods over the model.
 */
module PmmConfigMapScenarios {
  import opened Wrappers
  import opened Strings
  import opened PmmConfigMap
  import AssetPriceDelegates

  /** The six market price types pass with the current market as source, "custom" does not; the reverse with the custom API. */
  lemma PriceTypesBySource()
    ensures forall t | t in MarketPriceTypes :: ValidatePriceType("current_market", t).None?
    ensures ValidatePriceType("current_market", "custom").Some?
    ensures forall t | t in MarketPriceTypes :: ValidatePriceType("custom_api", t).Some?
    ensures ValidatePriceType("custom_api", "custom").None?
  {
  }

  /** The maker exchange is refused as price source; another name, even one extending it, is not. */
  lemma PriceSourceExchangeCases(validateConnector: string -> Option<string>)
    requires validateConnector("kucoin").None? && validateConnector("binance_perpetual").None?
    ensures ValidatePriceSourceExchange("binance", "binance", validateConnector) == Some(SameAsMakerExchange)
    ensures ValidatePriceSourceExchange("binance", "kucoin", validateConnector).None?
    ensures ValidatePriceSourceExchange("binance", "binance_perpetual", validateConnector).None?
  {
  }

  /** "1" and "1,2" are decimal lists; "asd" is not. */
  lemma DecimalListCases()
    ensures ValidateDecimalList("1").None?
    ensures ValidateDecimalList("1,2").None?
    ensures ValidateDecimalList("asd") == Some("Please enter valid decimal numbers")
  {
    DecimalListSingle("1");
    assert Split("1", '.') == ["1"] by { SplitWithout("1", '.'); }
    assert IsDecimal("1");
    assert "1,2" == "1" + "," + "2";
    DecimalListCons("1", "2");
    DecimalListSingle("2");
    assert Split("2", '.') == ["2"] by { SplitWithout("2", '.'); }
    DecimalListSingle("asd");
    SplitWithout("asd", '.');
    assert !IsDigit("asd"[0]);
  }

  /** The four price sources pass; anything else is "Invalid price source type.". */
  lemma PriceSourceCases()
    ensures ValidatePriceSource("current_market").None?
    ensures ValidatePriceSource("external_market").None?
    ensures ValidatePriceSource("multi_market").None?
    ensures ValidatePriceSource("custom_api").None?
    ensures ValidatePriceSource("invalid_source") == Some("Invalid price source type.")
  {
  }

  /** One reference market is too few. */
  lemma OneReferenceMarket(exchange: string, market: string, validateMarket: (string, string) -> Option<string>)
    requires ',' !in exchange && ',' !in market
    ensures ValidateExchangesAndMarkets(exchange + ":" + market, validateMarket) == Ok(Some(TooFewReferenceMarkets))
  {
    SplitWithout(exchange + ":" + market, ',');
  }

  /** An entry without a colon is named in the error. */
  lemma EntryWithoutColon(first: string, second: string, validateMarket: (string, string) -> Option<string>)
    requires ',' !in first && ',' !in second && ':' !in second
    requires SplitOnce(first, ':').Some?
    ensures ValidateExchangesAndMarkets(first + "," + second, validateMarket)
            == Ok(Some("The value " + second + " is not a valid exchange:market pair"))
  {
    assert first + "," + second == first + [','] + second;
    SplitAtFirst(first, ',', second);
    SplitWithout(second, ',');
    SplitWithout(second, ':');
    var entries := [first, second];
    assert FirstMalformedEntry(entries[1..]) == Some(second);
  }

  /** Two reference markets sharing no token are refused with the delegate's message. */
  lemma UnconnectedMarkets(ex1: string, ex2: string, t1: string, t2: string, t3: string, t4: string,
                           validateMarket: (string, string) -> Option<string>)
    requires ',' !in ex1 && ',' !in ex2 && ':' !in ex1 && ':' !in ex2
    requires forall t | t in [t1, t2, t3, t4] :: '-' !in t && ',' !in t && ':' !in t
    requires t3 != t2 && t4 != t2
    ensures ValidateExchangesAndMarkets(ex1 + ":" + CombinePair(t1, t2) + "," + ex2 + ":" + CombinePair(t3, t4), validateMarket)
            == Ok(Some("It is impossible to configure a price provider combining the prices from " + CombinePair(t1, t2)
                       + " with the prices from " + CombinePair(t3, t4)))
  {
    TwoEntryValidation(ex1, ex2, CombinePair(t1, t2), CombinePair(t3, t4), validateMarket);
    PairRoundTrip(t1, t2);
    PairRoundTrip(t3, t4);
    var tail := [CombinePair(t3, t4)];
    assert [CombinePair(t1, t2), CombinePair(t3, t4)][1..] == tail;
    assert AssetPriceDelegates.Orient(t2, CombinePair(t1, t2), tail)
           == Err(AssetPriceDelegates.Disconnected(CombinePair(t1, t2), CombinePair(t3, t4)));
  }

  /** The check of `ex1:m1,ex2:m2` comes down to the chain check and the per-market checks of `m1` and `m2`. */
  lemma TwoEntryValidation(ex1: string, ex2: string, m1: string, m2: string,
                           validateMarket: (string, string) -> Option<string>)
    requires ',' !in ex1 && ',' !in ex2 && ':' !in ex1 && ':' !in ex2
    requires ',' !in m1 && ',' !in m2 && ':' !in m1 && ':' !in m2
    ensures var r := ValidateExchangesAndMarkets(ex1 + ":" + m1 + "," + ex2 + ":" + m2, validateMarket);
            match AssetPriceDelegates.OrientChain([m1, m2])
            case Err(e) => r == (if e.MalformedPair? then Err(e.tradingPair) else Ok(AssetPriceDelegates.BuildErrorMessage(e)))
            case Ok(_) =>
              var errors := MarketErrors([(ex1, m1), (ex2, m2)], validateMarket);
              r == (if errors == [] then Ok(None) else Ok(Some(Join(errors, '\n'))))
  {
    EntriesOfTwo(ex1, ex2, m1, m2);
    var pairs := ExchangeMarkets([ex1 + ":" + m1, ex2 + ":" + m2]);
    assert pairs == [(ex1, m1), (ex2, m2)];
    assert Markets(pairs) == [m1, m2];
  }

  /** Splitting `ex1:m1,ex2:m2` gives the two entries and their exchanges and markets. */
  lemma EntriesOfTwo(ex1: string, ex2: string, m1: string, m2: string)
    requires ',' !in ex1 && ',' !in ex2 && ':' !in ex1 && ':' !in ex2
    requires ',' !in m1 && ',' !in m2 && ':' !in m1 && ':' !in m2
    ensures Split(ex1 + ":" + m1 + "," + ex2 + ":" + m2, ',') == [ex1 + ":" + m1, ex2 + ":" + m2]
    ensures SplitOnce(ex1 + ":" + m1, ':') == Some((ex1, m1))
    ensures SplitOnce(ex2 + ":" + m2, ':') == Some((ex2, m2))
    ensures FirstMalformedEntry([ex1 + ":" + m1, ex2 + ":" + m2]).None?
  {
    var e1 := ex1 + ":" + m1;
    var e2 := ex2 + ":" + m2;
    assert ex1 + ":" + m1 + "," + ex2 + ":" + m2 == e1 + [','] + e2;
    assert ',' !in e1;
    assert ',' !in e2;
    SplitAtFirst(e1, ',', e2);
    SplitWithout(e2, ',');
    assert e1 == ex1 + [':'] + m1;
    assert e2 == ex2 + [':'] + m2;
    SplitOnceOfPair(ex1, ':', m1);
    SplitOnceOfPair(ex2, ':', m2);
  }

  /** Connected markets: every failing per-market check is reported, one per line; none failing gives no error. */
  lemma ConnectedMarkets(ex: string, t1: string, t2: string, t3: string, message: string,
                         validateMarket: (string, string) -> Option<string>)
    requires ',' !in ex && ':' !in ex
    requires forall t | t in [t1, t2, t3] :: '-' !in t && ',' !in t && ':' !in t
    ensures var value := ex + ":" + CombinePair(t1, t2) + "," + ex + ":" + CombinePair(t2, t3);
            (validateMarket(ex, CombinePair(t1, t2)) == Some(message)
             && validateMarket(ex, CombinePair(t2, t3)) == Some(message)
             ==> ValidateExchangesAndMarkets(value, validateMarket) == Ok(Some(message + "\n" + message)))
            && (validateMarket(ex, CombinePair(t1, t2)).None? && validateMarket(ex, CombinePair(t2, t3)).None?
                ==> ValidateExchangesAndMarkets(value, validateMarket) == Ok(None))
  {
    TwoEntryValidation(ex, ex, CombinePair(t1, t2), CombinePair(t2, t3), validateMarket);
    var pairs := [(ex, CombinePair(t1, t2)), (ex, CombinePair(t2, t3))];
    PairRoundTrip(t1, t2);
    AssetPriceDelegates.OrientStep(t2, CombinePair(t1, t2), t2, t3, []);
    assert [CombinePair(t2, t3)] + [] == [CombinePair(t1, t2), CombinePair(t2, t3)][1..];
    assert AssetPriceDelegates.OrientChain([CombinePair(t1, t2), CombinePair(t2, t3)]).Ok?;
    assert pairs[1..][1..] == [];
    assert MarketErrors(pairs[1..][1..], validateMarket) == [];
    if validateMarket(ex, CombinePair(t1, t2)) == Some(message) && validateMarket(ex, CombinePair(t2, t3)) == Some(message) {
      assert MarketErrors(pairs[1..], validateMarket) == [message];
      assert MarketErrors(pairs, validateMarket) == [message, message];
      assert Join([message, message], '\n') == message + "\n" + Join([message], '\n');
    }
  }

  /** A non-external, non-custom source clears the external-market entries and the custom API. */
  method ResetForCurrentMarket() returns (cm: ConfigMap)
    ensures cm.priceSourceExchange == None && cm.priceSourceMarket == None && cm.takeIfCrossed == None
    ensures cm.priceSourceCustomApi == None
  {
    cm := new ConfigMap();
    cm.priceSourceExchange := Some("an_extmkt");
    cm.priceSourceMarket := Some("COINALPHA-HBOT");
    cm.takeIfCrossed := Some(false);
    cm.priceSourceCustomApi := Some("https://someurl.com");
    cm.OnValidatePriceSource("current_market");
  }

  /** The custom API source sets the price type to "custom". */
  method CustomApiSetsPriceType() returns (cm: ConfigMap)
    ensures cm.priceType == Some("custom")
  {
    cm := new ConfigMap();
    cm.OnValidatePriceSource("custom_api");
  }
}
