# Hummingbot: AlphaPoint connector bookkeeping, order fills, price delegates and PMM configuration checks

This project is a Dafny model of five pieces of a hummingbot fork:

- **The AlphaPoint exchange connector's bookkeeping** (`alpha_point_exchange.py`).
  - It normalises order-state and trade payloads into the generic `OrderUpdate` and `TradeUpdate` records handed to the order tracker.
  - It keeps the total and available balance maps.
  - It runs the order-status poll cycle: gather the replies, validate them, take the fills floor, then route every fill before any status.
  - It builds the instrument id to trading pair map and the token id map.
  - It routes errors in order placement and cancellation.
  - Every exchange reply is an input. The order tracker is not part of this model; the connector's calls into it are recorded, in order, as a log.
- **The AlphaPoint WebSocket pre- and post-processors** (`alpha_point_web_utils.py`). They stamp each request with the request message type and an even, strictly increasing sequence number, and encode or decode its data field.
- **The in-flight order's fill bookkeeping**, as the Huobi connector tests expect it (`test_huobi_exchange.py`).
  - Fees and executed amounts accumulate over distinct fills.
  - A trade id is applied at most once, whether the user stream or the REST poll reports it.
  - Every accepted fill emits one fill notification.
  - The completion notification is emitted once. It comes only after the exchange reports the terminal "filled" status and the fills cover the order amount.
- **The asset price delegates** a market-making strategy reads its reference price from.
  - The order-book delegate reads one book.
  - Its inverse reads the same book the other way round (1/p, pair QUOTE-BASE).
  - The multi-market delegate chains books whose tokens meet end to end. Each hop is used directly or inverted, and the chain's price is the product of the hop prices.
- **The pure-market-making configuration checks**.
  - The validators of `price_type`, `price_source_exchange`, the decimal lists, `price_source` and `price_source_exchanges_and_markets` each answer a value with an optional error text.
  - `on_validate_price_source` resets the dependent entries of the configuration.

Modules:

| file | module | what it holds |
|---|---|---|
| wrappers.dfy | `Wrappers` | `Option`, `Result` |
| strings.dfy | `Strings` | `str.split`, `sep.join`, two-part unpacking, `BASE-QUOTE` pairs, `str(int)` |
| order_data.dfy | `InFlightOrderData` | order states, `TradeFee`, `OrderUpdate`, `TradeUpdate` |
| order_tracker.dfy | `OrderTracker`, `OrderTrackerScenarios` | the specification `Progress`/`Replay` and the class `InFlightOrder` proved against it |
| price_delegates.dfy | `AssetPriceDelegates`, `AssetPriceDelegateScenarios` | direct, inverse and multi-market delegates |
| pmm_config_map.dfy | `PmmConfigMap`, `PmmConfigMapScenarios` | validators and the class `ConfigMap` |
| alpha_point_web_utils.dfy | `AlphaPointWebUtils` | the classes `WSPreProcessor`, `WSRequest`, `WSResponse` |
| alpha_point_exchange.dfy | `AlphaPointExchange` | normalisation, poll cycle, balances, symbol maps, and the class `AlphaPointExchange` |

Where the source mutates state, the model is a class:

- `AlphaPointExchange` holds the balance maps, the token id map, the instrument map and the log of tracker calls.
- `WSPreProcessor` holds the sequence counter.
- `InFlightOrder` holds the fills, fees and notifications.
- `ConfigMap` holds the configuration entries.

Each method is proved against a specification function. The properties the source promises are lemmas about those functions.

Two points where the model departs from the design or fills a gap in it:

- The design describes an inverse delegate that swaps best bid and best ask before inverting. The delegate's implementation is not part of this model and no test of it asserts the swap, so every modelled price type is inverted as 1/p; see Left out.
- A multi-market list entry whose market is not `BASE-QUOTE` makes Python's two-part unpacking raise. The model returns `Err(pair)` for it instead of inventing an error text.

## Model

| member | source | states |
|---|---|---|
| AlphaPointExchange.FetchOrder | hummingbot/connector/exchange/alpha_point/alpha_point_exchange.py:438-441 | a found order is tracked and carries the requested client order id; None means no tracked order has that id |
| AlphaPointExchange.NormalizeOrderEvent | hummingbot/connector/exchange/alpha_point/alpha_point_exchange.py:436-457 | an untracked order gives no update; ACTIVE maps to PARTIALLY_FILLED exactly when the executed quantity is non-zero and to OPEN otherwise; any other state goes through the state map, and a state missing from the map raises; the update carries the order's pair, the exchange order id and the update time |
| AlphaPointExchange.FeeToken | hummingbot/connector/exchange/alpha_point/alpha_point_exchange.py:466-468 | a non-zero fee is charged in the token-id-map entry of its product id (a missing entry raises); a zero fee is charged in the order's quote asset |
| AlphaPointExchange.NormalizeTrade | hummingbot/connector/exchange/alpha_point/alpha_point_exchange.py:459-489 | an untracked order gives no update; an unknown side or an unmapped fee token raises; otherwise the fill has quote amount = amount x price, the trade's ids, pair and time, and one flat fee of exactly the trade's fee amount in the fee token |
| AlphaPointExchange.Handle | hummingbot/connector/exchange/alpha_point/alpha_point_exchange.py:436-489 | an order-state payload has exactly its normaliser's outcome: the same order update, and a raise exactly when the state lookup raises; a trade payload likewise with its fill update; an update keeps the payload's kind |
| AlphaPointExchange.RouterRoutesByKind | hummingbot/connector/exchange/alpha_point/alpha_point_exchange.py:436-489 | the connector never turns a fill into an order update or a status into a fill update |
| AlphaPointExchange.HandleUntilRaise | hummingbot/connector/exchange/alpha_point/alpha_point_exchange.py:369-374 | at most one tracker call per payload handled in a poll cycle; when it raises and which calls it makes is `HandleUntilFirstRaise` |
| AlphaPointExchange.FirstRaise | hummingbot/connector/exchange/alpha_point/alpha_point_exchange.py:369-374 | the position of the first payload whose lookup raises: no payload before it raises, and the one at it does unless it is past the end |
| AlphaPointExchange.HandleUntilFirstRaise | hummingbot/connector/exchange/alpha_point/alpha_point_exchange.py:369-374 | the poll cycle raises exactly when some payload's lookup raises, and its calls are those of every payload before the first raising one, as the listener would make them |
| AlphaPointExchange.HandleEach | hummingbot/connector/exchange/alpha_point/alpha_point_exchange.py:255-273 | at most one tracker call per payload handled by the user-stream listener |
| AlphaPointExchange.UntilRaiseIsPrefixOfEach | hummingbot/connector/exchange/alpha_point/alpha_point_exchange.py:255-273 | an exception that ends the poll cycle only cuts its calls short: they are a prefix of the listener's calls for the same payloads, and equal to them when nothing raised |
| AlphaPointExchange.HandleUntilRaiseAppend | hummingbot/connector/exchange/alpha_point/alpha_point_exchange.py:369-374 | handling two batches in a row: the second batch is reached only if the first did not raise, and its calls follow the first batch's |
| AlphaPointExchange.HandleUntilRaiseRanks | hummingbot/connector/exchange/alpha_point/alpha_point_exchange.py:369-374 | payloads of one kind produce only calls of that kind |
| AlphaPointExchange.RaisedPrefixDecides | hummingbot/connector/exchange/alpha_point/alpha_point_exchange.py:369-374 | once a payload raises, later payloads change nothing |
| AlphaPointExchange.Successes | hummingbot/connector/exchange/alpha_point/alpha_point_exchange.py:405-415 | `_gather_tasks` never returns more replies than fetches |
| AlphaPointExchange.SuccessesAreReplies | hummingbot/connector/exchange/alpha_point/alpha_point_exchange.py:405-415 | every reply kept is a successful fetch |
| AlphaPointExchange.SuccessesWithoutFailures | hummingbot/connector/exchange/alpha_point/alpha_point_exchange.py:405-415 | with no failed fetch, every reply is kept at its own position |
| AlphaPointExchange.GatherTasks | hummingbot/connector/exchange/alpha_point/alpha_point_exchange.py:405-415 | the loop keeps exactly the non-exception results, in their original order |
| AlphaPointExchange.ValidateUpTo | hummingbot/connector/exchange/alpha_point/alpha_point_exchange.py:417-427 | every zipped position is either kept or reported not found; kept replies are error-free replies of the input; reports are not-found calls; which ones is `ValidatePairsByPosition` |
| AlphaPointExchange.ErrorFree | hummingbot/connector/exchange/alpha_point/alpha_point_exchange.py:417-427 | the error-free replies: no more than were given, each one a given error-free reply, and every given error-free reply among them |
| AlphaPointExchange.ValidatePairsByPosition | hummingbot/connector/exchange/alpha_point/alpha_point_exchange.py:417-427 | over the first n zip positions the kept replies are exactly the error-free replies, in order, and an order id is reported not found exactly when the reply at one of its positions carries an error code, whichever order that reply was fetched for |
| AlphaPointExchange.Validate | hummingbot/connector/exchange/alpha_point/alpha_point_exchange.py:417-427 | one outcome per zipped pair, as many as the shorter list; kept replies are error-free replies of the input |
| AlphaPointExchange.ValidateGathered | hummingbot/connector/exchange/alpha_point/alpha_point_exchange.py:405-427 | never more outcomes than fetches or tracked orders |
| AlphaPointExchange.AlphaPointExchange.ValidateStatusResponses | hummingbot/connector/exchange/alpha_point/alpha_point_exchange.py:417-427 | the loop keeps exactly the error-free replies within the zip, in order, and logs an order id as not found exactly when the reply at one of that order's zip positions carries an error code |
| AlphaPointExchange.ValidateAligned | hummingbot/connector/exchange/alpha_point/alpha_point_exchange.py:405-427 | corrected pass: each reply is validated against the order it was fetched for; reports are not-found calls and kept replies carry no error code; which ones is `AlignedKeepsErrorFree` and `AlignedNotFoundIsOwnError` |
| AlphaPointExchange.AlignedNotFoundIsOwnError | hummingbot/connector/exchange/alpha_point/alpha_point_exchange.py:417-427 | corrected pass: an order is reported not found if and only if its own fetch replied with an error code |
| AlphaPointExchange.AlignedKeepsErrorFree | hummingbot/connector/exchange/alpha_point/alpha_point_exchange.py:417-427 | corrected pass: the kept replies are exactly the error-free replies of the fetches that replied, in order |
| AlphaPointExchange.GatheredIsAlignedWithoutFailures | hummingbot/connector/exchange/alpha_point/alpha_point_exchange.py:405-427 | when no fetch fails, the code as written and the corrected pass agree |
| AlphaPointExchange.ZipReportsWrongOrder | hummingbot/connector/exchange/alpha_point/alpha_point_exchange.py:405-427 | as written, a failed first fetch plus an error-coded second reply reports the first order not found; the corrected pass reports the second |
| AlphaPointExchange.MinReceiveTime | hummingbot/connector/exchange/alpha_point/alpha_point_exchange.py:360-362 | the fills floor is a lower bound of every valid reply's receive time and is attained by one of them |
| AlphaPointExchange.TradeMessages | hummingbot/connector/exchange/alpha_point/alpha_point_exchange.py:369-371 | payload k is the trade payload of fetched fill k: one per fill, in order |
| AlphaPointExchange.StateMessages | hummingbot/connector/exchange/alpha_point/alpha_point_exchange.py:373-374 | payload k is the order-state payload of valid reply k: one per reply, in order |
| AlphaPointExchange.StatusFetches | hummingbot/connector/exchange/alpha_point/alpha_point_exchange.py:352-356 | fetch k is the status reply for tracked order k |
| AlphaPointExchange.FillsFetches | hummingbot/connector/exchange/alpha_point/alpha_point_exchange.py:363-367 | fetch k is the trade history of trading pair k from the given floor |
| AlphaPointExchange.StatusRequests | hummingbot/connector/exchange/alpha_point/alpha_point_exchange.py:352-356 | request k asks for the status of tracked order k by its exchange order id |
| AlphaPointExchange.FillsRequests | hummingbot/connector/exchange/alpha_point/alpha_point_exchange.py:363-367 | request k asks for the trade history of trading pair k, every one from the same floor |
| AlphaPointExchange.FillsPhase | hummingbot/connector/exchange/alpha_point/alpha_point_exchange.py:359-367 | one fills request per trading pair, request k for pair k, each starting at the minimum receive time of the valid replies |
| AlphaPointExchange.PollCycle | hummingbot/connector/exchange/alpha_point/alpha_point_exchange.py:344-374 | the requests start with one status request per tracked order, and the tracker calls start with the not-found reports of the validated replies |
| AlphaPointExchange.PollFetchesOnlyWhenNeeded | hummingbot/connector/exchange/alpha_point/alpha_point_exchange.py:344-359 | nothing is requested or reported without tracked orders; no fills are requested when no valid status remains; the status requests come first |
| AlphaPointExchange.PollFillsFloor | hummingbot/connector/exchange/alpha_point/alpha_point_exchange.py:359-367 | every fills request starts at the minimum receive time of the valid status replies |
| AlphaPointExchange.RoutedFillsFirst | hummingbot/connector/exchange/alpha_point/alpha_point_exchange.py:369-374 | fills routed ahead of statuses yield every fill update before any order update |
| AlphaPointExchange.FillsPhaseSorted | hummingbot/connector/exchange/alpha_point/alpha_point_exchange.py:359-374 | in the second half of a cycle every fill reaches the tracker before any status |
| AlphaPointExchange.PollFillsBeforeStatuses | hummingbot/connector/exchange/alpha_point/alpha_point_exchange.py:344-374 | in a whole poll cycle the tracker receives the not-found reports, then every fill, then every status update |
| AlphaPointExchange.ReportedAssets | hummingbot/connector/exchange/alpha_point/alpha_point_exchange.py:334-337 | `remote_asset_names` is exactly the set of assets the report names |
| AlphaPointExchange.SetPositions | hummingbot/connector/exchange/alpha_point/alpha_point_exchange.py:334-337 | applying a report adds exactly the reported assets and leaves unreported entries unchanged |
| AlphaPointExchange.LastReportWins | hummingbot/connector/exchange/alpha_point/alpha_point_exchange.py:334-337 | the last position reported for an asset decides its balance |
| AlphaPointExchange.Restrict | hummingbot/connector/exchange/alpha_point/alpha_point_exchange.py:339-342 | deleting the unreported assets keeps exactly the reported keys, with their values |
| AlphaPointExchange.RefreshForgetsOldBalances | hummingbot/connector/exchange/alpha_point/alpha_point_exchange.py:319-342 | after the refresh no balance from before the report survives: the maps equal the report applied to empty maps |
| AlphaPointExchange.DroppedUnreported | hummingbot/connector/exchange/alpha_point/alpha_point_exchange.py:339-342 | a map holding exactly the reported assets, with the values the report set, is the report applied to an empty map |
| AlphaPointExchange.BuildSymbolMaps | hummingbot/connector/exchange/alpha_point/alpha_point_exchange.py:539-563 | the instrument map is injective and its ids are exactly the accepted rows' ids, each mapped to its row's pair; every accepted row is valid; every valid row is mapped or collides with an earlier id or pair; accepted rows add their base and quote ids to the token map, which only grows |
| AlphaPointExchange.TokenIdsKeys | hummingbot/connector/exchange/alpha_point/alpha_point_exchange.py:546-555 | an asset id is in the token map exactly when it was there before or an accepted row names it as base or quote |
| AlphaPointExchange.TokenIdsFromLastAcceptedRow | hummingbot/connector/exchange/alpha_point/alpha_point_exchange.py:546-555 | each asset id carries the token name of the last accepted row naming it (a row's quote written after its base), or its earlier name when no accepted row names it |
| AlphaPointExchange.EarlierEntriesKept | hummingbot/connector/exchange/alpha_point/alpha_point_exchange.py:546-555 | the first row to claim an instrument id or a trading pair keeps it, since later rows only add entries |
| AlphaPointExchange.PlaceOrder | hummingbot/connector/exchange/alpha_point/alpha_point_exchange.py:248-250 | an error code gives the `IOError` text `Error submitting order <id>: <message>`, with `<id>` the text of the client order id; otherwise the exchange order id as text and the current time |
| AlphaPointExchange.AlphaPointExchange.constructor | hummingbot/connector/exchange/alpha_point/alpha_point_exchange.py:44-63 | empty balance, token and instrument maps; no tracker calls |
| AlphaPointExchange.AlphaPointExchange.ProcessAccountPositionEvent | hummingbot/connector/exchange/alpha_point/alpha_point_exchange.py:429-434 | total = amount and available = amount - on hold for that asset; every other asset keeps its balances |
| AlphaPointExchange.AlphaPointExchange.UpdateBalances | hummingbot/connector/exchange/alpha_point/alpha_point_exchange.py:319-342 | both maps become the report applied to empty maps, so the total-balance keys are exactly the reported assets |
| AlphaPointExchange.AlphaPointExchange.DeleteAssets | hummingbot/connector/exchange/alpha_point/alpha_point_exchange.py:339-342 | each named asset leaves both maps; the others keep their balances |
| AlphaPointExchange.AlphaPointExchange.InitializeTradingPairSymbols | hummingbot/connector/exchange/alpha_point/alpha_point_exchange.py:539-563 | the loop builds the instrument map and the token id map that `BuildSymbolMaps` specifies |
| AlphaPointExchange.AlphaPointExchange.HandleMessage | hummingbot/connector/exchange/alpha_point/alpha_point_exchange.py:436-489 | a payload adds its routed call to the tracker log, or nothing, and reports whether a lookup raised |
| AlphaPointExchange.AlphaPointExchange.HandleUntilRaised | hummingbot/connector/exchange/alpha_point/alpha_point_exchange.py:369-374 | the loop adds exactly the calls of the payloads before the first one that raises |
| AlphaPointExchange.AlphaPointExchange.HandleFillsThenStatuses | hummingbot/connector/exchange/alpha_point/alpha_point_exchange.py:369-374 | the two loops together log every fill, then every status, and stop at the first exception |
| AlphaPointExchange.AlphaPointExchange.ProcessFillsThenStatuses | hummingbot/connector/exchange/alpha_point/alpha_point_exchange.py:359-374 | requests the fills from the floor, then logs the calls of the fills phase |
| AlphaPointExchange.AlphaPointExchange.UpdateOrderStatus | hummingbot/connector/exchange/alpha_point/alpha_point_exchange.py:344-374 | requests and tracker calls are those of `PollCycle`, whose ordering and floor the lemmas above establish |
| AlphaPointExchange.AlphaPointExchange.HandleUserEvent | hummingbot/connector/exchange/alpha_point/alpha_point_exchange.py:258-268 | a position event updates only the balances; an order-state or trade event only adds its routed call; an unknown endpoint changes nothing |
| AlphaPointExchange.AlphaPointExchange.UserStreamEventListener | hummingbot/connector/exchange/alpha_point/alpha_point_exchange.py:255-273 | the balances are every streamed position applied in order; the tracker log holds every payload's call, because an exception in one event does not stop the listener |
| AlphaPointExchange.AlphaPointExchange.PlaceCancel | hummingbot/connector/exchange/alpha_point/alpha_point_exchange.py:173-194 | an error code raises with the reply's message, after reporting the order not found exactly when the message is the not-found one; otherwise the reply's result |
| AlphaPointWebUtils.PreProcessed | hummingbot/connector/exchange/alpha_point/alpha_point_web_utils.py:29-34 | the payload gains the request message type and the sequence number, its data field is replaced by its encoding, and the other fields are unchanged; a payload without a data field raises |
| AlphaPointWebUtils.PostProcessed | hummingbot/connector/exchange/alpha_point/alpha_point_web_utils.py:42-45 | data without a data field is returned unchanged; a data field that is not JSON text makes it raise; otherwise only the data field is replaced by its decoding |
| AlphaPointWebUtils.PostProcessInvertsPreProcess | hummingbot/connector/exchange/alpha_point/alpha_point_web_utils.py:29-45 | decoding a pre-processed frame gives back the request's data wherever decoding inverts encoding |
| AlphaPointWebUtils.WSRequest.constructor | hummingbot/connector/exchange/alpha_point/alpha_point_web_utils.py:29 | a request holds the payload it was given |
| AlphaPointWebUtils.WSResponse.constructor | hummingbot/connector/exchange/alpha_point/alpha_point_web_utils.py:42 | a response holds the data it was given |
| AlphaPointWebUtils.SequenceNumber | hummingbot/connector/exchange/alpha_point/alpha_point_web_utils.py:36-38 | every sequence number handed out is even and at least 2 |
| AlphaPointWebUtils.SequenceNumbersIncrease | hummingbot/connector/exchange/alpha_point/alpha_point_web_utils.py:26-38 | later sequence numbers are strictly larger, by exactly 2 per call in between |
| AlphaPointWebUtils.WSPreProcessor.constructor | hummingbot/connector/exchange/alpha_point/alpha_point_web_utils.py:26-27 | the counter starts at 0 with nothing handed out |
| AlphaPointWebUtils.WSPreProcessor.GenerateSequenceNumber | hummingbot/connector/exchange/alpha_point/alpha_point_web_utils.py:36-38 | the counter goes up by 2 and the new value is returned: the n-th number is 2(n+1) |
| AlphaPointWebUtils.WSPreProcessor.PreProcess | hummingbot/connector/exchange/alpha_point/alpha_point_web_utils.py:29-34 | the request becomes `PreProcessed` with the next sequence number; a missing data field raises after the stamping, and the number is spent either way |
| AlphaPointWebUtils.PostProcess | hummingbot/connector/exchange/alpha_point/alpha_point_web_utils.py:42-45 | the response becomes `PostProcessed`; data that is not JSON text raises and is left as it was |
| AlphaPointWebUtils.ThreeRequests | hummingbot/connector/exchange/alpha_point/alpha_point_web_utils.py:26-38 | three requests through one pre-processor carry the numbers 2, 4 and 6 |
| OrderTracker.SumAppend | test/hummingbot/connector/exchange/huobi/test_huobi_exchange.py:130-180 | a running total over fills (fee paid, executed amount) adds up batch by batch |
| OrderTracker.SumPermutation | test/hummingbot/connector/exchange/huobi/test_huobi_exchange.py:130-194 | a total over fills (executed amount, fee paid) does not depend on their arrival order |
| OrderTracker.StepKeepsInv | test/hummingbot/connector/exchange/huobi/test_huobi_exchange.py:188-194 | one fill or status keeps: distinct trade ids, at most one completion, completion only when FILLED, and completion once FILLED with the amount covered |
| OrderTracker.ReplayKeepsInv | test/hummingbot/connector/exchange/huobi/test_huobi_exchange.py:188-194 | whatever the exchange reports, in whatever order, the completion notification is emitted at most once, only for a FILLED order, and always once a FILLED order's fills cover its amount |
| OrderTracker.DuplicateTradeIgnored | test/hummingbot/connector/exchange/huobi/test_huobi_exchange.py:465-466 | applying the same trade twice equals applying it once |
| OrderTracker.NoCompletionWithoutFilledStatus | test/hummingbot/connector/exchange/huobi/test_huobi_exchange.py:188-194 | fills alone never complete an order: without a FILLED status no completion is emitted, whatever the fills add up to |
| OrderTracker.DistinctTradesAllApplied | test/hummingbot/connector/exchange/huobi/test_huobi_exchange.py:130-131 | with distinct trade ids every reported fill is accepted, in delivery order |
| OrderTracker.ExecutedAmountOrderIndependent | test/hummingbot/connector/exchange/huobi/test_huobi_exchange.py:130-194 | two deliveries of the same distinct fills give the same executed amount and the same fee paid |
| OrderTracker.InFlightOrder.constructor | test/hummingbot/connector/exchange/huobi/test_huobi_exchange.py:196-207 | a fresh order is pending creation, with no fills, no fee and no notifications |
| OrderTracker.InFlightOrder.CheckCompletion | test/hummingbot/connector/exchange/huobi/test_huobi_exchange.py:284-294 | the completion notification is emitted once it is due, and only then |
| OrderTracker.InFlightOrder.ProcessTradeUpdate | test/hummingbot/connector/exchange/huobi/test_huobi_exchange.py:130-131 | a fill is applied exactly when its trade id is new; applying it adds its fee and one fill notification; a repeat changes nothing |
| OrderTracker.InFlightOrder.RecordFill | test/hummingbot/connector/exchange/huobi/test_huobi_exchange.py:130-131 | the fill's amount, fee and notification are recorded and its trade id is remembered |
| OrderTracker.InFlightOrder.ProcessOrderUpdate | test/hummingbot/connector/exchange/huobi/test_huobi_exchange.py:392-397 | a status moves a live order's state and settles completion; a finished order ignores it; fees and fill notifications are untouched |
| OrderTrackerScenarios.StreamFillsAccumulateFees | test/hummingbot/connector/exchange/huobi/test_huobi_exchange.py:78-194 | the fee paid is 10 after the first fill and 40 after the second; two fill notifications; no completion even though the fills cover the amount |
| OrderTrackerScenarios.FilledStatusBeforeFill | test/hummingbot/connector/exchange/huobi/test_huobi_exchange.py:196-294 | a FILLED status before its fill: fee 30, one fill notification, exactly one completion |
| OrderTrackerScenarios.PolledPartialFillKeepsOrderOpen | test/hummingbot/connector/exchange/huobi/test_huobi_exchange.py:325-397 | a polled partial fill and a partial-filled status leave the order open in PARTIALLY_FILLED with one fill notification |
| OrderTrackerScenarios.PolledRepeatOfStreamFill | test/hummingbot/connector/exchange/huobi/test_huobi_exchange.py:412-535 | a stream fill reported again by the poll is not re-applied: fee 30, one fill notification |
| AssetPriceDelegates.Mid | test/hummingbot/strategy/test_multi_market_asset_price_delegate.py:165 | the mid price lies halfway between best bid and best ask |
| AssetPriceDelegates.DirectPrice | test/hummingbot/strategy/test_multi_market_asset_price_delegate.py:23-26 | a price exists exactly when the market holds the pair's book; otherwise the missing-book error names the pair |
| AssetPriceDelegates.DirectMidPrice | test/hummingbot/strategy/test_order_book_asset_price_delegate.py:58-62 | a mid price exists exactly when the market holds the pair's book, and lies halfway between its best bid and best ask; otherwise the missing-book error names the pair |
| AssetPriceDelegates.DirectMidPriceIsMidPriceType | test/hummingbot/strategy/test_order_book_asset_price_delegate.py:58-68 | `get_mid_price` equals `get_price_by_type(MidPrice)`, the book's mid |
| AssetPriceDelegates.CreateFor | test/hummingbot/strategy/test_order_book_asset_price_delegate.py:50-52 | `create_for` wraps a direct delegate over the given market and pair |
| AssetPriceDelegates.CreateForMatchesExplicit | test/hummingbot/strategy/test_order_book_asset_price_delegate.py:50-56 | `create_for` gives the same mid price, market and BestBid price as an inverse built over a direct delegate |
| AssetPriceDelegates.Reciprocal | test/hummingbot/strategy/test_order_book_asset_price_delegate.py:58-68 | the inverse price times the direct price is one; an error is kept |
| AssetPriceDelegates.InversePrice | test/hummingbot/strategy/test_order_book_asset_price_delegate.py:64-68 | exists exactly when the direct price of the same type does, and times it gives one; a direct error is passed on |
| AssetPriceDelegates.InverseMidPrice | test/hummingbot/strategy/test_order_book_asset_price_delegate.py:58-62 | exists exactly when the direct mid price does, and times it gives one; a direct error is passed on |
| AssetPriceDelegates.InversePriceIsReciprocal | test/hummingbot/strategy/test_order_book_asset_price_delegate.py:58-68 | for each modelled price type (mid, best bid, best ask), and for the mid price, the inverse price is 1 / the direct price, and exists exactly when it does |
| AssetPriceDelegates.InverseTradingPair | test/hummingbot/strategy/test_order_book_asset_price_delegate.py:80-84 | the inverse's pair is the direct pair with base and quote swapped |
| AssetPriceDelegates.InverseTradingPairInvolution | test/hummingbot/strategy/test_order_book_asset_price_delegate.py:80-84 | inverting the inverse's pair gives back the direct pair |
| AssetPriceDelegates.InverseExposesMarket | test/hummingbot/strategy/test_order_book_asset_price_delegate.py:70-78 | the inverse is ready exactly when its market is, exposes that market, and lists only it |
| AssetPriceDelegates.InverseReady | test/hummingbot/strategy/test_order_book_asset_price_delegate.py:70-74 | the inverse is ready exactly when the market it exposes is |
| AssetPriceDelegates.InverseAllMarkets | test/hummingbot/strategy/test_order_book_asset_price_delegate.py:76-78 | `all_markets` is the exposed market alone |
| AssetPriceDelegates.HopTokens | test/hummingbot/strategy/test_multi_market_asset_price_delegate.py:113-131 | a hop's tokens exist exactly when its pair splits; an inverted hop swaps them |
| AssetPriceDelegates.BuildErrorMessage | test/hummingbot/strategy/test_multi_market_asset_price_delegate.py:34-111 | every build error has a message text except a malformed pair, which makes Python's unpacking raise |
| AssetPriceDelegates.Orient | test/hummingbot/strategy/test_multi_market_asset_price_delegate.py:90-131 | one direction flag per remaining pair |
| AssetPriceDelegates.OrientChain | test/hummingbot/strategy/test_multi_market_asset_price_delegate.py:34-131 | one direction flag per pair of the list |
| AssetPriceDelegates.ForMarkets | test/hummingbot/strategy/test_multi_market_asset_price_delegate.py:34-49 | fewer than two markets are refused |
| AssetPriceDelegates.ForMarketsBuildsChain | test/hummingbot/strategy/test_multi_market_asset_price_delegate.py:51-66 | a built delegate is a chain whose tokens meet end to end, over the given markets and pairs in order, with `all_markets` in hop order and no single `market` |
| AssetPriceDelegates.ForMarketsComplete | test/hummingbot/strategy/test_multi_market_asset_price_delegate.py:51-131 | every list of two or more pairs that can be chained, first hop direct, is accepted, and the built chain quotes the same pair |
| AssetPriceDelegates.OrientChains | test/hummingbot/strategy/test_multi_market_asset_price_delegate.py:113-131 | the orientation chosen makes each hop start where the previous one ended |
| AssetPriceDelegates.OrientComplete | test/hummingbot/strategy/test_multi_market_asset_price_delegate.py:113-131 | whenever some orientation chains the pairs, the one chosen does too, and it ends at the same token |
| AssetPriceDelegates.OrientErrorNamesNextPair | test/hummingbot/strategy/test_multi_market_asset_price_delegate.py:90-111 | a broken chain names a pair of the list; a malformed pair is one that does not split |
| AssetPriceDelegates.ForMarketsErrors | test/hummingbot/strategy/test_multi_market_asset_price_delegate.py:34-111 | "more than one reference market" exactly when fewer than two are given; a broken chain names a pair after the first |
| AssetPriceDelegates.ForMarketsReady | test/hummingbot/strategy/test_multi_market_asset_price_delegate.py:68-88 | the chain is ready exactly when every market it was built from is ready |
| AssetPriceDelegates.TradingPair | test/hummingbot/strategy/test_multi_market_asset_price_delegate.py:169-263 | the chain's pair runs from the first hop's base to the token the chain ends at |
| AssetPriceDelegates.AllMarkets | test/hummingbot/strategy/test_multi_market_asset_price_delegate.py:65 | one market per hop |
| AssetPriceDelegates.SingleMarket | test/hummingbot/strategy/test_multi_market_asset_price_delegate.py:66 | a chain exposes no single market |
| AssetPriceDelegates.Ready | test/hummingbot/strategy/test_multi_market_asset_price_delegate.py:68-88 | a chain is ready exactly when every market in `all_markets` is |
| AssetPriceDelegates.ChainPrice | test/hummingbot/strategy/test_multi_market_asset_price_delegate.py:133-167 | a chain's price fails only with the error of one of its hops |
| AssetPriceDelegates.MultiPrice | test/hummingbot/strategy/test_multi_market_asset_price_delegate.py:133-167 | a price exists exactly when every hop's market holds the hop's book; a failure is the error of one of the hops |
| AssetPriceDelegates.MultiMidPrice | test/hummingbot/strategy/test_multi_market_asset_price_delegate.py:166-167 | `get_mid_price` is the MidPrice price of the chain |
| AssetPriceDelegates.ChainPriceIsCrossRate | test/hummingbot/strategy/test_multi_market_asset_price_delegate.py:133-263 | when every book prices its pair consistently with one valuation of the tokens, the chain's price is the first token's value over the last token's value, however the hops are oriented |
| AssetPriceDelegates.ChainPriceDefined | test/hummingbot/strategy/test_multi_market_asset_price_delegate.py:23-26 | the chain's price exists exactly when every hop's market holds the hop's book |
| AssetPriceDelegates.MultiMidPriceIsMidPriceType | test/hummingbot/strategy/test_multi_market_asset_price_delegate.py:166-167 | `get_mid_price` equals `get_price_by_type(MidPrice)` on a chain |
| AssetPriceDelegateScenarios.TooFewReferenceMarkets | test/hummingbot/strategy/test_multi_market_asset_price_delegate.py:34-49 | zero or one market is refused with the "more than one reference market" text |
| AssetPriceDelegateScenarios.DirectChainPair | test/hummingbot/strategy/test_multi_market_asset_price_delegate.py:51-66 | TOK1-TOK2 then TOK2-TOK3 quote TOK1-TOK3, list both markets in order, and have no single market |
| AssetPriceDelegateScenarios.ChainReadiness | test/hummingbot/strategy/test_multi_market_asset_price_delegate.py:68-88 | the chain is ready only when both markets are |
| AssetPriceDelegateScenarios.NoCommonToken | test/hummingbot/strategy/test_multi_market_asset_price_delegate.py:90-111 | TOK2-TOK3 followed by TOK8-TOK9 is refused with a message naming those two pairs |
| AssetPriceDelegateScenarios.QuoteMatchUsesInverse | test/hummingbot/strategy/test_multi_market_asset_price_delegate.py:113-131 | TOK1-TOK2 then TOK3-TOK2 uses the second book inverted and quotes TOK1-TOK3 |
| AssetPriceDelegateScenarios.DirectChainMidPrice | test/hummingbot/strategy/test_multi_market_asset_price_delegate.py:133-167 | three direct hops: the mid price is 100 x 122.5 x 0.5, by either accessor |
| AssetPriceDelegateScenarios.MixedChainOrientation | test/hummingbot/strategy/test_multi_market_asset_price_delegate.py:169-199 | TOK1-TOK2, TOK3-TOK2, TOK4-TOK3 are used direct, inverted, inverted |
| AssetPriceDelegateScenarios.MixedChainMidPrice | test/hummingbot/strategy/test_multi_market_asset_price_delegate.py:169-209 | mid price 100 x (1/122.5) x (1/0.5), quoted as TOK1-TOK4 |
| AssetPriceDelegateScenarios.LongChainOrientation | test/hummingbot/strategy/test_multi_market_asset_price_delegate.py:211-253 | TOK1-TOK2, TOK3-TOK2, TOK4-TOK3, TOK4-TOK5 are used direct, inverted, inverted, direct |
| AssetPriceDelegateScenarios.LongChainMidPrice | test/hummingbot/strategy/test_multi_market_asset_price_delegate.py:211-263 | mid price 100 x (1/122.5) x (1/0.5) x 201.6, quoted as TOK1-TOK5 |
| AssetPriceDelegateScenarios.InverseOverCoinAlpha | test/hummingbot/strategy/test_order_book_asset_price_delegate.py:36-84 | over the COINALPHA-HBOT book: inverse mid 1/10001.45 by either accessor, readiness mirrored, only that market, pair HBOT-COINALPHA |
| PmmConfigMap.ValidatePriceType | test/hummingbot/strategy/pure_market_making/test_pmm_config_map.py:67-103 | with the custom API only "custom" is accepted; with any other source exactly the six market price types are; refusals carry the invalid-price-type text |
| PmmConfigMap.PriceTypeSourcesExclusive | test/hummingbot/strategy/pure_market_making/test_pmm_config_map.py:67-103 | no price type is accepted both with and without the custom API |
| PmmConfigMap.ValidatePriceSourceExchange | test/hummingbot/strategy/pure_market_making/test_pmm_config_map.py:121-126 | the maker exchange itself is refused with its text; any other name gets the connector check's answer |
| PmmConfigMap.ValidateDecimalList | test/hummingbot/strategy/pure_market_making/test_pmm_config_map.py:128-135 | accepted exactly when every comma-separated piece is a decimal; otherwise "Please enter valid decimal numbers" |
| PmmConfigMap.IsDecimal | test/hummingbot/strategy/pure_market_making/test_pmm_config_map.py:128-135 | an accepted decimal holds at least one digit, and every non-empty string of digits is accepted |
| PmmConfigMap.DecimalListCons | test/hummingbot/strategy/pure_market_making/test_pmm_config_map.py:128-135 | a list is valid exactly when its first entry is a decimal and the rest of the list is valid |
| PmmConfigMap.DecimalListSingle | test/hummingbot/strategy/pure_market_making/test_pmm_config_map.py:128-130 | a single entry is valid exactly when it is a decimal |
| PmmConfigMap.DecimalListOfDecimals | test/hummingbot/strategy/pure_market_making/test_pmm_config_map.py:128-132 | decimals joined with commas form a valid list |
| PmmConfigMap.ValidatePriceSource | test/hummingbot/strategy/pure_market_making/test_pmm_config_map.py:186-196 | exactly the four price sources are accepted; anything else gets "Invalid price source type." |
| PmmConfigMap.FirstMalformedEntry | test/hummingbot/strategy/pure_market_making/test_pmm_config_map.py:146-153 | the entry reported is the first of the list that is not `exchange:market`: every entry before it splits; none is reported exactly when every entry splits |
| PmmConfigMap.ExchangeMarkets | test/hummingbot/strategy/pure_market_making/test_pmm_config_map.py:155-184 | each entry's exchange and market, in order |
| PmmConfigMap.Markets | test/hummingbot/strategy/pure_market_making/test_pmm_config_map.py:155-184 | each entry's market, in order |
| PmmConfigMap.MarketErrors | test/hummingbot/strategy/pure_market_making/test_pmm_config_map.py:165-184 | no error is collected exactly when every market passes its own check |
| PmmConfigMap.ValidateExchangesAndMarkets | test/hummingbot/strategy/pure_market_making/test_pmm_config_map.py:137-144 | fewer than two entries give the "at least two reference markets" text |
| PmmConfigMap.ExchangesAndMarketsAccepted | test/hummingbot/strategy/pure_market_making/test_pmm_config_map.py:165-184 | two or more well-formed entries whose markets chain are accepted exactly when every market passes its own check |
| PmmConfigMap.ExchangesAndMarketsChainError | test/hummingbot/strategy/pure_market_making/test_pmm_config_map.py:155-163 | markets that do not chain are refused with the text the multi-market delegate raises |
| PmmConfigMap.ConfigMap.constructor | test/hummingbot/strategy/pure_market_making/test_pmm_config_map.py:28-30 | every entry starts unset |
| PmmConfigMap.ConfigMap.OnValidatePriceSource | test/hummingbot/strategy/pure_market_making/test_pmm_config_map.py:44-65 | a non-external source clears the source exchange, market and take-if-crossed; a non-custom source clears the API address; the custom API sets the price type to "custom", which that source accepts; the other entries are untouched |
| PmmConfigMapScenarios.PriceTypesBySource | test/hummingbot/strategy/pure_market_making/test_pmm_config_map.py:67-103 | the six market price types pass with the current market and fail with the custom API; "custom" does the reverse |
| PmmConfigMapScenarios.PriceSourceExchangeCases | test/hummingbot/strategy/pure_market_making/test_pmm_config_map.py:121-126 | with maker binance: binance is refused; kucoin and binance_perpetual pass |
| PmmConfigMapScenarios.DecimalListCases | test/hummingbot/strategy/pure_market_making/test_pmm_config_map.py:128-135 | "1" and "1,2" pass; "asd" gets "Please enter valid decimal numbers" |
| PmmConfigMapScenarios.PriceSourceCases | test/hummingbot/strategy/pure_market_making/test_pmm_config_map.py:186-196 | the four sources pass; "invalid_source" gets "Invalid price source type." |
| PmmConfigMapScenarios.OneReferenceMarket | test/hummingbot/strategy/pure_market_making/test_pmm_config_map.py:137-144 | a single `exchange:market` gets the "at least two reference markets" text |
| PmmConfigMapScenarios.EntryWithoutColon | test/hummingbot/strategy/pure_market_making/test_pmm_config_map.py:146-153 | an entry without a colon is named in "The value ... is not a valid exchange:market pair" |
| PmmConfigMapScenarios.UnconnectedMarkets | test/hummingbot/strategy/pure_market_making/test_pmm_config_map.py:155-163 | two markets sharing no token get "impossible to configure ... from TOK1-TOK2 with the prices from TOK30-TOK40" |
| PmmConfigMapScenarios.ConnectedMarkets | test/hummingbot/strategy/pure_market_making/test_pmm_config_map.py:165-184 | two failing market checks are reported one per line; none failing gives no error |
| PmmConfigMapScenarios.ResetForCurrentMarket | test/hummingbot/strategy/pure_market_making/test_pmm_config_map.py:44-60 | choosing the current market clears the external exchange, market, take-if-crossed and API address |
| PmmConfigMapScenarios.CustomApiSetsPriceType | test/hummingbot/strategy/pure_market_making/test_pmm_config_map.py:62-65 | choosing the custom API sets the price type to "custom" |
| Strings.CombinePair | hummingbot/connector/exchange/alpha_point/alpha_point_exchange.py:543-545 | `BASE-QUOTE`: the base, a dash, then the quote |
| Strings.SplitPair | test/hummingbot/strategy/test_order_book_asset_price_delegate.py:81 | a pair that splits is the combination of its two dash-free tokens |
| Strings.PairRoundTrip | test/hummingbot/strategy/test_order_book_asset_price_delegate.py:81-82 | splitting a combined pair of dash-free tokens gives back the tokens |
| Strings.Split | test/hummingbot/strategy/pure_market_making/test_pmm_config_map.py:128-135 | `str.split(sep)` gives at least one piece, none containing the separator |
| Strings.SplitJoin | test/hummingbot/strategy/pure_market_making/test_pmm_config_map.py:128-135 | splitting separator-free pieces joined with the separator gives back the pieces |
| Strings.JoinSplit | test/hummingbot/strategy/pure_market_making/test_pmm_config_map.py:165-174 | joining the pieces of a split gives back the text |
| Strings.Join | test/hummingbot/strategy/pure_market_making/test_pmm_config_map.py:165-184 | `sep.join(parts)` starts with the first piece, followed by the separator when there are more pieces |
| Strings.SplitOnce | test/hummingbot/strategy/pure_market_making/test_pmm_config_map.py:146-153 | a text unpacks into two pieces only when it is the two separator-free pieces around one separator |
| Strings.SplitOnceOfPair | test/hummingbot/strategy/pure_market_making/test_pmm_config_map.py:146-153 | `a, b = s.split(sep)` recovers the two sides of a text with exactly one separator |
| Strings.IntToString | hummingbot/connector/exchange/alpha_point/alpha_point_exchange.py:249-250 | `str(n)`: a leading '-' exactly for negatives, followed by the decimal digits of the magnitude without leading zeros |
| Strings.NatToString | hummingbot/connector/exchange/alpha_point/alpha_point_exchange.py:249-250 | a non-empty string of decimal digits whose value is n, with no leading zero except for 0 itself |
| Strings.IntToStringInjective | hummingbot/connector/exchange/alpha_point/alpha_point_exchange.py:249-250 | different integers have different texts, so ids compared as text compare as numbers |

## Left out

- The HTTP and WebSocket transport, throttling, authentication, the time synchroniser and the nonce source are not modelled. Exchange replies are inputs: functions from the request to a reply or an exception text.
- asyncio fan-out, `safe_gather` and the listener's sleep and `CancelledError` re-raise are not modelled. Fetches are a sequential list of `Ok`/`Err` results.
- The order tracker itself is not part of this model. The connector's calls into it are a log of `TrackerCall`s. The in-flight order's fill bookkeeping is modelled separately, from the Huobi tests' assertions.
- The tracked orders do not change during a poll cycle or a listener run in this model; the tracker's reaction to the calls is not fed back.
- The connector's constants module is not part of this model. The order-state map, the side map, the ACTIVE state name and the not-found message are the `ExchangeConstants` parameter. The frame field names and the request message type are the `WSFields` parameter, assumed pairwise distinct.
- `is_exchange_information_valid` is the parameter `isValid`. `validate_market_trading_pair` is the parameter `validateMarket`. The connector-name check is the parameter `validateConnector`.
- JSON encoding and decoding are the opaque functions `dumps` and `loads`; `loads` returns None on text that is not JSON, where `json.loads` raises. Only a string data field is decoded; any other value makes `PostProcess` fail.
- Float conversions and the `* 1e-3` timestamp scaling are not modelled. Timestamps stay integer milliseconds and amounts are exact reals.
- Client order ids, exchange order ids and trade ids are the integers the exchange sends. `str()` of them is injective (`Strings.IntToStringInjective`), so lookups and duplicate detection are unaffected.
- Order-book internals are not modelled: each hop's best bid and best ask are given positive reals.
- The best-bid/best-ask swap the design describes for the inverse delegate is not modelled; every price type is inverted as 1/p.
- PmmConfigMap.ValidateDecimalList: only the parse check the configuration tests exercise is modelled. The validator's implementation is not part of this model, so any range check it applies to each number is not captured.
- Log messages are not modelled, and neither are the listener's handling of a frame without an endpoint field or the unknown-endpoint debug message.
- Prompt texts (`order_amount_prompt`, `maker_trading_pair_prompt`) are not modelled. They depend on connector settings outside this model.
- The text of the invalid-price-type error is not in the files this model follows. It is taken to be "Invalid price type.".
- The multi-market error text names the previous hop's pair in the direction that hop is used. This is exact for a direct previous hop, the case the tests cover.
- AssetPriceDelegates.PriceType: only MidPrice, BestBid and BestAsk are modelled. LastTrade, LastOwnTrade and InventoryCost read the trade history and the strategy's inventory, which the delegate tests never exercise; the configuration validator still accepts all six names as text.
- PmmConfigMap.IsDecimal: accepts an optional sign and digits with at most one point. Python's `Decimal()` also accepts exponents, surrounding whitespace, underscores between digits, NaN and Infinity; those forms are not modelled.
- AlphaPointExchange.HandleUntilRaise: its own contract states only the count bound. When it raises and which calls it makes is `HandleUntilFirstRaise`.
- AlphaPointExchange.ValidateUpTo: its own contract states the counts and kinds. Which replies are kept and which orders are reported is `ValidatePairsByPosition`.
- AlphaPointExchange.ValidateGathered: its own contract states only the count bounds. It is `Validate` over the surviving replies, which `ValidatePairsByPosition` characterises.
- Strings.Join: its own contract states only the first piece and the separator after it. The round trips `SplitJoin` and `JoinSplit` characterise it.
- AlphaPointExchange.Successes: states only the length bound and membership (`SuccessesAreReplies`). Order preservation is the definition itself, which `GatherTasks` is proved equal to.
- PmmConfigMap.ValidateExchangesAndMarkets: its own contract states only the too-few-entries case. The other outcomes are the lemmas `ExchangesAndMarketsAccepted`, `ExchangesAndMarketsChainError` and the scenarios.
- AssetPriceDelegates.ForMarkets: its own contract states only the too-few-markets case. What a built chain is and how it fails are `ForMarketsBuildsChain`, `ForMarketsComplete` and `ForMarketsErrors`.

## Findings

| source | as written | input that shows it | evidently intended | confidence | as-written member | corrected member |
|---|---|---|---|---|---|---|
| hummingbot/connector/exchange/alpha_point/alpha_point_exchange.py:405-427 | `_gather_tasks` drops the fetches that raised, then `_validate_status_responses` zips the surviving replies with the full list of tracked orders by position | orders [a, b]; a's status fetch raises; b's reply carries an error code. Order a is reported not found, and b is not | each reply is checked against the order it was fetched for, so b is reported not found | not executed | AlphaPointExchange.ZipReportsWrongOrder | AlphaPointExchange.AlignedNotFoundIsOwnError |

The poll cycle (`PollCycle`, `UpdateOrderStatus`) keeps the pairing as written, so the model reproduces what the connector does. `ValidateAligned` is the corrected pass. `AlignedNotFoundIsOwnError` proves that it reports an order if and only if that order's own reply is error-coded. `GatheredIsAlignedWithoutFailures` proves that the two passes agree whenever no fetch fails.
