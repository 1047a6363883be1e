/**
 * The AlphaPoint exchange connector's bookkeeping, with every exchange
 * reply taken as an input:
 *   - normalising order-state and trade payloads into the generic
 *     `OrderUpdate` / `TradeUpdate` records handed to the order tracker;
 *   - the account balances, set from single positions and refreshed from
 *     a full position report;
 *   - the order-status poll cycle: gathering replies, validating them,
 *     the fills floor, and fills handled before statuses;
 *   - the instrument id <-> trading pair map and the token id map;
 *   - the error routing of order placement and cancellation.
 *
 * The order tracker is not part of this model: the connector's calls into
 * it are recorded, in order, as `TrackerCall`s. The connector's constants
 * module is not part of this model either: the order-state map, the side
 * map, the ACTIVE state name and the not-found message are the
 * `ExchangeConstants` parameter.
 */
module AlphaPointExchange {
  import opened Wrappers
  import opened Strings
  import opened InFlightOrderData

  datatype ExchangeConstants = ExchangeConstants(
    activeOrderState: string,
    orderStateMap: map<string, OrderState>,
    orderSideMap: map<string, TradeType>,
    resourceNotFoundMsg: string)

  /** What the connector reads from an order the tracker holds. */
  datatype TrackedOrder = TrackedOrder(clientOrderId: int, exchangeOrderId: int, tradingPair: string, quoteAsset: string)

  /** `fetch_order(client_order_id)`: the tracked order with that id, if any. */
  function FetchOrder(orders: seq<TrackedOrder>, clientOrderId: int): (r: Option<TrackedOrder>)
    ensures r.Some? ==> r.value in orders && r.value.clientOrderId == clientOrderId
    ensures r.None? ==> forall o | o in orders :: o.clientOrderId != clientOrderId
  {
    if orders == [] then None
    else if orders[0].clientOrderId == clientOrderId then Some(orders[0])
    else FetchOrder(orders[1..], clientOrderId)
  }

  /** The outcome of normalising one payload: not ours, a record, or a `KeyError` on a lookup table. */
  datatype Normalized<T> = Untracked | Update(update: T) | KeyMissing

  /** An order-state payload (an order-state event or a status reply). */
  datatype OrderStateMsg = OrderStateMsg(
    orderState: string,
    clientOrderId: int,
    quantityExecuted: real,
    lastUpdatedTimeMs: int,
    orderId: int,
    receiveTimeMs: int)

  /** A trade payload (a trade event or a trade-history row). */
  datatype TradeMsg = TradeMsg(
    clientOrderId: int,
    side: string,
    feeProductId: int,
    feeAmount: real,
    quantity: real,
    price: real,
    tradeTimeMs: int,
    tradeId: int,
    orderId: int)

  /** `_process_order_event_message`: the update handed to the tracker. */
  function NormalizeOrderEvent(c: ExchangeConstants, orders: seq<TrackedOrder>, m: OrderStateMsg)
    : (r: Normalized<OrderUpdate>)
    ensures r.Untracked? <==> FetchOrder(orders, m.clientOrderId).None?
    ensures r.KeyMissing? <==> FetchOrder(orders, m.clientOrderId).Some? && m.orderState != c.activeOrderState
                               && m.orderState !in c.orderStateMap
    ensures r.Update? ==>
              var o := FetchOrder(orders, m.clientOrderId).value;
              r.update.clientOrderId == m.clientOrderId && r.update.tradingPair == o.tradingPair
              && r.update.exchangeOrderId == m.orderId && r.update.updateTimestampMs == m.lastUpdatedTimeMs
    ensures r.Update? && m.orderState == c.activeOrderState ==>
              r.update.newState == (if m.quantityExecuted != 0.0 then PartiallyFilled else Open)
              && IsOpen(r.update.newState)
    ensures r.Update? && m.orderState != c.activeOrderState ==> r.update.newState == c.orderStateMap[m.orderState]
  {
    match FetchOrder(orders, m.clientOrderId)
    case None => Untracked
    case Some(o) =>
      if m.orderState == c.activeOrderState then
        var state := if m.quantityExecuted != 0.0 then PartiallyFilled else Open;
        Update(OrderUpdate(o.tradingPair, m.lastUpdatedTimeMs, state, o.clientOrderId, m.orderId))
      else if m.orderState in c.orderStateMap then
        Update(OrderUpdate(o.tradingPair, m.lastUpdatedTimeMs, c.orderStateMap[m.orderState], o.clientOrderId, m.orderId))
      else KeyMissing
  }

  /** The token a trade's fee is charged in; None where the token id map raises. */
  function FeeToken(tokenIds: map<int, string>, o: TrackedOrder, t: TradeMsg): (r: Option<string>)
    ensures t.feeAmount == 0.0 ==> r == Some(o.quoteAsset)
    ensures t.feeAmount != 0.0 ==> (r.Some? <==> t.feeProductId in tokenIds)
    ensures t.feeAmount != 0.0 && r.Some? ==> r.value == tokenIds[t.feeProductId]
  {
    if t.feeAmount != 0.0 then
      if t.feeProductId in tokenIds then Some(tokenIds[t.feeProductId]) else None
    else Some(o.quoteAsset)
  }

  /** `_process_trade_event_message`: the fill handed to the tracker. */
  function NormalizeTrade(c: ExchangeConstants, tokenIds: map<int, string>, orders: seq<TrackedOrder>, t: TradeMsg)
    : (r: Normalized<TradeUpdate>)
    ensures r.Untracked? <==> FetchOrder(orders, t.clientOrderId).None?
    ensures r.KeyMissing? <==> FetchOrder(orders, t.clientOrderId).Some?
                               && (t.side !in c.orderSideMap || (t.feeAmount != 0.0 && t.feeProductId !in tokenIds))
    ensures r.Update? ==>
              var o := FetchOrder(orders, t.clientOrderId).value;
              var u := r.update;
              u.tradeId == t.tradeId && u.clientOrderId == t.clientOrderId && u.exchangeOrderId == t.orderId
              && u.tradingPair == o.tradingPair
              && u.fillBaseAmount == t.quantity && u.fillPrice == t.price
              && u.fillQuoteAmount == u.fillBaseAmount * u.fillPrice
              && u.fillTimestampMs == t.tradeTimeMs
              && u.fee.tradeType == c.orderSideMap[t.side]
              && u.fee.percentToken == (if t.feeAmount != 0.0 then tokenIds[t.feeProductId] else o.quoteAsset)
              && u.fee.flatFees == [TokenAmount(u.fee.percentToken, t.feeAmount)]
              && FlatFeeTotal(u.fee.flatFees) == t.feeAmount
  {
    match FetchOrder(orders, t.clientOrderId)
    case None => Untracked
    case Some(o) =>
      if t.side !in c.orderSideMap then KeyMissing
      else
        match FeeToken(tokenIds, o, t)
        case None => KeyMissing
        case Some(token) =>
          var fee := TradeFee(c.orderSideMap[t.side], token, [TokenAmount(token, t.feeAmount)]);
          assert FlatFeeTotal(fee.flatFees) == t.feeAmount + FlatFeeTotal([]);
          Update(TradeUpdate(t.tradeId, o.clientOrderId, t.orderId, o.tradingPair, fee,
                             t.quantity, t.quantity * t.price, t.price, t.tradeTimeMs))
  }

  /** A payload the connector routes to the tracker. */
  datatype ExchangeMessage = StateMessage(state: OrderStateMsg) | TradeMessage(trade: TradeMsg)

  /** A call from the connector into the order tracker. */
  datatype TrackerCall =
    | OrderNotFoundCall(clientOrderId: int)
    | TradeUpdateCall(tradeUpdate: TradeUpdate)
    | OrderUpdateCall(orderUpdate: OrderUpdate)

  /** Where a call sits in a poll cycle: not-found reports, then fills, then statuses. */
  function Rank(call: TrackerCall): nat
  {
    match call
    case OrderNotFoundCall(_) => 0
    case TradeUpdateCall(_) => 1
    case OrderUpdateCall(_) => 2
  }

  function MessageRank(m: ExchangeMessage): nat
  {
    if m.TradeMessage? then 1 else 2
  }

  /** One payload routed to the tracker. */
  function Handle(c: ExchangeConstants, tokenIds: map<int, string>, orders: seq<TrackedOrder>, m: ExchangeMessage)
    : (r: Normalized<TrackerCall>)
    ensures r.Update? ==> Rank(r.update) == MessageRank(m)
    ensures m.StateMessage? ==>
              var n := NormalizeOrderEvent(c, orders, m.state);
              (r.Update? <==> n.Update?) && (r.KeyMissing? <==> n.KeyMissing?)
              && (r.Update? ==> r.update == OrderUpdateCall(n.update))
    ensures m.TradeMessage? ==>
              var n := NormalizeTrade(c, tokenIds, orders, m.trade);
              (r.Update? <==> n.Update?) && (r.KeyMissing? <==> n.KeyMissing?)
              && (r.Update? ==> r.update == TradeUpdateCall(n.update))
  {
    match m
    case StateMessage(s) =>
      (match NormalizeOrderEvent(c, orders, s)
       case Untracked => Untracked
       case KeyMissing => KeyMissing
       case Update(u) => Update(OrderUpdateCall(u)))
    case TradeMessage(t) =>
      (match NormalizeTrade(c, tokenIds, orders, t)
       case Untracked => Untracked
       case KeyMissing => KeyMissing
       case Update(u) => Update(TradeUpdateCall(u)))
  }

  /** The connector's routing of payloads, for fixed constants, token ids and tracked orders. */
  function Router(c: ExchangeConstants, tokenIds: map<int, string>, orders: seq<TrackedOrder>)
    : (route: ExchangeMessage -> Normalized<TrackerCall>)
    ensures forall m :: route(m) == Handle(c, tokenIds, orders, m)
  {
    m => Handle(c, tokenIds, orders, m)
  }

  function CallsOf(n: Normalized<TrackerCall>): seq<TrackerCall>
  {
    if n.Update? then [n.update] else []
  }

  /** Calls made and whether an exception ended the run. */
  datatype Outcome = Outcome(calls: seq<TrackerCall>, raised: bool)

  /** The position of the first payload whose lookup raises, or `|msgs|` when none does. */
  function FirstRaise(route: ExchangeMessage -> Normalized<TrackerCall>, msgs: seq<ExchangeMessage>)
    : (j: nat)
    ensures j <= |msgs|
    ensures forall k | 0 <= k < j :: !route(msgs[k]).KeyMissing?
    ensures j < |msgs| ==> route(msgs[j]).KeyMissing?
    decreases |msgs|
  {
    if msgs == [] then 0
    else
      var init := msgs[..|msgs| - 1];
      var p := FirstRaise(route, init);
      assert forall k | 0 <= k < |init| :: init[k] == msgs[k];
      if p < |init| then p
      else if route(msgs[|msgs| - 1]).KeyMissing? then |init|
      else |msgs|
  }

  /** Payloads routed in order until one raises, as the poll cycle does. */
  function HandleUntilRaise(route: ExchangeMessage -> Normalized<TrackerCall>, msgs: seq<ExchangeMessage>)
    : (r: Outcome)
    ensures |r.calls| <= |msgs|
    decreases |msgs|
  {
    if msgs == [] then Outcome([], false)
    else
      var prior := HandleUntilRaise(route, msgs[..|msgs| - 1]);
      if prior.raised then prior
      else
        var h := route(msgs[|msgs| - 1]);
        Outcome(prior.calls + CallsOf(h), h.KeyMissing?)
  }

  /**
   * The poll cycle raises exactly when some payload's lookup raises, and its
   * calls are those of every payload before the first that raises.
   */
  lemma {:induction false} HandleUntilFirstRaise(route: ExchangeMessage -> Normalized<TrackerCall>,
                                                  msgs: seq<ExchangeMessage>)
    ensures HandleUntilRaise(route, msgs).raised <==> exists k | 0 <= k < |msgs| :: route(msgs[k]).KeyMissing?
    ensures HandleUntilRaise(route, msgs).raised <==> FirstRaise(route, msgs) < |msgs|
    ensures HandleUntilRaise(route, msgs).calls == HandleEach(route, msgs[..FirstRaise(route, msgs)])
    decreases |msgs|
  {
    if msgs != [] {
      var init := msgs[..|msgs| - 1];
      var last := msgs[|msgs| - 1];
      HandleUntilFirstRaise(route, init);
      var p := FirstRaise(route, init);
      var prior := HandleUntilRaise(route, init);
      assert forall k | 0 <= k < |init| :: init[k] == msgs[k];
      if prior.raised {
        assert HandleUntilRaise(route, msgs) == prior;
        assert FirstRaise(route, msgs) == p;
        assert msgs[..p] == init[..p];
        assert route(msgs[p]).KeyMissing?;
      } else {
        assert p == |init| && init[..p] == init;
        assert HandleUntilRaise(route, msgs) == Outcome(prior.calls + CallsOf(route(last)), route(last).KeyMissing?);
        if route(last).KeyMissing? {
          assert FirstRaise(route, msgs) == |init|;
          assert msgs[..|init|] == init;
        } else {
          assert FirstRaise(route, msgs) == |msgs|;
          assert msgs[..|msgs|] == msgs;
          assert HandleEach(route, msgs) == HandleEach(route, init) + CallsOf(route(last));
        }
      }
    }
  }

  /** Payloads routed one by one, a raising one contributing nothing, as the user-stream listener does. */
  function HandleEach(route: ExchangeMessage -> Normalized<TrackerCall>, msgs: seq<ExchangeMessage>)
    : (r: seq<TrackerCall>)
    ensures |r| <= |msgs|
    decreases |msgs|
  {
    if msgs == [] then []
    else HandleEach(route, msgs[..|msgs| - 1]) + CallsOf(route(msgs[|msgs| - 1]))
  }

  /**
   * Stopping at the first exception only cuts the listener's calls short:
   * the poll cycle's calls are a prefix of the listener's, and the same
   * calls when nothing raised.
   */
  lemma {:induction false} UntilRaiseIsPrefixOfEach(route: ExchangeMessage -> Normalized<TrackerCall>,
                                                     msgs: seq<ExchangeMessage>)
    ensures HandleUntilRaise(route, msgs).calls <= HandleEach(route, msgs)
    ensures !HandleUntilRaise(route, msgs).raised ==> HandleUntilRaise(route, msgs).calls == HandleEach(route, msgs)
    decreases |msgs|
  {
    if msgs != [] {
      var init := msgs[..|msgs| - 1];
      UntilRaiseIsPrefixOfEach(route, init);
      var prior := HandleUntilRaise(route, init);
      var each := HandleEach(route, init);
      var h := CallsOf(route(msgs[|msgs| - 1]));
      assert HandleEach(route, msgs) == each + h;
      if prior.raised {
        assert prior.calls <= each;
        assert each <= each + h;
      }
    }
  }

  /** Routing one more payload: it is reached only if nothing raised before it. */
  lemma HandleUntilRaiseSnoc(route: ExchangeMessage -> Normalized<TrackerCall>, msgs: seq<ExchangeMessage>,
                             m: ExchangeMessage)
    ensures var prior := HandleUntilRaise(route, msgs);
            HandleUntilRaise(route, msgs + [m])
            == if prior.raised then prior else Outcome(prior.calls + CallsOf(route(m)), route(m).KeyMissing?)
  {
    assert (msgs + [m])[..|msgs|] == msgs;
  }

  /** Routing a concatenation: the second part is reached only if the first did not raise. */
  lemma {:induction false} HandleUntilRaiseAppend(route: ExchangeMessage -> Normalized<TrackerCall>,
                                                   a: seq<ExchangeMessage>, b: seq<ExchangeMessage>)
    ensures var ra := HandleUntilRaise(route, a);
            var rb := HandleUntilRaise(route, b);
            HandleUntilRaise(route, a + b) == if ra.raised then ra else Outcome(ra.calls + rb.calls, rb.raised)
    decreases |b|
  {
    if b == [] {
      assert a + b == a;
    } else {
      var b' := b[..|b| - 1];
      var m := b[|b| - 1];
      HandleUntilRaiseAppend(route, a, b');
      assert b == b' + [m] && a + b == (a + b') + [m];
      HandleUntilRaiseSnoc(route, a + b', m);
      HandleUntilRaiseSnoc(route, b', m);
      AppendStep(HandleUntilRaise(route, a), HandleUntilRaise(route, b'), CallsOf(route(m)), route(m).KeyMissing?);
    }
  }

  /** The outcome algebra behind `HandleUntilRaiseAppend`: one more step after `a` and `b'`. */
  lemma AppendStep(ra: Outcome, rb': Outcome, h: seq<TrackerCall>, raises: bool)
    ensures var prior := if ra.raised then ra else Outcome(ra.calls + rb'.calls, rb'.raised);
            var rb := if rb'.raised then rb' else Outcome(rb'.calls + h, raises);
            (if prior.raised then prior else Outcome(prior.calls + h, raises))
            == (if ra.raised then ra else Outcome(ra.calls + rb.calls, rb.raised))
  {
    if !ra.raised && !rb'.raised {
      assert ra.calls + rb'.calls + h == ra.calls + (rb'.calls + h);
    }
  }

  /** A log extended by routing `a` and then, unless that raised, `b` is the log of routing `a + b`. */
  lemma UntilRaiseThen(route: ExchangeMessage -> Normalized<TrackerCall>, a: seq<ExchangeMessage>,
                       b: seq<ExchangeMessage>, log0: seq<TrackerCall>, log: seq<TrackerCall>, raised: bool)
    requires var ra := HandleUntilRaise(route, a);
             var rb := HandleUntilRaise(route, b);
             if ra.raised then log == log0 + ra.calls && raised
             else log == log0 + ra.calls + rb.calls && raised == rb.raised
    ensures var o := HandleUntilRaise(route, a + b);
            log == log0 + o.calls && raised == o.raised
  {
    HandleUntilRaiseAppend(route, a, b);
    var ra := HandleUntilRaise(route, a);
    var rb := HandleUntilRaise(route, b);
    assert !ra.raised ==> log0 + ra.calls + rb.calls == log0 + (ra.calls + rb.calls);
  }

  /** Every call made for payloads of one kind has that kind's rank. */
  lemma {:induction false} HandleUntilRaiseRanks(route: ExchangeMessage -> Normalized<TrackerCall>,
                                                  msgs: seq<ExchangeMessage>, rank: nat)
    requires forall m | m in msgs :: MessageRank(m) == rank
    requires forall m | m in msgs :: route(m).Update? ==> Rank(route(m).update) == MessageRank(m)
    ensures forall call | call in HandleUntilRaise(route, msgs).calls :: Rank(call) == rank
    decreases |msgs|
  {
    if msgs != [] {
      var init := msgs[..|msgs| - 1];
      assert forall m | m in init :: m in msgs;
      HandleUntilRaiseRanks(route, init, rank);
      assert MessageRank(msgs[|msgs| - 1]) == rank;
    }
  }

  /** `_gather_tasks`: a fetch either replied or raised. */
  function Successes<T>(raw: seq<Result<T, string>>): (r: seq<T>)
    ensures |r| <= |raw|
    decreases |raw|
  {
    if raw == [] then []
    else
      var prior := Successes(raw[..|raw| - 1]);
      match raw[|raw| - 1]
      case Ok(x) => prior + [x]
      case Err(_) => prior
  }

  /** Every reply kept is one that was fetched. */
  lemma {:induction false} SuccessesAreReplies<T>(raw: seq<Result<T, string>>)
    ensures forall x | x in Successes(raw) :: Ok(x) in raw
    decreases |raw|
  {
    if raw != [] {
      var init := raw[..|raw| - 1];
      SuccessesAreReplies(init);
      assert forall x | x in init :: x in raw;
    }
  }

  /** With no failed fetch every reply is kept, at its own position. */
  lemma {:induction false} SuccessesWithoutFailures<T>(raw: seq<Result<T, string>>)
    requires forall k | 0 <= k < |raw| :: raw[k].Ok?
    ensures |Successes(raw)| == |raw|
    ensures forall k | 0 <= k < |raw| :: Successes(raw)[k] == raw[k].value
    decreases |raw|
  {
    if raw != [] {
      SuccessesWithoutFailures(raw[..|raw| - 1]);
    }
  }

  /** `_gather_tasks`: keeps the replies, in order, and drops the fetches that raised. */
  method GatherTasks<T>(raw: seq<Result<T, string>>) returns (parsed: seq<T>)
    ensures parsed == Successes(raw)
  {
    parsed := [];
    var k := 0;
    while k < |raw|
      invariant 0 <= k <= |raw|
      invariant parsed == Successes(raw[..k])
    {
      assert raw[..k + 1][..k] == raw[..k];
      if raw[k].Ok? {
        parsed := parsed + [raw[k].value];
      }
      k := k + 1;
    }
    assert raw[..|raw|] == raw;
  }

  /** An order-status reply: an error code (0 when absent) and message, or the order's state. */
  datatype StatusReply = StatusReply(errorCode: int, errorMsg: string, state: OrderStateMsg)

  /** The replies kept and the not-found reports made by a validation pass. */
  datatype Validation = Validation(kept: seq<StatusReply>, notFound: seq<TrackerCall>)

  function Min(a: int, b: int): int
  {
    if a <= b then a else b
  }

  /**
   * `_validate_status_responses` over the first `n` positions of the zip:
   * an error-coded reply reports the order AT THE SAME POSITION as not
   * found; the rest are kept in order.
   */
  function ValidateUpTo(replies: seq<StatusReply>, orders: seq<TrackedOrder>, n: nat): (r: Validation)
    requires n <= |replies| && n <= |orders|
    ensures |r.kept| + |r.notFound| == n
    ensures forall reply | reply in r.kept :: reply.errorCode == 0 && reply in replies
    ensures forall call | call in r.notFound :: call.OrderNotFoundCall?
  {
    if n == 0 then Validation([], [])
    else
      var prior := ValidateUpTo(replies, orders, n - 1);
      if replies[n - 1].errorCode != 0 then
        Validation(prior.kept, prior.notFound + [OrderNotFoundCall(orders[n - 1].clientOrderId)])
      else Validation(prior.kept + [replies[n - 1]], prior.notFound)
  }

  /** The error-free replies, in the order they came. */
  function ErrorFree(replies: seq<StatusReply>): (r: seq<StatusReply>)
    ensures |r| <= |replies|
    ensures forall reply | reply in r :: reply in replies && reply.errorCode == 0
    ensures forall reply | reply in replies && reply.errorCode == 0 :: reply in r
    decreases |replies|
  {
    if replies == [] then []
    else
      var init := replies[..|replies| - 1];
      var last := replies[|replies| - 1];
      assert forall reply | reply in replies :: reply in init || reply == last;
      ErrorFree(init) + (if last.errorCode == 0 then [last] else [])
  }

  lemma ErrorFreeSnoc(replies: seq<StatusReply>, reply: StatusReply)
    ensures ErrorFree(replies + [reply]) == ErrorFree(replies) + (if reply.errorCode == 0 then [reply] else [])
  {
    assert (replies + [reply])[..|replies|] == replies;
  }

  /**
   * What `_validate_status_responses` does with the first `n` positions of
   * the zip: it keeps exactly the error-free replies, in order, and reports
   * an order as not found exactly when the reply AT ITS POSITION carries an
   * error code, whichever order that reply was fetched for.
   */
  lemma {:induction false} ValidatePairsByPosition(replies: seq<StatusReply>, orders: seq<TrackedOrder>, n: nat)
    requires n <= |replies| && n <= |orders|
    ensures ValidateUpTo(replies, orders, n).kept == ErrorFree(replies[..n])
    ensures forall id :: OrderNotFoundCall(id) in ValidateUpTo(replies, orders, n).notFound
                         <==> exists k | 0 <= k < n :: replies[k].errorCode != 0 && orders[k].clientOrderId == id
  {
    if n > 0 {
      ValidatePairsByPosition(replies, orders, n - 1);
      assert replies[..n] == replies[..n - 1] + [replies[n - 1]];
      ErrorFreeSnoc(replies[..n - 1], replies[n - 1]);
      var prior := ValidateUpTo(replies, orders, n - 1);
      var r := ValidateUpTo(replies, orders, n);
      forall id
        ensures OrderNotFoundCall(id) in r.notFound
                <==> exists k | 0 <= k < n :: replies[k].errorCode != 0 && orders[k].clientOrderId == id
      {
        var own := replies[n - 1].errorCode != 0 && orders[n - 1].clientOrderId == id;
        if own {
          assert r.notFound == prior.notFound + [OrderNotFoundCall(id)];
        } else {
          assert OrderNotFoundCall(id) in r.notFound <==> OrderNotFoundCall(id) in prior.notFound;
        }
      }
    }
  }

  /** `_validate_status_responses(status_responses, associated_orders)`, pairing by `zip`. */
  function Validate(replies: seq<StatusReply>, orders: seq<TrackedOrder>): (r: Validation)
    ensures |r.kept| + |r.notFound| == Min(|replies|, |orders|)
    ensures forall reply | reply in r.kept :: reply.errorCode == 0 && reply in replies
  {
    ValidateUpTo(replies, orders, Min(|replies|, |orders|))
  }

  /** The status cycle as written: failed fetches dropped, then the survivors zipped with every order. */
  function ValidateGathered(fetches: seq<Result<StatusReply, string>>, orders: seq<TrackedOrder>): (r: Validation)
    ensures |r.kept| + |r.notFound| <= |fetches| && |r.kept| + |r.notFound| <= |orders|
  {
    Validate(Successes(fetches), orders)
  }

  /** Status fetches validated against the orders they were made for. */
  function ValidateAligned(fetches: seq<Result<StatusReply, string>>, orders: seq<TrackedOrder>, n: nat)
    : (r: Validation)
    requires n <= |fetches| && n <= |orders|
    ensures forall call | call in r.notFound :: call.OrderNotFoundCall?
    ensures forall reply | reply in r.kept :: reply.errorCode == 0
  {
    if n == 0 then Validation([], [])
    else
      var prior := ValidateAligned(fetches, orders, n - 1);
      match fetches[n - 1]
      case Err(_) => prior
      case Ok(reply) =>
        if reply.errorCode != 0 then
          Validation(prior.kept, prior.notFound + [OrderNotFoundCall(orders[n - 1].clientOrderId)])
        else Validation(prior.kept + [reply], prior.notFound)
  }

  /** The aligned pass reports an order as not found exactly when its own reply carries an error code. */
  lemma {:induction false} AlignedNotFoundIsOwnError(fetches: seq<Result<StatusReply, string>>,
                                                      orders: seq<TrackedOrder>, n: nat, id: int)
    requires n <= |fetches| && n <= |orders|
    ensures OrderNotFoundCall(id) in ValidateAligned(fetches, orders, n).notFound
            <==> exists k | 0 <= k < n :: fetches[k].Ok? && fetches[k].value.errorCode != 0
                                          && orders[k].clientOrderId == id
  {
    if n > 0 {
      AlignedNotFoundIsOwnError(fetches, orders, n - 1, id);
      var prior := ValidateAligned(fetches, orders, n - 1);
      var own := fetches[n - 1].Ok? && fetches[n - 1].value.errorCode != 0 && orders[n - 1].clientOrderId == id;
      if own {
        assert ValidateAligned(fetches, orders, n).notFound == prior.notFound + [OrderNotFoundCall(id)];
      } else {
        var r := ValidateAligned(fetches, orders, n).notFound;
        assert OrderNotFoundCall(id) in r <==> OrderNotFoundCall(id) in prior.notFound;
      }
    }
  }

  /** The aligned pass keeps exactly the error-free replies of the fetches that replied, in order. */
  lemma {:induction false} AlignedKeepsErrorFree(fetches: seq<Result<StatusReply, string>>,
                                                  orders: seq<TrackedOrder>, n: nat)
    requires n <= |fetches| && n <= |orders|
    ensures ValidateAligned(fetches, orders, n).kept == ErrorFree(Successes(fetches[..n]))
  {
    if n > 0 {
      AlignedKeepsErrorFree(fetches, orders, n - 1);
      var init := fetches[..n - 1];
      assert fetches[..n][..n - 1] == init;
      match fetches[n - 1]
      case Err(_) =>
        assert Successes(fetches[..n]) == Successes(init);
      case Ok(reply) =>
        assert Successes(fetches[..n]) == Successes(init) + [reply];
        ErrorFreeSnoc(Successes(init), reply);
    }
  }

  /** Zipping needs no correction when no fetch failed. */
  lemma GatheredIsAlignedWithoutFailures(fetches: seq<Result<StatusReply, string>>, orders: seq<TrackedOrder>)
    requires |fetches| == |orders|
    requires forall k | 0 <= k < |fetches| :: fetches[k].Ok?
    ensures ValidateGathered(fetches, orders) == ValidateAligned(fetches, orders, |orders|)
  {
    SuccessesWithoutFailures(fetches);
    GatheredIsAlignedUpTo(fetches, orders, |orders|);
  }

  lemma {:induction false} GatheredIsAlignedUpTo(fetches: seq<Result<StatusReply, string>>,
                                                  orders: seq<TrackedOrder>, n: nat)
    requires |fetches| == |orders| && n <= |orders|
    requires |Successes(fetches)| == |fetches|
    requires forall k | 0 <= k < |fetches| :: fetches[k].Ok? && Successes(fetches)[k] == fetches[k].value
    ensures ValidateUpTo(Successes(fetches), orders, n) == ValidateAligned(fetches, orders, n)
  {
    if n > 0 {
      GatheredIsAlignedUpTo(fetches, orders, n - 1);
    }
  }

  /**
   * The zip misattributes: when the first order's fetch fails and the
   * second order's reply carries an error code, the first order is the
   * one reported as not found.
   */
  lemma ZipReportsWrongOrder(a: TrackedOrder, b: TrackedOrder, failure: string, reply: StatusReply)
    requires a.clientOrderId != b.clientOrderId && reply.errorCode != 0
    ensures ValidateGathered([Err(failure), Ok(reply)], [a, b]).notFound == [OrderNotFoundCall(a.clientOrderId)]
    ensures ValidateAligned([Err(failure), Ok(reply)], [a, b], 2).notFound == [OrderNotFoundCall(b.clientOrderId)]
  {
    var fetches: seq<Result<StatusReply, string>> := [Err(failure), Ok(reply)];
    assert fetches[..1] == [Err(failure)];
    assert fetches[..1][..0] == [];
    assert Successes(fetches[..1]) == [];
    assert Successes(fetches) == [reply];
    assert ValidateAligned(fetches, [a, b], 0) == Validation([], []);
    assert ValidateAligned(fetches, [a, b], 1) == Validation([], []);
  }

  /** `min(order_status[RECEIVE_TIME] for ...)`: the earliest receive time among the replies. */
  function MinReceiveTime(replies: seq<StatusReply>): (m: int)
    requires |replies| > 0
    ensures forall reply | reply in replies :: m <= reply.state.receiveTimeMs
    ensures exists reply | reply in replies :: m == reply.state.receiveTimeMs
  {
    if |replies| == 1 then replies[0].state.receiveTimeMs
    else
      var rest := MinReceiveTime(replies[1..]);
      assert forall reply | reply in replies :: reply == replies[0] || reply in replies[1..];
      Min(replies[0].state.receiveTimeMs, rest)
  }

  function Flatten(rows: seq<seq<TradeMsg>>): seq<TradeMsg>
  {
    if rows == [] then [] else rows[0] + Flatten(rows[1..])
  }

  function TradeMessages(trades: seq<TradeMsg>): (r: seq<ExchangeMessage>)
    ensures |r| == |trades| && forall m | m in r :: m.TradeMessage? && MessageRank(m) == 1
    ensures forall k | 0 <= k < |trades| :: r[k] == TradeMessage(trades[k])
  {
    seq(|trades|, k requires 0 <= k < |trades| => TradeMessage(trades[k]))
  }

  function StateMessages(replies: seq<StatusReply>): (r: seq<ExchangeMessage>)
    ensures |r| == |replies| && forall m | m in r :: m.StateMessage? && MessageRank(m) == 2
    ensures forall k | 0 <= k < |replies| :: r[k] == StateMessage(replies[k].state)
  {
    seq(|replies|, k requires 0 <= k < |replies| => StateMessage(replies[k].state))
  }

  /** A request the poll cycle sends. */
  datatype Request = StatusRequest(exchangeOrderId: int) | FillsRequest(tradingPair: string, startTimeMs: int)

  datatype PollResult = PollResult(requests: seq<Request>, calls: seq<TrackerCall>, raised: bool)

  /** The replies to the status requests of a poll cycle. */
  function StatusFetches(orders: seq<TrackedOrder>, statusReply: TrackedOrder -> Result<StatusReply, string>)
    : (r: seq<Result<StatusReply, string>>)
    ensures |r| == |orders|
    ensures forall k | 0 <= k < |orders| :: r[k] == statusReply(orders[k])
  {
    seq(|orders|, k requires 0 <= k < |orders| => statusReply(orders[k]))
  }

  /** The replies to the trade-history requests of a poll cycle. */
  function FillsFetches(tradingPairs: seq<string>, minTs: int,
                        fillsReply: (string, int) -> Result<seq<TradeMsg>, string>)
    : (r: seq<Result<seq<TradeMsg>, string>>)
    ensures |r| == |tradingPairs|
    ensures forall k | 0 <= k < |tradingPairs| :: r[k] == fillsReply(tradingPairs[k], minTs)
  {
    seq(|tradingPairs|, k requires 0 <= k < |tradingPairs| => fillsReply(tradingPairs[k], minTs))
  }

  function StatusRequests(orders: seq<TrackedOrder>): (r: seq<Request>)
    ensures |r| == |orders| && forall q | q in r :: q.StatusRequest?
    ensures forall k | 0 <= k < |orders| :: r[k] == StatusRequest(orders[k].exchangeOrderId)
  {
    seq(|orders|, k requires 0 <= k < |orders| => StatusRequest(orders[k].exchangeOrderId))
  }

  function FillsRequests(tradingPairs: seq<string>, minTs: int): (r: seq<Request>)
    ensures |r| == |tradingPairs| && forall q | q in r :: q.FillsRequest? && q.startTimeMs == minTs
    ensures forall k | 0 <= k < |tradingPairs| :: r[k] == FillsRequest(tradingPairs[k], minTs)
  {
    seq(|tradingPairs|, k requires 0 <= k < |tradingPairs| => FillsRequest(tradingPairs[k], minTs))
  }

  /** The second half of a poll cycle: fills fetched from the earliest receive time, then fills and statuses routed. */
  function FillsPhase(route: ExchangeMessage -> Normalized<TrackerCall>, tradingPairs: seq<string>,
                      kept: seq<StatusReply>, fillsReply: (string, int) -> Result<seq<TradeMsg>, string>)
    : (r: PollResult)
    requires |kept| > 0
    ensures |r.requests| == |tradingPairs|
    ensures forall k | 0 <= k < |tradingPairs| ::
              r.requests[k].FillsRequest? && r.requests[k].tradingPair == tradingPairs[k]
              && r.requests[k].startTimeMs == MinReceiveTime(kept)
  {
    var minTs := MinReceiveTime(kept);
    var trades := Flatten(Successes(FillsFetches(tradingPairs, minTs, fillsReply)));
    var handled := HandleUntilRaise(route, TradeMessages(trades) + StateMessages(kept));
    PollResult(FillsRequests(tradingPairs, minTs), handled.calls, handled.raised)
  }

  /** `_update_order_status`: one poll cycle over the tracked orders, replies given. */
  function PollCycle(route: ExchangeMessage -> Normalized<TrackerCall>, orders: seq<TrackedOrder>,
                     tradingPairs: seq<string>,
                     statusReply: TrackedOrder -> Result<StatusReply, string>,
                     fillsReply: (string, int) -> Result<seq<TradeMsg>, string>): (r: PollResult)
    ensures StatusRequests(orders) <= r.requests
    ensures |orders| > 0 ==> ValidateGathered(StatusFetches(orders, statusReply), orders).notFound <= r.calls
  {
    if |orders| == 0 then PollResult([], [], false)
    else
      var v := ValidateGathered(StatusFetches(orders, statusReply), orders);
      if |v.kept| == 0 then PollResult(StatusRequests(orders), v.notFound, false)
      else
        var f := FillsPhase(route, tradingPairs, v.kept, fillsReply);
        PollResult(StatusRequests(orders) + f.requests, v.notFound + f.calls, f.raised)
  }

  /** A log and requests built branch by branch as the poll cycle runs are the poll cycle's. */
  lemma PollCycleLog(route: ExchangeMessage -> Normalized<TrackerCall>, orders: seq<TrackedOrder>,
                     tradingPairs: seq<string>,
                     statusReply: TrackedOrder -> Result<StatusReply, string>,
                     fillsReply: (string, int) -> Result<seq<TradeMsg>, string>,
                     log0: seq<TrackerCall>, log: seq<TrackerCall>, requests: seq<Request>, raised: bool)
    requires |orders| == 0 ==> log == log0 && requests == [] && !raised
    requires |orders| > 0 ==>
               var v := ValidateGathered(StatusFetches(orders, statusReply), orders);
               if |v.kept| == 0 then log == log0 + v.notFound && requests == StatusRequests(orders) && !raised
               else
                 var f := FillsPhase(route, tradingPairs, v.kept, fillsReply);
                 log == log0 + v.notFound + f.calls && requests == StatusRequests(orders) + f.requests
                 && raised == f.raised
    ensures var p := PollCycle(route, orders, tradingPairs, statusReply, fillsReply);
            requests == p.requests && log == log0 + p.calls && raised == p.raised
  {
    if |orders| > 0 {
      var v := ValidateGathered(StatusFetches(orders, statusReply), orders);
      if |v.kept| > 0 {
        var f := FillsPhase(route, tradingPairs, v.kept, fillsReply);
        PollCycleWithFills(route, orders, tradingPairs, statusReply, fillsReply);
        AppendAssociates(log0, v.notFound, f.calls);
      }
    }
  }

  /** A cycle with valid replies: the status requests and reports, then the fills phase. */
  lemma PollCycleWithFills(route: ExchangeMessage -> Normalized<TrackerCall>, orders: seq<TrackedOrder>,
                           tradingPairs: seq<string>,
                           statusReply: TrackedOrder -> Result<StatusReply, string>,
                           fillsReply: (string, int) -> Result<seq<TradeMsg>, string>)
    requires |orders| > 0 && |ValidateGathered(StatusFetches(orders, statusReply), orders).kept| > 0
    ensures var v := ValidateGathered(StatusFetches(orders, statusReply), orders);
            var f := FillsPhase(route, tradingPairs, v.kept, fillsReply);
            PollCycle(route, orders, tradingPairs, statusReply, fillsReply)
              == PollResult(StatusRequests(orders) + f.requests, v.notFound + f.calls, f.raised)
  {
  }

  lemma AppendAssociates<T>(a: seq<T>, b: seq<T>, c: seq<T>)
    ensures a + b + c == a + (b + c)
  {
  }

  /** Nothing is fetched or reported without tracked orders; no fills are fetched without a valid status. */
  lemma PollFetchesOnlyWhenNeeded(route: ExchangeMessage -> Normalized<TrackerCall>, orders: seq<TrackedOrder>,
                                  tradingPairs: seq<string>,
                                  statusReply: TrackedOrder -> Result<StatusReply, string>,
                                  fillsReply: (string, int) -> Result<seq<TradeMsg>, string>)
    ensures |orders| == 0 ==> PollCycle(route, orders, tradingPairs, statusReply, fillsReply) == PollResult([], [], false)
    ensures |ValidateGathered(StatusFetches(orders, statusReply), orders).kept| == 0 ==>
              forall q | q in PollCycle(route, orders, tradingPairs, statusReply, fillsReply).requests ::
                q.StatusRequest?
    ensures |orders| > 0 ==>
              PollCycle(route, orders, tradingPairs, statusReply, fillsReply).requests[..|orders|]
              == StatusRequests(orders)
  {
    if |orders| > 0 {
      var v := ValidateGathered(StatusFetches(orders, statusReply), orders);
      if |v.kept| > 0 {
        var f := FillsPhase(route, tradingPairs, v.kept, fillsReply);
        assert (StatusRequests(orders) + f.requests)[..|orders|] == StatusRequests(orders);
      }
    }
  }

  /** The fills floor is the earliest receive time among the valid status replies. */
  lemma PollFillsFloor(route: ExchangeMessage -> Normalized<TrackerCall>, orders: seq<TrackedOrder>,
                       tradingPairs: seq<string>,
                       statusReply: TrackedOrder -> Result<StatusReply, string>,
                       fillsReply: (string, int) -> Result<seq<TradeMsg>, string>)
    ensures var kept := ValidateGathered(StatusFetches(orders, statusReply), orders).kept;
            forall q | q in PollCycle(route, orders, tradingPairs, statusReply, fillsReply).requests
                       && q.FillsRequest? ::
              (forall reply | reply in kept :: q.startTimeMs <= reply.state.receiveTimeMs)
              && (exists reply | reply in kept :: q.startTimeMs == reply.state.receiveTimeMs)
  {
    var v := ValidateGathered(StatusFetches(orders, statusReply), orders);
    if |orders| > 0 && |v.kept| > 0 {
      var minTs := MinReceiveTime(v.kept);
      var p := PollCycle(route, orders, tradingPairs, statusReply, fillsReply);
      assert p.requests == StatusRequests(orders) + FillsRequests(tradingPairs, minTs);
      forall q | q in p.requests && q.FillsRequest?
        ensures q.startTimeMs == minTs
      {
        assert q in FillsRequests(tradingPairs, minTs);
      }
    }
  }

  /** Calls sorted by rank: not-found reports first, then every fill, then every status. */
  predicate RankSorted(calls: seq<TrackerCall>)
  {
    forall i, j | 0 <= i < j < |calls| :: Rank(calls[i]) <= Rank(calls[j])
  }

  lemma ThreeBlocksSorted(a: seq<TrackerCall>, b: seq<TrackerCall>, d: seq<TrackerCall>)
    requires forall call | call in a :: Rank(call) == 0
    requires forall call | call in b :: Rank(call) == 1
    requires forall call | call in d :: Rank(call) == 2
    ensures RankSorted(a + b + d)
  {
    var s := a + b + d;
    forall i, j | 0 <= i < j < |s|
      ensures Rank(s[i]) <= Rank(s[j])
    {
      if i < |a| {
        assert s[i] in a;
      } else if i < |a| + |b| {
        assert s[i] in b;
        if j < |a| + |b| {
          assert s[j] in b;
        } else {
          assert s[j] in d;
        }
      } else {
        assert s[i] in d && s[j] in d;
      }
    }
  }

  /** A routing that turns fills into fill updates and states into order updates. */
  ghost predicate RoutesByKind(route: ExchangeMessage -> Normalized<TrackerCall>)
  {
    forall m :: route(m).Update? ==> Rank(route(m).update) == MessageRank(m)
  }

  lemma RouterRoutesByKind(c: ExchangeConstants, tokenIds: map<int, string>, orders: seq<TrackedOrder>)
    ensures RoutesByKind(Router(c, tokenIds, orders))
  {
  }

  /** A run of fill updates, cut short or followed by a run of order updates, is sorted. */
  lemma FillsThenStatusesSorted(fills: seq<TrackerCall>, statuses: seq<TrackerCall>, calls: seq<TrackerCall>)
    requires forall call | call in fills :: Rank(call) == 1
    requires forall call | call in statuses :: Rank(call) == 2
    requires calls == fills || calls == fills + statuses
    ensures RankSorted(calls) && forall call | call in calls :: Rank(call) > 0
  {
    if calls == fills {
      ThreeBlocksSorted([], fills, []);
      assert [] + fills + [] == calls;
    } else {
      ThreeBlocksSorted([], fills, statuses);
      assert [] + fills + statuses == calls;
    }
  }

  /** Fills routed ahead of statuses yield fill updates ahead of order updates. */
  lemma RoutedFillsFirst(route: ExchangeMessage -> Normalized<TrackerCall>, trades: seq<ExchangeMessage>,
                         states: seq<ExchangeMessage>)
    requires RoutesByKind(route)
    requires forall m | m in trades :: MessageRank(m) == 1
    requires forall m | m in states :: MessageRank(m) == 2
    ensures var calls := HandleUntilRaise(route, trades + states).calls;
            RankSorted(calls) && forall call | call in calls :: Rank(call) > 0
  {
    var ht := HandleUntilRaise(route, trades);
    var hs := HandleUntilRaise(route, states);
    HandleUntilRaiseAppend(route, trades, states);
    HandleUntilRaiseRanks(route, trades, 1);
    HandleUntilRaiseRanks(route, states, 2);
    FillsThenStatusesSorted(ht.calls, hs.calls, HandleUntilRaise(route, trades + states).calls);
  }

  /** The fills phase routes every fill before any status. */
  lemma FillsPhaseSorted(route: ExchangeMessage -> Normalized<TrackerCall>, tradingPairs: seq<string>,
                         kept: seq<StatusReply>, fillsReply: (string, int) -> Result<seq<TradeMsg>, string>)
    requires |kept| > 0 && RoutesByKind(route)
    ensures var f := FillsPhase(route, tradingPairs, kept, fillsReply);
            RankSorted(f.calls) && forall call | call in f.calls :: Rank(call) > 0
  {
    var minTs := MinReceiveTime(kept);
    var trades := TradeMessages(Flatten(Successes(FillsFetches(tradingPairs, minTs, fillsReply))));
    RoutedFillsFirst(route, trades, StateMessages(kept));
  }

  /** Not-found reports ahead of a sorted run keep it sorted. */
  lemma NotFoundFirstSorted(a: seq<TrackerCall>, b: seq<TrackerCall>)
    requires forall call | call in a :: Rank(call) == 0
    requires RankSorted(b)
    ensures RankSorted(a + b)
  {
    var s := a + b;
    forall i, j | 0 <= i < j < |s|
      ensures Rank(s[i]) <= Rank(s[j])
    {
      if i < |a| {
        assert s[i] in a;
      } else {
        assert s[i] == b[i - |a|] && s[j] == b[j - |a|];
      }
    }
  }

  /** In a poll cycle every fill reaches the tracker before any status update. */
  lemma PollFillsBeforeStatuses(route: ExchangeMessage -> Normalized<TrackerCall>, orders: seq<TrackedOrder>,
                                tradingPairs: seq<string>,
                                statusReply: TrackedOrder -> Result<StatusReply, string>,
                                fillsReply: (string, int) -> Result<seq<TradeMsg>, string>)
    requires RoutesByKind(route)
    ensures RankSorted(PollCycle(route, orders, tradingPairs, statusReply, fillsReply).calls)
  {
    if |orders| > 0 {
      var v := ValidateGathered(StatusFetches(orders, statusReply), orders);
      assert forall call | call in v.notFound :: Rank(call) == 0;
      if |v.kept| == 0 {
        NotFoundFirstSorted(v.notFound, []);
        assert v.notFound + [] == v.notFound;
      } else {
        FillsPhaseSorted(route, tradingPairs, v.kept, fillsReply);
        var f := FillsPhase(route, tradingPairs, v.kept, fillsReply);
        NotFoundFirstSorted(v.notFound, f.calls);
      }
    }
  }

  /** An account position payload. */
  datatype Position = Position(productSymbol: string, amount: real, amountOnHold: real)

  function Total(p: Position): real { p.amount }

  function Available(p: Position): real { p.amount - p.amountOnHold }

  /** The assets a position report names. */
  function ReportedAssets(positions: seq<Position>): (r: set<string>)
    ensures forall p | p in positions :: p.productSymbol in r
    ensures forall a | a in r :: exists p | p in positions :: p.productSymbol == a
    decreases |positions|
  {
    if positions == [] then {}
    else
      var init := positions[..|positions| - 1];
      assert forall p | p in positions :: p in init || p == positions[|positions| - 1];
      assert forall p | p in init :: p in positions;
      ReportedAssets(init) + {positions[|positions| - 1].productSymbol}
  }

  /** A balance map after each position has set its asset's entry to `f(position)`, in order. */
  function SetPositions(m: map<string, real>, positions: seq<Position>, f: Position -> real): (r: map<string, real>)
    ensures r.Keys == m.Keys + ReportedAssets(positions)
    ensures forall a | a in m && a !in ReportedAssets(positions) :: r[a] == m[a]
    decreases |positions|
  {
    if positions == [] then m
    else
      var last := positions[|positions| - 1];
      SetPositions(m, positions[..|positions| - 1], f)[last.productSymbol := f(last)]
  }

  /** The last position reported for an asset decides its balance. */
  lemma {:induction false} LastReportWins(m: map<string, real>, positions: seq<Position>, f: Position -> real, k: nat)
    requires k < |positions|
    requires forall j | k < j < |positions| :: positions[j].productSymbol != positions[k].productSymbol
    ensures SetPositions(m, positions, f)[positions[k].productSymbol] == f(positions[k])
    decreases |positions|
  {
    if k < |positions| - 1 {
      LastReportWins(m, positions[..|positions| - 1], f, k);
    }
  }

  function Restrict(m: map<string, real>, keys: set<string>): (r: map<string, real>)
    ensures r.Keys == m.Keys * keys
    ensures forall a | a in r :: r[a] == m[a]
  {
    map a | a in m && a in keys :: m[a]
  }

  /** Once unreported assets are dropped, no trace of the balances before the report is left. */
  lemma {:induction false} RefreshForgetsOldBalances(m: map<string, real>, positions: seq<Position>, f: Position -> real)
    ensures Restrict(SetPositions(m, positions, f), ReportedAssets(positions)) == SetPositions(map[], positions, f)
    decreases |positions|
  {
    if positions != [] {
      var init := positions[..|positions| - 1];
      var last := positions[|positions| - 1];
      RefreshForgetsOldBalances(m, init, f);
      var lhs := Restrict(SetPositions(m, positions, f), ReportedAssets(positions));
      var rhs := SetPositions(map[], positions, f);
      var before := Restrict(SetPositions(m, init, f), ReportedAssets(init));
      assert before == SetPositions(map[], init, f);
      forall a | a in lhs
        ensures a in rhs && lhs[a] == rhs[a]
      {
        if a != last.productSymbol {
          assert a in ReportedAssets(init);
          assert a in before;
        }
      }
      assert lhs.Keys == rhs.Keys;
    }
  }

  /** Applying a report and then keeping just the reported assets leaves the report's balances. */
  lemma DroppedUnreported(m: map<string, real>, positions: seq<Position>, f: Position -> real,
                          kept: map<string, real>)
    requires kept.Keys == ReportedAssets(positions)
    requires forall a | a in kept :: a in SetPositions(m, positions, f) && kept[a] == SetPositions(m, positions, f)[a]
    ensures kept == SetPositions(map[], positions, f)
  {
    assert kept == Restrict(SetPositions(m, positions, f), ReportedAssets(positions));
    RefreshForgetsOldBalances(m, positions, f);
  }

  /** One symbol-data row of the exchange information. */
  datatype SymbolData = SymbolData(instrumentId: int, base: string, quote: string, baseId: int, quoteId: int)

  function PairOf(e: SymbolData): string
  {
    CombinePair(e.base, e.quote)
  }

  predicate Injective(m: map<int, string>)
  {
    forall i, j | i in m && j in m && i != j :: m[i] != m[j]
  }

  /** The instrument map, the token id map and the rows that made it into the instrument map. */
  datatype SymbolMaps = SymbolMaps(mapping: map<int, string>, tokenIds: map<int, string>, accepted: seq<SymbolData>)

  /**
   * `_initialize_trading_pair_symbols_from_exchange_info`: valid rows are
   * added in order, skipping a row whose instrument id or trading pair is
   * already mapped; each added row records its base and quote token ids.
   */
  function BuildSymbolMaps(tokenIds: map<int, string>, info: seq<SymbolData>, isValid: SymbolData -> bool)
    : (r: SymbolMaps)
    ensures Injective(r.mapping)
    ensures forall e | e in r.accepted :: e in info && isValid(e)
    ensures forall e | e in r.accepted :: e.instrumentId in r.mapping && r.mapping[e.instrumentId] == PairOf(e)
    ensures forall e | e in r.accepted :: e.baseId in r.tokenIds && e.quoteId in r.tokenIds
    ensures forall e | e in info && isValid(e) :: e.instrumentId in r.mapping || PairOf(e) in r.mapping.Values
    ensures tokenIds.Keys <= r.tokenIds.Keys
    ensures r.mapping.Keys == set e | e in r.accepted :: e.instrumentId
    decreases |info|
  {
    if info == [] then SymbolMaps(map[], tokenIds, [])
    else
      var init := info[..|info| - 1];
      var e := info[|info| - 1];
      var prior := BuildSymbolMaps(tokenIds, init, isValid);
      assert forall x | x in info :: x in init || x == e;
      assert forall x | x in init :: x in info;
      if !isValid(e) || e.instrumentId in prior.mapping || PairOf(e) in prior.mapping.Values then prior
      else
        var mapping := prior.mapping[e.instrumentId := PairOf(e)];
        assert forall id | id in prior.mapping :: id in mapping && mapping[id] == prior.mapping[id];
        assert forall x | x in init && isValid(x) && PairOf(x) in prior.mapping.Values :: PairOf(x) in mapping.Values;
        SymbolMaps(mapping, prior.tokenIds[e.baseId := e.base][e.quoteId := e.quote], prior.accepted + [e])
  }

  /** The token name row `e` writes for asset id `id`: its quote is written after its base. */
  function RowToken(e: SymbolData, id: int): Option<string>
  {
    if e.quoteId == id then Some(e.quote) else if e.baseId == id then Some(e.base) else None
  }

  /** Row `k` is the last of `rows` to write asset id `id`. */
  predicate LastNaming(rows: seq<SymbolData>, k: int, id: int)
  {
    0 <= k < |rows| && RowToken(rows[k], id).Some? && forall j | k < j < |rows| :: RowToken(rows[j], id).None?
  }

  /** A row that does not name `id` leaves the last row naming it the last. */
  lemma LastNamingExtends(rows: seq<SymbolData>, e: SymbolData, k: int, id: int)
    requires LastNaming(rows, k, id) && RowToken(e, id).None?
    ensures LastNaming(rows + [e], k, id) && (rows + [e])[k] == rows[k]
  {
  }

  /** An asset id is in the token id map exactly when it was before or an accepted row names it. */
  lemma {:induction false} TokenIdsKeys(tokenIds: map<int, string>, info: seq<SymbolData>,
                                        isValid: SymbolData -> bool, id: int)
    ensures var r := BuildSymbolMaps(tokenIds, info, isValid);
            id in r.tokenIds <==> id in tokenIds || exists k | 0 <= k < |r.accepted| :: RowToken(r.accepted[k], id).Some?
    decreases |info|
  {
    if info != [] {
      var init := info[..|info| - 1];
      var e := info[|info| - 1];
      TokenIdsKeys(tokenIds, init, isValid, id);
      var prior := BuildSymbolMaps(tokenIds, init, isValid);
      if !(!isValid(e) || e.instrumentId in prior.mapping || PairOf(e) in prior.mapping.Values) {
        TokenKeysStep(tokenIds, prior.accepted, prior.tokenIds, e, id);
      }
    }
  }

  /** Writing one more row's base and quote ids adds exactly the ids that row names. */
  lemma TokenKeysStep(before: map<int, string>, rows: seq<SymbolData>, tok: map<int, string>,
                      e: SymbolData, id: int)
    requires id in tok <==> id in before || exists k | 0 <= k < |rows| :: RowToken(rows[k], id).Some?
    ensures var rows' := rows + [e];
            id in tok[e.baseId := e.base][e.quoteId := e.quote]
            <==> id in before || exists k | 0 <= k < |rows'| :: RowToken(rows'[k], id).Some?
  {
    var rows' := rows + [e];
    assert forall k | 0 <= k < |rows| :: rows'[k] == rows[k];
    assert rows'[|rows|] == e;
  }

  /**
   * The name `tok` holds for asset id `id` is the one the last of `rows`
   * naming it wrote, or the name in `before` when none of them names it.
   */
  ghost predicate NameFromLastRow(before: map<int, string>, rows: seq<SymbolData>, tok: map<int, string>, id: int)
  {
    id in tok ==>
      (exists k :: LastNaming(rows, k, id) && tok[id] == RowToken(rows[k], id).value)
      || ((forall k | 0 <= k < |rows| :: RowToken(rows[k], id).None?) && id in before && tok[id] == before[id])
  }

  /** Writing one more row's base and quote ids keeps the names those of the last row naming them. */
  lemma NameFromLastRowStep(before: map<int, string>, rows: seq<SymbolData>, tok: map<int, string>,
                            e: SymbolData, id: int)
    requires NameFromLastRow(before, rows, tok, id)
    ensures NameFromLastRow(before, rows + [e], tok[e.baseId := e.base][e.quoteId := e.quote], id)
  {
    var rows' := rows + [e];
    var tok' := tok[e.baseId := e.base][e.quoteId := e.quote];
    if RowToken(e, id).Some? {
      assert rows'[|rows|] == e;
      assert LastNaming(rows', |rows|, id);
    } else if id in tok' {
      assert tok'[id] == tok[id];
      if exists k :: LastNaming(rows, k, id) && tok[id] == RowToken(rows[k], id).value {
        var k :| LastNaming(rows, k, id) && tok[id] == RowToken(rows[k], id).value;
        LastNamingExtends(rows, e, k, id);
      } else {
        assert forall k | 0 <= k < |rows| :: rows'[k] == rows[k];
      }
    }
  }

  /**
   * The name the token id map holds for an asset id after the symbol maps
   * are built: the one the last accepted row naming it wrote, or the old
   * name when no accepted row names it.
   */
  lemma {:induction false} TokenIdsFromLastAcceptedRow(tokenIds: map<int, string>, info: seq<SymbolData>,
                                                        isValid: SymbolData -> bool, id: int)
    ensures var r := BuildSymbolMaps(tokenIds, info, isValid);
            NameFromLastRow(tokenIds, r.accepted, r.tokenIds, id)
    decreases |info|
  {
    if info != [] {
      var init := info[..|info| - 1];
      var e := info[|info| - 1];
      TokenIdsFromLastAcceptedRow(tokenIds, init, isValid, id);
      var prior := BuildSymbolMaps(tokenIds, init, isValid);
      if !(!isValid(e) || e.instrumentId in prior.mapping || PairOf(e) in prior.mapping.Values) {
        NameFromLastRowStep(tokenIds, prior.accepted, prior.tokenIds, e, id);
      }
    }
  }

  /** The first row to claim an instrument id or a trading pair keeps it: later rows only add entries. */
  lemma {:induction false} EarlierEntriesKept(tokenIds: map<int, string>, info: seq<SymbolData>,
                                              isValid: SymbolData -> bool, n: nat)
    requires n <= |info|
    ensures var early := BuildSymbolMaps(tokenIds, info[..n], isValid).mapping;
            var late := BuildSymbolMaps(tokenIds, info, isValid).mapping;
            forall id | id in early :: id in late && late[id] == early[id]
    decreases |info| - n
  {
    if n < |info| {
      var init := info[..|info| - 1];
      assert init[..n] == info[..n];
      EarlierEntriesKept(tokenIds, init, isValid, n);
    } else {
      assert info[..n] == info;
    }
  }

  /** The status-check and fills replies are inputs; the calls into the tracker are the record of its effects. */
  datatype UserEvent = AccountPositionEvent(position: Position) | ExchangeEvent(message: ExchangeMessage) | UnknownEvent(endpoint: string)

  function PositionsOf(events: seq<UserEvent>): seq<Position>
    decreases |events|
  {
    if events == [] then []
    else
      var last := events[|events| - 1];
      PositionsOf(events[..|events| - 1]) + (if last.AccountPositionEvent? then [last.position] else [])
  }

  function MessagesOf(events: seq<UserEvent>): seq<ExchangeMessage>
    decreases |events|
  {
    if events == [] then []
    else
      var last := events[|events| - 1];
      MessagesOf(events[..|events| - 1]) + (if last.ExchangeEvent? then [last.message] else [])
  }

  /** After an exception, later payloads change nothing. */
  lemma {:induction false} RaisedPrefixDecides(route: ExchangeMessage -> Normalized<TrackerCall>,
                                               msgs: seq<ExchangeMessage>, k: nat)
    requires k <= |msgs|
    requires HandleUntilRaise(route, msgs[..k]).raised
    ensures HandleUntilRaise(route, msgs) == HandleUntilRaise(route, msgs[..k])
    decreases |msgs| - k
  {
    if k < |msgs| {
      var init := msgs[..|msgs| - 1];
      assert init[..k] == msgs[..k];
      RaisedPrefixDecides(route, init, k);
    } else {
      assert msgs[..k] == msgs;
    }
  }

  lemma HandleEachSnoc(route: ExchangeMessage -> Normalized<TrackerCall>, msgs: seq<ExchangeMessage>,
                       m: ExchangeMessage)
    ensures HandleEach(route, msgs + [m]) == HandleEach(route, msgs) + CallsOf(route(m))
  {
    assert (msgs + [m])[..|msgs|] == msgs;
  }

  lemma SetPositionsSnoc(m: map<string, real>, positions: seq<Position>, p: Position, f: Position -> real)
    ensures SetPositions(m, positions + [p], f) == SetPositions(m, positions, f)[p.productSymbol := f(p)]
  {
    assert (positions + [p])[..|positions|] == positions;
  }

  /** How one more event extends the positions and payloads seen. */
  lemma EventsSnoc(events: seq<UserEvent>, k: nat)
    requires k < |events|
    ensures events[k].AccountPositionEvent? ==>
              PositionsOf(events[..k + 1]) == PositionsOf(events[..k]) + [events[k].position]
    ensures !events[k].AccountPositionEvent? ==> PositionsOf(events[..k + 1]) == PositionsOf(events[..k])
    ensures events[k].ExchangeEvent? ==> MessagesOf(events[..k + 1]) == MessagesOf(events[..k]) + [events[k].message]
    ensures !events[k].ExchangeEvent? ==> MessagesOf(events[..k + 1]) == MessagesOf(events[..k])
  {
    assert events[..k + 1][..k] == events[..k];
    assert PositionsOf(events[..k]) + [] == PositionsOf(events[..k]);
    assert MessagesOf(events[..k]) + [] == MessagesOf(events[..k]);
  }

  /** A position event applies one more position to a balance map; other events leave it as it is. */
  lemma PositionsStep(events: seq<UserEvent>, k: nat, m0: map<string, real>, m: map<string, real>,
                      m': map<string, real>, f: Position -> real)
    requires k < |events|
    requires m == SetPositions(m0, PositionsOf(events[..k]), f)
    requires events[k].AccountPositionEvent? ==>
               m' == m[events[k].position.productSymbol := f(events[k].position)]
    requires !events[k].AccountPositionEvent? ==> m' == m
    ensures m' == SetPositions(m0, PositionsOf(events[..k + 1]), f)
  {
    EventsSnoc(events, k);
    if events[k].AccountPositionEvent? {
      SetPositionsSnoc(m0, PositionsOf(events[..k]), events[k].position, f);
    }
  }

  /** An exchange event adds the calls its payload routes to; other events add none. */
  lemma MessagesStep(route: ExchangeMessage -> Normalized<TrackerCall>, events: seq<UserEvent>, k: nat,
                     log0: seq<TrackerCall>, log: seq<TrackerCall>, log': seq<TrackerCall>)
    requires k < |events|
    requires log == log0 + HandleEach(route, MessagesOf(events[..k]))
    requires events[k].ExchangeEvent? ==> log' == log + CallsOf(route(events[k].message))
    requires !events[k].ExchangeEvent? ==> log' == log
    ensures log' == log0 + HandleEach(route, MessagesOf(events[..k + 1]))
  {
    EventsSnoc(events, k);
    if events[k].ExchangeEvent? {
      var messages := MessagesOf(events[..k]);
      var m := events[k].message;
      HandleEachSnoc(route, messages, m);
      assert log0 + HandleEach(route, messages) + CallsOf(route(m))
             == log0 + (HandleEach(route, messages) + CallsOf(route(m)));
    }
  }

  /** How one more position extends the balances and the assets reported. */
  lemma PositionsPrefixSnoc(m: map<string, real>, positions: seq<Position>, k: nat, f: Position -> real)
    requires k < |positions|
    ensures SetPositions(m, positions[..k + 1], f) == SetPositions(m, positions[..k], f)[positions[k].productSymbol := f(positions[k])]
    ensures ReportedAssets(positions[..k + 1]) == ReportedAssets(positions[..k]) + {positions[k].productSymbol}
  {
    assert positions[..k + 1][..k] == positions[..k];
  }

  /** A cancellation reply. */
  datatype CancelReply = CancelReply(errorCode: int, errorMsg: string, result: bool)

  /** An order-creation reply. */
  datatype PlaceReply = PlaceReply(errorCode: int, errorMsg: string, orderId: int)

  const SubmitErrorPrefix: string := "Error submitting order "

  /** Each of four strings can be read back from its place in their concatenation. */
  lemma ConcatSlices(a: string, b: string, c: string, d: string)
    ensures var t := a + b + c + d;
            |t| == |a| + |b| + |c| + |d|
            && t[..|a|] == a && t[|a|..|a| + |b|] == b && t[|a| + |b|..|a| + |b| + |c|] == c
            && t[|t| - |d|..] == d
  {
    var t := a + b + c + d;
    assert t[..|a|] == a;
    assert t[|a|..|a| + |b|] == b;
    assert t[|a| + |b|..|a| + |b| + |c|] == c;
  }

  /** `_place_order` once the creation reply is in: the exchange order id and the time, or the `IOError` text. */
  function PlaceOrder(orderId: int, reply: PlaceReply, now: real): (r: Result<(string, real), string>)
    ensures r.Err? <==> reply.errorCode != 0
    ensures r.Ok? ==> r.value.0 == IntToString(reply.orderId) && r.value.1 == now
    ensures r.Err? ==>
              var id := IntToString(orderId);
              |r.error| == |SubmitErrorPrefix| + |id| + 2 + |reply.errorMsg|
              && r.error[..|SubmitErrorPrefix|] == SubmitErrorPrefix
              && r.error[|SubmitErrorPrefix|..|SubmitErrorPrefix| + |id|] == id
              && r.error[|SubmitErrorPrefix| + |id|..|SubmitErrorPrefix| + |id| + 2] == ": "
              && r.error[|r.error| - |reply.errorMsg|..] == reply.errorMsg
  {
    if reply.errorCode != 0 then
      var id := IntToString(orderId);
      ConcatSlices(SubmitErrorPrefix, id, ": ", reply.errorMsg);
      Err(SubmitErrorPrefix + id + ": " + reply.errorMsg)
    else Ok((IntToString(reply.orderId), now))
  }

  /** `AlphaPointExchange`: the connector state this model keeps. */
  class AlphaPointExchange {
    const consts: ExchangeConstants
    const tradingPairs: seq<string>
    /** `_account_balances`: total balance per asset. */
    var accountBalances: map<string, real>
    /** `_account_available_balances`: available balance per asset. */
    var availableBalances: map<string, real>
    /** `_token_id_map`: asset id to token name. */
    var tokenIdMap: map<int, string>
    /** The instrument id to trading pair map last set. */
    var symbolMap: map<int, string>
    /** The orders the tracker holds (read, never changed, here). */
    var trackedOrders: seq<TrackedOrder>
    /** Every call made into the order tracker, oldest first. */
    var trackerCalls: seq<TrackerCall>

    /** Both balance maps name the same assets. */
    ghost predicate Valid()
      reads this
    {
      accountBalances.Keys == availableBalances.Keys
    }

    constructor (consts: ExchangeConstants, tradingPairs: seq<string>, trackedOrders: seq<TrackedOrder>)
      ensures Valid()
      ensures this.consts == consts && this.tradingPairs == tradingPairs && this.trackedOrders == trackedOrders
      ensures accountBalances == map[] && availableBalances == map[] && tokenIdMap == map[] && symbolMap == map[]
      ensures trackerCalls == []
    {
      this.consts := consts;
      this.tradingPairs := tradingPairs;
      this.trackedOrders := trackedOrders;
      accountBalances := map[];
      availableBalances := map[];
      tokenIdMap := map[];
      symbolMap := map[];
      trackerCalls := [];
    }

    /** `_process_account_position_event`: total is the amount, available the amount not on hold. */
    method ProcessAccountPositionEvent(p: Position)
      requires Valid()
      modifies this`accountBalances, this`availableBalances
      ensures Valid()
      ensures accountBalances == old(accountBalances)[p.productSymbol := Total(p)]
      ensures availableBalances == old(availableBalances)[p.productSymbol := Available(p)]
      ensures availableBalances[p.productSymbol] + p.amountOnHold == accountBalances[p.productSymbol]
    {
      accountBalances := accountBalances[p.productSymbol := p.amount];
      availableBalances := availableBalances[p.productSymbol := p.amount - p.amountOnHold];
    }

    /**
     * `_update_balances` once the position report is in: every position
     * is applied, then every previously known asset the report does not
     * name is deleted from both maps.
     */
    method UpdateBalances(positions: seq<Position>)
      requires Valid()
      modifies this`accountBalances, this`availableBalances
      ensures Valid()
      ensures accountBalances == SetPositions(map[], positions, Total)
      ensures availableBalances == SetPositions(map[], positions, Available)
      ensures accountBalances.Keys == ReportedAssets(positions)
    {
      var localAssetNames := accountBalances.Keys;
      var remoteAssetNames: set<string> := {};
      ghost var total0 := accountBalances;
      ghost var available0 := availableBalances;
      var k := 0;
      while k < |positions|
        invariant 0 <= k <= |positions|
        invariant Valid()
        invariant accountBalances == SetPositions(total0, positions[..k], Total)
        invariant availableBalances == SetPositions(available0, positions[..k], Available)
        invariant remoteAssetNames == ReportedAssets(positions[..k])
      {
        PositionsPrefixSnoc(total0, positions, k, Total);
        PositionsPrefixSnoc(available0, positions, k, Available);
        ProcessAccountPositionEvent(positions[k]);
        remoteAssetNames := remoteAssetNames + {positions[k].productSymbol};
        k := k + 1;
      }
      assert positions[..|positions|] == positions;
      assert accountBalances.Keys == localAssetNames + remoteAssetNames;
      DeleteAssets(localAssetNames - remoteAssetNames);
      DroppedUnreported(total0, positions, Total, accountBalances);
      DroppedUnreported(available0, positions, Available, availableBalances);
    }

    /** The deletion loop of `_update_balances`: each named asset leaves both maps. */
    method DeleteAssets(assetNames: set<string>)
      requires Valid()
      modifies this`accountBalances, this`availableBalances
      ensures Valid()
      ensures accountBalances.Keys == old(accountBalances).Keys - assetNames
      ensures forall a | a in accountBalances :: accountBalances[a] == old(accountBalances)[a]
      ensures forall a | a in availableBalances :: availableBalances[a] == old(availableBalances)[a]
    {
      var toRemove := assetNames;
      while toRemove != {}
        invariant toRemove <= assetNames
        invariant Valid()
        invariant accountBalances.Keys == old(accountBalances).Keys - (assetNames - toRemove)
        invariant forall a | a in accountBalances :: accountBalances[a] == old(accountBalances)[a]
        invariant forall a | a in availableBalances :: availableBalances[a] == old(availableBalances)[a]
        decreases toRemove
      {
        var assetName :| assetName in toRemove;
        availableBalances := availableBalances - {assetName};
        accountBalances := accountBalances - {assetName};
        toRemove := toRemove - {assetName};
      }
    }

    /**
     * `_initialize_trading_pair_symbols_from_exchange_info`: builds the
     * instrument map afresh and adds to the token id map.
     */
    method InitializeTradingPairSymbols(info: seq<SymbolData>, isValid: SymbolData -> bool)
      modifies this`symbolMap, this`tokenIdMap
      ensures var b := BuildSymbolMaps(old(tokenIdMap), info, isValid);
              symbolMap == b.mapping && tokenIdMap == b.tokenIds
    {
      var mapping: map<int, string> := map[];
      ghost var accepted: seq<SymbolData> := [];
      ghost var tokenIds0 := tokenIdMap;
      var k := 0;
      while k < |info|
        invariant 0 <= k <= |info|
        invariant BuildSymbolMaps(tokenIds0, info[..k], isValid) == SymbolMaps(mapping, tokenIdMap, accepted)
      {
        var e := info[k];
        assert info[..k + 1][..k] == info[..k];
        assert info[..k + 1][k] == e;
        if isValid(e) {
          var tradingPair := CombinePair(e.base, e.quote);
          if e.instrumentId in mapping {
          } else if tradingPair in mapping.Values {
          } else {
            mapping := mapping[e.instrumentId := tradingPair];
            tokenIdMap := tokenIdMap[e.baseId := e.base];
            tokenIdMap := tokenIdMap[e.quoteId := e.quote];
            accepted := accepted + [e];
          }
        }
        k := k + 1;
      }
      assert info[..|info|] == info;
      symbolMap := mapping;
    }

    /** The routing of payloads by this connector's current tables. */
    function Route(): ExchangeMessage -> Normalized<TrackerCall>
      reads this`tokenIdMap, this`trackedOrders
    {
      Router(consts, tokenIdMap, trackedOrders)
    }

    /** `_process_order_event_message` / `_process_trade_event_message`; `raised` where a lookup table raises. */
    method HandleMessage(m: ExchangeMessage) returns (raised: bool)
      modifies this`trackerCalls
      ensures var h := Handle(consts, tokenIdMap, trackedOrders, m);
              trackerCalls == old(trackerCalls) + CallsOf(h) && raised == h.KeyMissing?
    {
      var h := Handle(consts, tokenIdMap, trackedOrders, m);
      if h.Update? {
        trackerCalls := trackerCalls + [h.update];
      }
      raised := h.KeyMissing?;
    }

    /** The payloads of a poll cycle, handled in order; an exception ends the cycle. */
    method HandleUntilRaised(msgs: seq<ExchangeMessage>) returns (raised: bool)
      modifies this`trackerCalls
      ensures var o := HandleUntilRaise(Route(), msgs);
              trackerCalls == old(trackerCalls) + o.calls && raised == o.raised
    {
      raised := false;
      var k := 0;
      while k < |msgs| && !raised
        invariant 0 <= k <= |msgs|
        invariant var o := HandleUntilRaise(Route(), msgs[..k]);
                  trackerCalls == old(trackerCalls) + o.calls && raised == o.raised
      {
        assert msgs[..k + 1][..k] == msgs[..k];
        raised := HandleMessage(msgs[k]);
        k := k + 1;
      }
      if raised && k < |msgs| {
        RaisedPrefixDecides(Route(), msgs, k);
      }
      assert k == |msgs| ==> msgs[..k] == msgs;
    }

    /** `_validate_status_responses`: reports error-coded replies as not found, keeps the rest. */
    method ValidateStatusResponses(replies: seq<StatusReply>, orders: seq<TrackedOrder>)
      returns (validated: seq<StatusReply>)
      modifies this`trackerCalls
      ensures var v := Validate(replies, orders);
              validated == v.kept && trackerCalls == old(trackerCalls) + v.notFound
      ensures validated == ErrorFree(replies[..Min(|replies|, |orders|)])
      ensures forall id :: OrderNotFoundCall(id) in trackerCalls[|old(trackerCalls)|..]
                           <==> exists k | 0 <= k < Min(|replies|, |orders|) ::
                                  replies[k].errorCode != 0 && orders[k].clientOrderId == id
    {
      validated := [];
      var n := Min(|replies|, |orders|);
      var k := 0;
      while k < n
        invariant 0 <= k <= n
        invariant var v := ValidateUpTo(replies, orders, k);
                  validated == v.kept && trackerCalls == old(trackerCalls) + v.notFound
      {
        if replies[k].errorCode != 0 {
          trackerCalls := trackerCalls + [OrderNotFoundCall(orders[k].clientOrderId)];
        } else {
          validated := validated + [replies[k]];
        }
        k := k + 1;
      }
      ValidatePairsByPosition(replies, orders, n);
      assert trackerCalls[|old(trackerCalls)|..] == ValidateUpTo(replies, orders, n).notFound;
    }

    /** The two ordered loops of `_update_order_status`: every fill first, then every status. */
    method HandleFillsThenStatuses(tradeMsgs: seq<ExchangeMessage>, stateMsgs: seq<ExchangeMessage>)
      returns (raised: bool)
      modifies this`trackerCalls
      ensures var o := HandleUntilRaise(Route(), tradeMsgs + stateMsgs);
              trackerCalls == old(trackerCalls) + o.calls && raised == o.raised
    {
      ghost var calls0 := trackerCalls;
      raised := HandleUntilRaised(tradeMsgs);
      if !raised {
        raised := HandleUntilRaised(stateMsgs);
      }
      UntilRaiseThen(Route(), tradeMsgs, stateMsgs, calls0, trackerCalls, raised);
    }

    /** The fills half of `_update_order_status`: fetch the fills, then route every fill, then every status. */
    method ProcessFillsThenStatuses(statusResponses: seq<StatusReply>,
                                    fillsReply: (string, int) -> Result<seq<TradeMsg>, string>)
      returns (requests: seq<Request>, raised: bool)
      requires |statusResponses| > 0
      modifies this`trackerCalls
      ensures var f := FillsPhase(Route(), tradingPairs, statusResponses, fillsReply);
              requests == f.requests && trackerCalls == old(trackerCalls) + f.calls && raised == f.raised
    {
      var minTs := MinReceiveTime(statusResponses);
      requests := FillsRequests(tradingPairs, minTs);
      var tradeResponses := GatherTasks(FillsFetches(tradingPairs, minTs, fillsReply));
      raised := HandleFillsThenStatuses(TradeMessages(Flatten(tradeResponses)), StateMessages(statusResponses));
    }

    /** `_update_order_status`: one poll cycle, the exchange's replies given as functions of the request. */
    method UpdateOrderStatus(statusReply: TrackedOrder -> Result<StatusReply, string>,
                             fillsReply: (string, int) -> Result<seq<TradeMsg>, string>)
      returns (requests: seq<Request>, raised: bool)
      modifies this`trackerCalls
      ensures var p := PollCycle(Route(), trackedOrders, tradingPairs, statusReply, fillsReply);
              requests == p.requests && trackerCalls == old(trackerCalls) + p.calls && raised == p.raised
    {
      requests := [];
      raised := false;
      ghost var calls0 := trackerCalls;
      var orders := trackedOrders;
      if |orders| > 0 {
        requests := StatusRequests(orders);
        var statusResponses := GatherTasks(StatusFetches(orders, statusReply));
        statusResponses := ValidateStatusResponses(statusResponses, orders);
        if |statusResponses| > 0 {
          var fillsRequests;
          fillsRequests, raised := ProcessFillsThenStatuses(statusResponses, fillsReply);
          requests := requests + fillsRequests;
        }
      }
      PollCycleLog(Route(), orders, tradingPairs, statusReply, fillsReply, calls0, trackerCalls, requests, raised);
    }

    /**
     * `_user_stream_event_listener`: each event routed by its endpoint; an
     * exception in one event is logged and the next event is handled.
     */
    method UserStreamEventListener(events: seq<UserEvent>)
      requires Valid()
      modifies this`accountBalances, this`availableBalances, this`trackerCalls
      ensures Valid()
      ensures accountBalances == SetPositions(old(accountBalances), PositionsOf(events), Total)
      ensures availableBalances == SetPositions(old(availableBalances), PositionsOf(events), Available)
      ensures trackerCalls == old(trackerCalls) + HandleEach(Route(), MessagesOf(events))
    {
      var k := 0;
      while k < |events|
        invariant 0 <= k <= |events|
        invariant Valid()
        invariant accountBalances == SetPositions(old(accountBalances), PositionsOf(events[..k]), Total)
        invariant availableBalances == SetPositions(old(availableBalances), PositionsOf(events[..k]), Available)
        invariant trackerCalls == old(trackerCalls) + HandleEach(Route(), MessagesOf(events[..k]))
      {
        ghost var total := accountBalances;
        ghost var available := availableBalances;
        ghost var log := trackerCalls;
        HandleUserEvent(events[k]);
        PositionsStep(events, k, old(accountBalances), total, accountBalances, Total);
        PositionsStep(events, k, old(availableBalances), available, availableBalances, Available);
        MessagesStep(Route(), events, k, old(trackerCalls), log, trackerCalls);
        k := k + 1;
      }
      assert events[..|events|] == events;
    }

    /** One event of the user stream, routed by its endpoint. */
    method HandleUserEvent(event: UserEvent)
      requires Valid()
      modifies this`accountBalances, this`availableBalances, this`trackerCalls
      ensures Valid()
      ensures event.AccountPositionEvent? ==>
                var p := event.position;
                accountBalances == old(accountBalances)[p.productSymbol := Total(p)]
                && availableBalances == old(availableBalances)[p.productSymbol := Available(p)]
                && trackerCalls == old(trackerCalls)
      ensures event.ExchangeEvent? ==>
                accountBalances == old(accountBalances) && availableBalances == old(availableBalances)
                && trackerCalls == old(trackerCalls) + CallsOf(Route()(event.message))
      ensures event.UnknownEvent? ==>
                accountBalances == old(accountBalances) && availableBalances == old(availableBalances)
                && trackerCalls == old(trackerCalls)
    {
      match event {
        case AccountPositionEvent(p) =>
          ProcessAccountPositionEvent(p);
        case ExchangeEvent(m) =>
          var _ := HandleMessage(m);
        case UnknownEvent(_) =>
      }
    }

    /**
     * `_place_cancel` once the cancellation reply is in: an error code
     * raises with the reply's message, after reporting the order as not
     * found when the message is the not-found one.
     */
    method PlaceCancel(orderId: int, reply: CancelReply) returns (r: Result<bool, string>)
      modifies this`trackerCalls
      ensures r.Err? <==> reply.errorCode != 0
      ensures r.Err? ==> r.error == reply.errorMsg
      ensures r.Ok? ==> r.value == reply.result
      ensures trackerCalls == old(trackerCalls)
                              + (if reply.errorCode != 0 && reply.errorMsg == consts.resourceNotFoundMsg
                                 then [OrderNotFoundCall(orderId)] else [])
    {
      if reply.errorCode != 0 {
        if reply.errorMsg == consts.resourceNotFoundMsg {
          trackerCalls := trackerCalls + [OrderNotFoundCall(orderId)];
        }
        return Err(reply.errorMsg);
      }
      r := Ok(reply.result);
    }
  }
}
