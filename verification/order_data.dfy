/**
 * The generic records every connector normalises exchange payloads into:
 * the order lifecycle states, and the `OrderUpdate` / `TradeUpdate`
 * records handed to the order tracker.
 *
 * Identifiers (client order id, exchange order id, trade id) are kept as
 * the integers the exchange sends; the connector's `str(...)` of them is
 * injective, so lookups and duplicate detection are unaffected.
 * Timestamps are integer milliseconds.
 */
module InFlightOrderData {

  datatype OrderState =
    | PendingCreate
    | Open
    | PartiallyFilled
    | PendingCancel
    | Canceled
    | Filled
    | Failed

  /** FILLED, CANCELED and FAILED end an order's life. */
  predicate IsDone(s: OrderState)
  {
    s == Filled || s == Canceled || s == Failed
  }

  /** `is_open`: every state that is not terminal. */
  predicate IsOpen(s: OrderState)
  {
    !IsDone(s)
  }

  datatype TradeType = Buy | Sell

  datatype OrderType = Limit | Market | LimitMaker

  datatype TokenAmount = TokenAmount(token: string, amount: real)

  /** A spot fee: the token the percentage is charged in, and the flat fees. */
  datatype TradeFee = TradeFee(tradeType: TradeType, percentToken: string, flatFees: seq<TokenAmount>)

  /** The sum of a fee's flat amounts (what an order adds to `fee_paid`). */
  function FlatFeeTotal(fees: seq<TokenAmount>): real
  {
    if fees == [] then 0.0 else fees[0].amount + FlatFeeTotal(fees[1..])
  }

  datatype OrderUpdate = OrderUpdate(
    tradingPair: string,
    updateTimestampMs: int,
    newState: OrderState,
    clientOrderId: int,
    exchangeOrderId: int)

  datatype TradeUpdate = TradeUpdate(
    tradeId: int,
    clientOrderId: int,
    exchangeOrderId: int,
    tradingPair: string,
    fee: TradeFee,
    fillBaseAmount: real,
    fillQuoteAmount: real,
    fillPrice: real,
    fillTimestampMs: int)
}
