/**
 * Fill bookkeeping of one in-flight order, as the order tracker applies it:
 * fees and executed amounts accumulate over distinct fills, a trade id is
 * applied at most once whichever path (user stream or REST poll) reports
 * it, every accepted fill emits one fill notification, and the completion
 * notification is emitted once, only after the exchange reported the
 * terminal "filled" status and the fills cover the order amount.
 *
 * `Progress` and the functions over it are the specification; the class
 * `InFlightOrder` is the mutable order object, whose methods are proved
 * to move its `Progress()` exactly as the specification functions do.
 */
module OrderTracker {
  import opened InFlightOrderData

  /** `sum(f(x) for x in fills)`, folded from the end so that appending is one step. */
  function Sum(fills: seq<TradeUpdate>, f: TradeUpdate -> real): real
  {
    if fills == [] then 0.0 else Sum(fills[..|fills| - 1], f) + f(fills[|fills| - 1])
  }

  function BaseOf(t: TradeUpdate): real { t.fillBaseAmount }
  function QuoteOf(t: TradeUpdate): real { t.fillQuoteAmount }
  function FeeOf(t: TradeUpdate): real { FlatFeeTotal(t.fee.flatFees) }

  /** The trade ids already applied. */
  function TradeIds(fills: seq<TradeUpdate>): set<int>
  {
    set k | 0 <= k < |fills| :: fills[k].tradeId
  }

  predicate DistinctTradeIds(fills: seq<TradeUpdate>)
  {
    forall i, j :: 0 <= i < j < |fills| ==> fills[i].tradeId != fills[j].tradeId
  }

  /** The abstract state of an order: lifecycle state, accepted fills, completions emitted. */
  datatype Progress = Progress(state: OrderState, fills: seq<TradeUpdate>, completions: nat)

  /** What stays true of an order whatever the exchange reports. */
  ghost predicate Inv(p: Progress, amount: real)
  {
    && DistinctTradeIds(p.fills)
    && p.completions <= 1
    && (p.completions == 1 ==> p.state == Filled)
    && (p.state == Filled && Sum(p.fills, BaseOf) >= amount ==> p.completions == 1)
  }

  /** Emits the completion notification when it is due and has not been emitted yet. */
  function Settle(p: Progress, amount: real): Progress
  {
    if p.completions == 0 && p.state == Filled && Sum(p.fills, BaseOf) >= amount
    then p.(completions := 1)
    else p
  }

  /** A fill: ignored when its trade id was applied before, otherwise recorded. */
  function ApplyTrade(p: Progress, amount: real, t: TradeUpdate): Progress
  {
    if t.tradeId in TradeIds(p.fills) then p
    else Settle(p.(fills := p.fills + [t]), amount)
  }

  /** A status: ignored once the order is done, otherwise the new state. */
  function ApplyStatus(p: Progress, amount: real, s: OrderState): Progress
  {
    if IsDone(p.state) then p else Settle(p.(state := s), amount)
  }

  datatype OrderEvent = TradeEvent(trade: TradeUpdate) | StatusEvent(status: OrderState)

  function Step(p: Progress, amount: real, e: OrderEvent): Progress
  {
    match e
    case TradeEvent(t) => ApplyTrade(p, amount, t)
    case StatusEvent(s) => ApplyStatus(p, amount, s)
  }

  /** The order after a stream of events, in delivery order. */
  function Replay(p: Progress, amount: real, events: seq<OrderEvent>): Progress
  {
    if events == [] then p else Step(Replay(p, amount, events[..|events| - 1]), amount, events[|events| - 1])
  }

  // ---------------------------------------------------------------------
  // Properties of the specification

  lemma {:induction false} SumAppend(a: seq<TradeUpdate>, b: seq<TradeUpdate>, f: TradeUpdate -> real)
    ensures Sum(a + b, f) == Sum(a, f) + Sum(b, f)
    decreases |b|
  {
    if b != [] {
      var b' := b[..|b| - 1];
      assert (a + b)[..|a + b| - 1] == a + b';
      assert (a + b)[|a + b| - 1] == b[|b| - 1];
      assert Sum(b, f) == Sum(b', f) + f(b[|b| - 1]);
      assert Sum(a + b, f) == Sum(a + b', f) + f(b[|b| - 1]);
      SumAppend(a, b', f);
    } else {
      assert a + b == a;
    }
  }

  lemma SumSnoc(s: seq<TradeUpdate>, t: TradeUpdate, f: TradeUpdate -> real)
    ensures Sum(s + [t], f) == Sum(s, f) + f(t)
  {
    assert (s + [t])[..|s|] == s;
  }

  lemma SumSingle(t: TradeUpdate, f: TradeUpdate -> real)
    ensures Sum([t], f) == f(t)
  {
    assert [t][..0] == [];
  }

  /** A total over fills does not depend on the order the fills arrived in. */
  lemma {:induction false} SumPermutation(a: seq<TradeUpdate>, b: seq<TradeUpdate>, f: TradeUpdate -> real)
    requires multiset(a) == multiset(b)
    ensures Sum(a, f) == Sum(b, f)
    decreases |a|
  {
    if a != [] {
      var x := a[|a| - 1];
      var a' := a[..|a| - 1];
      assert a == a' + [x];
      assert x in multiset(b);
      var k :| 0 <= k < |b| && b[k] == x;
      var b' := b[..k] + b[k + 1..];
      assert b == b[..k] + [x] + b[k + 1..];
      assert multiset(a') == multiset(a) - multiset{x} by {
        assert multiset(a) == multiset(a') + multiset{x};
      }
      assert multiset(b') == multiset(b) - multiset{x} by {
        assert b[..k] + [x] + b[k + 1..] == (b[..k] + [x]) + b[k + 1..];
        assert multiset(b) == multiset(b[..k]) + multiset{x} + multiset(b[k + 1..]);
        assert multiset(b') == multiset(b[..k]) + multiset(b[k + 1..]);
      }
      SumPermutation(a', b', f);
      SumAppend(b[..k] + [x], b[k + 1..], f);
      SumAppend(b[..k], [x], f);
      SumAppend(b[..k], b[k + 1..], f);
      SumSingle(x, f);
    }
  }

  lemma TradeIdsAppend(fills: seq<TradeUpdate>, t: TradeUpdate)
    ensures TradeIds(fills + [t]) == TradeIds(fills) + {t.tradeId}
  {
    var s := fills + [t];
    assert s[|fills|].tradeId == t.tradeId;
    forall id | id in TradeIds(fills) ensures id in TradeIds(s) {
      var k :| 0 <= k < |fills| && fills[k].tradeId == id;
      assert s[k] == fills[k];
    }
  }

  lemma StepKeepsInv(p: Progress, amount: real, e: OrderEvent)
    requires Inv(p, amount)
    ensures Inv(Step(p, amount, e), amount)
  {
    match e
    case TradeEvent(t) =>
      if t.tradeId !in TradeIds(p.fills) {
        var fills := p.fills + [t];
        forall i, j | 0 <= i < j < |fills| ensures fills[i].tradeId != fills[j].tradeId {
          if j == |fills| - 1 {
            assert fills[i] == p.fills[i];
          }
        }
        assert fills[..|fills| - 1] == p.fills;
      }
    case StatusEvent(s) =>
  }

  /**
   * Whatever the exchange reports, in whatever order, the completion
   * notification is emitted at most once, only for an order in the
   * FILLED state, and always once a FILLED order's fills cover its amount.
   */
  lemma {:induction false} ReplayKeepsInv(p: Progress, amount: real, events: seq<OrderEvent>)
    requires Inv(p, amount)
    ensures Inv(Replay(p, amount, events), amount)
    decreases |events|
  {
    if events != [] {
      ReplayKeepsInv(p, amount, events[..|events| - 1]);
      StepKeepsInv(Replay(p, amount, events[..|events| - 1]), amount, events[|events| - 1]);
    }
  }

  /** A fill reported a second time (by the stream and again by the poll) changes nothing. */
  lemma DuplicateTradeIgnored(p: Progress, amount: real, t: TradeUpdate)
    ensures ApplyTrade(ApplyTrade(p, amount, t), amount, t) == ApplyTrade(p, amount, t)
  {
    if t.tradeId !in TradeIds(p.fills) {
      TradeIdsAppend(p.fills, t);
    }
  }

  /**
   * Fills alone never complete an order, however much they add up to:
   * without a FILLED status among the events no completion is emitted.
   */
  lemma {:induction false} NoCompletionWithoutFilledStatus(p: Progress, amount: real, events: seq<OrderEvent>)
    requires p.completions == 0 && p.state != Filled
    requires StatusEvent(Filled) !in events
    ensures Replay(p, amount, events).completions == 0
    ensures Replay(p, amount, events).state != Filled
    decreases |events|
  {
    if events != [] {
      var init := events[..|events| - 1];
      assert forall e :: e in init ==> e in events;
      NoCompletionWithoutFilledStatus(p, amount, init);
      assert events[|events| - 1] in events;
    }
  }

  function TradesOf(events: seq<OrderEvent>): seq<TradeUpdate>
  {
    if events == [] then []
    else
      var last := events[|events| - 1];
      TradesOf(events[..|events| - 1]) + (if last.TradeEvent? then [last.trade] else [])
  }

  /**
   * With distinct trade ids, every reported fill is accepted: the accepted
   * fills are the reported trades in delivery order, so the executed amount
   * and the fee paid are their exact sums.
   */
  lemma {:induction false} DistinctTradesAllApplied(p: Progress, amount: real, events: seq<OrderEvent>)
    requires DistinctTradeIds(p.fills + TradesOf(events))
    ensures Replay(p, amount, events).fills == p.fills + TradesOf(events)
    decreases |events|
  {
    if events != [] {
      var init := events[..|events| - 1];
      var last := events[|events| - 1];
      var all := p.fills + TradesOf(events);
      assert p.fills + TradesOf(init) == all[..|p.fills + TradesOf(init)|];
      DistinctTradesAllApplied(p, amount, init);
      var q := Replay(p, amount, init);
      if last.TradeEvent? {
        var n := |q.fills|;
        assert all == q.fills + [last.trade];
        forall k | 0 <= k < n ensures q.fills[k].tradeId != last.trade.tradeId {
          assert all[k] == q.fills[k] && all[n] == last.trade;
        }
      }
    }
  }

  /**
   * The executed amount does not depend on delivery order: two deliveries
   * of the same distinct fills (statuses interleaved anywhere) give the same
   * executed base amount and the same fee paid.
   */
  lemma ExecutedAmountOrderIndependent(amount: real, e1: seq<OrderEvent>, e2: seq<OrderEvent>)
    requires DistinctTradeIds(TradesOf(e1)) && DistinctTradeIds(TradesOf(e2))
    requires multiset(TradesOf(e1)) == multiset(TradesOf(e2))
    ensures Sum(Replay(Progress(PendingCreate, [], 0), amount, e1).fills, BaseOf)
         == Sum(Replay(Progress(PendingCreate, [], 0), amount, e2).fills, BaseOf)
    ensures Sum(Replay(Progress(PendingCreate, [], 0), amount, e1).fills, FeeOf)
         == Sum(Replay(Progress(PendingCreate, [], 0), amount, e2).fills, FeeOf)
  {
    var p := Progress(PendingCreate, [], 0);
    assert p.fills + TradesOf(e1) == TradesOf(e1);
    assert p.fills + TradesOf(e2) == TradesOf(e2);
    DistinctTradesAllApplied(p, amount, e1);
    DistinctTradesAllApplied(p, amount, e2);
    SumPermutation(TradesOf(e1), TradesOf(e2), BaseOf);
    SumPermutation(TradesOf(e1), TradesOf(e2), FeeOf);
  }

  // ---------------------------------------------------------------------
  // The order object

  /** The fill notification (`OrderFilledEvent`) emitted for an accepted fill. */
  datatype FillEvent = FillEvent(clientOrderId: int, tradeId: int, price: real, amount: real, fee: TradeFee)

  /** The completion notification (`BuyOrderCompleted` / `SellOrderCompleted`). */
  datatype CompletionEvent = CompletionEvent(clientOrderId: int, tradeType: TradeType)

  function FillEventOf(t: TradeUpdate): FillEvent
  {
    FillEvent(t.clientOrderId, t.tradeId, t.fillPrice, t.fillBaseAmount, t.fee)
  }

  function FillEventsOf(fills: seq<TradeUpdate>): seq<FillEvent>
  {
    if fills == [] then [] else FillEventsOf(fills[..|fills| - 1]) + [FillEventOf(fills[|fills| - 1])]
  }

  lemma FillEventsSnoc(fills: seq<TradeUpdate>, t: TradeUpdate)
    ensures FillEventsOf(fills + [t]) == FillEventsOf(fills) + [FillEventOf(t)]
  {
    assert (fills + [t])[..|fills|] == fills;
  }

  class InFlightOrder {
    const clientOrderId: int
    const tradingPair: string
    const tradeType: TradeType
    const amount: real
    var currentState: OrderState
    var orderFills: seq<TradeUpdate>
    var tradeIds: set<int>
    var executedAmountBase: real
    var executedAmountQuote: real
    var feePaid: real
    var filledEvents: seq<FillEvent>
    var completedEvents: seq<CompletionEvent>

    ghost function View(): Progress
      reads this
    {
      Progress(currentState, orderFills, |completedEvents|)
    }

    ghost predicate Valid()
      reads this
    {
      && Inv(View(), amount)
      && tradeIds == TradeIds(orderFills)
      && executedAmountBase == Sum(orderFills, BaseOf)
      && executedAmountQuote == Sum(orderFills, QuoteOf)
      && feePaid == Sum(orderFills, FeeOf)
      && filledEvents == FillEventsOf(orderFills)
      && (forall k :: 0 <= k < |completedEvents| ==> completedEvents[k] == CompletionEvent(clientOrderId, tradeType))
    }

    /** `start_tracking_order`: a fresh order awaiting the exchange's acknowledgement. */
    constructor (clientOrderId: int, tradingPair: string, tradeType: TradeType, amount: real)
      ensures Valid()
      ensures this.clientOrderId == clientOrderId && this.tradingPair == tradingPair
      ensures this.tradeType == tradeType && this.amount == amount
      ensures View() == Progress(PendingCreate, [], 0)
      ensures feePaid == 0.0 && executedAmountBase == 0.0 && filledEvents == []
    {
      this.clientOrderId := clientOrderId;
      this.tradingPair := tradingPair;
      this.tradeType := tradeType;
      this.amount := amount;
      currentState := PendingCreate;
      orderFills := [];
      tradeIds := {};
      executedAmountBase := 0.0;
      executedAmountQuote := 0.0;
      feePaid := 0.0;
      filledEvents := [];
      completedEvents := [];
    }

    predicate IsOpen()
      reads this
    {
      InFlightOrderData.IsOpen(currentState)
    }

    /** Emits the completion notification once it is due. */
    method CheckCompletion()
      requires |completedEvents| <= 1
      requires executedAmountBase == Sum(orderFills, BaseOf)
      modifies this`completedEvents
      ensures View() == Settle(old(View()), amount)
      ensures completedEvents == old(completedEvents)
        + (if |completedEvents| == |old(completedEvents)| then [] else [CompletionEvent(clientOrderId, tradeType)])
    {
      if |completedEvents| == 0 && currentState == Filled && executedAmountBase >= amount {
        completedEvents := completedEvents + [CompletionEvent(clientOrderId, tradeType)];
      }
    }

    /** `process_trade_update`: applies a fill unless its trade id was applied before. */
    method ProcessTradeUpdate(t: TradeUpdate) returns (applied: bool)
      requires Valid()
      modifies this
      ensures Valid()
      ensures View() == ApplyTrade(old(View()), amount, t)
      ensures applied <==> t.tradeId !in old(tradeIds)
      ensures applied ==> filledEvents == old(filledEvents) + [FillEventOf(t)]
      ensures applied ==> feePaid == old(feePaid) + FeeOf(t)
      ensures !applied ==> feePaid == old(feePaid) && filledEvents == old(filledEvents)
    {
      applied := t.tradeId !in tradeIds;
      if applied {
        RecordFill(t);
      }
    }

    /** Records a fill whose trade id is new, emits its fill notification and settles completion. */
    method RecordFill(t: TradeUpdate)
      requires Valid()
      requires t.tradeId !in tradeIds
      modifies this
      ensures Valid()
      ensures View() == ApplyTrade(old(View()), amount, t)
      ensures tradeIds == old(tradeIds) + {t.tradeId}
      ensures filledEvents == old(filledEvents) + [FillEventOf(t)]
      ensures feePaid == old(feePaid) + FeeOf(t)
    {
      ghost var before := View();
      TradeIdsAppend(orderFills, t);
      StepKeepsInv(View(), amount, TradeEvent(t));
      SumSnoc(orderFills, t, BaseOf);
      SumSnoc(orderFills, t, QuoteOf);
      SumSnoc(orderFills, t, FeeOf);
      FillEventsSnoc(orderFills, t);
      orderFills := orderFills + [t];
      tradeIds := tradeIds + {t.tradeId};
      executedAmountBase := executedAmountBase + t.fillBaseAmount;
      executedAmountQuote := executedAmountQuote + t.fillQuoteAmount;
      feePaid := feePaid + FeeOf(t);
      filledEvents := filledEvents + [FillEventOf(t)];
      assert View() == before.(fills := before.fills + [t]);
      CheckCompletion();
    }

    /** `process_order_update`: moves the state unless the order is already done. */
    method ProcessOrderUpdate(u: OrderUpdate) returns (applied: bool)
      requires Valid()
      modifies this
      ensures Valid()
      ensures View() == ApplyStatus(old(View()), amount, u.newState)
      ensures applied <==> !IsDone(old(currentState))
      ensures feePaid == old(feePaid) && filledEvents == old(filledEvents)
    {
      if IsDone(currentState) {
        applied := false;
        return;
      }
      applied := true;
      StepKeepsInv(View(), amount, StatusEvent(u.newState));
      currentState := u.newState;
      CheckCompletion();
    }
  }
}

/**
 * The fill-bookkeeping scenarios a Huobi connector is expected to follow,
 * replayed against the order object: order OID1 (here id 1), a BUY of
 * amount 1 at price 10000 on COINALPHA-HBOT, with fees in HBOT.
 */
module OrderTrackerScenarios {
  import opened InFlightOrderData
  import opened OrderTracker

  function Fill(tradeId: int, amount: real, price: real, fee: real): TradeUpdate
  {
    TradeUpdate(tradeId, 1, 99998888, "COINALPHA-HBOT",
      TradeFee(Buy, "HBOT", [TokenAmount("HBOT", fee)]),
      amount, amount * price, price, 998787897878)
  }

  function Status(s: OrderState): OrderUpdate
  {
    OrderUpdate("COINALPHA-HBOT", 1583854188883, s, 1, 99998888)
  }

  /** Two stream fills: fees accumulate, one fill notification each, and no completion without a FILLED status. */
  method StreamFillsAccumulateFees() returns (feeAfterFirst: real, feeAfterSecond: real, fillEvents: nat,
                                             completions: nat, executed: real)
    ensures feeAfterFirst == 10.0 && feeAfterSecond == 40.0
    ensures fillEvents == 2 && completions == 0 && executed == 1.0
  {
    var order := new InFlightOrder(1, "COINALPHA-HBOT", Buy, 1.0);
    var applied := order.ProcessTradeUpdate(Fill(1, 0.1, 10050.0, 10.0));
    feeAfterFirst := order.feePaid;
    applied := order.ProcessTradeUpdate(Fill(2, 0.9, 10060.0, 30.0));
    feeAfterSecond := order.feePaid;
    fillEvents := |order.filledEvents|;
    completions := |order.completedEvents|;
    executed := order.executedAmountBase;
  }

  /** The FILLED status arrives before its fill: the fill is still applied and the order completes once. */
  method FilledStatusBeforeFill() returns (fee: real, fillEvents: nat, completions: nat)
    ensures fee == 30.0 && fillEvents == 1 && completions == 1
  {
    var order := new InFlightOrder(1, "COINALPHA-HBOT", Buy, 1.0);
    var applied := order.ProcessOrderUpdate(Status(Filled));
    applied := order.ProcessTradeUpdate(Fill(1, 1.0, 10060.0, 30.0));
    fee := order.feePaid;
    fillEvents := |order.filledEvents|;
    completions := |order.completedEvents|;
  }

  /** A partial fill found by polling, then a "partial-filled" status: the order stays open. */
  method PolledPartialFillKeepsOrderOpen() returns (open: bool, state: OrderState, fillEvents: nat)
    ensures open && state == PartiallyFilled && fillEvents == 1
  {
    var order := new InFlightOrder(1, "COINALPHA-HBOT", Buy, 1.0);
    var t := Fill(1085, 0.5, 10050.0, 30.0);
    assert TradeIds([]) == {};
    var applied := order.ProcessTradeUpdate(t);
    assert order.View() == Progress(PendingCreate, [t], 0) && order.filledEvents == [FillEventOf(t)];
    applied := order.ProcessOrderUpdate(Status(PartiallyFilled));
    assert order.View() == Progress(PartiallyFilled, [t], 0);
    open := order.IsOpen();
    state := order.currentState;
    fillEvents := |order.filledEvents|;
  }

  /** A fill seen on the stream and reported again by the poll is applied once. */
  method PolledRepeatOfStreamFill() returns (fee: real, fillEvents: nat, reapplied: bool)
    ensures fee == 30.0 && fillEvents == 1 && !reapplied
  {
    var order := new InFlightOrder(1, "COINALPHA-HBOT", Buy, 1.0);
    var applied := order.ProcessTradeUpdate(Fill(1, 0.5, 10050.0, 30.0));
    reapplied := order.ProcessTradeUpdate(Fill(1, 0.5, 10050.0, 30.0));
    applied := order.ProcessOrderUpdate(Status(PartiallyFilled));
    fee := order.feePaid;
    fillEvents := |order.filledEvents|;
  }
}
