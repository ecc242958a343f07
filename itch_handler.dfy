/**
 * MyITCHHandler: turns decoded NASDAQ TotalView-ITCH 5.0 messages into calls
 * on the market manager, and counts the messages it recognised and those it
 * did not.
 *
 * Translate states, as a function, which market calls one message produces;
 * the class issues those calls on the market manager it was constructed with
 * and is proved against Translate.
 */
module ItchHandlerModel {
  import opened Trader

  /**
   * The decoded ITCH 5.0 messages the handler receives, one constructor per
   * onMessage overload. Only the fields the handler reads are kept, with their
   * ITCH 5.0 widths.
   */
  datatype Message =
    | SystemEventMessage
    | StockDirectoryMessage(stockLocate: uint16, stock: string)
    | StockTradingActionMessage
    | RegSHOMessage
    | MarketParticipantPositionMessage
    | MWCBDeclineMessage
    | MWCBStatusMessage
    | IPOQuotingMessage
    | AddOrderMessage(orderReferenceNumber: uint64, stockLocate: uint16, buySellIndicator: char, shares: uint32, price: uint32)
    | AddOrderMPIDMessage(orderReferenceNumber: uint64, stockLocate: uint16, buySellIndicator: char, shares: uint32, price: uint32)
    | OrderExecutedMessage(orderReferenceNumber: uint64, executedShares: uint32)
    | OrderExecutedWithPriceMessage(orderReferenceNumber: uint64, executedShares: uint32, executionPrice: uint32)
    | OrderCancelMessage(orderReferenceNumber: uint64, canceledShares: uint32)
    | OrderDeleteMessage(orderReferenceNumber: uint64)
    | OrderReplaceMessage(originalOrderReferenceNumber: uint64, newOrderReferenceNumber: uint64, shares: uint32, price: uint32)
    | TradeMessage
    | CrossTradeMessage
    | BrokenTradeMessage
    | NOIIMessage
    | RPIIMessage
    | UnknownMessage

  /** Messages the handler counts but does not pass on to the market. */
  predicate Informational(m: Message) {
    || m.SystemEventMessage? || m.StockTradingActionMessage? || m.RegSHOMessage?
    || m.MarketParticipantPositionMessage? || m.MWCBDeclineMessage? || m.MWCBStatusMessage?
    || m.IPOQuotingMessage? || m.TradeMessage? || m.CrossTradeMessage?
    || m.BrokenTradeMessage? || m.NOIIMessage? || m.RPIIMessage?
  }

  /** The two add-order messages. */
  predicate AddsOrder(m: Message) {
    m.AddOrderMessage? || m.AddOrderMPIDMessage?
  }

  /** The limit order an add-order message describes; any indicator other than 'B' means sell. */
  function OrderOf(m: Message): (o: Order)
    requires AddsOrder(m)
    ensures o.id == m.orderReferenceNumber && o.symbol == m.stockLocate
    ensures o.orderType == Limit
    ensures o.side == Buy <==> m.buySellIndicator == 'B'
    ensures o.price == m.price && o.quantity == m.shares
  {
    Order(m.orderReferenceNumber, m.stockLocate, Limit,
          if m.buySellIndicator == 'B' then Buy else Sell, m.price, m.shares)
  }

  /**
   * The market calls one message produces, in order: two for a stock
   * directory entry, one for each order message, none otherwise.
   */
  function Translate(m: Message): (calls: seq<MarketCall>)
    ensures |calls| == if m.StockDirectoryMessage? then 2 else if Informational(m) || m.UnknownMessage? then 0 else 1
    ensures forall i :: 0 <= i < |calls| ==> ((calls[i].AddSymbol? || calls[i].AddOrderBook?) <==> m.StockDirectoryMessage?)
  {
    match m
    case StockDirectoryMessage(locate, stock) =>
      var symbol := Symbol(locate, stock);
      [MarketCall.AddSymbol(symbol), MarketCall.AddOrderBook(symbol)]
    case AddOrderMessage(_, _, _, _, _) =>
      [MarketCall.AddOrder(OrderOf(m))]
    case AddOrderMPIDMessage(_, _, _, _, _) =>
      [MarketCall.AddOrder(OrderOf(m))]
    case OrderExecutedMessage(id, executed) =>
      [MarketCall.ExecuteOrder(id, executed)]
    case OrderExecutedWithPriceMessage(id, executed, price) =>
      [MarketCall.ExecuteOrderAtPrice(id, price, executed)]
    case OrderCancelMessage(id, canceled) =>
      [MarketCall.ReduceOrder(id, canceled)]
    case OrderDeleteMessage(id) =>
      [MarketCall.DeleteOrder(id)]
    case OrderReplaceMessage(original, replacement, shares, price) =>
      [MarketCall.ReplaceOrder(original, replacement, price, shares)]
    case _ =>
      []
  }

  /** A stock directory entry registers the symbol, then its order book, with the same locate code and name. */
  lemma StockDirectoryRegistersSymbolThenBook(m: Message)
    requires m.StockDirectoryMessage?
    ensures var calls := Translate(m);
      && calls[0].AddSymbol? && calls[1].AddOrderBook?
      && calls[0].symbol == calls[1].symbol
      && calls[0].symbol.id == m.stockLocate && calls[0].symbol.name == m.stock
  {
  }

  /** Both add-order messages produce one AddOrder call carrying the order they describe. */
  lemma AddOrderMessagesAddOneOrder(m: Message)
    requires AddsOrder(m)
    ensures var calls := Translate(m);
      && calls[0].AddOrder? && calls[0].order == OrderOf(m)
  {
  }

  /**
   * Each order-lifecycle message produces one call, keyed by the message's
   * order reference number, with its quantities and prices in place.
   */
  lemma OrderMessagesMapping(m: Message)
    ensures m.OrderExecutedMessage? ==>
      Translate(m) == [MarketCall.ExecuteOrder(m.orderReferenceNumber, m.executedShares)]
    ensures m.OrderExecutedWithPriceMessage? ==>
      Translate(m) == [MarketCall.ExecuteOrderAtPrice(m.orderReferenceNumber, m.executionPrice, m.executedShares)]
    ensures m.OrderCancelMessage? ==>
      Translate(m) == [MarketCall.ReduceOrder(m.orderReferenceNumber, m.canceledShares)]
    ensures m.OrderDeleteMessage? ==>
      Translate(m) == [MarketCall.DeleteOrder(m.orderReferenceNumber)]
    ensures m.OrderReplaceMessage? ==>
      Translate(m) == [MarketCall.ReplaceOrder(m.originalOrderReferenceNumber, m.newOrderReferenceNumber, m.price, m.shares)]
  {
  }

  /** The market calls a stream of messages produces, in order. */
  function TranslateAll(ms: seq<Message>): seq<MarketCall>
    decreases |ms|
  {
    if ms == [] then [] else TranslateAll(ms[..|ms| - 1]) + Translate(ms[|ms| - 1])
  }

  /** How many messages of a stream the handler does not recognise. */
  function UnknownCount(ms: seq<Message>): nat
    decreases |ms|
  {
    if ms == [] then 0 else UnknownCount(ms[..|ms| - 1]) + (if ms[|ms| - 1].UnknownMessage? then 1 else 0)
  }

  /** One more message extends the calls by its translation and the error count by its own. */
  lemma StreamExtend(ms: seq<Message>, m: Message)
    ensures TranslateAll(ms + [m]) == TranslateAll(ms) + Translate(m)
    ensures UnknownCount(ms + [m]) == UnknownCount(ms) + (if m.UnknownMessage? then 1 else 0)
  {
    assert (ms + [m])[..|ms|] == ms;
  }

  /**
   * Handing the stream over in pieces, as the caller does buffer by buffer,
   * produces the same calls as handing it over whole.
   */
  lemma {:induction false} TranslateAllAppend(a: seq<Message>, b: seq<Message>)
    ensures TranslateAll(a + b) == TranslateAll(a) + TranslateAll(b)
    decreases |b|
  {
    if b == [] {
      assert a + b == a;
    } else {
      var b', m := b[..|b| - 1], b[|b| - 1];
      assert a + b == (a + b') + [m];
      assert (a + b)[..|a + b| - 1] == a + b';
      TranslateAllAppend(a, b');
    }
  }

  /** The error count is zero exactly when no message of the stream went unrecognised. */
  lemma {:induction false} NoErrorsIff(ms: seq<Message>)
    ensures UnknownCount(ms) == 0 <==> forall i :: 0 <= i < |ms| ==> !ms[i].UnknownMessage?
  {
    if ms != [] {
      var p := ms[..|ms| - 1];
      NoErrorsIff(p);
      assert forall i :: 0 <= i < |p| ==> p[i] == ms[i];
    }
  }

  /**
   * Every AddSymbol in `calls` is immediately followed by AddOrderBook for the
   * same symbol, and every AddOrderBook immediately preceded by AddSymbol for it.
   */
  predicate SymbolsPaired(calls: seq<MarketCall>) {
    && (forall i :: 0 <= i < |calls| && calls[i].AddSymbol? ==>
          i + 1 < |calls| && calls[i + 1] == MarketCall.AddOrderBook(calls[i].symbol))
    && (forall i :: 0 <= i < |calls| && calls[i].AddOrderBook? ==>
          0 < i && calls[i - 1] == MarketCall.AddSymbol(calls[i].symbol))
  }

  /** In the calls produced by any stream, symbols and their order books come in adjacent pairs. */
  lemma {:induction false} SymbolsComeWithBooks(ms: seq<Message>)
    ensures SymbolsPaired(TranslateAll(ms))
    decreases |ms|
  {
    if ms != [] {
      var p, m := ms[..|ms| - 1], ms[|ms| - 1];
      SymbolsComeWithBooks(p);
      var before, last := TranslateAll(p), Translate(m);
      var calls := TranslateAll(ms);
      assert calls == before + last;
      forall i | 0 <= i < |calls| && calls[i].AddSymbol?
        ensures i + 1 < |calls| && calls[i + 1] == MarketCall.AddOrderBook(calls[i].symbol)
      {
        if i < |before| {
          assert calls[i] == before[i];
          assert before[i + 1] == calls[i + 1];
        } else {
          assert last[i - |before|].AddSymbol?;
          var symbol := Symbol(m.stockLocate, m.stock);
          assert last == [MarketCall.AddSymbol(symbol), MarketCall.AddOrderBook(symbol)];
        }
      }
      forall i | 0 <= i < |calls| && calls[i].AddOrderBook?
        ensures 0 < i && calls[i - 1] == MarketCall.AddSymbol(calls[i].symbol)
      {
        if i < |before| {
          assert calls[i] == before[i];
          assert before[i - 1] == calls[i - 1];
        } else {
          assert last[i - |before|].AddOrderBook?;
          var symbol := Symbol(m.stockLocate, m.stock);
          assert last == [MarketCall.AddSymbol(symbol), MarketCall.AddOrderBook(symbol)];
        }
      }
    }
  }

  /**
   * The handler. It keeps a reference to the market manager it feeds and two
   * counters; `received` and `callsBefore` record, for the proof only, the
   * messages handled so far and the calls the market had seen beforehand.
   */
  class MyITCHHandler {
    const market: MarketManager
    var messages: nat
    var errors: nat
    ghost var received: seq<Message>
    ghost const callsBefore: seq<MarketCall>

    /** The counters split the stream, and the market has seen exactly its translation. */
    ghost predicate Valid()
      reads this, market
    {
      && errors == UnknownCount(received)
      && messages + errors == |received|
      && market.calls == callsBefore + TranslateAll(received)
    }

    constructor (market: MarketManager)
      ensures Valid() && this.market == market
      ensures messages == 0 && errors == 0 && received == []
      ensures market.calls == old(market.calls)
    {
      this.market := market;
      messages, errors := 0, 0;
      received := [];
      callsBefore := market.calls;
    }

    function Messages(): nat reads this { messages }
    function Errors(): nat reads this { errors }

    /**
     * Handle one decoded message: always reports it handled; an unknown
     * message counts as an error, every other one as a message; the market
     * receives exactly the calls Translate gives for it.
     */
    method OnMessage(m: Message) returns (handled: bool)
      requires Valid()
      modifies this, market
      ensures Valid() && received == old(received) + [m]
      ensures handled
      ensures messages == old(messages) + (if m.UnknownMessage? then 0 else 1)
      ensures errors == old(errors) + (if m.UnknownMessage? then 1 else 0)
      ensures market.calls == old(market.calls) + Translate(m)
    {
      StreamExtend(received, m);
      if m.UnknownMessage? {
        errors := errors + 1;
      } else {
        messages := messages + 1;
      }
      Forward(m);
      received := received + [m];
      handled := true;
    }

    /** The market calls of one message, issued on the market in order. */
    method Forward(m: Message)
      modifies market
      ensures market.calls == old(market.calls) + Translate(m)
    {
      match m {
        case StockDirectoryMessage(locate, stock) =>
          var symbol := Symbol(locate, stock);
          market.AddSymbol(symbol);
          market.AddOrderBook(symbol);
        case AddOrderMessage(_, _, _, _, _) =>
          market.AddOrder(OrderOf(m));
        case AddOrderMPIDMessage(_, _, _, _, _) =>
          market.AddOrder(OrderOf(m));
        case OrderExecutedMessage(id, executed) =>
          market.ExecuteOrder(id, executed);
        case OrderExecutedWithPriceMessage(id, executed, price) =>
          market.ExecuteOrderAtPrice(id, price, executed);
        case OrderCancelMessage(id, canceled) =>
          market.ReduceOrder(id, canceled);
        case OrderDeleteMessage(id) =>
          market.DeleteOrder(id);
        case OrderReplaceMessage(original, replacement, shares, price) =>
          market.ReplaceOrder(original, replacement, price, shares);
        case _ =>
      }
    }
  }
}
