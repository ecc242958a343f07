/**
 * The engine-side records that the two handlers exchange with the market
 * manager, and the market manager itself reduced to a sink that records every
 * call made on it, in order.
 *
 * The order book engine (MarketManager, OrderBook, Level, Order) is not part of
 * this model: its operations are represented only by the calls they receive.
 */
module Trader {

  /** Unsigned integer widths of the ITCH 5.0 message fields. */
  type uint16 = x: int | 0 <= x < 0x1_0000
  type uint32 = x: int | 0 <= x < 0x1_0000_0000
  type uint64 = x: int | 0 <= x < 0x1_0000_0000_0000_0000

  datatype OrderSide = Buy | Sell

  datatype OrderType = Market | Limit

  /** A tradable instrument: the arguments of the Symbol constructor. */
  datatype Symbol = Symbol(id: nat, name: string)

  /** An order: the arguments of the Order constructor, in the source's order. */
  datatype Order = Order(id: nat, symbol: nat, orderType: OrderType, side: OrderSide, price: nat, quantity: nat)

  /** One call made on the market manager. */
  datatype MarketCall =
    | AddSymbol(symbol: Symbol)
    | AddOrderBook(symbol: Symbol)
    | AddOrder(order: Order)
    | ReduceOrder(id: nat, quantity: nat)
    | DeleteOrder(id: nat)
    | ReplaceOrder(id: nat, newId: nat, newPrice: nat, newQuantity: nat)
    | ExecuteOrder(id: nat, quantity: nat)
    | ExecuteOrderAtPrice(id: nat, price: nat, quantity: nat)

  /**
   * The market manager as seen by a feed handler: each operation appends
   * exactly its own call to `calls` and changes nothing else.
   */
  class MarketManager {
    var calls: seq<MarketCall>

    constructor ()
      ensures calls == []
    {
      calls := [];
    }

    method AddSymbol(symbol: Symbol)
      modifies this
      ensures calls == old(calls) + [MarketCall.AddSymbol(symbol)]
    {
      calls := calls + [MarketCall.AddSymbol(symbol)];
    }

    method AddOrderBook(symbol: Symbol)
      modifies this
      ensures calls == old(calls) + [MarketCall.AddOrderBook(symbol)]
    {
      calls := calls + [MarketCall.AddOrderBook(symbol)];
    }

    method AddOrder(order: Order)
      modifies this
      ensures calls == old(calls) + [MarketCall.AddOrder(order)]
    {
      calls := calls + [MarketCall.AddOrder(order)];
    }

    method ReduceOrder(id: nat, quantity: nat)
      modifies this
      ensures calls == old(calls) + [MarketCall.ReduceOrder(id, quantity)]
    {
      calls := calls + [MarketCall.ReduceOrder(id, quantity)];
    }

    method DeleteOrder(id: nat)
      modifies this
      ensures calls == old(calls) + [MarketCall.DeleteOrder(id)]
    {
      calls := calls + [MarketCall.DeleteOrder(id)];
    }

    method ReplaceOrder(id: nat, newId: nat, newPrice: nat, newQuantity: nat)
      modifies this
      ensures calls == old(calls) + [MarketCall.ReplaceOrder(id, newId, newPrice, newQuantity)]
    {
      calls := calls + [MarketCall.ReplaceOrder(id, newId, newPrice, newQuantity)];
    }

    method ExecuteOrder(id: nat, quantity: nat)
      modifies this
      ensures calls == old(calls) + [MarketCall.ExecuteOrder(id, quantity)]
    {
      calls := calls + [MarketCall.ExecuteOrder(id, quantity)];
    }

    /** The overload of ExecuteOrder that carries an explicit execution price. */
    method ExecuteOrderAtPrice(id: nat, price: nat, quantity: nat)
      modifies this
      ensures calls == old(calls) + [MarketCall.ExecuteOrderAtPrice(id, price, quantity)]
    {
      calls := calls + [MarketCall.ExecuteOrderAtPrice(id, price, quantity)];
    }
  }
}
