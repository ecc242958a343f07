# CppTrader market-manager test handlers, in Dafny

This project models the two handlers of CppTrader's market-manager integration
test. They sit on either side of the order book engine, which is not modelled here.

- **MyMarketHandler** is an observer of the market manager. It only counts. It
  keeps a running total of updates, the current numbers of symbols, order books
  and orders, a peak ("max") for each of those three, and a tally for each order
  event (add, reduce, modify, replace, delete, execute).
- **MyITCHHandler** receives decoded NASDAQ TotalView-ITCH 5.0 messages. It
  turns each Stock Directory, Add Order, Add Order with MPID, Order Executed,
  Order Executed With Price, Order Cancel, Order Delete and Order Replace
  message into calls on the market manager. It counts recognised messages and
  unrecognised ones, and it reports every message as handled.

Files and modules:

- `trader.dfy` (module `Trader`) holds the records passed between the handlers
  and the engine (`Symbol`, `Order`, `OrderSide`, `OrderType`). It also holds
  `MarketCall`, one constructor per market-manager operation the ITCH handler
  uses. Class `MarketManager` stands in for the engine: each operation appends
  its own call to `calls` and changes nothing else.
- `market_handler.dfy` (module `MarketHandlerModel`) has two layers:
  - A pure layer. It defines the counters as a value (`Stats`) and one callback's
    effect on them (`Step`). `Replay` gives the effect of a whole sequence of
    callbacks on a freshly constructed handler. The lemmas relate the counters
    to how often each callback occurred.
  - Class `MyMarketHandler`. Its thirteen counter fields are updated in place,
    as in the source. Every callback method is proved to move the fields exactly
    as `Step` says. The object invariant says the fields equal `Replay` of the
    callbacks received so far, kept in the proof-only field `history`. The
    getters `Updates`, `AddOrderCount`, …, `ExecuteOrderCount` are plain field
    reads. The three peak getters also promise that the peak is at least the
    current count.
- `itch_handler.dfy` (module `ItchHandlerModel`) has two layers:
  - `Message`: one constructor per `onMessage` overload.
  - `Translate`: the calls one message produces, in order.
  - `TranslateAll`: the calls a stream of messages produces.
  - Class `MyITCHHandler`: holds a reference to the `MarketManager` it feeds and
    the two counters. `OnMessage` is proved to issue exactly `Translate(m)` on
    the market and to move the counters. The class invariant says the market has
    received exactly `TranslateAll` of the messages handled so far (proof-only
    field `received`), after whatever calls it held before the handler was
    constructed.

The source's counters are `size_t`. Here they are unbounded naturals. A delete
callback that arrives while its count is zero would wrap the count in the
source. In the model such a callback is ruled out: the class methods require a
positive count, and `Replay` yields `None` for a sequence that contains one.
`ReplayDefinedIff` shows that this happens exactly when, in some prefix, the
deletes of a kind outnumber its adds.

## Model

| member | source | states |
|---|---|---|
| MarketHandlerModel.Step | tests/test_market_manager.cpp:51-63 | Each gauge (symbols, order books, orders) rises by one only on its add callback and falls by one only on its delete callback. Its peak changes only on the add callback, and then becomes the larger of the old peak and the new count. Each tally rises by one only on its own callbacks; both replace overloads raise the replace tally. Every callback except onUpdateOrder adds one update; onUpdateOrder changes nothing. Every peak stays at least its current count. |
| MarketHandlerModel.ReplaceOverloadsAgree | tests/test_market_manager.cpp:59-60 | The two onReplaceOrder overloads have the same effect on the counters. |
| MarketHandlerModel.ReplayCounts | tests/test_market_manager.cpp:23-63 | Start from the all-zero state and apply any sequence of callbacks that never wraps. Updates then equals the number of callbacks other than onUpdateOrder. Each current count equals its adds minus its deletes. Each tally equals the number of its callbacks. Every peak is at least its current count. |
| MarketHandlerModel.OrdersBalance | tests/test_market_manager.cpp:56-62 | Start from zero and apply any sequence that never wraps. Afterwards the current order count equals the add-order tally minus the delete-order tally. |
| MarketHandlerModel.ReplayDefinedIff | tests/test_market_manager.cpp:52-62 | A sequence of callbacks avoids wrapping a count below zero if and only if, in every prefix, the deletes of each kind do not outnumber its adds. |
| MarketHandlerModel.PeakIsHighWater | tests/test_market_manager.cpp:51-56 | The peak of each gauge is the maximum of that gauge over all prefixes of the callbacks. No prefix exceeds it, and some prefix reaches it. |
| MarketHandlerModel.MyMarketHandler.constructor | tests/test_market_manager.cpp:23-37 | Every counter starts at zero, and the history is empty. |
| MarketHandlerModel.MyMarketHandler.MaxSymbols | tests/test_market_manager.cpp:40 | Returns the symbol peak, which is never below the current symbol count. |
| MarketHandlerModel.MyMarketHandler.MaxOrderBooks | tests/test_market_manager.cpp:41 | Returns the order-book peak, which is never below the current order-book count. |
| MarketHandlerModel.MyMarketHandler.MaxOrders | tests/test_market_manager.cpp:42 | Returns the order peak, which is never below the current order count. |
| MarketHandlerModel.MyMarketHandler.OnAddSymbol | tests/test_market_manager.cpp:51 | Adds one update and one symbol. The symbol peak becomes the larger of the old peak and the new count. The invariant is kept. |
| MarketHandlerModel.MyMarketHandler.OnDeleteSymbol | tests/test_market_manager.cpp:52 | Requires a positive symbol count. Adds one update and removes one symbol. The symbol peak is unchanged. |
| MarketHandlerModel.MyMarketHandler.OnAddOrderBook | tests/test_market_manager.cpp:53 | Adds one update and one order book. The order-book peak becomes the larger of the old peak and the new count. |
| MarketHandlerModel.MyMarketHandler.OnDeleteOrderBook | tests/test_market_manager.cpp:54 | Requires a positive order-book count. Adds one update and removes one order book. The order-book peak is unchanged. |
| MarketHandlerModel.MyMarketHandler.OnUpdateOrderBook | tests/test_market_manager.cpp:55 | Adds one update and nothing else. |
| MarketHandlerModel.MyMarketHandler.OnAddOrder | tests/test_market_manager.cpp:56 | Adds one update, one order and one to the add tally. The order peak becomes the larger of the old peak and the new count. |
| MarketHandlerModel.MyMarketHandler.OnReduceOrder | tests/test_market_manager.cpp:57 | Adds one update and one to the reduce tally. The order count is untouched. |
| MarketHandlerModel.MyMarketHandler.OnModifyOrder | tests/test_market_manager.cpp:58 | Adds one update and one to the modify tally. The order count is untouched. |
| MarketHandlerModel.MyMarketHandler.OnReplaceOrder | tests/test_market_manager.cpp:59 | Adds one update and one to the replace tally. The order count is untouched. |
| MarketHandlerModel.MyMarketHandler.OnReplaceOrderWithOrder | tests/test_market_manager.cpp:60 | Has the same effect as the other replace overload: one update and one to the replace tally. |
| MarketHandlerModel.MyMarketHandler.OnUpdateOrder | tests/test_market_manager.cpp:61 | Changes no counter. |
| MarketHandlerModel.MyMarketHandler.OnDeleteOrder | tests/test_market_manager.cpp:62 | Requires a positive order count. Adds one update, removes one order and adds one to the delete tally. The order peak is unchanged. |
| MarketHandlerModel.MyMarketHandler.OnExecuteOrder | tests/test_market_manager.cpp:63 | Adds one update and one to the execute tally. The order count is untouched. |
| ItchHandlerModel.OrderOf | tests/test_market_manager.cpp:102-103 | The order built from an add-order message is a limit order. Its id is the order reference number, its symbol the stock locate, its price the price and its quantity the shares. Its side is buy exactly when the indicator is 'B', and sell otherwise. |
| ItchHandlerModel.Translate | tests/test_market_manager.cpp:94-114 | A stock directory message yields two calls. Each other order message yields one. An informational or unknown message yields none. Symbol and order-book registrations come from stock directory messages only. |
| ItchHandlerModel.StockDirectoryRegistersSymbolThenBook | tests/test_market_manager.cpp:95 | A stock directory message registers the symbol (stock locate, stock) first, then an order book for that same symbol. |
| ItchHandlerModel.AddOrderMessagesAddOneOrder | tests/test_market_manager.cpp:102-103 | Both add-order messages yield one AddOrder call that carries the order they describe. |
| ItchHandlerModel.OrderMessagesMapping | tests/test_market_manager.cpp:104-108 | The mappings are: order executed to ExecuteOrder(reference, executed shares); executed with price to ExecuteOrder(reference, execution price, executed shares); cancel to ReduceOrder(reference, canceled shares); delete to DeleteOrder(reference); replace to ReplaceOrder(original, new, price, shares). |
| ItchHandlerModel.TranslateAllAppend | tests/test_market_manager.cpp:140-144 | A stream handed over in pieces yields the same market calls as the stream handed over whole. |
| ItchHandlerModel.NoErrorsIff | tests/test_market_manager.cpp:114 | The error count of a stream is zero if and only if none of its messages is unknown. |
| ItchHandlerModel.SymbolsComeWithBooks | tests/test_market_manager.cpp:95 | In the calls of any stream, every AddSymbol is immediately followed by AddOrderBook for the same symbol. Every AddOrderBook is immediately preceded by AddSymbol for it. |
| ItchHandlerModel.MyITCHHandler.constructor | tests/test_market_manager.cpp:84-88 | Keeps the given market. Both counters start at zero. The market is left as it was. |
| ItchHandlerModel.MyITCHHandler.OnMessage | tests/test_market_manager.cpp:94-114 | Always returns true. An unknown message adds one to errors only. Any other message adds one to messages only. The market receives exactly Translate of the message, appended to its calls. The stream invariant is kept. |
| ItchHandlerModel.MyITCHHandler.Forward | tests/test_market_manager.cpp:95-108 | Passes exactly the calls Translate gives for the message, in order, on to the market. |

## Left out

- The test case body is not modelled (tests/test_market_manager.cpp:124-163). It opens a file and reads it into an 8192-byte buffer. Its expected totals depend on a binary sample file that is not part of this model. `TranslateAllAppend` states only what buffer-by-buffer processing needs from the handler.
- `ITCHHandler::Process` and ITCH 5.0 wire decoding (framing, field layout, endianness) are not part of this model. `Message` begins after decoding.
- `Message` keeps only the fields the handler reads. Their widths follow ITCH 5.0: 2-byte stock locate, 8-byte order reference numbers, 4-byte shares and prices. All other message fields are dropped.
- The order book engine (`MarketManager`, `OrderBook`, `Level`, `Order`, `Symbol` internals) is not part of this model. `MarketManager` is only a sink that records calls. The handler ignores the error codes the engine returns, so the sink returns none.
- `Symbol` and `Order` are records of their constructor arguments, with unbounded integer fields. Their C++ field widths are not part of this model.
- The `OrderBook` and `Level` arguments of onAddOrderBook, onDeleteOrderBook and onUpdateOrderBook are opaque engine objects. The counters never read them, so they are left out; onUpdateOrderBook keeps its `top` flag.
- Inheritance from `MarketHandler` and `ITCHHandler` is not modelled. This includes the no-op defaults of callbacks the handlers do not override and the dispatch of `onMessage` overloads. `OnMessage` takes the message as one datatype instead.
- The counters do not model size_t overflow on increment: they are unbounded naturals, and wrapping would need 2^64 callbacks.
- MarketHandlerModel.MyMarketHandler.OnDeleteSymbol: requires a positive symbol count. The source would wrap the size_t counter below zero; the model rules that case out instead.
- MarketHandlerModel.MyMarketHandler.OnDeleteOrderBook: requires a positive order-book count. The source would wrap the size_t counter below zero; the model rules that case out instead.
- MarketHandlerModel.MyMarketHandler.OnDeleteOrder: requires a positive order count. The source would wrap the size_t counter below zero; the model rules that case out instead.
- The getters `Updates`, `AddOrderCount`, `ReduceOrderCount`, `ModifyOrderCount`, `ReplaceOrderCount`, `DeleteOrderCount`, `ExecuteOrderCount`, `Messages` and `Errors` return their field and carry no contract of their own. What their fields hold is stated by the methods and invariants above.
