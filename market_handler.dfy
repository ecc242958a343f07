/**
 * MyMarketHandler: a market handler that only counts the notifications it
 * receives. A running total of updates; the current number of symbols, order
 * books and orders, each with its peak; and one tally per order event.
 *
 * The pure part (Stats, Step, Replay) states what one callback and what a
 * whole sequence of callbacks do to the counters; the class keeps the counters
 * as mutable fields, as the handler does, and is proved against Step.
 */
module MarketHandlerModel {
  import opened Trader

  /** The MarketHandler callbacks that MyMarketHandler overrides. */
  datatype Callback =
    | OnAddSymbol
    | OnDeleteSymbol
    | OnAddOrderBook
    | OnDeleteOrderBook
    | OnUpdateOrderBook
    | OnAddOrder
    | OnReduceOrder
    | OnModifyOrder
    | OnReplaceOrder            // the overload taking new id, price and quantity
    | OnReplaceOrderWithOrder   // the overload taking a complete new order
    | OnUpdateOrder
    | OnDeleteOrder
    | OnExecuteOrder

  /** The three counts that go up and down, each paired with its peak. */
  datatype Gauge = Symbols | OrderBooks | Orders

  /** The per-event tallies, which only ever go up. */
  datatype Tally = AddOrders | ReduceOrders | ModifyOrders | ReplaceOrders | DeleteOrders | ExecuteOrders

  /** The thirteen counter fields of MyMarketHandler. */
  datatype Stats = Stats(
    updates: nat,
    symbols: nat, maxSymbols: nat,
    orderBooks: nat, maxOrderBooks: nat,
    orders: nat, maxOrders: nat,
    addOrder: nat, reduceOrder: nat, modifyOrder: nat,
    replaceOrder: nat, deleteOrder: nat, executeOrder: nat)

  datatype Option<T> = None | Some(value: T)

  /** The state the constructor establishes: every counter zero. */
  const Initial: Stats := Stats(0, 0, 0, 0, 0, 0, 0, 0, 0, 0, 0, 0, 0)

  function Current(s: Stats, g: Gauge): nat {
    match g
    case Symbols => s.symbols
    case OrderBooks => s.orderBooks
    case Orders => s.orders
  }

  function Peak(s: Stats, g: Gauge): nat {
    match g
    case Symbols => s.maxSymbols
    case OrderBooks => s.maxOrderBooks
    case Orders => s.maxOrders
  }

  function Count(s: Stats, t: Tally): nat {
    match t
    case AddOrders => s.addOrder
    case ReduceOrders => s.reduceOrder
    case ModifyOrders => s.modifyOrder
    case ReplaceOrders => s.replaceOrder
    case DeleteOrders => s.deleteOrder
    case ExecuteOrders => s.executeOrder
  }

  /** The callback that raises a gauge. */
  function Opener(g: Gauge): Callback {
    match g
    case Symbols => OnAddSymbol
    case OrderBooks => OnAddOrderBook
    case Orders => OnAddOrder
  }

  /** The callback that lowers a gauge. */
  function Closer(g: Gauge): Callback {
    match g
    case Symbols => OnDeleteSymbol
    case OrderBooks => OnDeleteOrderBook
    case Orders => OnDeleteOrder
  }

  /** Whether callback `c` bumps tally `t`; both replace overloads bump the same one. */
  predicate Tallies(c: Callback, t: Tally) {
    match t
    case AddOrders => c == OnAddOrder
    case ReduceOrders => c == OnReduceOrder
    case ModifyOrders => c == OnModifyOrder
    case ReplaceOrders => c == OnReplaceOrder || c == OnReplaceOrderWithOrder
    case DeleteOrders => c == OnDeleteOrder
    case ExecuteOrders => c == OnExecuteOrder
  }

  /** Every peak is at least its current count. */
  predicate PeaksDominate(s: Stats) {
    s.symbols <= s.maxSymbols && s.orderBooks <= s.maxOrderBooks && s.orders <= s.maxOrders
  }

  /**
   * The counters are size_t: a delete callback that arrives with its count at
   * zero would wrap around. Such a callback is outside the model.
   */
  predicate Enabled(s: Stats, c: Callback) {
    && (c == OnDeleteSymbol ==> s.symbols > 0)
    && (c == OnDeleteOrderBook ==> s.orderBooks > 0)
    && (c == OnDeleteOrder ==> s.orders > 0)
  }

  /** std::max as the handler uses it. */
  function Max(a: nat, b: nat): nat {
    if a < b then b else a
  }

  /**
   * The effect of one callback on the counters, field by field as each
   * override is written. The contract restates it gauge by gauge and tally by
   * tally: a gauge moves only on its opener or closer, a peak only on its
   * opener (to the larger of the old peak and the new count), a tally only on
   * its own callbacks, and every callback except onUpdateOrder adds one update.
   */
  function Step(s: Stats, c: Callback): (r: Stats)
    requires Enabled(s, c)
    ensures forall g :: Current(r, g) == Current(s, g) + (if c == Opener(g) then 1 else 0) - (if c == Closer(g) then 1 else 0)
    ensures forall g :: Peak(r, g) == if c == Opener(g) then Max(Peak(s, g), Current(r, g)) else Peak(s, g)
    ensures forall t :: Count(r, t) == Count(s, t) + (if Tallies(c, t) then 1 else 0)
    ensures r.updates == s.updates + (if c == OnUpdateOrder then 0 else 1)
    ensures c == OnUpdateOrder ==> r == s
    ensures PeaksDominate(s) ==> PeaksDominate(r)
  {
    match c
    case OnAddSymbol =>
      var n := s.symbols + 1;
      s.(updates := s.updates + 1, symbols := n, maxSymbols := Max(n, s.maxSymbols))
    case OnDeleteSymbol =>
      s.(updates := s.updates + 1, symbols := s.symbols - 1)
    case OnAddOrderBook =>
      var n := s.orderBooks + 1;
      s.(updates := s.updates + 1, orderBooks := n, maxOrderBooks := Max(n, s.maxOrderBooks))
    case OnDeleteOrderBook =>
      s.(updates := s.updates + 1, orderBooks := s.orderBooks - 1)
    case OnUpdateOrderBook =>
      s.(updates := s.updates + 1)
    case OnAddOrder =>
      var n := s.orders + 1;
      s.(updates := s.updates + 1, orders := n, maxOrders := Max(n, s.maxOrders), addOrder := s.addOrder + 1)
    case OnReduceOrder =>
      s.(updates := s.updates + 1, reduceOrder := s.reduceOrder + 1)
    case OnModifyOrder =>
      s.(updates := s.updates + 1, modifyOrder := s.modifyOrder + 1)
    case OnReplaceOrder =>
      s.(updates := s.updates + 1, replaceOrder := s.replaceOrder + 1)
    case OnReplaceOrderWithOrder =>
      s.(updates := s.updates + 1, replaceOrder := s.replaceOrder + 1)
    case OnUpdateOrder =>
      s
    case OnDeleteOrder =>
      s.(updates := s.updates + 1, orders := s.orders - 1, deleteOrder := s.deleteOrder + 1)
    case OnExecuteOrder =>
      s.(updates := s.updates + 1, executeOrder := s.executeOrder + 1)
  }

  /** The two onReplaceOrder overloads have the same effect on the counters. */
  lemma ReplaceOverloadsAgree(s: Stats)
    ensures Step(s, OnReplaceOrder) == Step(s, OnReplaceOrderWithOrder)
  {
  }

  /**
   * The counters after a freshly constructed handler has received `es`, in
   * order; None when some delete callback would have wrapped a count below zero.
   */
  function Replay(es: seq<Callback>): Option<Stats>
    decreases |es|
  {
    if es == [] then Some(Initial)
    else
      var prior := Replay(es[..|es| - 1]);
      var c := es[|es| - 1];
      if prior.Some? && Enabled(prior.value, c) then Some(Step(prior.value, c)) else None
  }

  /** Replay one more callback. */
  lemma ReplayExtend(es: seq<Callback>, c: Callback)
    ensures Replay(es + [c]) ==
      if Replay(es).Some? && Enabled(Replay(es).value, c) then Some(Step(Replay(es).value, c)) else None
  {
    assert (es + [c])[..|es|] == es;
  }

  /** How many of `es` bump tally `t`. */
  function Occurrences(es: seq<Callback>, t: Tally): nat {
    var m := multiset(es);
    match t
    case AddOrders => m[OnAddOrder]
    case ReduceOrders => m[OnReduceOrder]
    case ModifyOrders => m[OnModifyOrder]
    case ReplaceOrders => m[OnReplaceOrder] + m[OnReplaceOrderWithOrder]
    case DeleteOrders => m[OnDeleteOrder]
    case ExecuteOrders => m[OnExecuteOrder]
  }

  /**
   * After any replayable sequence of callbacks, every counter is determined by
   * how often each callback occurs: updates counts all callbacks but
   * onUpdateOrder, each gauge is its openers minus its closers, each tally
   * counts its callbacks; and every peak is at least its current count.
   */
  lemma {:induction false} ReplayCounts(es: seq<Callback>)
    requires Replay(es).Some?
    ensures PeaksDominate(Replay(es).value)
    ensures Replay(es).value.updates + multiset(es)[OnUpdateOrder] == |es|
    ensures forall g :: Current(Replay(es).value, g) + multiset(es)[Closer(g)] == multiset(es)[Opener(g)]
    ensures forall t :: Count(Replay(es).value, t) == Occurrences(es, t)
  {
    if es != [] {
      var p, c := es[..|es| - 1], es[|es| - 1];
      assert es == p + [c];
      assert multiset(es) == multiset(p) + multiset{c};
      ReplayCounts(p);
      var s := Replay(p).value;
      assert Replay(es).value == Step(s, c);
      forall t
        ensures Count(Replay(es).value, t) == Occurrences(es, t)
      {
        assert Count(Step(s, c), t) == Count(s, t) + (if Tallies(c, t) then 1 else 0);
        match t
        case ReplaceOrders =>
        case _ =>
      }
    }
  }

  /**
   * Starting from zero, the current order count is the number of
   * onAddOrder callbacks minus the number of onDeleteOrder callbacks.
   */
  lemma {:induction false} OrdersBalance(es: seq<Callback>)
    requires Replay(es).Some?
    ensures Replay(es).value.orders == Replay(es).value.addOrder - Replay(es).value.deleteOrder
  {
    ReplayCounts(es);
    assert Current(Replay(es).value, Orders) + multiset(es)[OnDeleteOrder] == multiset(es)[OnAddOrder];
    assert Count(Replay(es).value, AddOrders) == multiset(es)[OnAddOrder];
    assert Count(Replay(es).value, DeleteOrders) == multiset(es)[OnDeleteOrder];
  }

  /** In no prefix of `es` do the deletes of a kind outnumber its adds. */
  predicate NeverOverdrawn(es: seq<Callback>) {
    forall k, g :: 0 <= k <= |es| ==> multiset(es[..k])[Closer(g)] <= multiset(es[..k])[Opener(g)]
  }

  /** Every prefix of a replayable sequence is replayable. */
  lemma {:induction false} ReplayPrefix(es: seq<Callback>, k: nat)
    requires Replay(es).Some? && k <= |es|
    ensures Replay(es[..k]).Some?
    decreases |es|
  {
    if k < |es| {
      var p := es[..|es| - 1];
      assert es[..k] == p[..k];
      ReplayPrefix(p, k);
    } else {
      assert es[..k] == es;
    }
  }

  /** A replayable sequence never has more deletes than adds of a kind in any prefix. */
  lemma ReplayableIsNeverOverdrawn(es: seq<Callback>)
    requires Replay(es).Some?
    ensures NeverOverdrawn(es)
  {
    forall k, g | 0 <= k <= |es|
      ensures multiset(es[..k])[Closer(g)] <= multiset(es[..k])[Opener(g)]
    {
      ReplayPrefix(es, k);
      ReplayCounts(es[..k]);
      assert Current(Replay(es[..k]).value, g) + multiset(es[..k])[Closer(g)] == multiset(es[..k])[Opener(g)];
    }
  }

  /** A sequence whose deletes never outnumber its adds can be replayed. */
  lemma {:induction false} NeverOverdrawnIsReplayable(es: seq<Callback>)
    requires NeverOverdrawn(es)
    ensures Replay(es).Some?
  {
    if es != [] {
      var p, c := es[..|es| - 1], es[|es| - 1];
      assert es == p + [c];
      assert NeverOverdrawn(p) by {
        forall k, g | 0 <= k <= |p|
          ensures multiset(p[..k])[Closer(g)] <= multiset(p[..k])[Opener(g)]
        {
          assert es[..k] == p[..k];
        }
      }
      NeverOverdrawnIsReplayable(p);
      ReplayCounts(p);
      var s := Replay(p).value;
      assert multiset(es) == multiset(p) + multiset{c};
      assert es[..|es|] == es;
      forall g | c == Closer(g)
        ensures Current(s, g) > 0
      {
        assert multiset(es[..|es|])[Closer(g)] <= multiset(es[..|es|])[Opener(g)];
        assert Current(s, g) + multiset(p)[Closer(g)] == multiset(p)[Opener(g)];
      }
      assert Enabled(s, c) by {
        if c == OnDeleteSymbol { assert c == Closer(Symbols); }
        if c == OnDeleteOrderBook { assert c == Closer(OrderBooks); }
        if c == OnDeleteOrder { assert c == Closer(Orders); }
      }
    }
  }

  /**
   * A sequence of callbacks can be replayed without wrapping exactly when its
   * deletes never outnumber its adds, kind by kind, in any prefix.
   */
  lemma ReplayDefinedIff(es: seq<Callback>)
    ensures Replay(es).Some? <==> NeverOverdrawn(es)
  {
    if Replay(es).Some? { ReplayableIsNeverOverdrawn(es); }
    if NeverOverdrawn(es) { NeverOverdrawnIsReplayable(es); }
  }

  /**
   * The peak of a gauge is its high-water mark: no prefix of the callbacks
   * left the gauge above the peak, and some prefix reached it.
   */
  lemma {:induction false} PeakIsHighWater(es: seq<Callback>, g: Gauge)
    requires Replay(es).Some?
    ensures forall k :: 0 <= k <= |es| ==>
                Replay(es[..k]).Some? && Current(Replay(es[..k]).value, g) <= Peak(Replay(es).value, g)
    ensures exists k :: 0 <= k <= |es| &&
                Replay(es[..k]).Some? && Current(Replay(es[..k]).value, g) == Peak(Replay(es).value, g)
  {
    if es == [] {
      assert es[..0] == es;
    } else {
      var p, c := es[..|es| - 1], es[|es| - 1];
      assert es == p + [c];
      assert es[..|es|] == es;
      PeakIsHighWater(p, g);
      var s := Replay(p).value;
      var r := Replay(es).value;
      assert r == Step(s, c);
      assert Peak(s, g) <= Peak(r, g);
      assert Current(r, g) <= Peak(r, g) by {
        ReplayCounts(es);
      }
      forall k | 0 <= k <= |es|
        ensures Replay(es[..k]).Some? && Current(Replay(es[..k]).value, g) <= Peak(r, g)
      {
        if k < |es| {
          assert es[..k] == p[..k];
        }
      }
      var k0 :| 0 <= k0 <= |p| && Replay(p[..k0]).Some? && Current(Replay(p[..k0]).value, g) == Peak(s, g);
      assert es[..k0] == p[..k0];
      if Peak(r, g) != Peak(s, g) {
        assert Current(Replay(es[..|es|]).value, g) == Peak(r, g);
      }
    }
  }

  /**
   * The handler. Its counter fields are changed in place by the callbacks;
   * `history` records, for the proof only, the callbacks received so far.
   */
  class MyMarketHandler {
    var updates: nat
    var symbols: nat
    var maxSymbols: nat
    var orderBooks: nat
    var maxOrderBooks: nat
    var orders: nat
    var maxOrders: nat
    var addOrder: nat
    var reduceOrder: nat
    var modifyOrder: nat
    var replaceOrder: nat
    var deleteOrder: nat
    var executeOrder: nat
    ghost var history: seq<Callback>

    /** The counters as a value. */
    function State(): Stats
      reads this
    {
      Stats(updates, symbols, maxSymbols, orderBooks, maxOrderBooks, orders, maxOrders,
            addOrder, reduceOrder, modifyOrder, replaceOrder, deleteOrder, executeOrder)
    }

    /** The counters are those of replaying the history from zero, and each peak dominates its count. */
    ghost predicate Valid()
      reads this
    {
      Replay(history) == Some(State()) && PeaksDominate(State())
    }

    constructor ()
      ensures Valid() && history == [] && State() == Initial
    {
      updates, symbols, maxSymbols, orderBooks, maxOrderBooks, orders, maxOrders := 0, 0, 0, 0, 0, 0, 0;
      addOrder, reduceOrder, modifyOrder, replaceOrder, deleteOrder, executeOrder := 0, 0, 0, 0, 0, 0;
      history := [];
    }

    function Updates(): nat reads this { updates }
    function AddOrderCount(): nat reads this { addOrder }
    function ReduceOrderCount(): nat reads this { reduceOrder }
    function ModifyOrderCount(): nat reads this { modifyOrder }
    function ReplaceOrderCount(): nat reads this { replaceOrder }
    function DeleteOrderCount(): nat reads this { deleteOrder }
    function ExecuteOrderCount(): nat reads this { executeOrder }

    /** The peak getters report a value no smaller than the current count. */
    function MaxSymbols(): (r: nat)
      reads this
      requires Valid()
      ensures r >= symbols
    {
      maxSymbols
    }

    function MaxOrderBooks(): (r: nat)
      reads this
      requires Valid()
      ensures r >= orderBooks
    {
      maxOrderBooks
    }

    function MaxOrders(): (r: nat)
      reads this
      requires Valid()
      ensures r >= orders
    {
      maxOrders
    }

    method OnAddSymbol(symbol: Symbol)
      requires Valid()
      modifies this
      ensures Valid() && history == old(history) + [Callback.OnAddSymbol]
      ensures State() == Step(old(State()), Callback.OnAddSymbol)
    {
      ghost var next := Step(State(), Callback.OnAddSymbol);
            ReplayExtend(history, Callback.OnAddSymbol);
      updates := updates + 1;
      symbols := symbols + 1;
      maxSymbols := Max(symbols, maxSymbols);
      history := history + [Callback.OnAddSymbol];
      assert State() == next;
    }

    method OnDeleteSymbol(symbol: Symbol)
      requires Valid() && symbols > 0
      modifies this
      ensures Valid() && history == old(history) + [Callback.OnDeleteSymbol]
      ensures State() == Step(old(State()), Callback.OnDeleteSymbol)
    {
      ghost var next := Step(State(), Callback.OnDeleteSymbol);
      ReplayExtend(history, Callback.OnDeleteSymbol);
      updates := updates + 1;
      symbols := symbols - 1;
      history := history + [Callback.OnDeleteSymbol];
      assert State() == next;
    }

    method OnAddOrderBook()
      requires Valid()
      modifies this
      ensures Valid() && history == old(history) + [Callback.OnAddOrderBook]
      ensures State() == Step(old(State()), Callback.OnAddOrderBook)
    {
      ghost var next := Step(State(), Callback.OnAddOrderBook);
      ReplayExtend(history, Callback.OnAddOrderBook);
      updates := updates + 1;
      orderBooks := orderBooks + 1;
      maxOrderBooks := Max(orderBooks, maxOrderBooks);
      history := history + [Callback.OnAddOrderBook];
      assert State() == next;
    }

    method OnDeleteOrderBook()
      requires Valid() && orderBooks > 0
      modifies this
      ensures Valid() && history == old(history) + [Callback.OnDeleteOrderBook]
      ensures State() == Step(old(State()), Callback.OnDeleteOrderBook)
    {
      ghost var next := Step(State(), Callback.OnDeleteOrderBook);
      ReplayExtend(history, Callback.OnDeleteOrderBook);
      updates := updates + 1;
      orderBooks := orderBooks - 1;
      history := history + [Callback.OnDeleteOrderBook];
      assert State() == next;
    }

    method OnUpdateOrderBook(top: bool)
      requires Valid()
      modifies this
      ensures Valid() && history == old(history) + [Callback.OnUpdateOrderBook]
      ensures State() == Step(old(State()), Callback.OnUpdateOrderBook)
    {
      ghost var next := Step(State(), Callback.OnUpdateOrderBook);
      ReplayExtend(history, Callback.OnUpdateOrderBook);
      updates := updates + 1;
      history := history + [Callback.OnUpdateOrderBook];
      assert State() == next;
    }

    method OnAddOrder(order: Order)
      requires Valid()
      modifies this
      ensures Valid() && history == old(history) + [Callback.OnAddOrder]
      ensures State() == Step(old(State()), Callback.OnAddOrder)
    {
      ghost var next := Step(State(), Callback.OnAddOrder);
      ReplayExtend(history, Callback.OnAddOrder);
      updates := updates + 1;
      orders := orders + 1;
      maxOrders := Max(orders, maxOrders);
      addOrder := addOrder + 1;
      history := history + [Callback.OnAddOrder];
      assert State() == next;
    }

    method OnReduceOrder(order: Order, quantity: nat)
      requires Valid()
      modifies this
      ensures Valid() && history == old(history) + [Callback.OnReduceOrder]
      ensures State() == Step(old(State()), Callback.OnReduceOrder)
    {
      ghost var next := Step(State(), Callback.OnReduceOrder);
      ReplayExtend(history, Callback.OnReduceOrder);
      updates := updates + 1;
      reduceOrder := reduceOrder + 1;
      history := history + [Callback.OnReduceOrder];
      assert State() == next;
    }

    method OnModifyOrder(order: Order, newPrice: nat, newQuantity: nat)
      requires Valid()
      modifies this
      ensures Valid() && history == old(history) + [Callback.OnModifyOrder]
      ensures State() == Step(old(State()), Callback.OnModifyOrder)
    {
      ghost var next := Step(State(), Callback.OnModifyOrder);
      ReplayExtend(history, Callback.OnModifyOrder);
      updates := updates + 1;
      modifyOrder := modifyOrder + 1;
      history := history + [Callback.OnModifyOrder];
      assert State() == next;
    }

    method OnReplaceOrder(order: Order, newId: nat, newPrice: nat, newQuantity: nat)
      requires Valid()
      modifies this
      ensures Valid() && history == old(history) + [Callback.OnReplaceOrder]
      ensures State() == Step(old(State()), Callback.OnReplaceOrder)
    {
      ghost var next := Step(State(), Callback.OnReplaceOrder);
      ReplayExtend(history, Callback.OnReplaceOrder);
      updates := updates + 1;
      replaceOrder := replaceOrder + 1;
      history := history + [Callback.OnReplaceOrder];
      assert State() == next;
    }

    method OnReplaceOrderWithOrder(order: Order, newOrder: Order)
      requires Valid()
      modifies this
      ensures Valid() && history == old(history) + [Callback.OnReplaceOrderWithOrder]
      ensures State() == Step(old(State()), Callback.OnReplaceOrderWithOrder)
    {
      ghost var next := Step(State(), Callback.OnReplaceOrderWithOrder);
      ReplayExtend(history, Callback.OnReplaceOrderWithOrder);
      updates := updates + 1;
      replaceOrder := replaceOrder + 1;
      history := history + [Callback.OnReplaceOrderWithOrder];
      assert State() == next;
    }

    /** Overridden with an empty body: no counter changes. */
    method OnUpdateOrder(order: Order)
      requires Valid()
      modifies this`history
      ensures Valid() && history == old(history) + [Callback.OnUpdateOrder]
      ensures State() == old(State())
    {
      ghost var next := Step(State(), Callback.OnUpdateOrder);
      ReplayExtend(history, Callback.OnUpdateOrder);
      history := history + [Callback.OnUpdateOrder];
      assert State() == next;
    }

    method OnDeleteOrder(order: Order)
      requires Valid() && orders > 0
      modifies this
      ensures Valid() && history == old(history) + [Callback.OnDeleteOrder]
      ensures State() == Step(old(State()), Callback.OnDeleteOrder)
    {
      ghost var next := Step(State(), Callback.OnDeleteOrder);
      ReplayExtend(history, Callback.OnDeleteOrder);
      updates := updates + 1;
      orders := orders - 1;
      deleteOrder := deleteOrder + 1;
      history := history + [Callback.OnDeleteOrder];
      assert State() == next;
    }

    method OnExecuteOrder(order: Order, price: nat, quantity: nat)
      requires Valid()
      modifies this
      ensures Valid() && history == old(history) + [Callback.OnExecuteOrder]
      ensures State() == Step(old(State()), Callback.OnExecuteOrder)
    {
      ghost var next := Step(State(), Callback.OnExecuteOrder);
      ReplayExtend(history, Callback.OnExecuteOrder);
      updates := updates + 1;
      executeOrder := executeOrder + 1;
      history := history + [Callback.OnExecuteOrder];
      assert State() == next;
    }
  }
}
