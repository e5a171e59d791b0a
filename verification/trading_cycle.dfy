/** One decision cycle of the bot: for every symbol the broker lists, keep the
    Forex ones, compute the cloud over the symbol's bars, and emit a buy or sell
    order intent with a stop-loss 50 points beyond the current quote. Each
    symbol is processed on its own: whatever it raises is caught and the cycle
    goes on with the next symbol. */
module TradingCycle {
  import opened Basics
  import opened LotSizing
  import opened Ohlc
  import opened Ichimoku

  /** Stop-loss distance, in price points. */
  const StopLossPoints: real := 50.0

  datatype Side = Buy | Sell

  datatype Signal = Trade(side: Side) | Hold

  /** The quote `symbol_info` gives for a symbol. */
  datatype Quote = Quote(bid: real, ask: real, point: real)

  /** What the broker supplies about one symbol in one cycle: its name and
      category path, the bars `copy_rates_from_pos` returned (`None` when the
      fetch failed), and the quote (`None` when `symbol_info` returned `None`). */
  datatype SymbolData = SymbolData(name: string, path: string, bars: Option<seq<Bar>>, quote: Option<Quote>)

  /** The arguments of a `place_buy_order` / `place_sell_order` call. */
  datatype OrderIntent = OrderIntent(symbol: string, side: Side, volume: real, stopLoss: real)

  /** How the cycle ended for one symbol. */
  datatype Outcome =
    | NotForex                  // filtered out by its path
    | NoData                    // no bars: the cloud is `None` and no branch fires
    | Failed(error: Exception)  // raised inside the `try`, caught, symbol skipped
    | Held                      // price touches or is inside the cloud
    | Placed(order: OrderIntent)

  /** `symbol.path.startswith("Forex")` (`<=` on sequences is the prefix order). */
  predicate IsForex(path: string) {
    "Forex" <= path
  }

  /** `startswith` spelled out: the path's first five characters are `Forex`. */
  lemma ForexPrefix(path: string)
    ensures IsForex(path) <==> |path| >= 5 && path[..5] == "Forex"
  {
  }

  /** The `if`/`elif` on the last close against the two spans. */
  function Evaluate(lastClose: real, spanA: real, spanB: real): (s: Signal)
    ensures s == Trade(Buy) <==> lastClose > spanA && lastClose > spanB
    ensures s == Trade(Sell) <==> lastClose < spanA && lastClose < spanB
  {
    if lastClose > spanA && lastClose > spanB then Trade(Buy)
    else if lastClose < spanA && lastClose < spanB then Trade(Sell)
    else Hold
  }

  /** A close that touches either span, or lies between them, issues no order. */
  lemma HoldInsideCloud(lastClose: real, spanA: real, spanB: real)
    requires MinReal(spanA, spanB) <= lastClose <= MaxReal(spanA, spanB)
    ensures Evaluate(lastClose, spanA, spanB) == Hold
  {
  }

  /** `bid - 50 * point` for a buy, `ask + 50 * point` for a sell. */
  function StopLoss(side: Side, q: Quote): (price: real)
    ensures side == Buy ==> price == q.bid - StopLossPoints * q.point
    ensures side == Sell ==> price == q.ask + StopLossPoints * q.point
    ensures q.point > 0.0 ==> (if side == Buy then price < q.bid else price > q.ask)
  {
    match side
    case Buy => q.bid - StopLossPoints * q.point
    case Sell => q.ask + StopLossPoints * q.point
  }

  /** The body of the `for symbol in symbols` loop, with its `try`/`except`. */
  function ProcessSymbol(sym: SymbolData, lot: real): (r: Outcome)
    ensures r == NotForex <==> !IsForex(sym.path)
    ensures r == NoData <==> IsForex(sym.path) && sym.bars.None?
    ensures r == Failed(ZeroSizeArray) <==> IsForex(sym.path) && sym.bars == Some([])
    ensures r == Failed(NoSymbolInfo) ==> sym.quote.None?
    ensures r.Placed? ==>
      && IsForex(sym.path) && sym.quote.Some?
      && r.order.symbol == sym.name && r.order.volume == lot
      && r.order.stopLoss == StopLoss(r.order.side, sym.quote.value)
  {
    if !IsForex(sym.path) then NotForex
    else
      var (close, high, low) := ExtractOhlc(sym.bars);
      match CalculateCloud(close, high, low)
      case Err(e) => Failed(e)
      case Ok(None) => NoData
      case Ok(Some(c)) =>
        var closes := close.value;
        Decide(sym.name, closes[|closes| - 1], c, sym.quote, lot)
  }

  /** The `if`/`elif` that follows a computed cloud: a trade signal reads the
      quote (which raises when the broker has none) and emits the order. */
  function Decide(name: string, lastClose: real, c: Cloud, quote: Option<Quote>, lot: real): (r: Outcome)
    ensures r.Placed? <==> Evaluate(lastClose, c.senkouSpanA, c.senkouSpanB).Trade? && quote.Some?
    ensures r.Placed? ==> r.order == OrderIntent(name, r.order.side, lot, StopLoss(r.order.side, quote.value))
    ensures r.Placed? ==> Evaluate(lastClose, c.senkouSpanA, c.senkouSpanB) == Trade(r.order.side)
    ensures r == Held <==> Evaluate(lastClose, c.senkouSpanA, c.senkouSpanB) == Hold
    ensures r == Failed(NoSymbolInfo) <==> Evaluate(lastClose, c.senkouSpanA, c.senkouSpanB).Trade? && quote.None?
    ensures r.Failed? ==> r.error == NoSymbolInfo
  {
    match Evaluate(lastClose, c.senkouSpanA, c.senkouSpanB)
    case Hold => Held
    case Trade(side) =>
      match quote
      case None => Failed(NoSymbolInfo)
      case Some(q) => Placed(OrderIntent(name, side, lot, StopLoss(side, q)))
  }

  /** The cloud the bot computes over a non-empty bar list. */
  function BarsCloud(bars: seq<Bar>): Cloud
    requires |bars| > 0
  {
    CloudOf(Highs(bars), Lows(bars))
  }

  /** For a Forex symbol with bars and a quote, an order is placed on `side`
      exactly when the last close is strictly beyond both spans on that side;
      otherwise the symbol is held. */
  lemma {:induction false} ProcessSymbolDecision(sym: SymbolData, lot: real)
    requires IsForex(sym.path) && sym.bars.Some? && |sym.bars.value| > 0 && sym.quote.Some?
    ensures var bars := sym.bars.value;
      var c := BarsCloud(bars);
      var last := bars[|bars| - 1].close;
      && ((ProcessSymbol(sym, lot).Placed? && ProcessSymbol(sym, lot).order.side == Buy)
            <==> last > c.senkouSpanA && last > c.senkouSpanB)
      && ((ProcessSymbol(sym, lot).Placed? && ProcessSymbol(sym, lot).order.side == Sell)
            <==> last < c.senkouSpanA && last < c.senkouSpanB)
      && (ProcessSymbol(sym, lot) == Held || ProcessSymbol(sym, lot).Placed?)
  {
    ProcessSymbolComputed(sym, lot);
  }

  /** For a Forex symbol with bars but no quote, a close strictly beyond both
      spans on either side makes reading the quote raise, and the symbol is
      skipped; otherwise the symbol is held. */
  lemma {:induction false} ProcessSymbolMissingQuote(sym: SymbolData, lot: real)
    requires IsForex(sym.path) && sym.bars.Some? && |sym.bars.value| > 0 && sym.quote.None?
    ensures var bars := sym.bars.value;
      var c := BarsCloud(bars);
      var last := bars[|bars| - 1].close;
      && (ProcessSymbol(sym, lot) == Failed(NoSymbolInfo) <==>
            (last > c.senkouSpanA && last > c.senkouSpanB) || (last < c.senkouSpanA && last < c.senkouSpanB))
      && (ProcessSymbol(sym, lot) == Held || ProcessSymbol(sym, lot) == Failed(NoSymbolInfo))
  {
    ProcessSymbolComputed(sym, lot);
  }

  /** With Forex bars present, the symbol's outcome is the decision on its
      last close and the cloud of its bars. */
  lemma {:induction false} ProcessSymbolComputed(sym: SymbolData, lot: real)
    requires IsForex(sym.path) && sym.bars.Some? && |sym.bars.value| > 0
    ensures var bars := sym.bars.value;
      ProcessSymbol(sym, lot) == Decide(sym.name, bars[|bars| - 1].close, BarsCloud(bars), sym.quote, lot)
  {
    var bars := sym.bars.value;
    var (close, high, low) := ExtractOhlc(sym.bars);
    assert high.value == Highs(bars) && low.value == Lows(bars);
    assert CalculateCloud(close, high, low) == Ok(Some(BarsCloud(bars)));
    assert close.value[|bars| - 1] == bars[|bars| - 1].close;
  }

  /** The orders a symbol's outcome contributes. */
  function OrdersOf(o: Outcome): seq<OrderIntent> {
    if o.Placed? then [o.order] else []
  }

  /** The orders a run of outcomes emits, in order. */
  function PlacedOrders(outcomes: seq<Outcome>): (orders: seq<OrderIntent>)
    ensures |orders| <= |outcomes|
  {
    if outcomes == [] then []
    else OrdersOf(outcomes[0]) + PlacedOrders(outcomes[1..])
  }

  /** Every order emitted is the order of some placed outcome. */
  lemma {:induction false} PlacedOrdersFromOutcomes(outcomes: seq<Outcome>)
    ensures forall o :: o in PlacedOrders(outcomes) ==> Placed(o) in outcomes
  {
    if outcomes != [] {
      PlacedOrdersFromOutcomes(outcomes[1..]);
      forall o | o in PlacedOrders(outcomes) ensures Placed(o) in outcomes {
        if o !in OrdersOf(outcomes[0]) {
          assert Placed(o) in outcomes[1..];
        }
      }
    }
  }

  /** The orders of two runs of outcomes are the orders of the first followed by
      those of the second. */
  lemma {:induction false} PlacedOrdersConcat(a: seq<Outcome>, b: seq<Outcome>)
    ensures PlacedOrders(a + b) == PlacedOrders(a) + PlacedOrders(b)
  {
    if a == [] {
      assert a + b == b;
    } else {
      assert (a + b)[1..] == a[1..] + b;
      PlacedOrdersConcat(a[1..], b);
    }
  }

  /** Recording one more outcome appends the orders it emits. */
  lemma {:induction false} PlacedOrdersSnoc(outcomes: seq<Outcome>, last: Outcome)
    ensures PlacedOrders(outcomes + [last]) == PlacedOrders(outcomes) + OrdersOf(last)
  {
    PlacedOrdersConcat(outcomes, [last]);
    assert [last][1..] == [];
  }

  /** A symbol that raised, was held, had no data or was filtered out leaves the
      orders of all the other symbols exactly as if it were not listed. */
  lemma {:induction false} SkippedSymbolIsolated(before: seq<Outcome>, skipped: Outcome, after: seq<Outcome>)
    requires !skipped.Placed?
    ensures PlacedOrders(before + [skipped] + after) == PlacedOrders(before + after)
  {
    assert PlacedOrders([skipped]) == [] by {
      assert [skipped][1..] == [];
    }
    PlacedOrdersConcat(before, [skipped]);
    PlacedOrdersConcat(before + [skipped], after);
    PlacedOrdersConcat(before, after);
  }

  /** Every order of a cycle comes from a Forex symbol with a quote, carries the
      cycle's lot, and has its stop-loss 50 points beyond that quote. */
  lemma {:induction false} OrdersFromForexSymbols(symbols: seq<SymbolData>, outcomes: seq<Outcome>, lot: real)
    requires |outcomes| == |symbols|
    requires forall i :: 0 <= i < |symbols| ==> outcomes[i] == ProcessSymbol(symbols[i], lot)
    ensures forall o :: o in PlacedOrders(outcomes) ==>
      o.volume == lot &&
      (exists i :: 0 <= i < |symbols| && IsForex(symbols[i].path) && symbols[i].name == o.symbol &&
                   symbols[i].quote.Some? && o.stopLoss == StopLoss(o.side, symbols[i].quote.value))
  {
    PlacedOrdersFromOutcomes(outcomes);
    forall o | o in PlacedOrders(outcomes)
      ensures o.volume == lot
      ensures exists i :: 0 <= i < |symbols| && IsForex(symbols[i].path) && symbols[i].name == o.symbol &&
                          symbols[i].quote.Some? && o.stopLoss == StopLoss(o.side, symbols[i].quote.value)
    {
      var i :| 0 <= i < |outcomes| && outcomes[i] == Placed(o);
      assert ProcessSymbol(symbols[i], lot).Placed?;
    }
  }

  /** Appending the result for input `i` to the results for the inputs before
      it gives the results for the inputs up to and including `i`. */
  lemma {:induction false} RecordResult<S, R>(f: S -> R, inputs: seq<S>, results: seq<R>, i: nat)
    requires i < |inputs| && |results| == i
    requires forall j :: 0 <= j < i ==> results[j] == f(inputs[j])
    ensures forall j :: 0 <= j <= i ==> (results + [f(inputs[i])])[j] == f(inputs[j])
  {
    var next := results + [f(inputs[i])];
    forall j | 0 <= j <= i ensures next[j] == f(inputs[j]) {
      if j < i {
        assert next[j] == results[j];
      }
    }
  }

  /** One pass of the `for symbol in symbols` loop: the lot is sized once from
      the equity, every symbol is processed in order whatever the earlier ones
      raised, and the orders placed are collected in symbol order. */
  method RunCycle(equity: real, symbols: seq<SymbolData>) returns (orders: seq<OrderIntent>, outcomes: seq<Outcome>)
    ensures |outcomes| == |symbols|
    ensures forall i :: 0 <= i < |symbols| ==> outcomes[i] == ProcessSymbol(symbols[i], LotSize(equity))
    ensures orders == PlacedOrders(outcomes)
  {
    var lot := LotSize(equity);
    ghost var process := (sym: SymbolData) => ProcessSymbol(sym, lot);
    orders, outcomes := [], [];
    for i := 0 to |symbols|
      invariant |outcomes| == i
      invariant forall j :: 0 <= j < i ==> outcomes[j] == process(symbols[j])
      invariant orders == PlacedOrders(outcomes)
    {
      var outcome := ProcessSymbol(symbols[i], lot);
      PlacedOrdersSnoc(outcomes, outcome);
      RecordResult(process, symbols, outcomes, i);
      outcomes := outcomes + [outcome];
      orders := orders + OrdersOf(outcome);
    }
  }
}
