# Ichimoku cloud trading bot — a Dafny model

This project models the decision core of a single-file MetaTrader 5 bot,
`iDeserve.py`. Once per cycle the bot reads the account equity and sizes a
lot from it. It then walks every symbol the broker lists and keeps only those
whose category path starts with `Forex`. For each one it takes the recent
hourly bars and computes four Ichimoku lines from the bars' highs and lows:

- Tenkan-sen, over the last 9 bars;
- Kijun-sen, over the last 26 bars;
- Senkou Span A, the mean of the first two;
- Senkou Span B, over the last 52 bars.

It buys when the last close is strictly above both spans and sells when it is
strictly below both. The stop-loss sits 50 points below the bid for a buy, or
50 points above the ask for a sell. Anything a symbol raises is caught, and
the cycle moves on to the next symbol.

The modules are:

- `Basics` (`basics.dfy`) holds `Option`, `Result` and the two exceptions the
  per-symbol `try` can catch in this model. One is numpy's error on an empty
  array. The other is attribute access on a missing `symbol_info`.
- `LotSizing` (`lot_size.dfy`) is `calculate_lot_size`.
- `Ohlc` (`ohlc.dfy`) holds the bars and `extract_ohlc_data`.
- `Ichimoku` (`ichimoku.dfy`) is `calculate_ichimoku_cloud`. The trailing
  windows `a[-k:]` are modelled as `Window`, and `np.max`/`np.min` as
  `SeqMax`/`SeqMin`. Each line is also characterised independently, on the
  indices of the original arrays (`IsMidrange`).
- `TradingCycle` (`trading_cycle.dfy`) is the body of the `for symbol in
  symbols` loop in `main`, and one pass of that loop (`RunCycle`).

Prices, equity and lots are `real`. Each broker call becomes data supplied to
the model:

- the symbol's name and path;
- the bars, `None` when fetching them failed;
- the `symbol_info` quote, `None` when the broker returns none.

A placed order becomes an `OrderIntent` value holding the arguments passed to
`place_buy_order` / `place_sell_order`.

The code never checks for fewer than 52 bars: `high[-52:]` on a shorter
array is the whole array, so the 52-bar line is then taken over all the bars
there are, and likewise for the 9- and 26-bar lines. The only input that
raises is an empty array, in `np.max`. `Ichimoku.CalculateCloud` therefore
returns a cloud for every non-empty input, and an error only for an empty
high or low array.

The spans are compared with the current bar, not projected 26 bars forward
as in textbook Ichimoku. The model keeps this.

## Model

| member | source | states |
|---|---|---|
| `LotSizing.LotSize` | iDeserve.py:47-52 | The lot is at most 0.1 and at most equity/100000. It is one of those two. It is exactly 0.1 from equity 10000 upwards, and exactly equity/100000 at or below 10000. |
| `LotSizing.LotSizeMonotone` | iDeserve.py:52 | More equity never gives a smaller lot. |
| `LotSizing.LotSizeNonPositive` | iDeserve.py:52 | Zero or negative equity gives a lot that is zero or negative, since nothing guards against it. |
| `LotSizing.LotSizeExamples` | iDeserve.py:51-52 | Equity 50000 gives the 0.1 cap; equity 500 gives 0.005. |
| `Ohlc.ExtractOhlc` | iDeserve.py:66-75 | `None` bars give three `None`s, and only then. Otherwise the close, high and low arrays have the bars' length, and entry i of each is the close, high or low of bar i. |
| `Ichimoku.Window` | iDeserve.py:84-87 | `a[-k:]` has min(k, n) entries, is the suffix of `a` of that length, and is `a` itself when n ≤ k. |
| `Ichimoku.SeqMax` | iDeserve.py:84-87 | `np.max` of a non-empty array; its meaning is stated by `SeqMaxIsMax`: an entry of the array that no entry exceeds. |
| `Ichimoku.SeqMin` | iDeserve.py:84-87 | `np.min` of a non-empty array; its meaning is stated by `SeqMinIsMin`: an entry of the array that no entry is below. |
| `Ichimoku.SeqMaxIsMax` | iDeserve.py:84-87 | `np.max` of a non-empty array is one of its entries, and no entry exceeds it. |
| `Ichimoku.SeqMinIsMin` | iDeserve.py:84-87 | `np.min` of a non-empty array is one of its entries, and no entry is below it. |
| `Ichimoku.Midrange` | iDeserve.py:84-87 | One line, `(np.max(high[-k:]) + np.min(low[-k:])) / 2`; `MidrangeUnique` states that it is the one value that is the midpoint of the highest high and lowest low of the last min(k, n) bars, on the indices of the arrays themselves. |
| `Ichimoku.CloudOf` | iDeserve.py:84-88 | The four lines over non-empty arrays; `CloudLines` states each line's window and that Span A is the mean of Tenkan and Kijun, and `CloudWithinRange` bounds them. |
| `Ichimoku.CalculateCloud` | iDeserve.py:78-88 | No cloud exactly when close, high or low is `None`. It raises exactly when all three are present and high or low is empty, and that error is the empty-array error. Otherwise the result is the cloud of the high and low arrays, whatever their length. |
| `Ichimoku.WindowAt` | iDeserve.py:84-87 | Entry j of `a[-k:]` is entry n - min(k, n) + j of `a`. |
| `Ichimoku.WindowMaxUnique` | iDeserve.py:84-87 | The computed window maximum is exactly the value that is attained at, and bounds, every index of `a` from n - min(k, n) on. |
| `Ichimoku.WindowMinUnique` | iDeserve.py:84-87 | The computed window minimum is exactly the value that is attained at, and lies below, every index of `a` from n - min(k, n) on. |
| `Ichimoku.MidrangeUnique` | iDeserve.py:84-87 | A value is the midpoint of the window's highest high and lowest low if and only if it equals the computed line. |
| `Ichimoku.CloudLines` | iDeserve.py:84-88 | Tenkan, Kijun and Span B are each the midpoint of the highest high and lowest low over the last min(9, n), min(26, n) and min(52, n) bars. Span A is the mean of Tenkan and Kijun. |
| `Ichimoku.WindowsNest` | iDeserve.py:84-87 | For j ≤ k, the maximum of the last j entries is at most that of the last k entries, and the minimum is at least theirs. |
| `Ichimoku.ElementOfNestedWindow` | iDeserve.py:84-87 | Each entry of the shorter trailing window is found in the longer one, at the same distance from the end. |
| `Ichimoku.NestedExtremes` | iDeserve.py:84-87 | The highest high over 9, 26 and 52 bars never falls as the window widens, and the lowest low never rises. |
| `Ichimoku.MidrangeWithinWindow` | iDeserve.py:84-87 | When every bar's low is at most its high, a line lies between its window's lowest low and highest high. |
| `Ichimoku.CloudWithinRange` | iDeserve.py:84-88 | Under the same condition, Tenkan, Kijun and Span B each lie within their own window's range, and Span A lies between Tenkan and Kijun. |
| `Ichimoku.SortedWindowExtremes` | iDeserve.py:84-87 | On a non-decreasing array, the window maximum is the last entry and the window minimum is the window's first entry. |
| `Ichimoku.RisingLine` | iDeserve.py:84-87 | With highs 1..52 and lows 0..51, the line over the last k bars is (104 - k)/2. |
| `Ichimoku.RisingSeriesCloud` | iDeserve.py:84-88 | With highs 1..52 and lows 0..51, the cloud is Tenkan 47.5, Kijun 39, Span A 43.25 and Span B 26. |
| `TradingCycle.IsForex` | iDeserve.py:140 | `symbol.path.startswith("Forex")`; its meaning is stated by `ForexPrefix`. |
| `TradingCycle.ForexPrefix` | iDeserve.py:140 | A path passes the filter if and only if it is at least five characters long and its first five are `Forex`. |
| `TradingCycle.Evaluate` | iDeserve.py:151-159 | The signal is Buy if and only if the last close is strictly above both spans. It is Sell if and only if the close is strictly below both. |
| `TradingCycle.HoldInsideCloud` | iDeserve.py:151-159 | A close that touches either span, or lies between them, gives no signal. |
| `TradingCycle.StopLoss` | iDeserve.py:153-158 | The stop-loss is bid - 50·point for a buy and ask + 50·point for a sell. With a positive point, it is below the bid for a buy and above the ask for a sell. |
| `TradingCycle.Decide` | iDeserve.py:150-159 | An order is placed exactly when there is a signal and a quote. It carries the symbol, the signal's side, the cycle's lot and that side's stop-loss. With no signal the symbol is held. The missing-quote error occurs exactly when there is a signal and no quote, and it is the only failure. |
| `TradingCycle.ProcessSymbol` | iDeserve.py:137-161 | A non-Forex symbol is filtered out, and only such a symbol. A Forex symbol without bars does nothing, and an empty bar list raises the empty-array error. A missing-quote failure implies there was no quote. A placed order belongs to a Forex symbol with a quote, carries its name and the cycle's lot, and has the stop-loss for its side. |
| `TradingCycle.BarsCloud` | iDeserve.py:145-148 | The cloud of a non-empty bar list, through the extracted high and low arrays; `ProcessSymbolComputed` states that it is the cloud the symbol's decision uses. |
| `TradingCycle.ProcessSymbolComputed` | iDeserve.py:140-159 | For a Forex symbol with bars, the outcome is the decision on the last bar's close and the cloud of the bars' highs and lows. |
| `TradingCycle.ProcessSymbolDecision` | iDeserve.py:140-159 | For a Forex symbol with bars and a quote, a buy is placed exactly when the last close is above both spans of the bars' cloud. A sell is placed exactly when it is below both. Otherwise the symbol is held. |
| `TradingCycle.ProcessSymbolMissingQuote` | iDeserve.py:150-161 | For a Forex symbol with bars but no quote, the symbol fails with the missing-quote error exactly when the last close is strictly beyond both spans on either side, and is otherwise held. |
| `TradingCycle.OrdersOf` | iDeserve.py:150-159 | The order, if any, one symbol's outcome emits; `PlacedOrdersSnoc` states that each symbol appends exactly this to the cycle's orders. |
| `TradingCycle.PlacedOrders` | iDeserve.py:137-161 | A cycle emits at most one order per symbol. |
| `TradingCycle.PlacedOrdersFromOutcomes` | iDeserve.py:137-161 | Every emitted order is the order of some placed outcome. |
| `TradingCycle.PlacedOrdersConcat` | iDeserve.py:137-161 | The orders of two consecutive runs of symbols are those of the first followed by those of the second. |
| `TradingCycle.PlacedOrdersSnoc` | iDeserve.py:137-161 | Processing one more symbol appends exactly that symbol's order, if it has one. |
| `TradingCycle.SkippedSymbolIsolated` | iDeserve.py:138-161 | A symbol that raised, was held, had no data or was filtered out leaves the orders of all other symbols exactly as if it were not listed. |
| `TradingCycle.OrdersFromForexSymbols` | iDeserve.py:137-159 | Every order of a cycle has the cycle's lot. It comes from a listed Forex symbol with a quote, has that symbol's name, and has the stop-loss for its side from that quote. |
| `TradingCycle.RunCycle` | iDeserve.py:128-161 | One pass sizes the lot from the equity and records exactly one outcome per symbol, in order. Each outcome is what that symbol alone produces, whatever the earlier symbols raised. The orders are the placed ones in symbol order. |

## Left out

- The MetaTrader 5 calls are not modelled: `initialize`, `login`, `shutdown`, `account_info`, `symbols_get`, `copy_rates_from_pos`, `symbol_info`, `symbol_info_tick` and `order_send`. They are a foreign broker API. Their results enter the model as data, in `SymbolData`, and a placed order is an `OrderIntent`.
- The historical-data request is not modelled: the 1-hour timeframe and the count of 100 bars are arguments to the broker. The model takes whatever bars come back, including fewer than 52, or `None` when the fetch raised.
- The order price is not modelled. `place_buy_order` / `place_sell_order` read the price from `symbol_info_tick` and swallow their own errors. The model stops at the arguments those functions receive.
- The quote is read once per symbol. The code calls `symbol_info` twice when computing the stop-loss; the model assumes both calls see the same quote, or both see none.
- Only two failures are modelled inside the per-symbol `try`: an empty bar array, and a missing quote on a trade signal. Any other broker exception would also skip the symbol.
- A failure outside the per-symbol `try` is not modelled. This covers `account_info` returning `None` and `symbols_get` returning `None`. Either raises an exception that only `KeyboardInterrupt` handling surrounds, so the program stops.
- The endless `while True` loop, `time.sleep(3600)`, and logout on `KeyboardInterrupt` are not modelled. The model is one cycle, `RunCycle`.
- Printing, the unused plotting import and the hard-coded credentials are not modelled.
- Floating point is not modelled: prices, equity and lots are exact reals. Rounding of `equity * 0.1 / 10000` and of the midpoints is not captured.
- What the broker does with a zero or negative lot is not modelled. The code does not reject such a lot, and neither does the model; `LotSizeNonPositive` states when it arises.
