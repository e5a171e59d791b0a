/** Position sizing: the order volume is a fixed fraction of equity,
    capped at a maximum lot. */
module LotSizing {

  /** The largest lot the bot ever trades. */
  const MaxLot: real := 0.1

  /** `calculate_lot_size`: `min(0.1, equity * 0.1 / 10000)`. Python's `min`
      keeps its first argument unless the second is strictly smaller. */
  function LotSize(equity: real): (lot: real)
    ensures lot <= MaxLot && lot <= equity / 100000.0
    ensures lot == MaxLot || lot == equity / 100000.0
    ensures equity >= 10000.0 ==> lot == MaxLot
    ensures equity <= 10000.0 ==> lot == equity / 100000.0
  {
    var share := equity * 0.1 / 10000.0;
    if share < MaxLot then share else MaxLot
  }

  /** A richer account never trades a smaller lot. */
  lemma LotSizeMonotone(a: real, b: real)
    requires a <= b
    ensures LotSize(a) <= LotSize(b)
  {
  }

  /** Nothing guards against a non-positive equity: the lot is then non-positive. */
  lemma LotSizeNonPositive(equity: real)
    requires equity <= 0.0
    ensures LotSize(equity) <= 0.0
  {
  }

  /** Equity 50000 hits the cap; equity 500 trades 0.005 lots. */
  lemma LotSizeExamples()
    ensures LotSize(50000.0) == 0.1
    ensures LotSize(500.0) == 0.005
  {
  }
}
