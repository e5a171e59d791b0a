/** Price bars and their projection into parallel close/high/low arrays. */
module Ohlc {
  import opened Basics

  /** One historical bar as the broker returns it (only the fields the bot reads). */
  datatype Bar = Bar(high: real, low: real, close: real)

  type Series = Option<seq<real>>

  /** `extract_ohlc_data`: `None` bars give three `None`s; otherwise three arrays of
      the same length and order as the bars. */
  function ExtractOhlc(bars: Option<seq<Bar>>): (r: (Series, Series, Series))
    ensures bars.None? <==> r.0.None?
    ensures bars.None? ==> r.1.None? && r.2.None?
    ensures bars.Some? ==>
      && r.0.Some? && r.1.Some? && r.2.Some?
      && |r.0.value| == |r.1.value| == |r.2.value| == |bars.value|
      && (forall i :: 0 <= i < |bars.value| ==>
            && r.0.value[i] == bars.value[i].close
            && r.1.value[i] == bars.value[i].high
            && r.2.value[i] == bars.value[i].low)
  {
    match bars
    case None => (None, None, None)
    case Some(b) => (Some(Closes(b)), Some(Highs(b)), Some(Lows(b)))
  }

  function Closes(bars: seq<Bar>): seq<real> {
    seq(|bars|, i requires 0 <= i < |bars| => bars[i].close)
  }

  function Highs(bars: seq<Bar>): seq<real> {
    seq(|bars|, i requires 0 <= i < |bars| => bars[i].high)
  }

  function Lows(bars: seq<Bar>): seq<real> {
    seq(|bars|, i requires 0 <= i < |bars| => bars[i].low)
  }
}
