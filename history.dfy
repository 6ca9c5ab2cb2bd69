/** The history table `oi_history.csv`: one row per successful monitoring
    cycle, with the columns timestamp, btc_oi and total_oi. */
module History {

  /** One row of the history. The timestamp is the wall-clock time of the
      cycle that stored the row, as a count of clock ticks. */
  datatype Sample = Sample(timestamp: int, btcOi: real, totalOi: real)

  /** What one successful fetch from the market data source yields. */
  datatype Reading = Reading(btcOi: real, totalOi: real)

  /** The row a cycle appends for a reading taken at time `now`. */
  function ToSample(r: Reading, now: int): Sample
  {
    Sample(now, r.btcOi, r.totalOi)
  }

  /** The column `history['btc_oi']`, in row order. */
  function BtcSeries(h: seq<Sample>): seq<real>
  {
    seq(|h|, i requires 0 <= i < |h| => h[i].btcOi)
  }
}
