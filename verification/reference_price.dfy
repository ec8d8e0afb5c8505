/** The price 24 hours ago, read off hourly klines, and the 24-hour change
    derived from it. */
module ReferencePrice {
  import opened Wrappers

  /** 24 * 60 * 60 * 1000 milliseconds. */
  const DayMillis: real := 86400000.0

  /** One kline row, reduced to the two fields the lookup reads: the close
      time (index 6) and the close price (index 4). A field that does not
      convert to a finite number is None. */
  datatype Kline = Kline(closeTime: Option<real>, closePrice: Option<real>)

  predicate Usable(k: Kline) {
    k.closeTime.Some? && k.closePrice.Some?
  }

  function Abs(x: real): real {
    if x < 0.0 then -x else x
  }

  /** How far a usable row's close time lies from `target`. */
  function Distance(k: Kline, target: real): real
    requires Usable(k)
  {
    Abs(k.closeTime.value - target)
  }

  /** Among the first `n` rows, row `k` is usable, no usable row is strictly
      nearer to `target`, and every usable row before it is strictly farther. */
  predicate FirstNearestWithin(rows: seq<Kline>, target: real, k: int, n: int)
    requires 0 <= n <= |rows|
  {
    && 0 <= k < n
    && Usable(rows[k])
    && (forall j :: 0 <= j < n && Usable(rows[j]) ==> Distance(rows[k], target) <= Distance(rows[j], target))
    && (forall j :: 0 <= j < k && Usable(rows[j]) ==> Distance(rows[k], target) < Distance(rows[j], target))
  }

  predicate IsFirstNearest(rows: seq<Kline>, target: real, k: int) {
    FirstNearestWithin(rows, target, k, |rows|)
  }

  /** The close price of the row whose close time is nearest to 24 hours
      before `now`; on a tie the earlier row wins. None when no row has both
      a finite close time and a finite close price. */
  method GetReferencePrice24h(rows: seq<Kline>, now: real) returns (r: Option<real>)
    ensures r.None? <==> forall k :: 0 <= k < |rows| ==> !Usable(rows[k])
    ensures r.Some? ==> exists k :: IsFirstNearest(rows, now - DayMillis, k) && rows[k].closePrice == Some(r.value)
  {
    var target := now - DayMillis;
    var bestPrice: Option<real> := None;
    var bestDistance: Option<real> := None;  // None stands for Infinity
    ghost var best := 0;
    for i := 0 to |rows|
      invariant bestPrice.None? <==> bestDistance.None?
      invariant bestPrice.None? <==> forall k :: 0 <= k < i ==> !Usable(rows[k])
      invariant bestPrice.Some? ==> && FirstNearestWithin(rows, target, best, i)
                                    && rows[best].closePrice == bestPrice
                                    && bestDistance == Some(Distance(rows[best], target))
    {
      var row := rows[i];
      if row.closeTime.None? || row.closePrice.None? {
        continue;
      }
      var distance := Abs(row.closeTime.value - target);
      if bestDistance.None? || distance < bestDistance.value {
        bestDistance := Some(distance);
        bestPrice := row.closePrice;
        best := i;
      }
    }
    r := bestPrice;
  }

  /** At most one row is the first nearest, so the reference price is
      determined by the rows and the time alone. */
  lemma FirstNearestUnique(rows: seq<Kline>, target: real, k1: int, k2: int)
    requires IsFirstNearest(rows, target, k1) && IsFirstNearest(rows, target, k2)
    ensures k1 == k2
  {
  }

  /** The 24-hour change in percent: measured from the reference price when
      there is a positive one, otherwise the ticker's own figure. */
  function Change24h(lastPrice: real, reference: Option<real>, tickerPercent: real): (r: real)
    ensures reference.Some? && reference.value > 0.0 ==> (r >= 0.0 <==> lastPrice >= reference.value)
    ensures !(reference.Some? && reference.value > 0.0) ==> r == tickerPercent
  {
    if reference.Some? && reference.value > 0.0 then
      var ref := reference.value;
      ChangeSign(lastPrice, ref);
      (lastPrice - ref) / ref * 100.0
    else tickerPercent
  }

  lemma ChangeSign(lastPrice: real, ref: real)
    requires ref > 0.0
    ensures (lastPrice - ref) / ref * 100.0 >= 0.0 <==> lastPrice >= ref
  {
  }

  /** Applying a reference-based change to the reference price gives back
      the last price. */
  lemma ChangeRoundTrip(lastPrice: real, ref: real, tickerPercent: real)
    requires ref > 0.0
    ensures ref * (1.0 + Change24h(lastPrice, Some(ref), tickerPercent) / 100.0) == lastPrice
  {
  }
}
