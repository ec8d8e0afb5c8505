/** The pure part of loading one table row: from a ticker and its hourly
    klines to the figures the row shows. The two HTTP requests are not part
    of this model; their decoded payloads are the inputs. */
module SymbolData {
  import opened Wrappers
  import Symbols
  import Rsi
  import ReferencePrice

  /** The ticker fields the row reads; a symbol the exchange did not echo
      back is the empty string. */
  datatype Ticker = Ticker(symbol: string, lastPrice: real, priceChangePercent: real)

  datatype Row = Row(symbol: string, pairLabel: string, price: real, change24h: real, rsi: Option<real>)

  /** The finite close prices of the klines, oldest first. Unlike the
      reference-price lookup, a row without a usable close time still
      contributes its price here. */
  function ClosePrices(rows: seq<ReferencePrice.Kline>): (r: seq<real>)
    ensures |r| <= |rows|
    ensures (forall k :: 0 <= k < |rows| ==> rows[k].closePrice.Some?) ==> |r| == |rows|
    ensures forall i :: 0 <= i < |r| ==> exists k :: 0 <= k < |rows| && rows[k].closePrice == Some(r[i])
    ensures |rows| == 1 ==> r == (if rows[0].closePrice.Some? then [rows[0].closePrice.value] else [])
  {
    if |rows| == 0 then []
    else
      var rest := ClosePrices(rows[1..]);
      assert forall i :: 0 <= i < |rest| ==> exists k :: 0 <= k < |rows| && rows[k].closePrice == Some(rest[i]) by {
        forall i | 0 <= i < |rest|
          ensures exists k :: 0 <= k < |rows| && rows[k].closePrice == Some(rest[i])
        {
          var k :| 0 <= k < |rows[1..]| && rows[1..][k].closePrice == Some(rest[i]);
          assert rows[k + 1].closePrice == Some(rest[i]);
        }
      }
      match rows[0].closePrice
      case Some(p) => [p] + rest
      case None => rest
  }

  /** Extraction distributes over concatenation: the close prices keep the
      klines' order. */
  lemma {:induction false} ClosePricesConcat(a: seq<ReferencePrice.Kline>, b: seq<ReferencePrice.Kline>)
    ensures ClosePrices(a + b) == ClosePrices(a) + ClosePrices(b)
  {
    if |a| == 0 {
      assert a + b == b;
    } else {
      assert (a + b)[0] == a[0];
      assert (a + b)[1..] == a[1..] + b;
      ClosePricesConcat(a[1..], b);
    }
  }

  /** Builds the row for one pair. Fails when the ticker carries no symbol.
      The RSI uses the default window over the finite closes; the change
      prefers the kline nearest to 24 hours before `now`. */
  method FetchSymbolData(ticker: Ticker, klines: seq<ReferencePrice.Kline>, now: real) returns (r: Option<Row>)
    ensures r.None? <==> ticker.symbol == ""
    ensures r.Some? ==> r.value.symbol == ticker.symbol && r.value.price == ticker.lastPrice
    ensures r.Some? ==> r.value.pairLabel == Symbols.FormatPair(ticker.symbol)
    ensures r.Some? ==> (r.value.rsi.None? <==> |ClosePrices(klines)| <= Rsi.DefaultPeriod)
    ensures r.Some? ==> r.value.rsi == Rsi.CalculateRsi(ClosePrices(klines), Rsi.DefaultPeriod)
    ensures r.Some? && (forall k :: 0 <= k < |klines| ==> !ReferencePrice.Usable(klines[k]))
            ==> r.value.change24h == ticker.priceChangePercent
    ensures r.Some? ==>
              forall k :: ReferencePrice.IsFirstNearest(klines, now - ReferencePrice.DayMillis, k) ==>
                r.value.change24h == ReferencePrice.Change24h(ticker.lastPrice, klines[k].closePrice, ticker.priceChangePercent)
  {
    if ticker.symbol == "" {
      return None;
    }
    var closePrices := ClosePrices(klines);
    var reference := ReferencePrice.GetReferencePrice24h(klines, now);
    forall k | ReferencePrice.IsFirstNearest(klines, now - ReferencePrice.DayMillis, k)
      ensures reference == klines[k].closePrice
    {
      var j :| ReferencePrice.IsFirstNearest(klines, now - ReferencePrice.DayMillis, j)
               && klines[j].closePrice == Some(reference.value);
      ReferencePrice.FirstNearestUnique(klines, now - ReferencePrice.DayMillis, j, k);
    }
    var change := ReferencePrice.Change24h(ticker.lastPrice, reference, ticker.priceChangePercent);
    var rsi := Rsi.CalculateRsiLoop(closePrices, Rsi.DefaultPeriod);
    return Some(Row(ticker.symbol, Symbols.FormatPair(ticker.symbol), ticker.lastPrice, change, rsi));
  }
}
