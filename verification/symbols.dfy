/** Ticker symbols as the dashboard stores and displays them: an upper-case
    alphanumeric base asset followed by the quote asset `USDT`. */
module Symbols {

  /** The quote asset every tracked pair is priced in. */
  const Quote: string := "USDT"

  /** The characters a cleaned symbol may contain: `A-Z` and `0-9`. */
  predicate IsSymbolChar(c: char) {
    ('A' <= c <= 'Z') || ('0' <= c <= '9')
  }

  predicate AllSymbolChars(s: string) {
    forall i :: 0 <= i < |s| ==> IsSymbolChar(s[i])
  }

  predicate EndsWith(s: string, suffix: string) {
    |suffix| <= |s| && s[|s| - |suffix|..] == suffix
  }

  /** ASCII upper-casing; every other character is left as it is. */
  function ToUpper(c: char): (u: char)
    ensures 'a' <= c <= 'z' ==> 'A' <= u <= 'Z' && u as int == c as int - 32
    ensures !('a' <= c <= 'z') ==> u == c
    ensures IsSymbolChar(u) <==> IsSymbolChar(c) || 'a' <= c <= 'z'
  {
    if 'a' <= c <= 'z' then (c as int - 32) as char else c
  }

  /** Upper-cases `s` and drops every character outside `A-Z0-9`. Surrounding
      whitespace is dropped by the same filter, so trimming needs no step of
      its own. */
  function Clean(s: string): (r: string)
    ensures AllSymbolChars(r)
    ensures |r| <= |s|
    ensures |s| == 1 ==> r == (if IsSymbolChar(ToUpper(s[0])) then [ToUpper(s[0])] else [])
  {
    if |s| == 0 then ""
    else
      var u := ToUpper(s[0]);
      (if IsSymbolChar(u) then [u] else []) + Clean(s[1..])
  }

  /** Cleaning works character by character: it distributes over
      concatenation, so the kept characters stay in their order. */
  lemma {:induction false} CleanConcat(a: string, b: string)
    ensures Clean(a + b) == Clean(a) + Clean(b)
  {
    if |a| == 0 {
      assert a + b == b;
    } else {
      assert (a + b)[0] == a[0];
      assert (a + b)[1..] == a[1..] + b;
      CleanConcat(a[1..], b);
    }
  }

  /** Lower-case input is upper-cased and padding dropped before the quote
      asset is appended. */
  lemma NormalizeLowerCaseExample()
    ensures NormalizeSymbol(" btc ") == "BTCUSDT"
  {
    assert Clean(" ") == "";
    assert Clean("c ") == "C";
    assert Clean("tc ") == "TC";
    assert Clean("btc ") == "BTC";
    assert Clean(" btc ") == "BTC";
  }

  /** A symbol as the tracked list holds it: non-empty, alphanumeric upper
      case, ending in the quote asset. */
  predicate IsNormalized(s: string) {
    s != "" && AllSymbolChars(s) && EndsWith(s, Quote)
  }

  /** Cleans a raw ticker and appends the quote asset when it is missing;
      a raw value with nothing left after cleaning yields "". */
  function NormalizeSymbol(raw: string): (r: string)
    ensures r == "" <==> Clean(raw) == ""
    ensures r != "" ==> IsNormalized(r)
    ensures EndsWith(Clean(raw), Quote) ==> r == Clean(raw)
    ensures Clean(raw) != "" && !EndsWith(Clean(raw), Quote) ==> r == Clean(raw) + Quote
  {
    var cleaned := Clean(raw);
    if cleaned == "" then ""
    else if EndsWith(cleaned, Quote) then cleaned
    else
      var r := cleaned + Quote;
      assert r[|r| - |Quote|..] == Quote;
      r
  }

  /** Cleaning a string that is already alphanumeric upper case changes nothing. */
  lemma {:induction false} CleanFixesSymbolChars(s: string)
    requires AllSymbolChars(s)
    ensures Clean(s) == s
  {
    if |s| > 0 {
      assert ToUpper(s[0]) == s[0];
      assert AllSymbolChars(s[1..]) by {
        forall i | 0 <= i < |s[1..]| ensures IsSymbolChar(s[1..][i]) {
          assert s[1..][i] == s[i + 1];
        }
      }
      CleanFixesSymbolChars(s[1..]);
      assert s == [s[0]] + s[1..];
    }
  }

  /** The normalized symbols are exactly the non-empty fixed points of
      NormalizeSymbol. */
  lemma NormalizedIsFixedPoint(s: string)
    ensures IsNormalized(s) <==> (s != "" && NormalizeSymbol(s) == s)
  {
    if IsNormalized(s) {
      CleanFixesSymbolChars(s);
    }
  }

  /** Normalizing twice is the same as normalizing once. */
  lemma NormalizeIdempotent(raw: string)
    ensures NormalizeSymbol(NormalizeSymbol(raw)) == NormalizeSymbol(raw)
  {
    var n := NormalizeSymbol(raw);
    if n != "" {
      NormalizedIsFixedPoint(n);
    }
  }

  /** Display form of a pair: `XXXUSDT` becomes `XXX/USDT`; a symbol without
      the quote suffix is shown unchanged. */
  function FormatPair(symbol: string): (r: string)
    ensures EndsWith(symbol, Quote) ==> |r| == |symbol| + 1 && EndsWith(r, "/" + Quote)
    ensures EndsWith(symbol, Quote) ==> r[..|symbol| - |Quote|] == symbol[..|symbol| - |Quote|]
    ensures !EndsWith(symbol, Quote) ==> r == symbol
  {
    if EndsWith(symbol, Quote) then
      var r := symbol[..|symbol| - |Quote|] + "/" + Quote;
      assert r[|r| - 5..] == "/" + Quote;
      r
    else symbol
  }

  /** Recovers a symbol from its display form by dropping the slash before
      the quote asset. */
  function PairToSymbol(pair: string): (r: string)
  {
    if EndsWith(pair, "/" + Quote) then pair[..|pair| - 5] + Quote else pair
  }

  /** FormatPair loses no information: every symbol is recovered from its
      display form, whether or not it carries the quote suffix. */
  lemma FormatPairRoundTrip(symbol: string)
    ensures PairToSymbol(FormatPair(symbol)) == symbol
  {
  }
}
