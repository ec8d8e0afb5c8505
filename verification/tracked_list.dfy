/** The list of pairs the dashboard tracks: adding from the input box,
    removing from a row's button, and reading back what was saved. */
module TrackedList {
  import opened Symbols

  /** The pairs tracked when nothing usable was saved. */
  const Defaults: seq<string> := ["BTCUSDT", "ETHUSDT", "SOLUSDT"]

  /** Every entry is a normalized symbol. */
  predicate WellFormed(list: seq<string>) {
    forall i :: 0 <= i < |list| ==> IsNormalized(list[i])
  }

  predicate NoDuplicates(list: seq<string>) {
    forall i, j :: 0 <= i < j < |list| ==> list[i] != list[j]
  }

  /** What the add form reports. */
  datatype AddOutcome = Blank | AlreadyTracked | Added

  datatype AddResult = AddResult(symbols: seq<string>, outcome: AddOutcome)

  /** Normalizes the raw input and appends it, unless nothing is left after
      normalizing or the symbol is already tracked; in both of those cases
      the list is unchanged. */
  function AddSymbol(list: seq<string>, raw: string): (r: AddResult)
    ensures r.outcome == Blank <==> NormalizeSymbol(raw) == ""
    ensures r.outcome == AlreadyTracked <==> NormalizeSymbol(raw) != "" && NormalizeSymbol(raw) in list
    ensures r.outcome == Added ==> r.symbols == list + [NormalizeSymbol(raw)]
    ensures r.outcome != Added ==> r.symbols == list
    ensures WellFormed(list) ==> WellFormed(r.symbols)
    ensures NoDuplicates(list) ==> NoDuplicates(r.symbols)
  {
    var symbol := NormalizeSymbol(raw);
    if symbol == "" then AddResult(list, Blank)
    else if symbol in list then AddResult(list, AlreadyTracked)
    else AddResult(list + [symbol], Added)
  }

  /** Adding the same input twice has the effect of adding it once. */
  lemma AddIdempotent(list: seq<string>, raw: string)
    ensures AddSymbol(AddSymbol(list, raw).symbols, raw).symbols == AddSymbol(list, raw).symbols
  {
  }

  /** Drops every occurrence of `symbol`, keeping the other entries in
      order; an empty symbol leaves the list alone. */
  function RemoveSymbol(list: seq<string>, symbol: string): (r: seq<string>)
    ensures symbol == "" ==> r == list
    ensures symbol != "" ==> symbol !in r
    ensures forall x :: x != symbol ==> (x in r <==> x in list)
    ensures |r| <= |list|
    ensures symbol !in list ==> r == list
    ensures WellFormed(list) ==> WellFormed(r)
    ensures NoDuplicates(list) ==> NoDuplicates(r)
  {
    if symbol == "" then list else Filter(list, symbol)
  }

  /** The entries of `list` other than `symbol`, in order. */
  function Filter(list: seq<string>, symbol: string): (r: seq<string>)
    ensures symbol !in r
    ensures forall x :: x != symbol ==> (x in r <==> x in list)
    ensures |r| <= |list|
    ensures symbol !in list ==> r == list
    ensures WellFormed(list) ==> WellFormed(r)
    ensures NoDuplicates(list) ==> NoDuplicates(r)
  {
    if |list| == 0 then []
    else
      var rest := Filter(list[1..], symbol);
      assert forall x :: x in list[1..] ==> x in list;
      if list[0] == symbol then rest
      else
        assert NoDuplicates(list) ==> list[0] !in list[1..];
        [list[0]] + rest
  }

  /** Removal distributes over concatenation: the entries that survive keep
      their relative order. */
  lemma {:induction false} RemoveConcat(a: seq<string>, b: seq<string>, symbol: string)
    ensures RemoveSymbol(a + b, symbol) == RemoveSymbol(a, symbol) + RemoveSymbol(b, symbol)
  {
    if symbol != "" {
      FilterConcat(a, b, symbol);
    }
  }

  lemma {:induction false} FilterConcat(a: seq<string>, b: seq<string>, symbol: string)
    ensures Filter(a + b, symbol) == Filter(a, symbol) + Filter(b, symbol)
  {
    if |a| == 0 {
      assert a + b == b;
    } else {
      assert (a + b)[0] == a[0];
      assert (a + b)[1..] == a[1..] + b;
      FilterConcat(a[1..], b, symbol);
    }
  }

  /** Removing a symbol twice is the same as removing it once. */
  lemma RemoveIdempotent(list: seq<string>, symbol: string)
    ensures RemoveSymbol(RemoveSymbol(list, symbol), symbol) == RemoveSymbol(list, symbol)
  {
  }

  /** Removing a symbol that was just added restores the list. */
  lemma AddThenRemove(list: seq<string>, raw: string)
    requires AddSymbol(list, raw).outcome == Added
    ensures RemoveSymbol(AddSymbol(list, raw).symbols, NormalizeSymbol(raw)) == list
  {
    var symbol := NormalizeSymbol(raw);
    RemoveConcat(list, [symbol], symbol);
  }

  /** A parsed JSON value, as far as loading looks into it. */
  datatype Json = JString(text: string) | JArray(items: seq<Json>) | JOther

  /** What the browser's storage holds under the tracked-list key: nothing
      (or an empty string), text that is not JSON, or a parsed value. */
  datatype Stored = Missing | Unparseable | Parsed(value: Json)

  predicate AllStrings(items: seq<Json>) {
    forall i :: 0 <= i < |items| ==> items[i].JString?
  }

  /** Some saved entry normalizes to `x`. */
  predicate NormalizesTo(items: seq<Json>, x: string)
    requires AllStrings(items)
  {
    exists i :: 0 <= i < |items| && NormalizeSymbol(items[i].text) == x
  }

  lemma NormalizesToCons(items: seq<Json>, x: string)
    requires AllStrings(items) && |items| > 0
    ensures AllStrings(items[1..])
    ensures NormalizesTo(items, x) <==> NormalizeSymbol(items[0].text) == x || NormalizesTo(items[1..], x)
  {
    if NormalizesTo(items, x) {
      var i :| 0 <= i < |items| && NormalizeSymbol(items[i].text) == x;
      if i > 0 {
        assert items[1..][i - 1] == items[i];
      }
    }
    if NormalizesTo(items[1..], x) {
      var i :| 0 <= i < |items[1..]| && NormalizeSymbol(items[1..][i].text) == x;
      assert items[1..][i] == items[i + 1];
    }
  }

  /** Normalizes each saved entry and drops those that normalize to "". */
  function NormalizeAll(items: seq<Json>): (r: seq<string>)
    requires AllStrings(items)
    ensures WellFormed(r)
    ensures |r| <= |items|
    ensures forall x :: x in r <==> x != "" && NormalizesTo(items, x)
    ensures |items| == 1 ==> r == (if NormalizeSymbol(items[0].text) == "" then [] else [NormalizeSymbol(items[0].text)])
  {
    if |items| == 0 then []
    else
      var symbol := NormalizeSymbol(items[0].text);
      var rest := NormalizeAll(items[1..]);
      assert forall x :: NormalizesTo(items, x) <==> symbol == x || NormalizesTo(items[1..], x) by {
        forall x ensures NormalizesTo(items, x) <==> symbol == x || NormalizesTo(items[1..], x) {
          NormalizesToCons(items, x);
        }
      }
      if symbol == "" then rest else [symbol] + rest
  }

  /** Normalizing distributes over concatenation: the loaded entries keep
      the order of the saved ones. */
  lemma {:induction false} NormalizeAllConcat(a: seq<Json>, b: seq<Json>)
    requires AllStrings(a) && AllStrings(b)
    ensures AllStrings(a + b)
    ensures NormalizeAll(a + b) == NormalizeAll(a) + NormalizeAll(b)
  {
    assert AllStrings(a + b) by {
      forall i | 0 <= i < |a + b| ensures (a + b)[i].JString? {
        if i >= |a| {
          assert (a + b)[i] == b[i - |a|];
        }
      }
    }
    if |a| == 0 {
      assert a + b == b;
    } else {
      assert (a + b)[0] == a[0];
      assert (a + b)[1..] == a[1..] + b;
      NormalizeAllConcat(a[1..], b);
    }
  }

  /** Storage holds a non-empty array whose entries are all strings: the
      one case in which the saved entries are used. */
  predicate HoldsSavedList(stored: Stored) {
    stored.Parsed? && stored.value.JArray? && |stored.value.items| > 0 && AllStrings(stored.value.items)
  }

  /** The tracked list at start-up. The defaults are used when nothing was
      stored, when it does not parse, when it is not a non-empty array, and
      when an entry is not a string (normalizing it would throw). */
  function LoadSymbols(stored: Stored): (r: seq<string>)
    ensures WellFormed(r)
    ensures !HoldsSavedList(stored) ==> r == Defaults
    ensures HoldsSavedList(stored) ==> r == NormalizeAll(stored.value.items)
  {
    match stored
    case Missing => Defaults
    case Unparseable => Defaults
    case Parsed(value) =>
      if !value.JArray? || |value.items| == 0 then Defaults
      else if !AllStrings(value.items) then Defaults
      else NormalizeAll(value.items)
  }

  /** The JSON a saved list parses back into. */
  function Encode(list: seq<string>): (j: Json)
    ensures j.JArray? && |j.items| == |list|
    ensures forall i :: 0 <= i < |list| ==> j.items[i] == JString(list[i])
  {
    JArray(seq(|list|, i requires 0 <= i < |list| => JString(list[i])))
  }

  lemma {:induction false} NormalizeAllFixes(list: seq<string>)
    requires WellFormed(list)
    ensures AllStrings(Encode(list).items)
    ensures NormalizeAll(Encode(list).items) == list
  {
    if |list| > 0 {
      NormalizedIsFixedPoint(list[0]);
      assert Encode(list).items[1..] == Encode(list[1..]).items;
      NormalizeAllFixes(list[1..]);
    }
  }

  /** Saving a non-empty well-formed list and loading it back gives the
      same list. */
  lemma SaveLoadRoundTrip(list: seq<string>)
    requires WellFormed(list) && |list| > 0
    ensures LoadSymbols(Parsed(Encode(list))) == list
  {
    NormalizeAllFixes(list);
  }

  /** Saving an empty list does not survive a reload: the defaults come back. */
  lemma EmptySaveRestoresDefaults()
    ensures LoadSymbols(Parsed(Encode([]))) == Defaults
  {
  }
}
