/**
 * The records the exchange-rate API returns, the first-match lookup every tool does over
 * them, the line formats the two printers share, and the per-offset fetch loop the two
 * fetchers share. Rates are opaque strings; the JSON decoding is not modelled.
 */
module Rates {
  import opened Wrappers
  import opened Errors

  /** One item of a sheet's `exchangeRate` list. */
  datatype RateEntry = RateEntry(currency: string, purchaseRate: string, saleRate: string)

  /** The decoded body of one API answer; either key may be absent from the JSON. */
  datatype RateSheet = RateSheet(date: Option<string>, exchangeRate: Option<seq<RateEntry>>)

  /** One HTTP query: status 200 with its body, or any other status. */
  datatype FetchOutcome = Fetched(sheet: RateSheet) | Failed

  /** The sheet's `exchangeRate` list, empty when the key is missing. */
  function Entries(sheet: RateSheet): seq<RateEntry>
  {
    if sheet.exchangeRate.Some? then sheet.exchangeRate.value else []
  }

  /**
   * The first entry of `entries` whose currency is `cur`, as an index, or None when no
   * entry has that currency.
   */
  function FirstMatch(entries: seq<RateEntry>, cur: string): (r: Option<nat>)
    ensures r.Some? ==> r.value < |entries| && entries[r.value].currency == cur
    ensures r.Some? ==> forall j :: 0 <= j < r.value ==> entries[j].currency != cur
    ensures r.None? <==> forall j :: 0 <= j < |entries| ==> entries[j].currency != cur
  {
    if entries == [] then None
    else if entries[0].currency == cur then Some(0)
    else match FirstMatch(entries[1..], cur)
      case None => None
      case Some(k) => Some(k + 1)
  }

  /** Whichever index is the first match, it is the one `FirstMatch` finds. */
  lemma FirstMatchIsTheFirst(entries: seq<RateEntry>, cur: string)
    ensures forall i :: 0 <= i < |entries| && entries[i].currency == cur
                        && (forall j :: 0 <= j < i ==> entries[j].currency != cur)
                        ==> FirstMatch(entries, cur) == Some(i)
  {
    forall i | 0 <= i < |entries| && entries[i].currency == cur && (forall j :: 0 <= j < i ==> entries[j].currency != cur)
      ensures FirstMatch(entries, cur) == Some(i)
    {
      var k := FirstMatch(entries, cur).value;
      assert !(k < i) && !(i < k);
    }
  }

  /** The line for one entry: the currency, then its purchase and its sale rate. */
  function RateLine(cur: string, e: RateEntry): string
  {
    cur + ": Buy - " + e.purchaseRate + ", Sell - " + e.saleRate
  }

  /** The printers' line for one currency. */
  function PrinterLine(cur: string, entries: seq<RateEntry>): string
  {
    match FirstMatch(entries, cur)
    case Some(i) => RateLine(cur, entries[i])
    case None => cur + ": No data available"
  }

  /** The printers' line renders the first entry of the currency, or says there is none. */
  lemma PrinterLineUsesFirstMatch(cur: string, entries: seq<RateEntry>)
    ensures (forall j :: 0 <= j < |entries| ==> entries[j].currency != cur) ==> PrinterLine(cur, entries) == cur + ": No data available"
    ensures forall i :: 0 <= i < |entries| && entries[i].currency == cur
                        && (forall j :: 0 <= j < i ==> entries[j].currency != cur)
                        ==> PrinterLine(cur, entries) == RateLine(cur, entries[i])
  {
    FirstMatchIsTheFirst(entries, cur);
  }

  /** A rate line and a no-data line for the same currency can always be told apart. */
  lemma RateLineIsNotNoData(cur: string, e: RateEntry)
    ensures RateLine(cur, e) != cur + ": No data available"
  {
    var k := |cur| + 2;
    assert RateLine(cur, e)[k] == 'B';
    assert (cur + ": No data available")[k] == 'N';
  }

  /** The printers' date line; `N/A` stands in for a missing `date` key. */
  function DateLine(sheet: RateSheet): string
  {
    "Date: " + (if sheet.date.Some? then sheet.date.value else "N/A")
  }

  /** `sep.join(parts)`. */
  function Join(sep: string, parts: seq<string>): string
  {
    if |parts| == 0 then ""
    else if |parts| == 1 then parts[0]
    else parts[0] + sep + Join(sep, parts[1..])
  }

  /** Appending a part appends the separator and the part, unless the list was empty. */
  lemma {:induction false} JoinSnoc(sep: string, parts: seq<string>, p: string)
    ensures Join(sep, parts + [p]) == if parts == [] then p else Join(sep, parts) + sep + p
  {
    if |parts| >= 2 {
      assert (parts + [p])[1..] == parts[1..] + [p];
      JoinSnoc(sep, parts[1..], p);
    } else if |parts| == 1 {
      assert (parts + [p])[1..] == [p];
    }
  }

  /** `range(days)` has this many elements. */
  function Clamp(days: int): nat
  {
    if days < 0 then 0 else days
  }

  /**
   * `CurrencyRateFetcher.fetch_rates`: one query (a date) per offset in `range(days)`,
   * then `gather` of the calls to `fetch_rate`, which raises for a non-200 status.
   * `dateOf(i)` stands for the formatted calendar date `i` days before now. The
   * `queries` out-parameter is the list of dates the tasks were created for.
   */
  method FetchAll(days: int, dateOf: nat -> string, provider: string -> FetchOutcome)
    returns (queries: seq<string>, r: Result<seq<RateSheet>, Error>)
    ensures |queries| == Clamp(days)
    ensures forall i :: 0 <= i < |queries| ==> queries[i] == dateOf(i)
    ensures r.Ok? <==> forall i :: 0 <= i < |queries| ==> provider(queries[i]).Fetched?
    ensures r.Ok? ==> |r.value| == |queries|
    ensures r.Ok? ==> forall i :: 0 <= i < |queries| ==> provider(queries[i]) == Fetched(r.value[i])
    ensures r.Err? ==> exists i :: 0 <= i < |queries| && provider(queries[i]).Failed? && r.error == FetchFailed(queries[i])
  {
    queries := [];
    var n := Clamp(days);
    for i := 0 to n
      invariant |queries| == i
      invariant forall k :: 0 <= k < i ==> queries[k] == dateOf(k)
    {
      queries := queries + [dateOf(i)];
    }
    var sheets: seq<RateSheet> := [];
    var failure: Option<nat> := None;
    for i := 0 to n
      invariant failure.None? ==> |sheets| == i
      invariant failure.None? ==> forall k :: 0 <= k < i ==> provider(queries[k]) == Fetched(sheets[k])
      invariant failure.Some? ==> failure.value < n && provider(queries[failure.value]).Failed?
    {
      var outcome := provider(queries[i]);
      if outcome.Failed? {
        if failure.None? {
          failure := Some(i);
        }
      } else if failure.None? {
        sheets := sheets + [outcome.sheet];
      }
    }
    if failure.Some? {
      r := Err(FetchFailed(queries[failure.value]));
    } else {
      r := Ok(sheets);
    }
  }
}
