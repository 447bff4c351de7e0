/**
 * The fixed-currency rate tool: the same fetcher as the configurable one without a
 * currency list, and a printer that always writes a USD and then an EUR line.
 */
module UsdEurTool {
  import opened Wrappers
  import opened Errors
  import opened Rates
  import RateTool

  /** The pair this printer hard-codes, in the order it prints them. */
  const UsdEur := ["USD", "EUR"]

  /** A `CurrencyRateFetcher` after `__init__`. */
  datatype Fetcher = Fetcher(days: int) {

    /** `fetch_rates`: the sheets for offsets 0 .. days-1 in that order, or a failure raised. */
    method FetchRates(dateOf: nat -> string, provider: string -> FetchOutcome)
      returns (queries: seq<string>, r: Result<seq<RateSheet>, Error>)
      ensures |queries| == Clamp(days)
      ensures forall i :: 0 <= i < |queries| ==> queries[i] == dateOf(i)
      ensures r.Ok? <==> forall i :: 0 <= i < |queries| ==> provider(queries[i]).Fetched?
      ensures r.Ok? ==> |r.value| == |queries|
      ensures r.Ok? ==> forall i :: 0 <= i < |queries| ==> provider(queries[i]) == Fetched(r.value[i])
      ensures r.Err? ==> exists i :: 0 <= i < |queries| && provider(queries[i]).Failed? && r.error == FetchFailed(queries[i])
    {
      queries, r := FetchAll(days, dateOf, provider);
    }
  }

  /** `CurrencyRateFetcher(days)`: raises ValueError above 10 days, else stores `days` unchanged. */
  function NewFetcher(days: int): (r: Result<Fetcher, Error>)
    ensures r.Ok? <==> days <= RateTool.MaxDays
    ensures r.Ok? ==> r.value.days == days
    ensures r.Err? ==> r.error == DaysOverLimit
  {
    if days > RateTool.MaxDays then Err(DaysOverLimit) else Ok(Fetcher(days))
  }

  /**
   * The printout of the general printer for the pair USD, EUR has four lines per sheet:
   * the date line, the USD line, the EUR line and a blank line.
   */
  lemma UsdEurLayout(rates: seq<RateSheet>)
    ensures |RateTool.Printout(rates, UsdEur)| == 4 * |rates|
    ensures forall k :: 0 <= k < |rates| ==>
      && RateTool.Printout(rates, UsdEur)[4 * k] == DateLine(rates[k])
      && RateTool.Printout(rates, UsdEur)[4 * k + 1] == PrinterLine("USD", Entries(rates[k]))
      && RateTool.Printout(rates, UsdEur)[4 * k + 2] == PrinterLine("EUR", Entries(rates[k]))
      && RateTool.Printout(rates, UsdEur)[4 * k + 3] == ""
  {
    assert |UsdEur| + 2 == 4;
    RateTool.PrintoutLength(rates, UsdEur);
    forall k | 0 <= k < |rates|
      ensures RateTool.Printout(rates, UsdEur)[4 * k] == DateLine(rates[k])
      ensures RateTool.Printout(rates, UsdEur)[4 * k + 1] == PrinterLine("USD", Entries(rates[k]))
      ensures RateTool.Printout(rates, UsdEur)[4 * k + 2] == PrinterLine("EUR", Entries(rates[k]))
      ensures RateTool.Printout(rates, UsdEur)[4 * k + 3] == ""
    {
      RateTool.SheetLinesAt(rates[k], UsdEur);
      RateTool.PrintoutAt(rates, UsdEur, k, 0);
      RateTool.PrintoutAt(rates, UsdEur, k, 1);
      RateTool.PrintoutAt(rates, UsdEur, k, 2);
      RateTool.PrintoutAt(rates, UsdEur, k, 3);
    }
  }

  /** The literal texts this printer writes are the general printer's no-data lines. */
  lemma NoDataLiterals()
    ensures "USD: No data available" == "USD" + ": No data available"
    ensures "EUR: No data available" == "EUR" + ": No data available"
  {
    var u, e := "USD: No data available", "EUR: No data available";
    assert forall i :: 0 <= i < |u| ==> u[i] == ("USD" + ": No data available")[i];
    assert forall i :: 0 <= i < |e| ==> e[i] == ("EUR" + ": No data available")[i];
  }

  /**
   * `CurrencyRatePrinter.print_rates`: per sheet, in input order, the four lines of
   * `PrintSheet`. The output is the general printer's for the currency list USD, EUR.
   */
  method PrintRates(rates: seq<RateSheet>) returns (lines: seq<string>)
    ensures lines == RateTool.Printout(rates, UsdEur)
    ensures |lines| == 4 * |rates|
    ensures forall k :: 0 <= k < |rates| ==>
      && lines[4 * k] == DateLine(rates[k])
      && lines[4 * k + 1] == PrinterLine("USD", Entries(rates[k]))
      && lines[4 * k + 2] == PrinterLine("EUR", Entries(rates[k]))
      && lines[4 * k + 3] == ""
  {
    lines := [];
    for k := 0 to |rates|
      invariant lines == RateTool.Printout(rates[..k], UsdEur)
    {
      var block := PrintSheet(rates[k]);
      lines := lines + block;
      RateTool.PrintoutSnoc(rates, UsdEur, k);
    }
    assert rates[..|rates|] == rates;
    UsdEurLayout(rates);
  }

  /** For the pair USD, EUR the general printer writes four lines per sheet. */
  lemma UsdEurSheet(rate: RateSheet)
    ensures RateTool.SheetLines(rate, UsdEur)
      == [DateLine(rate), PrinterLine("USD", Entries(rate)), PrinterLine("EUR", Entries(rate)), ""]
  {
    RateTool.SheetLinesAt(rate, UsdEur);
    assert UsdEur[0] == "USD" && UsdEur[1] == "EUR";
  }

  /**
   * The body of the loop of `print_rates` for one sheet: look up the first USD and the
   * first EUR entry, then print the date, USD, EUR and a blank line.
   */
  method PrintSheet(rate: RateSheet) returns (block: seq<string>)
    ensures block == RateTool.SheetLines(rate, UsdEur)
  {
    var exchangeRate := Entries(rate);
    var usdRate := FirstMatch(exchangeRate, "USD");
    var eurRate := FirstMatch(exchangeRate, "EUR");
    var usdLine, eurLine;
    if usdRate.Some? {
      usdLine := RateLine("USD", exchangeRate[usdRate.value]);
    } else {
      usdLine := "USD: No data available";
      NoDataLiterals();
    }
    if eurRate.Some? {
      eurLine := RateLine("EUR", exchangeRate[eurRate.value]);
    } else {
      eurLine := "EUR: No data available";
      NoDataLiterals();
    }
    block := [DateLine(rate), usdLine, eurLine, ""];
    UsdEurSheet(rate);
  }
}
