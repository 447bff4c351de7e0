/**
 * The configurable rate tool: a fetcher for up to 10 days of sheets and a printer that
 * writes, per sheet, a date line, one line per requested currency and a blank line.
 * Printed output is modelled as the sequence of lines `print` would write.
 */
module RateTool {
  import opened Wrappers
  import opened Errors
  import opened Rates

  const MaxDays := 10

  /** A `CurrencyRateFetcher` after `__init__`; its fields are never reassigned. */
  datatype Fetcher = Fetcher(days: int, currencies: seq<string>) {

    /** `fetch_rates`: the sheets for offsets 0 .. days-1 in that order, or the first failure raised. */
    method FetchRates(dateOf: nat -> string, provider: string -> FetchOutcome)
      returns (queries: seq<string>, r: Result<seq<RateSheet>, Error>)
      ensures |queries| == Clamp(days)
      ensures forall i :: 0 <= i < |queries| ==> queries[i] == dateOf(i)
      ensures r.Ok? <==> forall i :: 0 <= i < |queries| ==> provider(queries[i]).Fetched?
      ensures r.Ok? ==> |r.value| == |queries|
      ensures r.Ok? ==> forall i :: 0 <= i < |queries| ==> provider(queries[i]) == Fetched(r.value[i])
      ensures r.Err? ==> exists i :: 0 <= i < |queries| && provider(queries[i]).Failed? && r.error == FetchFailed(queries[i])
    {
      queries, r := FetchAll(days, dateOf, provider);
    }
  }

  /** `CurrencyRateFetcher(days, currencies)`: raises ValueError above 10 days, else stores both unchanged. */
  function NewFetcher(days: int, currencies: seq<string>): (r: Result<Fetcher, Error>)
    ensures r.Ok? <==> days <= MaxDays
    ensures r.Ok? ==> r.value.days == days && r.value.currencies == currencies
    ensures r.Err? ==> r.error == DaysOverLimit
  {
    if days > MaxDays then Err(DaysOverLimit) else Ok(Fetcher(days, currencies))
  }

  /** The currency lines of one sheet, in the order the currencies are given. */
  function CurrencyLines(sheet: RateSheet, currencies: seq<string>): (r: seq<string>)
    ensures |r| == |currencies|
  {
    if currencies == [] then []
    else
      var n := |currencies| - 1;
      CurrencyLines(sheet, currencies[..n]) + [PrinterLine(currencies[n], Entries(sheet))]
  }

  /** What `print_rates` writes for one sheet. */
  function SheetLines(sheet: RateSheet, currencies: seq<string>): (r: seq<string>)
    ensures |r| == |currencies| + 2
  {
    [DateLine(sheet)] + CurrencyLines(sheet, currencies) + [""]
  }

  lemma {:induction false} CurrencyLinesAt(sheet: RateSheet, currencies: seq<string>)
    ensures |CurrencyLines(sheet, currencies)| == |currencies|
    ensures forall j :: 0 <= j < |currencies| ==> CurrencyLines(sheet, currencies)[j] == PrinterLine(currencies[j], Entries(sheet))
  {
    if currencies != [] {
      CurrencyLinesAt(sheet, currencies[..|currencies| - 1]);
    }
  }

  /**
   * One sheet prints `2 + |currencies|` lines: the date line (`N/A` without a date),
   * one line per currency in the given order, and a blank line.
   */
  lemma SheetLinesAt(sheet: RateSheet, currencies: seq<string>)
    ensures |SheetLines(sheet, currencies)| == |currencies| + 2
    ensures SheetLines(sheet, currencies)[0] == DateLine(sheet)
    ensures SheetLines(sheet, currencies)[|currencies| + 1] == ""
    ensures forall j :: 0 <= j < |currencies| ==> SheetLines(sheet, currencies)[j + 1] == PrinterLine(currencies[j], Entries(sheet))
  {
    CurrencyLinesAt(sheet, currencies);
  }

  /** What `print_rates` writes for all sheets, in input order. */
  function Printout(rates: seq<RateSheet>, currencies: seq<string>): seq<string>
  {
    if rates == [] then []
    else Printout(rates[..|rates| - 1], currencies) + SheetLines(rates[|rates| - 1], currencies)
  }

  /** `CurrencyRatePrinter.print_rates`: the outer loop, over the sheets in input order. */
  method PrintRates(rates: seq<RateSheet>, currencies: seq<string>) returns (lines: seq<string>)
    ensures lines == Printout(rates, currencies)
  {
    lines := [];
    for k := 0 to |rates|
      invariant lines == Printout(rates[..k], currencies)
    {
      var block := PrintSheet(rates[k], currencies);
      lines := lines + block;
      PrintoutSnoc(rates, currencies, k);
    }
    assert rates[..|rates|] == rates;
  }

  /**
   * The body of the outer loop of `print_rates` for one sheet: the date line, then the
   * inner loop over the requested currencies, then the blank line.
   */
  method PrintSheet(rate: RateSheet, currencies: seq<string>) returns (block: seq<string>)
    ensures block == SheetLines(rate, currencies)
  {
    var exchangeRate := Entries(rate);
    block := [DateLine(rate)];
    for j := 0 to |currencies|
      invariant |block| == j + 1 && block[0] == DateLine(rate)
      invariant forall i :: 0 <= i < j ==> block[i + 1] == PrinterLine(currencies[i], exchangeRate)
    {
      block := block + [PrinterLine(currencies[j], exchangeRate)];
    }
    block := block + [""];
    SheetLinesAt(rate, currencies);
    forall i | 1 <= i <= |currencies|
      ensures block[i] == SheetLines(rate, currencies)[i]
    {
      assert block[(i - 1) + 1] == PrinterLine(currencies[i - 1], exchangeRate);
    }
  }

  lemma PrintoutSnoc(rates: seq<RateSheet>, currencies: seq<string>, k: nat)
    requires k < |rates|
    ensures Printout(rates[..k + 1], currencies) == Printout(rates[..k], currencies) + SheetLines(rates[k], currencies)
  {
    assert rates[..k + 1][..k] == rates[..k];
  }

  /** Every sheet contributes exactly `2 + |currencies|` lines. */
  lemma {:induction false} PrintoutLength(rates: seq<RateSheet>, currencies: seq<string>)
    ensures |Printout(rates, currencies)| == |rates| * (|currencies| + 2)
  {
    if rates != [] {
      var w := |currencies| + 2;
      var n := |rates|;
      PrintoutLength(rates[..n - 1], currencies);
      SheetLinesAt(rates[n - 1], currencies);
      MulSucc(n - 1, w);
    }
  }

  /**
   * The lines of sheet `k` sit at positions `k * (|currencies| + 2)` onwards: its date
   * line, then its currency lines in the given order, then the blank line.
   */
  lemma {:induction false} PrintoutAt(rates: seq<RateSheet>, currencies: seq<string>, k: nat, j: nat)
    requires k < |rates| && j < |currencies| + 2
    ensures k * (|currencies| + 2) + j < |Printout(rates, currencies)|
    ensures Printout(rates, currencies)[k * (|currencies| + 2) + j] == SheetLines(rates[k], currencies)[j]
  {
    var w := |currencies| + 2;
    var n := |rates|;
    var front := rates[..n - 1];
    PrintoutLength(front, currencies);
    SheetLinesAt(rates[n - 1], currencies);
    assert |Printout(front, currencies)| == (n - 1) * w;
    assert Printout(rates, currencies) == Printout(front, currencies) + SheetLines(rates[n - 1], currencies);
    if k == n - 1 {
      assert k * w + j == |Printout(front, currencies)| + j;
    } else {
      PrintoutAt(front, currencies, k, j);
      assert front[k] == rates[k];
      MulMonotone(k + 1, n - 1, w);
      assert k * w + j < (k + 1) * w;
    }
  }

  lemma MulSucc(a: nat, w: nat)
    ensures (a + 1) * w == a * w + w
  {
  }

  lemma {:induction false} MulMonotone(a: nat, b: nat, w: nat)
    requires a <= b
    ensures a * w <= b * w
    decreases b - a
  {
    if a < b {
      MulMonotone(a + 1, b, w);
      MulSucc(a, w);
    }
  }

  /** A sheet without an `exchangeRate` key prints the no-data line for every currency. */
  lemma MissingListMeansNoData(sheet: RateSheet, currencies: seq<string>)
    requires sheet.exchangeRate.None?
    ensures forall j :: 0 <= j < |currencies| ==> SheetLines(sheet, currencies)[j + 1] == currencies[j] + ": No data available"
  {
    SheetLinesAt(sheet, currencies);
  }
}
