/**
 * The portfolio controller: totals over the user's holdings.
 *
 * The quote service is a partial price function `quote`: `Some(p)` is the
 * price it returns for a symbol, `None` stands for a lookup that throws, in
 * which case the holding is valued at its stored `currentPrice`, or at its
 * `purchasePrice` when `currentPrice` is null (the `||` fallback).
 * Money is exact; the `toFixed(2)` formatting of the responses is not modelled.
 */
module Portfolio {
  import opened Outcomes
  import opened Ledger

  /** The running `reduce` of `getNetInvestment`: the sum of `totalInvested`, added front to back. */
  function SumInvested(rows: seq<Investment>): real
  {
    if rows == [] then 0.0 else SumInvested(rows[..|rows| - 1]) + rows[|rows| - 1].totalInvested
  }

  lemma {:induction false} SumInvestedAppend(a: seq<Investment>, b: seq<Investment>)
    ensures SumInvested(a + b) == SumInvested(a) + SumInvested(b)
    decreases |b|
  {
    if b != [] {
      assert (a + b)[..|a + b| - 1] == a + b[..|b| - 1];
      SumInvestedAppend(a, b[..|b| - 1]);
    } else {
      assert a + b == a;
    }
  }

  /** Removing one row takes exactly its `totalInvested` off the sum. */
  lemma {:induction false} SumInvestedRemove(rows: seq<Investment>, i: nat)
    requires i < |rows|
    ensures SumInvested(rows) == SumInvested(rows[..i] + rows[i + 1..]) + rows[i].totalInvested
  {
    assert rows == rows[..i] + [rows[i]] + rows[i + 1..];
    SumInvestedAppend(rows[..i] + [rows[i]], rows[i + 1..]);
    SumInvestedAppend(rows[..i], [rows[i]]);
    assert [rows[i]][..0] == [];
    SumInvestedAppend(rows[..i], rows[i + 1..]);
  }

  /** The sum does not depend on the order in which the database returns the rows. */
  lemma {:induction false} SumInvestedPermutation(a: seq<Investment>, b: seq<Investment>)
    requires multiset(a) == multiset(b)
    ensures SumInvested(a) == SumInvested(b)
    decreases |a|
  {
    if a != [] {
      var last := a[|a| - 1];
      assert a == a[..|a| - 1] + [last];
      assert last in multiset(b);
      var i :| 0 <= i < |b| && b[i] == last;
      assert b == b[..i] + [b[i]] + b[i + 1..];
      assert multiset(a) == multiset(a[..|a| - 1]) + multiset{last};
      assert multiset(b) == multiset(b[..i]) + multiset{last} + multiset(b[i + 1..]);
      calc {
        multiset(a[..|a| - 1]);
        multiset(a) - multiset{last};
        multiset(b[..i]) + multiset(b[i + 1..]);
        multiset(b[..i] + b[i + 1..]);
      }
      SumInvestedPermutation(a[..|a| - 1], b[..i] + b[i + 1..]);
      SumInvestedRemove(b, i);
    } else {
      assert |b| == |multiset(b)| == 0;
    }
  }

  /** When every holding has a positive cost basis, the net investment is positive exactly when there is a holding. */
  lemma {:induction false} SumInvestedPositive(rows: seq<Investment>)
    requires forall i :: 0 <= i < |rows| ==> rows[i].totalInvested > 0.0
    ensures SumInvested(rows) >= 0.0
    ensures SumInvested(rows) > 0.0 <==> rows != []
  {
    if rows != [] {
      SumInvestedPositive(rows[..|rows| - 1]);
    }
  }

  /** The body of `getNetInvestment`'s response. */
  datatype NetInvestmentReport = NetInvestmentReport(netInvestment: real, totalInvestments: nat)

  /** `getNetInvestment`: the net investment and the number of holdings. */
  function NetInvestment(rows: seq<Investment>): NetInvestmentReport
  {
    NetInvestmentReport(SumInvested(rows), |rows|)
  }

  // ---------------------------------------------------------------------------
  // Valuation
  // ---------------------------------------------------------------------------

  /**
   * The price used when the quote lookup fails: `currentPrice || purchasePrice`.
   * The DECIMAL column reaches the code as a string, and any stored string
   * (even "0.00") is truthy, so only a null current price falls back.
   */
  function FallbackPrice(h: Investment): (p: real)
    ensures h.currentPrice.Some? ==> p == h.currentPrice.value
    ensures h.currentPrice.None? ==> p == h.purchasePrice
  {
    match h.currentPrice
    case Some(c) => c
    case None => h.purchasePrice
  }

  /** The value of one holding: quoted price, else the fallback price, times the share count. */
  function Value(h: Investment, quote: string -> Option<real>): real
  {
    match quote(h.symbol)
    case Some(p) => p * h.quantity as real
    case None => FallbackPrice(h) * h.quantity as real
  }

  /** The running `currentValue` of the loops, added front to back. */
  function CurrentValue(rows: seq<Investment>, quote: string -> Option<real>): real
  {
    if rows == [] then 0.0 else CurrentValue(rows[..|rows| - 1], quote) + Value(rows[|rows| - 1], quote)
  }

  /** A quote source that fails for every symbol. */
  function NoQuote(symbol: string): Option<real>
  {
    None
  }

  /**
   * With no quote and no stored current price, a consistent holding is worth
   * exactly what was paid for it, so the portfolio's value equals its cost.
   */
  lemma {:induction false} ValueAtCost(rows: seq<Investment>)
    requires forall i :: 0 <= i < |rows| ==>
               rows[i].currentPrice.None? && rows[i].totalInvested == rows[i].quantity as real * rows[i].purchasePrice
    ensures CurrentValue(rows, NoQuote) == SumInvested(rows)
  {
    if rows != [] {
      ValueAtCost(rows[..|rows| - 1]);
    }
  }

  // ---------------------------------------------------------------------------
  // getCashFlow
  // ---------------------------------------------------------------------------

  /**
   * `getCashFlow`: `inflow` is the current value of the holdings, `outflow`
   * what was invested in them, `netCashFlow` their difference.
   */
  method CashFlow(rows: seq<Investment>, quote: string -> Option<real>)
    returns (inflow: real, outflow: real, netCashFlow: real)
    ensures inflow == CurrentValue(rows, quote)
    ensures outflow == NetInvestment(rows).netInvestment
    ensures netCashFlow == inflow - outflow
    ensures rows == [] ==> inflow == 0.0 && outflow == 0.0 && netCashFlow == 0.0
  {
    var totalInvested := 0.0;
    var currentValue := 0.0;
    for i := 0 to |rows|
      invariant totalInvested == SumInvested(rows[..i])
      invariant currentValue == CurrentValue(rows[..i], quote)
    {
      assert rows[..i + 1][..i] == rows[..i];
      var investment := rows[i];
      totalInvested := totalInvested + investment.totalInvested;
      match quote(investment.symbol) {
        case Some(price) =>
          currentValue := currentValue + price * investment.quantity as real;
        case None =>
          currentValue := currentValue + FallbackPrice(investment) * investment.quantity as real;
      }
    }
    assert rows[..|rows|] == rows;
    inflow, outflow, netCashFlow := currentValue, totalInvested, currentValue - totalInvested;
  }

  // ---------------------------------------------------------------------------
  // getPortfolioDetails
  // ---------------------------------------------------------------------------

  /** The body of `getPortfolioDetails`'s response. */
  datatype Details = Details(
    totalValue: real,
    totalInvestments: nat,
    totalInvested: real,
    totalReturn: real,
    returnPercentage: real)

  /** The return as a percentage of the amount invested, 0 when nothing is invested. */
  function ReturnPercentage(totalInvested: real, totalReturn: real): (r: real)
    ensures totalInvested <= 0.0 ==> r == 0.0
    ensures totalInvested > 0.0 ==> r * totalInvested == totalReturn * 100.0
    ensures totalInvested > 0.0 ==> (r > 0.0 <==> totalReturn > 0.0) && (r < 0.0 <==> totalReturn < 0.0)
  {
    if totalInvested > 0.0 then totalReturn / totalInvested * 100.0 else 0.0
  }

  /** A holding after the quote step: a successful quote is written into `currentPrice`. */
  function Refresh(h: Investment, quote: string -> Option<real>): (h': Investment)
  {
    match quote(h.symbol)
    case Some(p) => h.(currentPrice := Some(p))
    case None => h
  }

  /** Every row refreshed, in place. */
  function Refreshed(rows: seq<Investment>, quote: string -> Option<real>): (r: seq<Investment>)
    ensures |r| == |rows|
    ensures forall i :: 0 <= i < |rows| ==> r[i] == Refresh(rows[i], quote)
  {
    if rows == [] then [] else Refreshed(rows[..|rows| - 1], quote) + [Refresh(rows[|rows| - 1], quote)]
  }

  /** Refreshing touches only `currentPrice`: symbols, share counts and costs stay. */
  lemma {:induction false} RefreshedKeepsInvested(rows: seq<Investment>, quote: string -> Option<real>)
    ensures SumInvested(Refreshed(rows, quote)) == SumInvested(rows)
  {
    if rows != [] {
      var r := Refreshed(rows, quote);
      assert r[..|r| - 1] == Refreshed(rows[..|rows| - 1], quote);
      RefreshedKeepsInvested(rows[..|rows| - 1], quote);
    }
  }

  /**
   * The prices written back reproduce the valuation: if every quote is
   * positive, a later request whose quotes all fail values the refreshed
   * rows exactly as this request valued the original ones.
   */
  lemma {:induction false} RefreshedValuation(rows: seq<Investment>, quote: string -> Option<real>)
    requires forall i :: 0 <= i < |rows| ==> quote(rows[i].symbol).Some? ==> quote(rows[i].symbol).value > 0.0
    ensures CurrentValue(Refreshed(rows, quote), NoQuote) == CurrentValue(rows, quote)
  {
    if rows != [] {
      var r := Refreshed(rows, quote);
      assert r[..|r| - 1] == Refreshed(rows[..|rows| - 1], quote);
      RefreshedValuation(rows[..|rows| - 1], quote);
    }
  }

  /** Extending a prefix of the rows by one row adds that row's amounts to the totals. */
  lemma PrefixTotalsStep(rows: seq<Investment>, i: nat, quote: string -> Option<real>)
    requires i < |rows|
    ensures SumInvested(rows[..i + 1]) == SumInvested(rows[..i]) + rows[i].totalInvested
    ensures CurrentValue(rows[..i + 1], quote) == CurrentValue(rows[..i], quote) + Value(rows[i], quote)
  {
    assert rows[..i + 1][..i] == rows[..i];
  }

  /**
   * `getPortfolioDetails`: the totals of `getCashFlow`, the return and its
   * percentage, and each successfully quoted holding's `currentPrice`
   * overwritten with the quote.
   */
  method PortfolioDetails(rows: array<Investment>, quote: string -> Option<real>) returns (d: Details)
    modifies rows
    ensures rows[..] == Refreshed(old(rows[..]), quote)
    ensures d.totalValue == CurrentValue(old(rows[..]), quote)
    ensures d.totalInvestments == rows.Length
    ensures d.totalInvested == NetInvestment(old(rows[..])).netInvestment
    ensures d.totalReturn == d.totalValue - d.totalInvested
    ensures d.returnPercentage == ReturnPercentage(d.totalInvested, d.totalReturn)
  {
    ghost var original := rows[..];
    var totalInvested := 0.0;
    var currentValue := 0.0;
    for i := 0 to rows.Length
      invariant forall j :: 0 <= j < i ==> rows[j] == Refresh(original[j], quote)
      invariant forall j :: i <= j < rows.Length ==> rows[j] == original[j]
      invariant totalInvested == SumInvested(original[..i])
      invariant currentValue == CurrentValue(original[..i], quote)
    {
      PrefixTotalsStep(original, i, quote);
      var investment := rows[i];
      totalInvested := totalInvested + investment.totalInvested;
      match quote(investment.symbol) {
        case Some(price) =>
          currentValue := currentValue + price * investment.quantity as real;
          rows[i] := investment.(currentPrice := Some(price));
        case None =>
          currentValue := currentValue + FallbackPrice(investment) * investment.quantity as real;
      }
    }
    assert original[..rows.Length] == original;
    var totalReturn := currentValue - totalInvested;
    var returnPercentage := if totalInvested > 0.0 then totalReturn / totalInvested * 100.0 else 0.0;
    d := Details(currentValue, rows.Length, totalInvested, totalReturn, returnPercentage);
  }
}
