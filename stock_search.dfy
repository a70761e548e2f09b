/**
 * Stock search of the finance service: a case-insensitive substring filter
 * over a fixed list of stocks and a table of alternative names, a four-level
 * relevance ranking, and truncation to the first 15 results.
 *
 * Case mapping is ASCII only and `localeCompare` is replaced by code-unit
 * order (`LexLess`).
 */
module StockSearch {
  import opened Text

  /** An entry of the search list. */
  datatype Stock = Stock(symbol: string, name: string)

  /** The fixed list that `searchStocks` filters, in its own order. */
  const Database: seq<Stock> := [
    Stock("AAPL", "Apple Inc."),
    Stock("GOOGL", "Alphabet Inc. Class A"),
    Stock("GOOG", "Alphabet Inc. Class C"),
    Stock("MSFT", "Microsoft Corporation"),
    Stock("AMZN", "Amazon.com Inc."),
    Stock("TSLA", "Tesla Inc."),
    Stock("META", "Meta Platforms Inc."),
    Stock("NFLX", "Netflix Inc."),
    Stock("NVDA", "NVIDIA Corporation"),
    Stock("CRM", "Salesforce Inc."),
    Stock("ADBE", "Adobe Inc."),
    Stock("ORCL", "Oracle Corporation"),
    Stock("SAP", "SAP SE"),
    Stock("NOW", "ServiceNow Inc."),
    Stock("SNOW", "Snowflake Inc."),
    Stock("PLTR", "Palantir Technologies Inc."),
    Stock("IBM", "International Business Machines Corp."),
    Stock("INTC", "Intel Corporation"),
    Stock("AMD", "Advanced Micro Devices Inc."),
    Stock("PYPL", "PayPal Holdings Inc."),
    Stock("SQ", "Block Inc."),
    Stock("SHOP", "Shopify Inc."),
    Stock("UBER", "Uber Technologies Inc."),
    Stock("LYFT", "Lyft Inc."),
    Stock("JPM", "JPMorgan Chase & Co."),
    Stock("BAC", "Bank of America Corporation"),
    Stock("WFC", "Wells Fargo & Company"),
    Stock("GS", "Goldman Sachs Group Inc."),
    Stock("MS", "Morgan Stanley"),
    Stock("C", "Citigroup Inc."),
    Stock("USB", "U.S. Bancorp"),
    Stock("PNC", "PNC Financial Services Group Inc."),
    Stock("V", "Visa Inc."),
    Stock("MA", "Mastercard Incorporated"),
    Stock("AXP", "American Express Company"),
    Stock("JNJ", "Johnson & Johnson"),
    Stock("PFE", "Pfizer Inc."),
    Stock("UNH", "UnitedHealth Group Inc."),
    Stock("ABBV", "AbbVie Inc."),
    Stock("MRK", "Merck & Co. Inc."),
    Stock("BMY", "Bristol-Myers Squibb Company"),
    Stock("LLY", "Eli Lilly and Company"),
    Stock("KO", "Coca-Cola Company"),
    Stock("PEP", "PepsiCo Inc."),
    Stock("WMT", "Walmart Inc."),
    Stock("TGT", "Target Corporation"),
    Stock("COST", "Costco Wholesale Corporation"),
    Stock("HD", "Home Depot Inc."),
    Stock("LOW", "Lowe's Companies Inc."),
    Stock("DIS", "Walt Disney Company"),
    Stock("CMCSA", "Comcast Corporation"),
    Stock("VZ", "Verizon Communications Inc."),
    Stock("T", "AT&T Inc."),
    Stock("XOM", "Exxon Mobil Corporation"),
    Stock("CVX", "Chevron Corporation"),
    Stock("COP", "ConocoPhillips"),
    Stock("BA", "Boeing Company"),
    Stock("CAT", "Caterpillar Inc."),
    Stock("GE", "General Electric Company"),
    Stock("F", "Ford Motor Company"),
    Stock("GM", "General Motors Company"),
    Stock("RIVN", "Rivian Automotive Inc."),
    Stock("LCID", "Lucid Group Inc."),
    Stock("COIN", "Coinbase Global Inc."),
    Stock("MSTR", "MicroStrategy Incorporated"),
    Stock("GME", "GameStop Corp."),
    Stock("AMC", "AMC Entertainment Holdings Inc.")
  ]

  /** Alternative names by symbol, as `getAlternativeNames` knows them. */
  const Alternatives: map<string, seq<string>> := map[
    "META" := ["facebook", "fb"],
    "GOOGL" := ["google", "alphabet"],
    "GOOG" := ["google", "alphabet"],
    "TSLA" := ["tesla"],
    "AAPL" := ["apple"],
    "MSFT" := ["microsoft"],
    "AMZN" := ["amazon"],
    "ORCL" := ["oracle"],
    "CRM" := ["salesforce"],
    "NFLX" := ["netflix"],
    "NVDA" := ["nvidia"],
    "AMD" := ["amd", "advanced micro devices"],
    "INTC" := ["intel"],
    "IBM" := ["ibm", "international business machines"],
    "PYPL" := ["paypal"],
    "UBER" := ["uber"],
    "LYFT" := ["lyft"],
    "JPM" := ["jpmorgan", "jp morgan"],
    "BAC" := ["bank of america"],
    "WFC" := ["wells fargo"],
    "GS" := ["goldman sachs"],
    "MS" := ["morgan stanley"],
    "V" := ["visa"],
    "MA" := ["mastercard"],
    "JNJ" := ["johnson", "johnson & johnson"],
    "PFE" := ["pfizer"],
    "KO" := ["coca cola", "coke"],
    "PEP" := ["pepsi", "pepsico"],
    "WMT" := ["walmart"],
    "DIS" := ["disney"],
    "HD" := ["home depot"],
    "COST" := ["costco"],
    "BA" := ["boeing"],
    "CAT" := ["caterpillar"],
    "F" := ["ford"],
    "GM" := ["general motors"],
    "XOM" := ["exxon", "exxon mobil"],
    "CVX" := ["chevron"],
    "COIN" := ["coinbase"],
    "GME" := ["gamestop"],
    "AMC" := ["amc entertainment"]
  ]

  /** At most this many results are returned. */
  const MaxResults: nat := 15

  /** `getAlternativeNames`: the listed names of a symbol, none for a symbol the table does not know. */
  function AlternativeNames(symbol: string): (r: seq<string>)
    ensures symbol !in Alternatives ==> r == []
    ensures symbol in Alternatives ==> r == Alternatives[symbol] && r != []
  {
    if symbol in Alternatives then Alternatives[symbol] else []
  }

  // ---------------------------------------------------------------------------
  // Filter
  // ---------------------------------------------------------------------------

  /** The filter's test: the lower-cased query occurs in the symbol, the name or an alternative name, all lower-cased. */
  predicate Matches(stock: Stock, queryLower: string)
  {
    || Includes(ToLower(stock.symbol), queryLower)
    || Includes(ToLower(stock.name), queryLower)
    || exists alt :: alt in AlternativeNames(stock.symbol) && Includes(ToLower(alt), queryLower)
  }

  /** `Array.prototype.filter` with `Matches`: the matching entries, in list order. */
  function Filter(db: seq<Stock>, queryLower: string): (r: seq<Stock>)
    ensures forall x :: x in r <==> x in db && Matches(x, queryLower)
    ensures multiset(r) <= multiset(db)
    ensures |r| <= |db|
  {
    if db == [] then []
    else
      assert db == [db[0]] + db[1..];
      (if Matches(db[0], queryLower) then [db[0]] else []) + Filter(db[1..], queryLower)
  }

  // ---------------------------------------------------------------------------
  // Ranking
  // ---------------------------------------------------------------------------

  /**
   * The relevance level of an entry: 0 for an exact symbol match; a symbol
   * prefix match before the rest; within each of those, a name prefix match first.
   */
  function Rank(stock: Stock, queryLower: string): (r: nat)
    ensures r == 0 <==> ToLower(stock.symbol) == queryLower
    ensures r <= 2 <==> StartsWith(ToLower(stock.symbol), queryLower)
    ensures r != 0 ==> (r % 2 == 1 <==> StartsWith(ToLower(stock.name), queryLower))
    ensures r <= 4
  {
    var symbolLower := ToLower(stock.symbol);
    var symbolStarts := StartsWith(symbolLower, queryLower);
    var nameStarts := StartsWith(ToLower(stock.name), queryLower);
    if symbolLower == queryLower then 0
    else if symbolStarts then (if nameStarts then 1 else 2)
    else if nameStarts then 3 else 4
  }

  /** `a` is placed before `b`: a lower level, or the same level and a smaller symbol. */
  predicate Before(a: Stock, b: Stock, queryLower: string)
  {
    var ra := Rank(a, queryLower);
    var rb := Rank(b, queryLower);
    ra < rb || (ra == rb && LexLess(a.symbol, b.symbol))
  }

  lemma BeforeIrreflexive(a: Stock, queryLower: string)
    ensures !Before(a, a, queryLower)
  {
    LexLessIrreflexive(a.symbol);
  }

  lemma BeforeAsymmetric(a: Stock, b: Stock, queryLower: string)
    requires Before(a, b, queryLower)
    ensures !Before(b, a, queryLower)
  {
    if Before(b, a, queryLower) {
      LexLessTransitive(a.symbol, b.symbol, a.symbol);
      LexLessIrreflexive(a.symbol);
    }
  }

  /** "Not placed before" is transitive, which is what sorting needs. */
  lemma NotBeforeTransitive(a: Stock, b: Stock, c: Stock, queryLower: string)
    requires !Before(b, a, queryLower) && !Before(c, b, queryLower)
    ensures !Before(c, a, queryLower)
  {
    if Before(c, a, queryLower) && c.symbol != b.symbol {
      LexLessTotal(b.symbol, c.symbol);
      LexLessTransitive(b.symbol, c.symbol, a.symbol);
    }
  }

  /** Entries with different symbols are always ordered one way or the other. */
  lemma BeforeTotal(a: Stock, b: Stock, queryLower: string)
    requires a.symbol != b.symbol
    ensures Before(a, b, queryLower) || Before(b, a, queryLower)
  {
    LexLessTotal(a.symbol, b.symbol);
  }

  /** `localeCompare` as a three-way comparison. */
  function SymbolCompare(a: string, b: string): int
  {
    if LexLess(a, b) then -1 else if LexLess(b, a) then 1 else 0
  }

  /** The comparator passed to `sort`, branch for branch. */
  function Compare(a: Stock, b: Stock, queryLower: string): int
  {
    if ToLower(a.symbol) == queryLower then -1
    else if ToLower(b.symbol) == queryLower then 1
    else
      var aSymbolStarts := StartsWith(ToLower(a.symbol), queryLower);
      var bSymbolStarts := StartsWith(ToLower(b.symbol), queryLower);
      if aSymbolStarts && !bSymbolStarts then -1
      else if !aSymbolStarts && bSymbolStarts then 1
      else
        var aNameStarts := StartsWith(ToLower(a.name), queryLower);
        var bNameStarts := StartsWith(ToLower(b.name), queryLower);
        if aNameStarts && !bNameStarts then -1
        else if !aNameStarts && bNameStarts then 1
        else SymbolCompare(a.symbol, b.symbol)
  }

  /**
   * Unless both entries match the query exactly, the comparator puts `a`
   * first exactly when `Before(a, b)` and `b` first exactly when `Before(b, a)`;
   * so on entries whose lower-cased symbols differ it is a consistent strict order.
   */
  lemma CompareAgrees(a: Stock, b: Stock, queryLower: string)
    requires ToLower(a.symbol) != queryLower || ToLower(b.symbol) != queryLower
    ensures Compare(a, b, queryLower) < 0 <==> Before(a, b, queryLower)
    ensures Compare(a, b, queryLower) > 0 <==> Before(b, a, queryLower)
  {
    if Before(a, b, queryLower) {
      BeforeAsymmetric(a, b, queryLower);
    }
    if Before(b, a, queryLower) {
      BeforeAsymmetric(b, a, queryLower);
    }
  }

  // ---------------------------------------------------------------------------
  // Sorting
  // ---------------------------------------------------------------------------

  /** No entry is placed before one that precedes it. */
  predicate Sorted(s: seq<Stock>, queryLower: string)
  {
    forall i, j :: 0 <= i < j < |s| ==> !Before(s[j], s[i], queryLower)
  }

  function Insert(x: Stock, s: seq<Stock>, queryLower: string): (r: seq<Stock>)
    requires Sorted(s, queryLower)
    ensures multiset(r) == multiset(s) + multiset{x}
    ensures Sorted(r, queryLower)
  {
    if s == [] then [x]
    else if !Before(s[0], x, queryLower) then
      InsertFirst(x, s, queryLower);
      [x] + s
    else
      var t := Insert(x, s[1..], queryLower);
      InsertLater(x, s, t, queryLower);
      [s[0]] + t
  }

  lemma InsertLater(x: Stock, s: seq<Stock>, t: seq<Stock>, queryLower: string)
    requires Sorted(s, queryLower) && s != [] && Before(s[0], x, queryLower)
    requires Sorted(t, queryLower) && multiset(t) == multiset(s[1..]) + multiset{x}
    ensures Sorted([s[0]] + t, queryLower)
    ensures multiset([s[0]] + t) == multiset(s) + multiset{x}
  {
    assert s == [s[0]] + s[1..];
    HeadPrecedes(x, s, t, queryLower);
    var r := [s[0]] + t;
    forall i, j | 0 <= i < j < |r|
      ensures !Before(r[j], r[i], queryLower)
    {
      if i > 0 {
        assert r[i] == t[i - 1] && r[j] == t[j - 1];
      }
    }
  }

  /** Nothing inserted after the head of a sorted list precedes that head. */
  lemma HeadPrecedes(x: Stock, s: seq<Stock>, t: seq<Stock>, queryLower: string)
    requires Sorted(s, queryLower) && s != [] && Before(s[0], x, queryLower)
    requires multiset(t) == multiset(s[1..]) + multiset{x}
    ensures forall j :: 0 <= j < |t| ==> !Before(t[j], s[0], queryLower)
  {
    BeforeAsymmetric(s[0], x, queryLower);
    forall j | 0 <= j < |t|
      ensures !Before(t[j], s[0], queryLower)
    {
      assert t[j] in multiset(t);
      if t[j] != x {
        assert t[j] in multiset(s[1..]);
        var k :| 0 <= k < |s[1..]| && s[1..][k] == t[j];
        assert s[k + 1] == t[j];
      }
    }
  }

  lemma InsertFirst(x: Stock, s: seq<Stock>, queryLower: string)
    requires Sorted(s, queryLower) && s != [] && !Before(s[0], x, queryLower)
    ensures Sorted([x] + s, queryLower)
  {
    forall j | 0 < j < |s|
      ensures !Before(s[j], x, queryLower)
    {
      NotBeforeTransitive(x, s[0], s[j], queryLower);
    }
  }

  /** Insertion sort; any correct sort gives the same result (`SortedUnique`). */
  function Sort(s: seq<Stock>, queryLower: string): (r: seq<Stock>)
    ensures multiset(r) == multiset(s)
    ensures Sorted(r, queryLower)
  {
    if s == [] then []
    else
      assert s == [s[0]] + s[1..];
      Insert(s[0], Sort(s[1..], queryLower), queryLower)
  }

  /** Within `s`, a symbol identifies its entry. */
  predicate SymbolsIdentify(s: seq<Stock>)
  {
    forall i, j :: 0 <= i < |s| && 0 <= j < |s| && s[i].symbol == s[j].symbol ==> s[i] == s[j]
  }

  /**
   * A list of entries whose symbols identify them has exactly one sorted
   * arrangement: whatever algorithm `sort` uses, with this comparator it
   * produces the same sequence as `Sort`.
   */
  lemma {:induction false} SortedUnique(a: seq<Stock>, b: seq<Stock>, queryLower: string)
    requires multiset(a) == multiset(b) && SymbolsIdentify(a)
    requires Sorted(a, queryLower) && Sorted(b, queryLower)
    ensures a == b
    decreases |a|
  {
    assert |b| == |multiset(b)| == |multiset(a)| == |a|;
    if a != [] {
      SortedSameHead(a, b, queryLower);
      SameTails(a, b);
      SortedTail(a, queryLower);
      SortedTail(b, queryLower);
      SortedUnique(a[1..], b[1..], queryLower);
      assert a == [a[0]] + a[1..] && b == [b[0]] + b[1..];
    }
  }

  /** Dropping the same head from two arrangements of the same entries leaves arrangements of the same entries. */
  lemma SameTails(a: seq<Stock>, b: seq<Stock>)
    requires multiset(a) == multiset(b) && SymbolsIdentify(a) && a != [] && b != [] && a[0] == b[0]
    ensures multiset(a[1..]) == multiset(b[1..]) && SymbolsIdentify(a[1..])
  {
    SameTailEntries(a, b);
    IdentifyingTail(a);
  }

  lemma SameTailEntries(a: seq<Stock>, b: seq<Stock>)
    requires multiset(a) == multiset(b) && a != [] && b != [] && a[0] == b[0]
    ensures multiset(a[1..]) == multiset(b[1..])
  {
    assert a == [a[0]] + a[1..] && b == [b[0]] + b[1..];
    assert multiset(a) == multiset{a[0]} + multiset(a[1..]);
    assert multiset(b) == multiset{a[0]} + multiset(b[1..]);
    calc {
      multiset(a[1..]);
      multiset(a) - multiset{a[0]};
      multiset(b) - multiset{a[0]};
      multiset(b[1..]);
    }
  }

  lemma IdentifyingTail(a: seq<Stock>)
    requires SymbolsIdentify(a) && a != []
    ensures SymbolsIdentify(a[1..])
  {
    forall i, j | 0 <= i < |a| - 1 && 0 <= j < |a| - 1 && a[1..][i].symbol == a[1..][j].symbol
      ensures a[1..][i] == a[1..][j]
    {
      assert a[1..][i] == a[i + 1] && a[1..][j] == a[j + 1];
    }
  }

  lemma SortedTail(s: seq<Stock>, queryLower: string)
    requires Sorted(s, queryLower) && s != []
    ensures Sorted(s[1..], queryLower)
  {
    forall i, j | 0 <= i < j < |s| - 1
      ensures !Before(s[1..][j], s[1..][i], queryLower)
    {
      assert s[1..][i] == s[i + 1] && s[1..][j] == s[j + 1];
    }
  }

  /** Two sorted arrangements of the same entries start with the same entry. */
  lemma SortedSameHead(a: seq<Stock>, b: seq<Stock>, queryLower: string)
    requires multiset(a) == multiset(b) && SymbolsIdentify(a) && a != []
    requires Sorted(a, queryLower) && Sorted(b, queryLower)
    ensures b != [] && a[0] == b[0]
  {
    assert a[0] in multiset(b) && b[0] in multiset(a);
    var k :| 0 <= k < |b| && b[k] == a[0];
    var m :| 0 <= m < |a| && a[m] == b[0];
    if a[0] != b[0] {
      assert k > 0 && m > 0;
      assert a[0].symbol != a[m].symbol;
      BeforeTotal(a[0], b[0], queryLower);
      assert false;
    }
  }

  // ---------------------------------------------------------------------------
  // searchStocks
  // ---------------------------------------------------------------------------

  /** The first `MaxResults` entries, or all of them when there are fewer (`slice(0, 15)`). */
  function Take(s: seq<Stock>): (r: seq<Stock>)
    ensures |r| <= MaxResults && |r| <= |s| && r == s[..|r|]
    ensures |s| <= MaxResults ==> r == s
    ensures |s| > MaxResults ==> |r| == MaxResults
  {
    if |s| <= MaxResults then s else s[..MaxResults]
  }

  /** `searchStocks` over the list `db`: filter, sort by relevance, keep the first 15. */
  function Search(db: seq<Stock>, query: string): (r: seq<Stock>)
    ensures |r| <= MaxResults
    ensures forall x :: x in r ==> x in db && Matches(x, ToLower(query))
    ensures multiset(r) <= multiset(db)
    ensures Sorted(r, ToLower(query))
    ensures forall x :: x in db && Matches(x, ToLower(query)) && x !in r ==>
              |r| == MaxResults && forall i :: 0 <= i < |r| ==> !Before(x, r[i], ToLower(query))
  {
    var queryLower := ToLower(query);
    var matches := Filter(db, queryLower);
    var sorted := Sort(matches, queryLower);
    var r := Take(sorted);
    SearchKeeps(matches, sorted, r);
    SearchRanks(db, queryLower, matches, sorted, r);
    r
  }

  /** What the result keeps of the sorted matches. */
  lemma SearchKeeps(matches: seq<Stock>, sorted: seq<Stock>, r: seq<Stock>)
    requires multiset(sorted) == multiset(matches) && |r| <= |sorted| && r == sorted[..|r|]
    ensures forall x :: x in r ==> x in matches
    ensures multiset(r) <= multiset(matches)
  {
    assert sorted == r + sorted[|r|..];
    forall x | x in r
      ensures x in matches
    {
      assert x in multiset(sorted);
    }
  }

  /** An unreturned match exists only when 15 were returned, and is placed after every one of them. */
  lemma SearchRanks(db: seq<Stock>, queryLower: string, matches: seq<Stock>, sorted: seq<Stock>, r: seq<Stock>)
    requires matches == Filter(db, queryLower)
    requires multiset(sorted) == multiset(matches) && Sorted(sorted, queryLower) && r == Take(sorted)
    ensures Sorted(r, queryLower)
    ensures forall x :: x in db && Matches(x, queryLower) && x !in r ==>
              |r| == MaxResults && forall i :: 0 <= i < |r| ==> !Before(x, r[i], queryLower)
  {
    forall x | x in db && Matches(x, queryLower) && x !in r
      ensures |r| == MaxResults && forall i :: 0 <= i < |r| ==> !Before(x, r[i], queryLower)
    {
      assert x in multiset(sorted);
      var j :| 0 <= j < |sorted| && sorted[j] == x;
      assert forall i :: 0 <= i < |r| ==> r[i] == sorted[i];
      assert j >= |r|;
    }
  }

  /** An entry whose symbol is the query is a match of the first level. */
  lemma ExactMatches(e: Stock, queryLower: string)
    requires ToLower(e.symbol) == queryLower
    ensures Matches(e, queryLower) && Rank(e, queryLower) == 0
  {
    assert ToLower(e.symbol)[..|queryLower|] == queryLower;
    assert StartsWith(ToLower(e.symbol), queryLower);
  }

  /** A query equal to some entry's symbol (ignoring case) puts an exact match first. */
  lemma SearchExactFirst(db: seq<Stock>, query: string, e: Stock)
    requires e in db && ToLower(e.symbol) == ToLower(query)
    ensures Search(db, query) != []
    ensures ToLower(Search(db, query)[0].symbol) == ToLower(query)
  {
    var queryLower := ToLower(query);
    ExactMatches(e, queryLower);
    var r := Search(db, query);
    if e in r {
      var k :| 0 <= k < |r| && r[k] == e;
      if k > 0 {
        assert !Before(r[k], r[0], queryLower);
      }
    } else {
      assert !Before(e, r[0], queryLower);
    }
    assert Rank(r[0], queryLower) == 0;
  }

  /** With at most 15 matches, every match is returned. */
  lemma SearchComplete(db: seq<Stock>, query: string)
    requires |Filter(db, ToLower(query))| <= MaxResults
    ensures multiset(Search(db, query)) == multiset(Filter(db, ToLower(query)))
  {
  }

  /**
   * The result does not depend on how `sort` arranges equal work: any sorted
   * permutation of the matches, cut to 15, is the result.
   */
  lemma SearchDeterminate(db: seq<Stock>, query: string, arranged: seq<Stock>)
    requires SymbolsIdentify(db)
    requires multiset(arranged) == multiset(Filter(db, ToLower(query)))
    requires Sorted(arranged, ToLower(query))
    ensures Take(arranged) == Search(db, query)
  {
    var queryLower := ToLower(query);
    var sorted := Sort(Filter(db, queryLower), queryLower);
    forall i, j | 0 <= i < |sorted| && 0 <= j < |sorted| && sorted[i].symbol == sorted[j].symbol
      ensures sorted[i] == sorted[j]
    {
      assert sorted[i] in multiset(sorted) && sorted[j] in multiset(sorted);
      var p :| 0 <= p < |db| && db[p] == sorted[i];
      var q :| 0 <= q < |db| && db[q] == sorted[j];
    }
    SortedUnique(sorted, arranged, queryLower);
  }
}
