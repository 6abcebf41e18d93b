/**
 * The finance endpoints of app/api/financeApi.ts: the requests each one
 * describes. The two list queries grow their URL step by step, appending a
 * date or type parameter only when it is truthy.
 */
module FinanceApi {
  import opened Common
  import opened Js
  import opened Query

  /** `Transaction`: amounts as reals, dates as the strings the server sends. */
  datatype Transaction = Transaction(
    id: Option<int>,
    txType: string,
    category: string,
    amount: real,
    currency: string,
    status: string,
    date: string,
    description: Option<string>,
    relatedBusinessId: Option<int>,
    relatedCustomerId: Option<int>,
    relatedResourceId: Option<int>,
    paymentMethod: string,
    paymentReference: Option<string>,
    documentUrls: seq<string>,
    notes: Option<string>,
    createdBy: string,
    approvedBy: Option<string>)

  const SearchPath := "/finance/transactions/search"
  const TransactionsPath := "/finance/transactions"
  const ReportPath := "/finance/reports"
  const ProfitPath := "/finance/stats/profit"

  const IncomeDistribution: Request<Transaction> := Request("/finance/stats/income", GET, None)
  const ExpenseDistribution: Request<Transaction> := Request("/finance/stats/expense", GET, None)
  const FinanceStats: Request<Transaction> := Request("/stats", GET, None)

  /**
   * The search parameters: search, page and size always (defaults '', 0 and
   * 10), then startDate, endDate and type, each only when non-empty.
   */
  function SearchParams(search: Option<string>, startDate: Option<string>, endDate: Option<string>,
                        txType: Option<string>, page: Option<int>, size: Option<int>): seq<(string, string)>
  {
    PageParams(search, page, size)
    + Optional("startDate", startDate) + Optional("endDate", endDate) + Optional("type", txType)
  }

  /**
   * `if (v) url += `&${key}=${v}``: the step both list queries repeat, which
   * extends the URL's parameters by the optional one.
   */
  method AppendIfGiven(url: string, key: string, v: Option<string>,
                       ghost path: string, ghost params: seq<(string, string)>)
    returns (url': string)
    requires |params| > 0 && url == WithQuery(path, params)
    ensures url' == WithQuery(path, params + Optional(key, v))
  {
    url' := url;
    if v.Some? && v.value != "" {
      QueryStringSnoc(params, (key, v.value));
      url' := url' + "&" + key + "=" + v.value;
    } else {
      assert params + Optional(key, v) == params;
    }
  }

  /** `searchTransactions`' query: the URL grows by one `&k=v` per truthy filter. */
  method SearchTransactions(search: Option<string>, startDate: Option<string>, endDate: Option<string>,
                            txType: Option<string>, page: Option<int>, size: Option<int>)
    returns (url: string)
    ensures url == WithQuery(SearchPath, SearchParams(search, startDate, endDate, txType, page, size))
  {
    var s := search.GetOr("");
    var p := page.GetOr(0);
    var z := size.GetOr(10);
    url := SearchPath + "?search=" + s + "&page=" + IntToString(p) + "&size=" + IntToString(z);
    ghost var params := PageParams(search, page, size);
    PageTemplate(SearchPath, s, IntToString(p), IntToString(z));
    url := AppendIfGiven(url, "startDate", startDate, SearchPath, params);
    params := params + Optional("startDate", startDate);
    url := AppendIfGiven(url, "endDate", endDate, SearchPath, params);
    params := params + Optional("endDate", endDate);
    ghost var final := SearchParams(search, startDate, endDate, txType, page, size);
    assert params + Optional("type", txType) == final;
    url := AppendIfGiven(url, "type", txType, SearchPath, params);
    assert url == WithQuery(SearchPath, final);
  }

  /** With no '&' in any value, the search parameters stay apart in the URL. */
  lemma SearchParamsSeparable(search: Option<string>, startDate: Option<string>, endDate: Option<string>,
                              txType: Option<string>, page: Option<int>, size: Option<int>)
    requires '&' !in search.GetOr("")
    requires NoAmpersand(startDate) && NoAmpersand(endDate) && NoAmpersand(txType)
    ensures Separable(SearchParams(search, startDate, endDate, txType, page, size))
  {
    var base := PageParams(search, page, size);
    PageParamsSeparable(search, page, size);
    OptionalSeparable("startDate", startDate);
    OptionalSeparable("endDate", endDate);
    OptionalSeparable("type", txType);
    SeparableAppend(base, Optional("startDate", startDate));
    SeparableAppend(base + Optional("startDate", startDate), Optional("endDate", endDate));
    SeparableAppend(base + Optional("startDate", startDate) + Optional("endDate", endDate), Optional("type", txType));
  }

  /** The server reads back the path and exactly the search parameters, provided no value holds '&'. */
  lemma SearchReadsBack(search: Option<string>, startDate: Option<string>, endDate: Option<string>,
                        txType: Option<string>, page: Option<int>, size: Option<int>)
    requires '&' !in search.GetOr("")
    requires NoAmpersand(startDate) && NoAmpersand(endDate) && NoAmpersand(txType)
    ensures ReadUrl(WithQuery(SearchPath, SearchParams(search, startDate, endDate, txType, page, size)))
         == (SearchPath, SearchParams(search, startDate, endDate, txType, page, size))
  {
    SearchParamsSeparable(search, startDate, endDate, txType, page, size);
    ReadWithQuery(SearchPath, SearchParams(search, startDate, endDate, txType, page, size));
  }

  /**
   * What each search parameter holds: the term, page and size (defaults '',
   * 0, 10, the numbers parsing back), and each of startDate, endDate and
   * type exactly when it was given non-empty.
   */
  lemma SearchParamValues(search: Option<string>, startDate: Option<string>, endDate: Option<string>,
                          txType: Option<string>, page: Option<int>, size: Option<int>)
    ensures var ps := SearchParams(search, startDate, endDate, txType, page, size);
      Lookup(ps, "search") == Some(search.GetOr(""))
      && Lookup(ps, "page").Some? && ParseInt(Lookup(ps, "page").value) == Some(page.GetOr(0))
      && Lookup(ps, "size").Some? && ParseInt(Lookup(ps, "size").value) == Some(size.GetOr(10))
    ensures var ps := SearchParams(search, startDate, endDate, txType, page, size);
      Lookup(ps, "startDate") == (if Given(startDate) then startDate else None)
      && Lookup(ps, "endDate") == (if Given(endDate) then endDate else None)
      && Lookup(ps, "type") == (if Given(txType) then txType else None)
  {
    var base := PageParams(search, page, size);
    var a := Optional("startDate", startDate);
    var b := Optional("endDate", endDate);
    var c := Optional("type", txType);
    ParseIntOfIntToString(page.GetOr(0));
    ParseIntOfIntToString(size.GetOr(10));
    LookupFour(base, a, b, c, "search");
    PageParamValues(search, page, size, "search");
    LookupOptional("startDate", startDate, "search");
    LookupOptional("endDate", endDate, "search");
    LookupOptional("type", txType, "search");
    LookupFour(base, a, b, c, "page");
    PageParamValues(search, page, size, "page");
    LookupOptional("startDate", startDate, "page");
    LookupOptional("endDate", endDate, "page");
    LookupOptional("type", txType, "page");
    LookupFour(base, a, b, c, "size");
    PageParamValues(search, page, size, "size");
    LookupOptional("startDate", startDate, "size");
    LookupOptional("endDate", endDate, "size");
    LookupOptional("type", txType, "size");
    LookupFour(base, a, b, c, "startDate");
    PageParamValues(search, page, size, "startDate");
    LookupOptional("startDate", startDate, "startDate");
    LookupOptional("endDate", endDate, "startDate");
    LookupOptional("type", txType, "startDate");
    LookupFour(base, a, b, c, "endDate");
    PageParamValues(search, page, size, "endDate");
    LookupOptional("startDate", startDate, "endDate");
    LookupOptional("endDate", endDate, "endDate");
    LookupOptional("type", txType, "endDate");
    LookupFour(base, a, b, c, "type");
    PageParamValues(search, page, size, "type");
    LookupOptional("startDate", startDate, "type");
    LookupOptional("endDate", endDate, "type");
    LookupOptional("type", txType, "type");
  }

  /** With nothing given, the search URL carries only the defaults. */
  lemma SearchDefaults()
    ensures SearchParams(None, None, None, None, None, None)
         == [("search", ""), ("page", "0"), ("size", "10")]
  {
    DefaultPageText();
  }

  /** The list page's empty type filter adds no type parameter. */
  lemma EmptyTypeAddsNoParameter(search: Option<string>, startDate: Option<string>, endDate: Option<string>,
                                 page: Option<int>, size: Option<int>)
    ensures SearchParams(search, startDate, endDate, Some(""), page, size)
         == SearchParams(search, startDate, endDate, None, page, size)
    ensures Lookup(SearchParams(search, startDate, endDate, Some(""), page, size), "type") == None
  {
  }

  /**
   * Spliced in verbatim, a search term `u&size=1000` is read by the server
   * as the term `u` with a `size` parameter of its own, ahead of the real ones.
   */
  lemma SearchTermInjectsParameter(u: string, page: Option<int>, size: Option<int>)
    requires '&' !in u
    ensures ReadUrl(WithQuery(SearchPath, SearchParams(Some(u + "&size=1000"), None, None, None, page, size))).1
         == [("search", u), ("size", "1000"), ("page", IntToString(page.GetOr(0))), ("size", IntToString(size.GetOr(10)))]
  {
    var rest := [("page", IntToString(page.GetOr(0))), ("size", IntToString(size.GetOr(10)))];
    UnfilteredSearchParams(Some(u + "&size=1000"), page, size);
    assert PageParams(Some(u + "&size=1000"), page, size) == [("search", u + "&size=1000")] + rest;
    PageParamsSeparable(Some(""), page, size);
    assert rest == PageParams(Some(""), page, size)[1..];
    InjectedSizeIsRead(SearchPath, u, rest);
  }

  /** Without dates or type, the search sends the page parameters alone. */
  lemma UnfilteredSearchParams(search: Option<string>, page: Option<int>, size: Option<int>)
    ensures SearchParams(search, None, None, None, page, size) == PageParams(search, page, size)
  {
    var base := PageParams(search, page, size);
    assert base + [] + [] + [] == base;
  }

  lemma InjectedSizeIsRead(path: string, u: string, rest: seq<(string, string)>)
    requires '?' !in path && '&' !in u && Separable(rest)
    ensures ReadUrl(WithQuery(path, [("search", u + "&size=1000")] + rest)).1
         == [("search", u), ("size", "1000")] + rest
  {
    assert u + "&size=1000" == u + "&" + "size" + "=" + "1000";
    SplicedValueInjectsParameter("search", u, "size", "1000", rest);
    var read := [("search", u), ("size", "1000")] + rest;
    assert Separable(read) by {
      assert Separable([("search", u), ("size", "1000")]);
      SeparableAppend([("search", u), ("size", "1000")], rest);
    }
    ReadWithQuery(path, read);
  }

  /** The report parameters: the period, then startDate and endDate when non-empty. */
  function ReportParams(period: string, startDate: Option<string>, endDate: Option<string>): seq<(string, string)> {
    [("period", period)] + Optional("startDate", startDate) + Optional("endDate", endDate)
  }

  /** `getFinancialReport`'s query, grown like the search URL. */
  method GetFinancialReport(period: string, startDate: Option<string>, endDate: Option<string>)
    returns (url: string)
    ensures url == WithQuery(ReportPath, ReportParams(period, startDate, endDate))
  {
    url := ReportPath + "?period=" + period;
    ghost var params := [("period", period)];
    QueryStringUpToThree(params[0], params[0], params[0]);
    url := AppendIfGiven(url, "startDate", startDate, ReportPath, params);
    params := params + Optional("startDate", startDate);
    url := AppendIfGiven(url, "endDate", endDate, ReportPath, params);
  }

  /** The server reads back the path and exactly the report parameters, provided no value holds '&'. */
  lemma ReportReadsBack(period: string, startDate: Option<string>, endDate: Option<string>)
    requires '&' !in period && NoAmpersand(startDate) && NoAmpersand(endDate)
    ensures ReadUrl(WithQuery(ReportPath, ReportParams(period, startDate, endDate)))
         == (ReportPath, ReportParams(period, startDate, endDate))
  {
    var base := [("period", period)];
    assert Separable(base);
    OptionalSeparable("startDate", startDate);
    OptionalSeparable("endDate", endDate);
    SeparableAppend(base, Optional("startDate", startDate));
    SeparableAppend(base + Optional("startDate", startDate), Optional("endDate", endDate));
    ReadWithQuery(ReportPath, ReportParams(period, startDate, endDate));
  }

  /** The report's period is always there; each date exactly when it was given non-empty. */
  lemma ReportParamValues(period: string, startDate: Option<string>, endDate: Option<string>)
    ensures var ps := ReportParams(period, startDate, endDate);
      Lookup(ps, "period") == Some(period)
      && Lookup(ps, "startDate") == (if Given(startDate) then startDate else None)
      && Lookup(ps, "endDate") == (if Given(endDate) then endDate else None)
  {
    var base := [("period", period)];
    var a := Optional("startDate", startDate);
    var b := Optional("endDate", endDate);
    forall k | k in {"period", "startDate", "endDate"}
      ensures Lookup(base + a + b, k)
           == if Lookup(base, k).Some? then Lookup(base, k)
              else if Lookup(a, k).Some? then Lookup(a, k)
              else Lookup(b, k)
    {
      LookupAppend(base + a, b, k);
      LookupAppend(base, a, k);
    }
    LookupOptional("startDate", startDate, "startDate");
    LookupOptional("startDate", startDate, "endDate");
    LookupOptional("endDate", endDate, "endDate");
  }

  /** `getProfitTrend`'s query: the period is the only parameter. */
  function ProfitTrend(period: string): (r: Request<Transaction>)
    ensures r.url == WithQuery(ProfitPath, [("period", period)]) && r.httpMethod == GET && r.body == None
  {
    GetRequest(WithQuery(ProfitPath, [("period", period)]))
  }

  /** The server reads the profit trend's period back when it holds no '&'. */
  lemma ProfitTrendReadsBack(period: string)
    requires '&' !in period
    ensures ReadUrl(ProfitTrend(period).url) == (ProfitPath, [("period", period)])
  {
    var ps := [("period", period)];
    assert Separable(ps);
    ReadWithQuery(ProfitPath, ps);
  }

  /** `getTransaction`: a GET on the transaction's own URL. */
  function GetTransaction(id: int): (r: Request<Transaction>)
    ensures r == Request(ItemUrl(TransactionsPath, id), GET, None)
  {
    GetRequest(ItemUrl(TransactionsPath, id))
  }

  /** `createTransaction`: a POST of the transaction as given. */
  function CreateTransaction(transaction: Transaction): (r: Request<Transaction>)
    ensures r.url == TransactionsPath && r.httpMethod == POST && r.body == Some(transaction)
  {
    Request(TransactionsPath, POST, Some(transaction))
  }

  /** `updateTransaction`: a PUT of the partial transaction to the transaction's URL. */
  function UpdateTransaction(id: int, transaction: map<string, JsValue>): (r: Request<map<string, JsValue>>)
    ensures r.url == ItemUrl(TransactionsPath, id) && r.httpMethod == PUT && r.body == Some(transaction)
  {
    Request(ItemUrl(TransactionsPath, id), PUT, Some(transaction))
  }

  /** `deleteTransaction`: a DELETE on the transaction's URL, without a body. */
  function DeleteTransaction(id: int): (r: Request<Transaction>)
    ensures r.url == ItemUrl(TransactionsPath, id) && r.httpMethod == DELETE && r.body == None
  {
    Request(ItemUrl(TransactionsPath, id), DELETE, None)
  }

  /** Get, update and delete all address the same transaction, told apart by method. */
  lemma SameTransactionUrl(id: int, patch: map<string, JsValue>)
    ensures GetTransaction(id).url == UpdateTransaction(id, patch).url == DeleteTransaction(id).url
    ensures GetTransaction(id).httpMethod != UpdateTransaction(id, patch).httpMethod
    ensures UpdateTransaction(id, patch).httpMethod != DeleteTransaction(id).httpMethod
  {
  }
}
