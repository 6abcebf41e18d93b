/**
 * The customer endpoints of app/api/customerApi.ts: a paged search with
 * defaults, item requests on `/customers/{id}` and three fixed statistics
 * paths.
 */
module CustomerApi {
  import opened Common
  import opened Js
  import opened Query

  /** A customer as sent: a partial record of named fields. */
  type CustomerFields = map<string, JsValue>

  const CustomersPath := "/customers"
  const SearchPath := "/customers/search"

  /**
   * `searchCustomers`' query: `/customers/search?search=S&page=P&size=Z`
   * with defaults '', 0 and 10.
   */
  function SearchCustomers(search: Option<string>, page: Option<int>, size: Option<int>): (r: Request<CustomerFields>)
    ensures r.httpMethod == GET && r.body == None
    ensures r.url == WithQuery(SearchPath, PageParams(search, page, size))
    ensures '&' !in search.GetOr("") ==> ReadUrl(r.url) == (SearchPath, PageParams(search, page, size))
  {
    var s, p, z := search.GetOr(""), IntToString(page.GetOr(0)), IntToString(size.GetOr(10));
    PageTemplate(SearchPath, s, p, z);
    PageReadsBack(SearchPath, search, page, size);
    GetRequest(SearchPath + "?search=" + s + "&page=" + p + "&size=" + z)
  }

  /** With nothing given, the search asks for the first page of ten, unfiltered. */
  lemma SearchDefaults()
    ensures SearchCustomers(None, None, None).url
         == WithQuery(SearchPath, [("search", ""), ("page", "0"), ("size", "10")])
  {
    DefaultPageText();
  }

  /** `getCustomer`: a GET on `/customers/{id}`. */
  function GetCustomer(id: int): (r: Request<CustomerFields>)
    ensures r.url == ItemUrl(CustomersPath, id) && r.httpMethod == GET && r.body == None
  {
    GetRequest(ItemUrl(CustomersPath, id))
  }

  /** `createCustomer`: a POST of the partial customer as given. */
  function CreateCustomer(customer: CustomerFields): (r: Request<CustomerFields>)
    ensures r.url == CustomersPath && r.httpMethod == POST && r.body == Some(customer)
  {
    Request(CustomersPath, POST, Some(customer))
  }

  /** `updateCustomer`: a PUT of the partial customer to `/customers/{id}`. */
  function UpdateCustomer(id: int, customer: CustomerFields): (r: Request<CustomerFields>)
    ensures r.url == ItemUrl(CustomersPath, id) && r.httpMethod == PUT && r.body == Some(customer)
  {
    Request(ItemUrl(CustomersPath, id), PUT, Some(customer))
  }

  /** `deleteCustomer`: a DELETE on `/customers/{id}`, without a body. */
  function DeleteCustomer(id: int): (r: Request<CustomerFields>)
    ensures r.url == ItemUrl(CustomersPath, id) && r.httpMethod == DELETE && r.body == None
  {
    Request(ItemUrl(CustomersPath, id), DELETE, None)
  }

  /** Get, update and delete address the same customer, told apart by method. */
  lemma SameCustomerUrl(id: int, patch: CustomerFields)
    ensures GetCustomer(id).url == UpdateCustomer(id, patch).url == DeleteCustomer(id).url
    ensures GetCustomer(id).httpMethod != UpdateCustomer(id, patch).httpMethod
    ensures UpdateCustomer(id, patch).httpMethod != DeleteCustomer(id).httpMethod
  {
  }

  /** The statistics queries: `/customers/stats/status`, `/customers/stats/risk-level` and `/stats`. */
  datatype Stats = StatusDistribution | RiskLevelDistribution | CustomerStats

  function StatsRequest(s: Stats): (r: Request<CustomerFields>)
    ensures r.httpMethod == GET && r.body == None
    ensures r.url == match s
      case StatusDistribution => "/customers/stats/status"
      case RiskLevelDistribution => "/customers/stats/risk-level"
      case CustomerStats => "/stats"
    ensures ReadUrl(r.url) == (r.url, [])
  {
    match s
    case StatusDistribution => FixedGet("/customers/stats/status")
    case RiskLevelDistribution => FixedGet("/customers/stats/risk-level")
    case CustomerStats => FixedGet("/stats")
  }

  /** Each statistics query has its own endpoint. */
  lemma StatsUrlsDistinct(a: Stats, b: Stats)
    ensures a != b ==> StatsRequest(a).url != StatsRequest(b).url
  {
  }
}
