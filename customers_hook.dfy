/**
 * `useCustomers` (hooks/useCustomers.ts): a client-side cache of the customer
 * list and overview with `loading` and `error` flags. Every backend call is an
 * oracle that answers with a value or a rejection.
 */
module CustomersHook {
  import opened Common
  import opened Js
  import Lists

  /** The fields of a customer record this hook looks at; the rest ride along in `details`. */
  datatype Customer = Customer(id: int, customerType: string, status: string, details: map<string, JsValue>)

  /** The dashboard summary returned by the overview endpoint, kept opaque. */
  datatype Overview = Overview(figures: map<string, JsValue>)

  /** The list endpoint a fetch goes to. */
  datatype ListQuery = GetByType(customerType: string) | GetByStatus(status: string) | GetAll

  /** The backend calls the hook makes, each answering a value or a rejection. */
  datatype CustomerApi = CustomerApi(
    list: ListQuery -> Outcome<seq<Customer>>,
    getOverview: Outcome<Overview>,
    create: map<string, JsValue> -> Outcome<Customer>,
    update: (int, map<string, JsValue>) -> Outcome<Customer>,
    delete: int -> Outcome<()>,
    updateRiskLevel: (int, string, string) -> Outcome<Customer>,
    updateScores: (int, Option<real>, Option<real>, Option<real>) -> Outcome<Customer>)

  const FetchFailed := "Failed to fetch customers"

  function ErrorToast(description: string): Notice {
    Toast("Error", description, Some("destructive"))
  }

  function SuccessToast(description: string): Notice {
    Toast("Success", description, None)
  }

  /**
   * The endpoint `fetchCustomers(type, status)` calls: by type whenever a type
   * is given (with or without a status), by status when only a status is
   * given, the whole list otherwise.
   */
  function SourceFor(customerType: Option<string>, status: Option<string>): (q: ListQuery)
    ensures q.GetByType? <==> Given(customerType)
    ensures q.GetByStatus? <==> !Given(customerType) && Given(status)
    ensures q.GetByType? ==> q.customerType == customerType.value
    ensures q.GetByStatus? ==> q.status == status.value
  {
    if Given(customerType) then GetByType(customerType.value)
    else if Given(status) then GetByStatus(status.value)
    else GetAll
  }

  /** What the hook keeps from a successful fetch: filtered by status only when both filters are given. */
  function Shown(customerType: Option<string>, status: Option<string>, data: seq<Customer>): (r: seq<Customer>)
    ensures !(Given(customerType) && Given(status)) ==> r == data
    ensures Given(customerType) && Given(status) ==>
      Lists.IsSubsequence(r, data) &&
      (forall i :: 0 <= i < |r| ==> r[i].status == status.value) &&
      (forall c: Customer :: c.status == status.value ==> multiset(r)[c] == multiset(data)[c])
  {
    if Given(customerType) && Given(status) then
      Lists.Filter(data, (c: Customer) => c.status == status.value)
    else data
  }

  /** `prev.map(c => c.id === id ? x : c)`. */
  function ReplaceById(xs: seq<Customer>, id: int, x: Customer): (r: seq<Customer>)
    ensures |r| == |xs|
    ensures forall i :: 0 <= i < |xs| ==> r[i] == if xs[i].id == id then x else xs[i]
  {
    Lists.ReplaceWhere(xs, (c: Customer) => c.id == id, x)
  }

  /** `prev.filter(c => c.id !== id)`. */
  function RemoveById(xs: seq<Customer>, id: int): (r: seq<Customer>)
    ensures forall i :: 0 <= i < |r| ==> r[i].id != id
    ensures forall c: Customer :: c.id != id ==> multiset(r)[c] == multiset(xs)[c]
    ensures Lists.IsSubsequence(r, xs)
  {
    Lists.Filter(xs, (c: Customer) => c.id != id)
  }

  class UseCustomers {
    var customers: seq<Customer>
    var overview: Option<Overview>
    var loading: bool
    var error: Option<string>
    /** Toasts shown so far, oldest first. */
    var notices: seq<Notice>
    const initialType: Option<string>
    const initialStatus: Option<string>

    constructor (initialType: Option<string>, initialStatus: Option<string>)
      ensures customers == [] && overview == None && !loading && error == None && notices == []
      ensures this.initialType == initialType && this.initialStatus == initialStatus
    {
      this.initialType, this.initialStatus := initialType, initialStatus;
      customers, overview, loading, error, notices := [], None, false, None, [];
    }

    /**
     * `fetchCustomers(type, status)`: clears `error`, asks the endpoint that
     * `SourceFor` names, and on success shows its answer (filtered by status
     * when both filters are given); on failure keeps the old list and sets
     * `error`. `loading` is false afterwards either way.
     */
    method FetchCustomers(customerType: Option<string>, status: Option<string>, api: CustomerApi)
      modifies this
      ensures !loading && overview == old(overview)
      ensures api.list(SourceFor(customerType, status)).Ok? ==>
        customers == Shown(customerType, status, api.list(SourceFor(customerType, status)).value) &&
        error == None && notices == old(notices)
      ensures api.list(SourceFor(customerType, status)).Err? ==>
        customers == old(customers) && error == Some(FetchFailed) &&
        notices == old(notices) + [ErrorToast(FetchFailed)]
    {
      loading := true;
      error := None;
      var response := api.list(SourceFor(customerType, status));
      match response {
        case Ok(data) =>
          customers := Shown(customerType, status, data);
        case Err(_) =>
          error := Some(FetchFailed);
          notices := notices + [ErrorToast(FetchFailed)];
      }
      loading := false;
    }

    /** `fetchOverview()`: replaces the overview on success; a failure only shows a toast. */
    method FetchOverview(api: CustomerApi)
      modifies this
      ensures !loading && customers == old(customers) && error == old(error)
      ensures api.getOverview.Ok? ==> overview == Some(api.getOverview.value) && notices == old(notices)
      ensures api.getOverview.Err? ==>
        overview == old(overview) && notices == old(notices) + [ErrorToast("Failed to fetch customer overview")]
    {
      loading := true;
      match api.getOverview {
        case Ok(data) =>
          overview := Some(data);
        case Err(_) =>
          notices := notices + [ErrorToast("Failed to fetch customer overview")];
      }
      loading := false;
    }

    /** The mount effect: fetch the list with the initial filters, then the overview. */
    method Mount(api: CustomerApi)
      modifies this
      ensures !loading
      ensures api.list(SourceFor(initialType, initialStatus)).Ok? ==>
        customers == Shown(initialType, initialStatus, api.list(SourceFor(initialType, initialStatus)).value) &&
        error == None
      ensures api.list(SourceFor(initialType, initialStatus)).Err? ==>
        customers == old(customers) && error == Some(FetchFailed)
      ensures api.getOverview.Ok? ==> overview == Some(api.getOverview.value)
      ensures api.getOverview.Err? ==> overview == old(overview)
      ensures notices == old(notices)
        + (if api.list(SourceFor(initialType, initialStatus)).Err? then [ErrorToast(FetchFailed)] else [])
        + (if api.getOverview.Err? then [ErrorToast("Failed to fetch customer overview")] else [])
    {
      FetchCustomers(initialType, initialStatus, api);
      FetchOverview(api);
    }

    /**
     * `createCustomer(c)`: on success appends the created customer at the end;
     * on failure rethrows (the same rejection is returned) and leaves the list.
     */
    method CreateCustomer(customer: map<string, JsValue>, api: CustomerApi) returns (r: Outcome<Customer>)
      modifies this
      ensures r == api.create(customer)
      ensures !loading && error == old(error) && overview == old(overview)
      ensures r.Ok? ==>
        customers == old(customers) + [r.value] &&
        notices == old(notices) + [SuccessToast("Customer created successfully")]
      ensures r.Err? ==>
        customers == old(customers) &&
        notices == old(notices) + [ErrorToast("Failed to create customer")]
    {
      loading := true;
      r := api.create(customer);
      match r {
        case Ok(created) =>
          customers := customers + [created];
          notices := notices + [SuccessToast("Customer created successfully")];
        case Err(_) =>
          notices := notices + [ErrorToast("Failed to create customer")];
      }
      loading := false;
    }

    /** The shared shape of the three "replace by id" operations. */
    method ApplyReplacement(id: int, r: Outcome<Customer>, success: string, failure: string)
      modifies this
      ensures !loading && error == old(error) && overview == old(overview)
      ensures r.Ok? ==>
        customers == ReplaceById(old(customers), id, r.value) &&
        notices == old(notices) + [SuccessToast(success)]
      ensures r.Err? ==>
        customers == old(customers) && notices == old(notices) + [ErrorToast(failure)]
    {
      loading := true;
      match r {
        case Ok(updated) =>
          customers := ReplaceById(customers, id, updated);
          notices := notices + [SuccessToast(success)];
        case Err(_) =>
          notices := notices + [ErrorToast(failure)];
      }
      loading := false;
    }

    /** `updateCustomer(id, patch)`: every cached customer with that id becomes the server's answer. */
    method UpdateCustomer(id: int, patch: map<string, JsValue>, api: CustomerApi) returns (r: Outcome<Customer>)
      modifies this
      ensures r == api.update(id, patch)
      ensures !loading && error == old(error) && overview == old(overview)
      ensures r.Ok? ==> customers == ReplaceById(old(customers), id, r.value)
      ensures r.Err? ==> customers == old(customers)
      ensures notices == old(notices) +
        [if r.Ok? then SuccessToast("Customer updated successfully") else ErrorToast("Failed to update customer")]
    {
      r := api.update(id, patch);
      ApplyReplacement(id, r, "Customer updated successfully", "Failed to update customer");
    }

    /** `updateCustomerRiskLevel(id, riskType, riskLevel)`. */
    method UpdateCustomerRiskLevel(id: int, riskType: string, riskLevel: string, api: CustomerApi)
      returns (r: Outcome<Customer>)
      modifies this
      ensures r == api.updateRiskLevel(id, riskType, riskLevel)
      ensures !loading && error == old(error) && overview == old(overview)
      ensures r.Ok? ==> customers == ReplaceById(old(customers), id, r.value)
      ensures r.Err? ==> customers == old(customers)
      ensures notices == old(notices) +
        [if r.Ok? then SuccessToast("Risk level updated successfully") else ErrorToast("Failed to update risk level")]
    {
      r := api.updateRiskLevel(id, riskType, riskLevel);
      ApplyReplacement(id, r, "Risk level updated successfully", "Failed to update risk level");
    }

    /** `updateCustomerScores(id, creditScore?, paymentCapability?, cooperation?)`. */
    method UpdateCustomerScores(id: int, creditScore: Option<real>, paymentCapability: Option<real>,
                                cooperation: Option<real>, api: CustomerApi)
      returns (r: Outcome<Customer>)
      modifies this
      ensures r == api.updateScores(id, creditScore, paymentCapability, cooperation)
      ensures !loading && error == old(error) && overview == old(overview)
      ensures r.Ok? ==> customers == ReplaceById(old(customers), id, r.value)
      ensures r.Err? ==> customers == old(customers)
      ensures notices == old(notices) +
        [if r.Ok? then SuccessToast("Customer scores updated successfully")
         else ErrorToast("Failed to update customer scores")]
    {
      r := api.updateScores(id, creditScore, paymentCapability, cooperation);
      ApplyReplacement(id, r, "Customer scores updated successfully", "Failed to update customer scores");
    }

    /**
     * `deleteCustomer(id)`: on success no cached customer has that id and the
     * others stay in order; on failure the rejection is rethrown.
     */
    method DeleteCustomer(id: int, api: CustomerApi) returns (r: Outcome<()>)
      modifies this
      ensures r == api.delete(id)
      ensures !loading && error == old(error) && overview == old(overview)
      ensures r.Ok? ==>
        customers == RemoveById(old(customers), id) &&
        notices == old(notices) + [SuccessToast("Customer deleted successfully")]
      ensures r.Err? ==>
        customers == old(customers) && notices == old(notices) + [ErrorToast("Failed to delete customer")]
    {
      loading := true;
      r := api.delete(id);
      match r {
        case Ok(_) =>
          customers := RemoveById(customers, id);
          notices := notices + [SuccessToast("Customer deleted successfully")];
        case Err(_) =>
          notices := notices + [ErrorToast("Failed to delete customer")];
      }
      loading := false;
    }
  }

  /** A replacement for an id that no cached customer has changes nothing. */
  lemma ReplaceAbsentId(xs: seq<Customer>, id: int, x: Customer)
    requires forall i :: 0 <= i < |xs| ==> xs[i].id != id
    ensures ReplaceById(xs, id, x) == xs
  {
  }

  /** Deleting an id that no cached customer has changes nothing. */
  lemma {:induction false} RemoveAbsentId(xs: seq<Customer>, id: int)
    requires forall i :: 0 <= i < |xs| ==> xs[i].id != id
    ensures RemoveById(xs, id) == xs
  {
    Lists.SubsequenceSameMultiset(RemoveById(xs, id), xs);
  }
}
