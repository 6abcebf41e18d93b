/**
 * `useRiskWarnings` (hooks/useRiskWarnings.ts): a client-side cache of risk
 * warnings with `loading` and `error` flags, fetched by type and status.
 */
module RiskWarningsHook {
  import opened Common
  import opened Js
  import Lists

  datatype RiskWarningType = CUSTOMER | BUSINESS | RESOURCE | FINANCIAL
  datatype RiskWarningLevel = LOW | MEDIUM | HIGH | CRITICAL
  datatype RiskWarningStatus = ACTIVE | RESOLVED | IGNORED

  /** A risk warning (types/risk.ts). */
  datatype RiskWarning = RiskWarning(
    id: int,
    warningType: RiskWarningType,
    level: RiskWarningLevel,
    message: string,
    sourceId: int,
    createdAt: string,
    updatedAt: string,
    status: RiskWarningStatus,
    resolvedBy: Option<string>,
    resolutionNotes: Option<string>)

  /** The list endpoint a fetch goes to. */
  datatype WarningQuery =
    | GetByType(warningType: RiskWarningType, status: RiskWarningStatus)
    | GetByStatus(status: RiskWarningStatus)

  /** The backend calls the hook makes, each answering a value or a rejection. */
  datatype RiskWarningApi = RiskWarningApi(
    list: WarningQuery -> Outcome<seq<RiskWarning>>,
    create: map<string, JsValue> -> Outcome<RiskWarning>,
    update: (int, map<string, JsValue>) -> Outcome<RiskWarning>,
    delete: int -> Outcome<()>,
    resolve: (int, string, string) -> Outcome<RiskWarning>)

  const FetchFailed := "Failed to fetch risk warnings"

  function ErrorToast(description: string): Notice {
    Toast("Error", description, Some("destructive"))
  }

  function SuccessToast(description: string): Notice {
    Toast("Success", description, None)
  }

  /**
   * The endpoint `fetchWarnings(type, status = 'ACTIVE')` calls: by type (and
   * status) when a type is given, by status otherwise; an omitted status is ACTIVE.
   */
  function SourceFor(warningType: Option<RiskWarningType>, status: Option<RiskWarningStatus>): (q: WarningQuery)
    ensures q.GetByType? <==> warningType.Some?
    ensures q.GetByType? ==> q.warningType == warningType.value
    ensures q.status == if status.Some? then status.value else ACTIVE
  {
    var s := status.GetOr(ACTIVE);
    match warningType
    case Some(t) => GetByType(t, s)
    case None => GetByStatus(s)
  }

  /** `prev.map(w => w.id === id ? x : w)`. */
  function ReplaceById(xs: seq<RiskWarning>, id: int, x: RiskWarning): (r: seq<RiskWarning>)
    ensures |r| == |xs|
    ensures forall i :: 0 <= i < |xs| ==> r[i] == if xs[i].id == id then x else xs[i]
  {
    Lists.ReplaceWhere(xs, (w: RiskWarning) => w.id == id, x)
  }

  /** `prev.filter(w => w.id !== id)`. */
  function RemoveById(xs: seq<RiskWarning>, id: int): (r: seq<RiskWarning>)
    ensures forall i :: 0 <= i < |r| ==> r[i].id != id
    ensures forall w: RiskWarning :: w.id != id ==> multiset(r)[w] == multiset(xs)[w]
    ensures Lists.IsSubsequence(r, xs)
  {
    Lists.Filter(xs, (w: RiskWarning) => w.id != id)
  }

  class UseRiskWarnings {
    var warnings: seq<RiskWarning>
    var loading: bool
    var error: Option<string>
    /** Toasts shown so far, oldest first. */
    var notices: seq<Notice>
    const initialType: Option<RiskWarningType>
    /** The hook's status filter: the argument, or ACTIVE when it is omitted. */
    const initialStatus: RiskWarningStatus

    constructor (initialType: Option<RiskWarningType>, initialStatus: Option<RiskWarningStatus>)
      ensures warnings == [] && !loading && error == None && notices == []
      ensures this.initialType == initialType
      ensures this.initialStatus == if initialStatus.Some? then initialStatus.value else ACTIVE
    {
      this.initialType := initialType;
      this.initialStatus := initialStatus.GetOr(ACTIVE);
      warnings, loading, error, notices := [], false, None, [];
    }

    /**
     * `fetchWarnings(type, status)`: clears `error`, asks the endpoint that
     * `SourceFor` names, shows its answer on success, and on failure keeps the
     * old list and sets `error`. `loading` is false afterwards either way.
     */
    method FetchWarnings(warningType: Option<RiskWarningType>, status: Option<RiskWarningStatus>,
                         api: RiskWarningApi)
      modifies this
      ensures !loading
      ensures api.list(SourceFor(warningType, status)).Ok? ==>
        warnings == api.list(SourceFor(warningType, status)).value &&
        error == None && notices == old(notices)
      ensures api.list(SourceFor(warningType, status)).Err? ==>
        warnings == old(warnings) && error == Some(FetchFailed) &&
        notices == old(notices) + [ErrorToast(FetchFailed)]
    {
      loading := true;
      error := None;
      var response := api.list(SourceFor(warningType, status));
      match response {
        case Ok(data) =>
          warnings := data;
        case Err(_) =>
          error := Some(FetchFailed);
          notices := notices + [ErrorToast(FetchFailed)];
      }
      loading := false;
    }

    /** The mount effect (and every change of the filters): fetch with the hook's filters. */
    method Refresh(api: RiskWarningApi)
      modifies this
      ensures !loading
      ensures api.list(SourceFor(initialType, Some(initialStatus))).Ok? ==>
        warnings == api.list(SourceFor(initialType, Some(initialStatus))).value && error == None &&
        notices == old(notices)
      ensures api.list(SourceFor(initialType, Some(initialStatus))).Err? ==>
        warnings == old(warnings) && error == Some(FetchFailed) &&
        notices == old(notices) + [ErrorToast(FetchFailed)]
    {
      FetchWarnings(initialType, Some(initialStatus), api);
    }

    /** `createWarning(w)`: appends the created warning on success, rethrows on failure. */
    method CreateWarning(warning: map<string, JsValue>, api: RiskWarningApi) returns (r: Outcome<RiskWarning>)
      modifies this
      ensures r == api.create(warning)
      ensures !loading && error == old(error)
      ensures r.Ok? ==>
        warnings == old(warnings) + [r.value] &&
        notices == old(notices) + [SuccessToast("Risk warning created successfully")]
      ensures r.Err? ==>
        warnings == old(warnings) &&
        notices == old(notices) + [ErrorToast("Failed to create risk warning")]
    {
      loading := true;
      r := api.create(warning);
      match r {
        case Ok(created) =>
          warnings := warnings + [created];
          notices := notices + [SuccessToast("Risk warning created successfully")];
        case Err(_) =>
          notices := notices + [ErrorToast("Failed to create risk warning")];
      }
      loading := false;
    }

    /** The shared shape of update and resolve: replace by id on success. */
    method ApplyReplacement(id: int, r: Outcome<RiskWarning>, success: string, failure: string)
      modifies this
      ensures !loading && error == old(error)
      ensures r.Ok? ==>
        warnings == ReplaceById(old(warnings), id, r.value) &&
        notices == old(notices) + [SuccessToast(success)]
      ensures r.Err? ==>
        warnings == old(warnings) && notices == old(notices) + [ErrorToast(failure)]
    {
      loading := true;
      match r {
        case Ok(updated) =>
          warnings := ReplaceById(warnings, id, updated);
          notices := notices + [SuccessToast(success)];
        case Err(_) =>
          notices := notices + [ErrorToast(failure)];
      }
      loading := false;
    }

    /** `updateWarning(id, patch)`. */
    method UpdateWarning(id: int, patch: map<string, JsValue>, api: RiskWarningApi) returns (r: Outcome<RiskWarning>)
      modifies this
      ensures r == api.update(id, patch)
      ensures !loading && error == old(error)
      ensures r.Ok? ==> warnings == ReplaceById(old(warnings), id, r.value)
      ensures r.Err? ==> warnings == old(warnings)
      ensures notices == old(notices) +
        [if r.Ok? then SuccessToast("Risk warning updated successfully")
         else ErrorToast("Failed to update risk warning")]
    {
      r := api.update(id, patch);
      ApplyReplacement(id, r, "Risk warning updated successfully", "Failed to update risk warning");
    }

    /** `resolveWarning(id, resolvedBy, notes)`: the resolved warning takes the old one's place. */
    method ResolveWarning(id: int, resolvedBy: string, resolutionNotes: string, api: RiskWarningApi)
      returns (r: Outcome<RiskWarning>)
      modifies this
      ensures r == api.resolve(id, resolvedBy, resolutionNotes)
      ensures !loading && error == old(error)
      ensures r.Ok? ==> warnings == ReplaceById(old(warnings), id, r.value)
      ensures r.Err? ==> warnings == old(warnings)
      ensures notices == old(notices) +
        [if r.Ok? then SuccessToast("Risk warning resolved successfully")
         else ErrorToast("Failed to resolve risk warning")]
    {
      r := api.resolve(id, resolvedBy, resolutionNotes);
      ApplyReplacement(id, r, "Risk warning resolved successfully", "Failed to resolve risk warning");
    }

    /** `deleteWarning(id)`: drops every warning with that id on success, rethrows on failure. */
    method DeleteWarning(id: int, api: RiskWarningApi) returns (r: Outcome<()>)
      modifies this
      ensures r == api.delete(id)
      ensures !loading && error == old(error)
      ensures r.Ok? ==>
        warnings == RemoveById(old(warnings), id) &&
        notices == old(notices) + [SuccessToast("Risk warning deleted successfully")]
      ensures r.Err? ==>
        warnings == old(warnings) && notices == old(notices) + [ErrorToast("Failed to delete risk warning")]
    {
      loading := true;
      r := api.delete(id);
      match r {
        case Ok(_) =>
          warnings := RemoveById(warnings, id);
          notices := notices + [SuccessToast("Risk warning deleted successfully")];
        case Err(_) =>
          notices := notices + [ErrorToast("Failed to delete risk warning")];
      }
      loading := false;
    }
  }

  /**
   * Resolving replaces in place, so a list fetched as ACTIVE keeps the now
   * resolved warning: it no longer matches the filter it was fetched with.
   */
  lemma ResolvedStaysInActiveList(xs: seq<RiskWarning>, id: int, resolved: RiskWarning, i: nat)
    requires forall j :: 0 <= j < |xs| ==> xs[j].status == ACTIVE
    requires i < |xs| && xs[i].id == id && resolved.status == RESOLVED
    ensures |ReplaceById(xs, id, resolved)| == |xs|
    ensures resolved in ReplaceById(xs, id, resolved)
    ensures exists j :: 0 <= j < |xs| && ReplaceById(xs, id, resolved)[j].status != ACTIVE
  {
    assert ReplaceById(xs, id, resolved)[i] == resolved;
  }
}
