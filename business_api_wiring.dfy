/**
 * What the "new" business and finance pages find on `businessApi`
 * (app/api/businessApi.ts:146-156). The object spreads the plain async
 * functions of `businessApiBase` and adds an `endpoints` builder, but it is
 * never passed to `injectEndpoints`, so no React hooks are generated for it.
 * A page that calls a hook off it reads `undefined` and throws while
 * rendering.
 */
module BusinessApiWiring {

  /** The plain functions of `businessApiBase` (app/api/businessApi.ts:8-144). */
  const BaseFunctions: set<string> := {
    "createBusiness", "updateBusiness", "getBusiness", "getBusinessesByCustomer",
    "getBusinessesByPhase", "getBusinessesByStatus", "deleteBusiness",
    "createStatusRecord", "getBusinessStatusRecords", "getAbnormalStatusRecords",
    "updateStatusRecord", "deleteStatusRecord", "createMarketingRecord",
    "getMarketingRecords", "updateMarketingRecord", "deleteMarketingRecord",
    "createMedicalRecord", "getMedicalRecords", "getMedicalRecordsByType",
    "getAbnormalMedicalRecords", "updateMedicalRecord", "deleteMedicalRecord",
    "getPhaseStatistics", "getLocationStatistics", "getTypeStatistics",
    "getChannelStatistics", "getConversionSourceStatistics"}

  /** The keys of the exported `businessApi`: the spread functions and `endpoints`. */
  const Exported: set<string> := BaseFunctions + {"endpoints"}

  datatype EndpointKind = QueryEndpoint | MutationEndpoint

  datatype Endpoint = Endpoint(name: string, kind: EndpointKind)

  /** The first letter upper-cased when it is a lower-case ASCII letter. */
  function Capitalize(s: string): (r: string)
    ensures |r| == |s|
    ensures |s| > 0 ==> r[1..] == s[1..]
    ensures |s| > 0 && 'a' <= s[0] <= 'z' ==> 'A' <= r[0] <= 'Z' && r[0] as int == s[0] as int - 32
  {
    if |s| > 0 && 'a' <= s[0] <= 'z' then [(s[0] as int - 32) as char] + s[1..] else s
  }

  /** The hook `injectEndpoints` generates for an endpoint: `use`, the capitalised name, then its kind. */
  function HookName(e: Endpoint): (r: string)
    ensures |r| == 3 + |e.name| + (if e.kind == QueryEndpoint then 5 else 8)
    ensures r[..3] == "use" && r[3..3 + |e.name|] == Capitalize(e.name)
    ensures e.kind == QueryEndpoint ==> r[3 + |e.name|..] == "Query"
    ensures e.kind == MutationEndpoint ==> r[3 + |e.name|..] == "Mutation"
  {
    "use" + Capitalize(e.name) + (if e.kind == QueryEndpoint then "Query" else "Mutation")
  }

  /** The hooks an api built with `injectEndpoints` over these endpoints offers. */
  function InjectedHooks(endpoints: seq<Endpoint>): (hooks: set<string>)
    ensures forall i :: 0 <= i < |endpoints| ==> HookName(endpoints[i]) in hooks
    ensures forall h :: h in hooks ==> exists i :: 0 <= i < |endpoints| && h == HookName(endpoints[i])
  {
    set i | 0 <= i < |endpoints| :: HookName(endpoints[i])
  }

  datatype CallOutcome = Called | ThrowsTypeError

  /** `obj[name](...)`: a key the object lacks reads as undefined, and calling undefined throws. */
  function CallMember(keys: set<string>, name: string): (r: CallOutcome)
    ensures r == ThrowsTypeError <==> name !in keys
  {
    if name in keys then Called else ThrowsTypeError
  }

  /** As written, app/business/new/page.tsx:43 throws while rendering. */
  lemma BusinessNewThrowsAtRender()
    ensures CallMember(Exported, "useCreateProcessMutation") == ThrowsTypeError
  {
  }

  /** As written, app/finance/new/page.tsx:43 throws while rendering. */
  lemma FinanceNewThrowsAtRender()
    ensures CallMember(Exported, "useSearchProcessesQuery") == ThrowsTypeError
  {
  }

  /** The two endpoints the pages need: the search (which exists) and a create mutation. */
  const IntendedEndpoints: seq<Endpoint> :=
    [Endpoint("searchProcesses", QueryEndpoint), Endpoint("createProcess", MutationEndpoint)]

  /**
   * Corrected: with those endpoints injected, as the finance, resource and
   * customer clients are, both hooks exist and both pages render.
   */
  lemma InjectedHooksRender()
    ensures CallMember(Exported + InjectedHooks(IntendedEndpoints), "useSearchProcessesQuery") == Called
    ensures CallMember(Exported + InjectedHooks(IntendedEndpoints), "useCreateProcessMutation") == Called
  {
    var hooks := InjectedHooks(IntendedEndpoints);
    SearchHookName();
    CreateHookName();
    assert HookName(IntendedEndpoints[0]) in hooks && HookName(IntendedEndpoints[1]) in hooks;
  }

  lemma SearchHookName()
    ensures HookName(Endpoint("searchProcesses", QueryEndpoint)) == "useSearchProcessesQuery"
  {
    var n := "searchProcesses";
    assert n == ['s'] + "earchProcesses" && n[0] == 's' && n[1..] == "earchProcesses";
    assert ('s' as int - 32) as char == 'S';
    assert Capitalize(n) == ['S'] + "earchProcesses";
    assert "use" + (['S'] + "earchProcesses") + "Query" == "useSearchProcessesQuery";
  }

  lemma CreateHookName()
    ensures HookName(Endpoint("createProcess", MutationEndpoint)) == "useCreateProcessMutation"
  {
    var n := "createProcess";
    assert n == ['c'] + "reateProcess" && n[0] == 'c' && n[1..] == "reateProcess";
    assert ('c' as int - 32) as char == 'C';
    assert Capitalize(n) == ['C'] + "reateProcess";
    assert "use" + (['C'] + "reateProcess") + "Mutation" == "useCreateProcessMutation";
  }
}
