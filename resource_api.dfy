/**
 * The resource endpoints of app/api/resourceApi.ts and the `Resource`
 * union they carry: five kinds of resource, each with the fields common to
 * all resources and fields of its own.
 */
module ResourceApi {
  import opened Common
  import opened Js
  import opened Query

  /** `BaseResource`: the fields every resource has. */
  datatype BaseResource = BaseResource(
    id: Option<int>,
    name: string,
    status: string,
    location: string,
    cost: real,
    quality: string,
    description: Option<string>,
    tags: seq<string>,
    documentUrls: seq<string>,
    notes: Option<string>,
    availableFrom: string,
    availableTo: Option<string>,
    riskLevel: string)

  datatype DonorFields = DonorFields(
    donorType: string, birthDate: string, bloodType: string, ethnicity: string, education: string,
    height: real, weight: real, medicalHistory: Option<string>, familyHistory: Option<string>,
    geneticScreening: Option<string>, eyeColor: Option<string>, hairColor: Option<string>,
    skinTone: Option<string>, personalityTraits: Option<string>, specialTalents: Option<string>,
    donationCount: int, successfulDonations: int)

  datatype SurrogateFields = SurrogateFields(
    birthDate: string, bloodType: string, ethnicity: string, education: string,
    height: real, weight: real, medicalHistory: Option<string>, familyHistory: Option<string>,
    geneticScreening: Option<string>, pregnancyCount: int, successfulPregnancies: int,
    surrogacyCount: int, successfulSurrogacies: int, pregnancyHistory: Option<string>,
    maritalStatus: string, hasPartnerSupport: bool, lifestyleInformation: Option<string>,
    employmentStatus: string, psychologicalEvaluation: Option<string>, hasInsurance: bool)

  datatype MedicalFields = MedicalFields(
    resourceType: string, specialization: string, licenseNumber: string, accreditation: string,
    capacity: int, currentOccupancy: int, facilities: Option<string>, equipment: Option<string>,
    successRate: real, experienceYears: int, certifications: Option<string>,
    hasEmergencySupport: bool, insuranceInformation: Option<string>, operatingHours: Option<string>,
    contactPerson: string, contactPhone: string, contactEmail: string)

  datatype PostnatalFields = PostnatalFields(
    resourceType: string, roomCount: int, currentOccupancy: int, facilities: Option<string>,
    services: Option<string>, licenseNumber: string, accreditation: string,
    medicalSupport: Option<string>, nutritionServices: Option<string>, careServices: Option<string>,
    hasNursery: bool, hasEmergencySupport: bool, insuranceInformation: Option<string>,
    operatingHours: Option<string>, contactPerson: string, contactPhone: string, contactEmail: string,
    roomTypes: Option<string>, amenities: Option<string>)

  datatype HumanFields = HumanFields(
    resourceType: string, specialization: string, licenseNumber: string, birthDate: string,
    gender: string, education: string, qualifications: Option<string>, certifications: Option<string>,
    experienceYears: int, languages: string, expertise: Option<string>, successRate: real,
    workHistory: Option<string>, availability: Option<string>, workingHours: string,
    contactPhone: string, contactEmail: string, performanceMetrics: Option<string>, isFullTime: bool)

  /** `Resource`: one of the five kinds, the common fields under `base`. */
  datatype Resource =
    | Donor(base: BaseResource, donor: DonorFields)
    | Surrogate(base: BaseResource, surrogate: SurrogateFields)
    | Medical(base: BaseResource, medical: MedicalFields)
    | Postnatal(base: BaseResource, postnatal: PostnatalFields)
    | Human(base: BaseResource, human: HumanFields)

  const ResourcesPath := "/resources"
  const SearchPath := "/resources/search"
  const StatusPath := "/resources/status"

  /** `searchResources`' parameters: `type` always, even when empty, then the page parameters. */
  function SearchParams(resourceType: string, search: Option<string>, page: Option<int>, size: Option<int>): seq<(string, string)> {
    [("type", resourceType)] + PageParams(search, page, size)
  }

  /** `searchResources`' query. */
  function SearchResources(resourceType: string, search: Option<string>, page: Option<int>, size: Option<int>): (r: Request<Resource>)
    ensures r.httpMethod == GET && r.body == None
    ensures r.url == WithQuery(SearchPath, SearchParams(resourceType, search, page, size))
  {
    var s, p, z := search.GetOr(""), IntToString(page.GetOr(0)), IntToString(size.GetOr(10));
    SearchTemplate(SearchPath, resourceType, s, p, z);
    GetRequest(SearchPath + "?type=" + resourceType + "&search=" + s + "&page=" + p + "&size=" + z)
  }

  /** The search template is the query string of its four parameters. */
  lemma SearchTemplate(path: string, t: string, s: string, p: string, z: string)
    ensures path + "?type=" + t + "&search=" + s + "&page=" + p + "&size=" + z
         == WithQuery(path, [("type", t), ("search", s), ("page", p), ("size", z)])
  {
    var x1 := path + "?" + Param(("type", t));
    var x2 := x1 + "&" + Param(("search", s));
    var x3 := x2 + "&" + Param(("page", p));
    AppendParam(path, "?", "?type=", "type", t);
    AppendParam(x1, "&", "&search=", "search", s);
    AppendParam(x2, "&", "&page=", "page", p);
    AppendParam(x3, "&", "&size=", "size", z);
    WithQueryFour(path, ("type", t), ("search", s), ("page", p), ("size", z));
  }

  /**
   * The server reads back the type (even an empty one) and the page
   * parameters, provided neither the type nor the search term holds '&'.
   */
  lemma SearchReadsBack(resourceType: string, search: Option<string>, page: Option<int>, size: Option<int>)
    requires '&' !in resourceType && '&' !in search.GetOr("")
    ensures ReadUrl(SearchResources(resourceType, search, page, size).url)
         == (SearchPath, SearchParams(resourceType, search, page, size))
    ensures Lookup(SearchParams(resourceType, search, page, size), "type") == Some(resourceType)
  {
    var ps := SearchParams(resourceType, search, page, size);
    PageParamsSeparable(search, page, size);
    assert Separable([("type", resourceType)]);
    SeparableAppend([("type", resourceType)], PageParams(search, page, size));
    ReadWithQuery(SearchPath, ps);
  }

  /** The page parameters of the search, with their defaults '', 0 and 10. */
  lemma SearchPageValues(resourceType: string, search: Option<string>, page: Option<int>, size: Option<int>)
    ensures var ps := SearchParams(resourceType, search, page, size);
      Lookup(ps, "search") == Some(search.GetOr(""))
      && Lookup(ps, "page") == Some(IntToString(page.GetOr(0)))
      && Lookup(ps, "size") == Some(IntToString(size.GetOr(10)))
  {
    var ps := SearchParams(resourceType, search, page, size);
    assert ps[1..] == PageParams(search, page, size);
    PageParamValues(search, page, size, "search");
    PageParamValues(search, page, size, "page");
    PageParamValues(search, page, size, "size");
  }

  /** `getResourcesByStatus`' parameters: type, status, page and size (defaults 0 and 10). */
  function StatusParams(resourceType: string, status: string, page: Option<int>, size: Option<int>): seq<(string, string)> {
    [("type", resourceType), ("status", status), ("page", IntToString(page.GetOr(0))), ("size", IntToString(size.GetOr(10)))]
  }

  /** `getResourcesByStatus`' query. */
  function ResourcesByStatus(resourceType: string, status: string, page: Option<int>, size: Option<int>): (r: Request<Resource>)
    ensures r.httpMethod == GET && r.body == None
    ensures r.url == WithQuery(StatusPath, StatusParams(resourceType, status, page, size))
  {
    var p, z := IntToString(page.GetOr(0)), IntToString(size.GetOr(10));
    StatusTemplate(StatusPath, resourceType, status, p, z);
    GetRequest(StatusPath + "?type=" + resourceType + "&status=" + status + "&page=" + p + "&size=" + z)
  }

  /** The status template is the query string of its four parameters. */
  lemma StatusTemplate(path: string, t: string, st: string, p: string, z: string)
    ensures path + "?type=" + t + "&status=" + st + "&page=" + p + "&size=" + z
         == WithQuery(path, [("type", t), ("status", st), ("page", p), ("size", z)])
  {
    var x1 := path + "?" + Param(("type", t));
    var x2 := x1 + "&" + Param(("status", st));
    var x3 := x2 + "&" + Param(("page", p));
    AppendParam(path, "?", "?type=", "type", t);
    AppendParam(x1, "&", "&status=", "status", st);
    AppendParam(x2, "&", "&page=", "page", p);
    AppendParam(x3, "&", "&size=", "size", z);
    WithQueryFour(path, ("type", t), ("status", st), ("page", p), ("size", z));
  }

  /** The server reads back type, status, page and size when type and status hold no '&'. */
  lemma StatusReadsBack(resourceType: string, status: string, page: Option<int>, size: Option<int>)
    requires '&' !in resourceType && '&' !in status
    ensures ReadUrl(ResourcesByStatus(resourceType, status, page, size).url)
         == (StatusPath, StatusParams(resourceType, status, page, size))
  {
    var ps := StatusParams(resourceType, status, page, size);
    IntToStringSeparable(page.GetOr(0));
    IntToStringSeparable(size.GetOr(10));
    var head := [("type", resourceType), ("status", status)];
    var tail := [("page", IntToString(page.GetOr(0))), ("size", IntToString(size.GetOr(10)))];
    assert Separable(head) && Separable(tail);
    assert ps == head + tail;
    SeparableAppend(head, tail);
    ReadWithQuery(StatusPath, ps);
  }

  /** Page and size parse back from their parameters, with defaults 0 and 10. */
  lemma StatusPageValues(resourceType: string, status: string, page: Option<int>, size: Option<int>)
    ensures ParseInt(StatusParams(resourceType, status, page, size)[2].1) == Some(page.GetOr(0))
    ensures ParseInt(StatusParams(resourceType, status, page, size)[3].1) == Some(size.GetOr(10))
  {
    ParseIntOfIntToString(page.GetOr(0));
    ParseIntOfIntToString(size.GetOr(10));
  }

  /** `getResource`: a GET on `/resources/{id}`. */
  function GetResource(id: int): (r: Request<Resource>)
    ensures r.url == ItemUrl(ResourcesPath, id) && r.httpMethod == GET && r.body == None
  {
    GetRequest(ItemUrl(ResourcesPath, id))
  }

  /** The argument of `createResource`: the kind path segment and the resource. */
  datatype CreateArg = CreateArg(resourceType: string, resource: Resource)

  /** `createResource`: a POST of the argument's resource to `/resources/{type}`. */
  function CreateResource(arg: CreateArg): (r: Request<Resource>)
    ensures r.httpMethod == POST && r.body == Some(arg.resource)
    ensures r.url == ResourcesPath + "/" + arg.resourceType
  {
    Request(ResourcesPath + "/" + arg.resourceType, POST, Some(arg.resource))
  }

  /** The create URL's last segment is the type; the type itself is not in the body. */
  lemma CreateUrlSegments(arg: CreateArg)
    requires '/' !in arg.resourceType
    ensures Split(CreateResource(arg).url, '/') == ["", "resources", arg.resourceType]
    ensures CreateResource(arg).body == Some(arg.resource)
  {
    var parts := ["", "resources", arg.resourceType];
    assert '/' !in "resources";
    assert forall i :: 0 <= i < 3 ==> '/' !in parts[i];
    assert parts[1..] == ["resources", arg.resourceType];
    assert parts[1..][1..] == [arg.resourceType];
    assert Join(["resources", arg.resourceType], '/') == "resources" + ['/'] + arg.resourceType;
    assert Join(parts, '/') == "" + ['/'] + ("resources" + ['/'] + arg.resourceType);
    assert ResourcesPath == ['/'] + "resources";
    assert CreateResource(arg).url == Join(parts, '/');
    SplitJoin(parts, '/');
  }

  /** `updateResource`: a PUT of the partial resource to `/resources/{id}`. */
  function UpdateResource(id: int, resource: map<string, JsValue>): (r: Request<map<string, JsValue>>)
    ensures r.url == ItemUrl(ResourcesPath, id) && r.httpMethod == PUT && r.body == Some(resource)
  {
    Request(ItemUrl(ResourcesPath, id), PUT, Some(resource))
  }

  /** `deleteResource`: a DELETE on `/resources/{id}`, without a body. */
  function DeleteResource(id: int): (r: Request<Resource>)
    ensures r.url == ItemUrl(ResourcesPath, id) && r.httpMethod == DELETE && r.body == None
  {
    Request(ItemUrl(ResourcesPath, id), DELETE, None)
  }

  /** Get, update and delete address the same resource, told apart by method. */
  lemma SameResourceUrl(id: int, patch: map<string, JsValue>)
    ensures GetResource(id).url == UpdateResource(id, patch).url == DeleteResource(id).url
    ensures GetResource(id).httpMethod != UpdateResource(id, patch).httpMethod
    ensures UpdateResource(id, patch).httpMethod != DeleteResource(id).httpMethod
  {
  }

  /** The four distributions, each filtered by resource type. */
  datatype Distribution = ByStatus | ByLocation | ByQuality | ByRiskLevel

  function DistributionPath(d: Distribution): (path: string)
    ensures '?' !in path
  {
    match d
    case ByStatus => "/resources/stats/status"
    case ByLocation => "/resources/stats/location"
    case ByQuality => "/resources/stats/quality"
    case ByRiskLevel => "/resources/stats/risk-level"
  }

  /** A distribution query: its path with the type as the only parameter. */
  function DistributionRequest(d: Distribution, resourceType: string): (r: Request<Resource>)
    ensures r.url == WithQuery(DistributionPath(d), [("type", resourceType)])
    ensures r.httpMethod == GET && r.body == None
    ensures '&' !in resourceType ==> ReadUrl(r.url) == (DistributionPath(d), [("type", resourceType)])
  {
    TypeOnlyTemplate(DistributionPath(d), resourceType);
    GetRequest(DistributionPath(d) + "?type=" + resourceType)
  }

  /**
   * Different distributions are different requests, whatever the type: the
   * four paths part at their last segment's first letter.
   */
  lemma DistributionUrlsDistinct(d1: Distribution, d2: Distribution, resourceType: string)
    ensures d1 != d2 ==> DistributionRequest(d1, resourceType).url != DistributionRequest(d2, resourceType).url
  {
    var i := |"/resources/stats/"|;
    var u1, u2 := DistributionRequest(d1, resourceType).url, DistributionRequest(d2, resourceType).url;
    assert u1 == DistributionPath(d1) + "?type=" + resourceType;
    assert u2 == DistributionPath(d2) + "?type=" + resourceType;
    assert u1[i] == DistributionPath(d1)[i] && u2[i] == DistributionPath(d2)[i];
  }

  /** `path?type=t` is the URL with the one parameter; it reads back when t holds no '&'. */
  lemma TypeOnlyTemplate(path: string, t: string)
    requires '?' !in path
    ensures path + "?type=" + t == WithQuery(path, [("type", t)])
    ensures '&' !in t ==> ReadUrl(path + "?type=" + t) == (path, [("type", t)])
  {
    var ps := [("type", t)];
    assert QueryString(ps) == "type" + "=" + t;
    assert path + "?type=" + t == path + "?" + ("type" + "=" + t);
    if '&' !in t {
      assert Separable(ps);
      ReadWithQuery(path, ps);
    }
  }

  /** `getResourceStats`: a GET on `/stats`, with no parameters. */
  function ResourceStats(): (r: Request<Resource>)
    ensures r.url == "/stats" && r.httpMethod == GET && r.body == None
    ensures ReadUrl(r.url) == (r.url, [])
  {
    FixedGet("/stats")
  }
}
