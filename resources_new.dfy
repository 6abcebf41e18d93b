/**
 * The "new resource" page (app/resources/new/page.tsx): its yup schema,
 * the values a fresh form starts from, and the argument it hands to the
 * `createResource` mutation of app/api/resourceApi.ts.
 */
module ResourcesNew {
  import opened Common
  import opened Js
  import opened Query
  import opened FormRules

  /** Four required texts and five optional ones. */
  const Schema: map<string, YupRule> := map[
    "name" := YupString(true),
    "type" := YupString(true),
    "status" := YupString(true),
    "location" := YupString(true),
    "description" := YupString(false),
    "lastMaintenanceDate" := YupString(false),
    "nextMaintenanceDate" := YupString(false),
    "specifications" := YupString(false),
    "notes" := YupString(false)]

  const Required: set<string> := {"name", "type", "status", "location"}

  /** The fields that fail the schema: exactly the required ones left empty (or not text). */
  function Errors(values: FormValues): (e: set<string>)
    ensures e <= Schema.Keys
    ensures forall f :: f in e <==> f in Schema && !YupHolds(Schema[f], Get(values, f), _ => None)
  {
    SchemaErrors(Schema, values, _ => None)
  }

  /** With every field holding text, the form is valid exactly when the four required texts are non-empty. */
  lemma ValidExactlyWhenRequiredFilled(values: FormValues)
    requires forall f :: f in Schema ==> Get(values, f).Str?
    ensures Errors(values) == {} <==> forall f :: f in Required ==> Get(values, f) != Str("")
  {
    forall f | f in Required
      ensures f in Schema && Schema[f] == YupString(true)
    {
    }
    if Errors(values) == {} {
      forall f | f in Required
        ensures Get(values, f) != Str("")
      {
        assert f !in Errors(values);
      }
    }
  }

  /** The form's `defaultValues`: status 'Available', every other field empty. */
  function Defaults(): (d: FormValues)
    ensures d.Keys == Schema.Keys
    ensures d["status"] == Str("Available")
    ensures forall f :: f in d && f != "status" ==> d[f] == Str("")
  {
    map[
      "name" := Str(""),
      "type" := Str(""),
      "status" := Str("Available"),
      "location" := Str(""),
      "description" := Str(""),
      "lastMaintenanceDate" := Str(""),
      "nextMaintenanceDate" := Str(""),
      "specifications" := Str(""),
      "notes" := Str("")]
  }

  /** A fresh form fails on the name, the type and the location. */
  lemma FreshFormErrors()
    ensures Errors(Defaults()) == {"name", "type", "location"}
  {
    var d := Defaults();
    DefaultValues();
    FreshRequiredVerdicts(d);
    FreshOptionalVerdicts(d);
    SchemaFields();
    ErrorsExactly(Errors(d), Schema.Keys,
                  {"status"} + {"description", "lastMaintenanceDate", "nextMaintenanceDate", "specifications", "notes"},
                  {"name", "type", "location"});
  }

  /** The schema's fields: the three left empty, and the others. */
  lemma SchemaFields()
    ensures Schema.Keys == {"status"} + {"description", "lastMaintenanceDate", "nextMaintenanceDate", "specifications", "notes"}
                         + {"name", "type", "location"}
  {
  }

  /** Each field's rule. */
  lemma SchemaRules()
    ensures "name" in Schema && "type" in Schema && "status" in Schema && "location" in Schema
    ensures "description" in Schema && "lastMaintenanceDate" in Schema && "nextMaintenanceDate" in Schema
    ensures "specifications" in Schema && "notes" in Schema
    ensures Schema["name"] == YupString(true) && Schema["type"] == YupString(true)
    ensures Schema["status"] == YupString(true) && Schema["location"] == YupString(true)
    ensures Schema["description"] == YupString(false) && Schema["lastMaintenanceDate"] == YupString(false)
    ensures Schema["nextMaintenanceDate"] == YupString(false) && Schema["specifications"] == YupString(false)
    ensures Schema["notes"] == YupString(false)
  {
  }

  /** Each field's default value. */
  lemma DefaultValues()
    ensures var d := Defaults();
      Get(d, "name") == Str("") && Get(d, "type") == Str("") && Get(d, "location") == Str("")
      && Get(d, "status") == Str("Available") && Get(d, "description") == Str("")
      && Get(d, "lastMaintenanceDate") == Str("") && Get(d, "nextMaintenanceDate") == Str("")
      && Get(d, "specifications") == Str("") && Get(d, "notes") == Str("")
  {
    var d := Defaults();
    assert "name" in d && "type" in d && "status" in d && "location" in d;
    assert "description" in d && "lastMaintenanceDate" in d && "nextMaintenanceDate" in d;
    assert "specifications" in d && "notes" in d;
  }

  /** The verdicts on the fresh required fields: the three empty ones fail, the status passes. */
  lemma FreshRequiredVerdicts(d: FormValues)
    requires Get(d, "name") == Str("") && Get(d, "type") == Str("") && Get(d, "location") == Str("")
    requires Get(d, "status") == Str("Available")
    ensures var e := Errors(d);
      {"name", "type", "location"} <= e && "status" !in e
  {
    SchemaRules();
    FieldVerdict(Schema, d, _ => None, "name", YupString(true), Str(""));
    FieldVerdict(Schema, d, _ => None, "type", YupString(true), Str(""));
    FieldVerdict(Schema, d, _ => None, "location", YupString(true), Str(""));
    FieldVerdict(Schema, d, _ => None, "status", YupString(true), Str("Available"));
  }

  /** The verdicts on the fresh optional fields: all pass. */
  lemma FreshOptionalVerdicts(d: FormValues)
    requires Get(d, "description") == Str("") && Get(d, "lastMaintenanceDate") == Str("")
    requires Get(d, "nextMaintenanceDate") == Str("") && Get(d, "specifications") == Str("") && Get(d, "notes") == Str("")
    ensures Errors(d) !! {"description", "lastMaintenanceDate", "nextMaintenanceDate", "specifications", "notes"}
  {
    SchemaRules();
    FieldVerdict(Schema, d, _ => None, "description", YupString(false), Str(""));
    FieldVerdict(Schema, d, _ => None, "lastMaintenanceDate", YupString(false), Str(""));
    FieldVerdict(Schema, d, _ => None, "nextMaintenanceDate", YupString(false), Str(""));
    FieldVerdict(Schema, d, _ => None, "specifications", YupString(false), Str(""));
    FieldVerdict(Schema, d, _ => None, "notes", YupString(false), Str(""));
  }

  /** `{...data, maintenanceHistory: [], documentUrls: []}`. */
  function Payload(values: FormValues): (p: FormValues)
    ensures p.Keys == values.Keys + {"maintenanceHistory", "documentUrls"}
    ensures p["maintenanceHistory"] == Arr([]) && p["documentUrls"] == Arr([])
    ensures forall k :: k in values && k != "maintenanceHistory" && k != "documentUrls" ==> p[k] == values[k]
  {
    values["maintenanceHistory" := Arr([])]["documentUrls" := Arr([])]
  }

  /**
   * What `createResource`'s `query` makes of the argument it is given:
   * a POST to `/resources/${type}` whose body is the argument's `resource`.
   * `typeSegment` is the value interpolated after `/resources/`.
   */
  datatype MutationRequest = MutationRequest(typeSegment: JsValue, httpMethod: HttpMethod, body: JsValue)

  function CreateRequest(arg: FormValues): (r: MutationRequest)
    ensures r.httpMethod == POST
    ensures r.typeSegment == Get(arg, "type") && r.body == Get(arg, "resource")
  {
    MutationRequest(Get(arg, "type"), POST, Get(arg, "resource"))
  }

  /** As the page is written: the payload itself is the mutation's argument. */
  function ArgumentAsWritten(values: FormValues): (arg: FormValues)
    ensures arg == Payload(values)
  {
    Payload(values)
  }

  /**
   * As written, a form holding only its own fields goes out with no body
   * at all: the payload has no `resource` property, so `body: resource` is
   * undefined, though the type still picks the URL.
   */
  lemma AsWrittenSendsNoBody(values: FormValues)
    requires values.Keys <= Schema.Keys
    ensures CreateRequest(ArgumentAsWritten(values)).body == Undefined
    ensures CreateRequest(ArgumentAsWritten(values)).typeSegment == Get(values, "type")
  {
    assert "resource" !in Schema;
    assert "resource" !in Payload(values);
  }

  /** The argument the mutation expects: `{type: data.type, resource: payload}`. */
  function Argument(values: FormValues): (arg: FormValues)
    ensures arg.Keys == {"type", "resource"}
    ensures arg["type"] == Get(values, "type") && arg["resource"] == Obj(Payload(values))
  {
    map["type" := Get(values, "type"), "resource" := Obj(Payload(values))]
  }

  /** With that argument the request is a POST under the form's type carrying the whole payload. */
  lemma ArgumentSendsForm(values: FormValues)
    ensures CreateRequest(Argument(values)) == MutationRequest(Get(values, "type"), POST, Obj(Payload(values)))
  {
  }

  /**
   * `handleSubmit(onSubmit)` with the mutation given the argument it
   * expects: a valid form creates the resource and opens `/resources/{id}`;
   * a failure only shows an error.
   */
  function OnSubmit(values: FormValues, create: FormValues -> Outcome<int>): (r: CreateResult)
    ensures r.Invalid? <==> Errors(values) != {}
    ensures r.Created? ==>
      && r.payload == Argument(values) && CreateRequest(r.payload).body == Obj(Payload(values))
      && create(r.payload).Ok? && r.path == ItemUrl("/resources", create(r.payload).value)
      && r.notice == Snackbar("Resource created successfully", "success")
    ensures r.CreateFailed? ==> r.notice == Snackbar("Failed to create resource", "error")
    ensures Errors(values) == {} && create(Argument(values)).Ok? ==> r.Created?
    ensures Errors(values) == {} && create(Argument(values)).Err? ==> r.CreateFailed?
  {
    CreateFlow(Errors(values), Argument(values), create,
               "/resources", "Resource created successfully", "Failed to create resource")
  }
}
