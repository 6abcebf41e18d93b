/**
 * The "new process" page (app/business/new/page.tsx): its yup schema, the
 * values a fresh form starts from, and what submitting sends.
 */
module BusinessNew {
  import opened Common
  import opened Js
  import opened Query
  import opened FormRules

  /** The page's schema: six required fields, a non-negative budget, two optional texts. */
  const Schema: map<string, YupRule> := map[
    "customerId" := YupNumber(true, false, None),
    "processType" := YupString(true),
    "status" := YupString(true),
    "startDate" := YupString(true),
    "expectedEndDate" := YupString(false),
    "totalBudget" := YupNumber(true, false, Some(0.0)),
    "riskLevel" := YupString(true),
    "notes" := YupString(false)]

  const Required: set<string> := {"customerId", "processType", "status", "startDate", "totalBudget", "riskLevel"}

  /** The fields that fail the schema. */
  function Errors(values: FormValues, numberOf: string -> Option<real>): (e: set<string>)
    ensures e <= Schema.Keys
    ensures forall f :: f in e <==> f in Schema && !YupHolds(Schema[f], Get(values, f), numberOf)
  {
    SchemaErrors(Schema, values, numberOf)
  }

  /**
   * The `customerId` query parameter as the field's default: its `parseInt`
   * (NaN when it does not parse) when the parameter is truthy, undefined otherwise.
   */
  function DefaultCustomer(customerIdParam: Option<string>): (v: JsValue)
    ensures !Given(customerIdParam) ==> v == Undefined
    ensures Given(customerIdParam) && ParseInt(customerIdParam.value).Some? ==>
      v == Num(ParseInt(customerIdParam.value).value as real)
  {
    if Given(customerIdParam) then
      match ParseInt(customerIdParam.value)
      case Some(n) => Num(n as real)
      case None => NaN
    else Undefined
  }

  /** The form's `defaultValues`; `today` is the date part of the current time. */
  function Defaults(customerIdParam: Option<string>, today: string): (d: FormValues)
    ensures d.Keys == Schema.Keys
    ensures d["status"] == Str("Pending") && d["riskLevel"] == Str("Low")
    ensures d["totalBudget"] == Num(0.0) && d["processType"] == Str("")
  {
    map[
      "customerId" := DefaultCustomer(customerIdParam),
      "processType" := Str(""),
      "status" := Str("Pending"),
      "startDate" := Str(today),
      "expectedEndDate" := Str(""),
      "totalBudget" := Num(0.0),
      "riskLevel" := Str("Low"),
      "notes" := Str("")]
  }

  /** The customer field is locked exactly when the page was opened for a customer. */
  predicate CustomerLocked(customerIdParam: Option<string>) {
    Given(customerIdParam)
  }

  /**
   * A fresh form fails on the process type only, and on the customer too
   * unless the page was opened with a customer id that parses.
   */
  lemma FreshFormErrors(customerIdParam: Option<string>, today: string, numberOf: string -> Option<real>)
    requires today != ""
    ensures var e := Errors(Defaults(customerIdParam, today), numberOf);
      if Given(customerIdParam) && ParseInt(customerIdParam.value).Some?
      then e == {"processType"} && CustomerLocked(customerIdParam)
      else e == {"processType", "customerId"}
  {
    var d := Defaults(customerIdParam, today);
    DefaultValues(customerIdParam, today);
    FreshTextVerdicts(d, today, numberOf);
    FreshOtherVerdicts(d, customerIdParam, numberOf);
    var e := Errors(d, numberOf);
    ErrorsFromVerdicts(e, Given(customerIdParam) && ParseInt(customerIdParam.value).Some?);
  }

  /** Any errors that agree with the fresh verdicts are the process type, with the customer unless it passes. */
  lemma ErrorsFromVerdicts(e: set<string>, customerPasses: bool)
    requires e <= Schema.Keys
    requires "processType" in e && e !! {"status", "startDate", "expectedEndDate"}
    requires e !! {"totalBudget", "riskLevel", "notes"}
    requires "customerId" in e <==> !customerPasses
    ensures e == if customerPasses then {"processType"} else {"processType", "customerId"}
  {
    SchemaFields();
    if customerPasses {
      ErrorsExactly(e, Schema.Keys, {"status", "startDate", "expectedEndDate"} + {"totalBudget", "riskLevel", "notes"} + {"customerId"},
                    {"processType"});
    } else {
      ErrorsExactly(e, Schema.Keys, {"status", "startDate", "expectedEndDate"} + {"totalBudget", "riskLevel", "notes"},
                    {"processType"} + {"customerId"});
    }
  }

  /** The schema's fields: the process type, the other texts and numbers, and the customer. */
  lemma SchemaFields()
    ensures Schema.Keys == {"status", "startDate", "expectedEndDate"} + {"totalBudget", "riskLevel", "notes"}
                         + {"processType"} + {"customerId"}
  {
  }

  /** Each field's rule. */
  lemma SchemaRules()
    ensures "customerId" in Schema && "processType" in Schema && "status" in Schema && "startDate" in Schema
    ensures "expectedEndDate" in Schema && "totalBudget" in Schema && "riskLevel" in Schema && "notes" in Schema
    ensures Schema["customerId"] == YupNumber(true, false, None) && Schema["processType"] == YupString(true)
    ensures Schema["status"] == YupString(true) && Schema["startDate"] == YupString(true)
    ensures Schema["expectedEndDate"] == YupString(false) && Schema["totalBudget"] == YupNumber(true, false, Some(0.0))
    ensures Schema["riskLevel"] == YupString(true) && Schema["notes"] == YupString(false)
  {
  }

  /** Each field's default value. */
  lemma DefaultValues(customerIdParam: Option<string>, today: string)
    ensures var d := Defaults(customerIdParam, today);
      Get(d, "customerId") == DefaultCustomer(customerIdParam) && Get(d, "processType") == Str("")
      && Get(d, "status") == Str("Pending") && Get(d, "startDate") == Str(today)
      && Get(d, "expectedEndDate") == Str("") && Get(d, "totalBudget") == Num(0.0)
      && Get(d, "riskLevel") == Str("Low") && Get(d, "notes") == Str("")
  {
    var d := Defaults(customerIdParam, today);
    assert d == map[
      "customerId" := DefaultCustomer(customerIdParam),
      "processType" := Str(""),
      "status" := Str("Pending"),
      "startDate" := Str(today),
      "expectedEndDate" := Str(""),
      "totalBudget" := Num(0.0),
      "riskLevel" := Str("Low"),
      "notes" := Str("")];
    assert "customerId" in d && "processType" in d && "status" in d && "startDate" in d;
    assert "expectedEndDate" in d && "totalBudget" in d && "riskLevel" in d && "notes" in d;
  }

  /** The verdicts on the fresh form's text fields: only the empty process type fails. */
  lemma FreshTextVerdicts(d: FormValues, today: string, numberOf: string -> Option<real>)
    requires today != ""
    requires Get(d, "processType") == Str("") && Get(d, "status") == Str("Pending")
    requires Get(d, "startDate") == Str(today) && Get(d, "expectedEndDate") == Str("")
    ensures var e := Errors(d, numberOf);
      "processType" in e && e !! {"status", "startDate", "expectedEndDate"}
  {
    SchemaRules();
    FieldVerdict(Schema, d, numberOf, "processType", YupString(true), Str(""));
    FieldVerdict(Schema, d, numberOf, "status", YupString(true), Str("Pending"));
    FieldVerdict(Schema, d, numberOf, "startDate", YupString(true), Str(today));
    FieldVerdict(Schema, d, numberOf, "expectedEndDate", YupString(false), Str(""));
  }

  /** The verdicts on the other fresh fields: the customer fails unless its parameter parses. */
  lemma FreshOtherVerdicts(d: FormValues, customerIdParam: Option<string>, numberOf: string -> Option<real>)
    requires Get(d, "customerId") == DefaultCustomer(customerIdParam) && Get(d, "totalBudget") == Num(0.0)
    requires Get(d, "riskLevel") == Str("Low") && Get(d, "notes") == Str("")
    ensures var e := Errors(d, numberOf);
      e !! {"totalBudget", "riskLevel", "notes"}
      && ("customerId" in e <==> !(Given(customerIdParam) && ParseInt(customerIdParam.value).Some?))
  {
    var v := DefaultCustomer(customerIdParam);
    SchemaRules();
    FieldVerdict(Schema, d, numberOf, "totalBudget", YupNumber(true, false, Some(0.0)), Num(0.0));
    FieldVerdict(Schema, d, numberOf, "riskLevel", YupString(true), Str("Low"));
    FieldVerdict(Schema, d, numberOf, "notes", YupString(false), Str(""));
    FieldVerdict(Schema, d, numberOf, "customerId", YupNumber(true, false, None), v);
    if Given(customerIdParam) && ParseInt(customerIdParam.value).Some? {
      assert v.Num?;
      assert YupHolds(YupNumber(true, false, None), v, numberOf);
    } else {
      assert v == Undefined || v == NaN;
      assert !YupHolds(YupNumber(true, false, None), v, numberOf);
    }
  }

  /** A budget of 0 passes, whatever the "must be positive" message says; any negative budget fails. */
  lemma ZeroBudgetPasses(values: FormValues, x: real, numberOf: string -> Option<real>)
    requires x < 0.0
    ensures "totalBudget" !in Errors(values["totalBudget" := Num(0.0)], numberOf)
    ensures "totalBudget" in Errors(values["totalBudget" := Num(x)], numberOf)
  {
    assert Get(values["totalBudget" := Num(0.0)], "totalBudget") == Num(0.0);
    assert Get(values["totalBudget" := Num(x)], "totalBudget") == Num(x);
  }

  /** Clearing any of the six required fields fails it. */
  lemma ClearedRequiredFails(values: FormValues, f: string, numberOf: string -> Option<real>)
    requires f in Required
    ensures f in Errors(values[f := Str("")], numberOf)
  {
    assert Get(values[f := Str("")], f) == Str("");
  }

  /** The end date and the notes never block: any text in them leaves the other fields' verdicts alone. */
  lemma OptionalTextsNeverBlock(values: FormValues, endDate: string, notes: string, numberOf: string -> Option<real>)
    ensures Errors(values["expectedEndDate" := Str(endDate)]["notes" := Str(notes)], numberOf)
         == Errors(values, numberOf) - {"expectedEndDate", "notes"}
  {
    var v' := values["expectedEndDate" := Str(endDate)]["notes" := Str(notes)];
    forall f | f in Schema && f != "expectedEndDate" && f != "notes"
      ensures Get(v', f) == Get(values, f)
    {
    }
    assert Get(v', "expectedEndDate") == Str(endDate);
    assert Get(v', "notes") == Str(notes);
  }

  /** `{...data, totalBudget: Number(data.totalBudget), stages: []}` over the values yup cast. */
  function Payload(values: FormValues, numberOf: string -> Option<real>): (p: FormValues)
    ensures p.Keys == values.Keys + {"stages"}
    ensures p["stages"] == Arr([])
    ensures forall k :: k in values && k !in Schema && k != "stages" ==> p[k] == values[k]
  {
    CastNumbers(Schema, values, numberOf)["stages" := Arr([])]
  }

  /** A valid form sends a numeric customer and a numeric, non-negative budget. */
  lemma ValidPayloadIsNumeric(values: FormValues, numberOf: string -> Option<real>)
    requires Errors(values, numberOf) == {}
    ensures var p := Payload(values, numberOf);
      Get(p, "totalBudget").Num? && Get(p, "totalBudget").n >= 0.0 && Get(p, "customerId").Num?
  {
    assert "totalBudget" in Schema && "customerId" in Schema;
    assert YupHolds(Schema["totalBudget"], Get(values, "totalBudget"), numberOf);
    assert YupHolds(Schema["customerId"], Get(values, "customerId"), numberOf);
  }

  /**
   * `handleSubmit(onSubmit)`: a valid form creates the process and opens
   * `/business/{id}`; a failure only shows an error.
   */
  function OnSubmit(values: FormValues, numberOf: string -> Option<real>, create: FormValues -> Outcome<int>): (r: CreateResult)
    ensures r.Invalid? <==> Errors(values, numberOf) != {}
    ensures r.Created? ==>
      && r.payload == Payload(values, numberOf) && r.payload["stages"] == Arr([])
      && Get(r.payload, "totalBudget").Num? && Get(r.payload, "totalBudget").n >= 0.0
      && create(r.payload).Ok? && r.path == ItemUrl("/business", create(r.payload).value)
      && r.notice == Snackbar("Process created successfully", "success")
    ensures r.CreateFailed? ==> r.notice == Snackbar("Failed to create process", "error")
    ensures Errors(values, numberOf) == {} && create(Payload(values, numberOf)).Ok? ==> r.Created?
    ensures Errors(values, numberOf) == {} && create(Payload(values, numberOf)).Err? ==> r.CreateFailed?
  {
    if Errors(values, numberOf) == {} then
      ValidPayloadIsNumeric(values, numberOf);
      CreateFlow(Errors(values, numberOf), Payload(values, numberOf), create,
                 "/business", "Process created successfully", "Failed to create process")
    else
      CreateFlow(Errors(values, numberOf), Payload(values, numberOf), create,
                 "/business", "Process created successfully", "Failed to create process")
  }
}
