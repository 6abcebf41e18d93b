/**
 * The "new customer" page (app/customers/new/page.tsx): the `rules` of its
 * `Controller`s, the values a fresh form starts from, and what submitting sends.
 */
module CustomersNew {
  import opened Common
  import opened Js
  import opened Query
  import opened FormRules

  /** Nine required fields, and the budget, required and at least 0. Every other field has no rule. */
  const Rules: map<string, FieldRule> := map[
    "name" := FieldRule(true, None),
    "phone" := FieldRule(true, None),
    "address" := FieldRule(true, None),
    "occupation" := FieldRule(true, None),
    "idType" := FieldRule(true, None),
    "idNumber" := FieldRule(true, None),
    "budget" := FieldRule(true, Some(0.0)),
    "recommendedPlan" := FieldRule(true, None),
    "status" := FieldRule(true, None),
    "maritalStatus" := FieldRule(true, None)]

  /** The fields that fail their rules. */
  function Errors(values: FormValues, numberOf: string -> Option<real>): (e: set<string>)
    ensures e <= Rules.Keys
    ensures forall f :: f in e <==> f in Rules && !RuleHolds(Rules[f], Get(values, f), numberOf)
  {
    RuleErrors(Rules, values, numberOf)
  }

  /** A field without rules never fails, whatever it holds. */
  lemma UnruledFieldsNeverFail(values: FormValues, f: string, v: JsValue, numberOf: string -> Option<real>)
    requires f !in Rules
    ensures Errors(values[f := v], numberOf) == Errors(values, numberOf)
  {
    forall g | g in Rules
      ensures Get(values[f := v], g) == Get(values, g)
    {
    }
  }

  /** A required field fails exactly when it is empty; the budget also when it is below 0, and 0 passes. */
  lemma RequiredAndBudget(values: FormValues, f: string, x: real, numberOf: string -> Option<real>)
    requires f in Rules && f != "budget"
    ensures f in Errors(values, numberOf) <==> RhfEmpty(Get(values, f))
    ensures "budget" in Errors(values["budget" := Num(x)], numberOf) <==> x < 0.0
    ensures "budget" !in Errors(values["budget" := Num(0.0)], numberOf)
    ensures "budget" in Errors(values["budget" := Str("")], numberOf)
  {
    assert Rules[f].min == None;
    assert Rules["budget"] == FieldRule(true, Some(0.0));
    assert Get(values["budget" := Num(x)], "budget") == Num(x);
    assert Get(values["budget" := Num(0.0)], "budget") == Num(0.0);
    assert Get(values["budget" := Str("")], "budget") == Str("");
  }

  /** The form's `defaultValues`. */
  function Defaults(): (d: FormValues)
    ensures Get(d, "gender") == Str("MALE") && Get(d, "status") == Str("UNFOLLOW")
    ensures Get(d, "maritalStatus") == Str("SINGLE") && Get(d, "recommendedPlan") == Str("PLAN_1")
    ensures Get(d, "budget") == Num(0.0)
    ensures Get(d, "birthDate") == Null && Get(d, "expectedStartTime") == Null && Get(d, "expectedEndTime") == Null
  {
    map[
      "gender" := Str("MALE"),
      "birthDate" := Null,
      "status" := Str("UNFOLLOW"),
      "maritalStatus" := Str("SINGLE"),
      "budget" := Num(0.0),
      "expectedStartTime" := Null,
      "expectedEndTime" := Null,
      "recommendedPlan" := Str("PLAN_1")]
  }

  const Identity: set<string> := {"name", "phone", "address", "occupation", "idType", "idNumber"}

  /** The six text and identity fields are required, have no minimum, and have no default. */
  lemma IdentityFieldsStartEmpty(f: string)
    requires f in Identity
    ensures f in Rules && Rules[f].required && f !in Defaults()
  {
  }

  /** The other four ruled fields start with a value that passes. */
  lemma OtherRuledFieldsStartValid()
    ensures Rules.Keys == Identity + {"budget", "recommendedPlan", "status", "maritalStatus"}
    ensures Defaults()["recommendedPlan"] == Str("PLAN_1") && Defaults()["status"] == Str("UNFOLLOW")
    ensures Defaults()["maritalStatus"] == Str("SINGLE") && Defaults()["budget"] == Num(0.0)
    ensures Rules["recommendedPlan"].min.None? && Rules["status"].min.None? && Rules["maritalStatus"].min.None?
    ensures Rules["budget"] == FieldRule(true, Some(0.0))
  {
  }

  /** A fresh form fails on the six text and identity fields and nothing else. */
  lemma FreshFormErrors(numberOf: string -> Option<real>)
    ensures Errors(Defaults(), numberOf) == Identity
  {
    FreshIdentityFails(numberOf);
    FreshOthersPass(numberOf);
  }

  lemma FreshIdentityFails(numberOf: string -> Option<real>)
    ensures Identity <= RuleErrors(Rules, Defaults(), numberOf)
  {
    forall f | f in Identity
      ensures f in RuleErrors(Rules, Defaults(), numberOf)
    {
      IdentityFieldsStartEmpty(f);
      AbsentRequiredFails(Rules, Defaults(), f, numberOf);
    }
  }

  lemma FreshOthersPass(numberOf: string -> Option<real>)
    ensures RuleErrors(Rules, Defaults(), numberOf) <= Identity
  {
    var d := Defaults();
    var e := RuleErrors(Rules, d, numberOf);
    OtherRuledFieldsStartValid();
    TextPassesRule(Rules, d, "recommendedPlan", numberOf);
    TextPassesRule(Rules, d, "status", numberOf);
    TextPassesRule(Rules, d, "maritalStatus", numberOf);
    NumberPassesRule(Rules, d, "budget", numberOf);
    var passing := {"budget", "recommendedPlan", "status", "maritalStatus"};
    assert e !! passing;
    ErrorsWithin(e, Rules.Keys, passing, Identity);
  }

  /**
   * `handleSubmit(onSubmit)`: a valid form is sent as it stands; success
   * opens `/customers/{id}`, failure only shows an error.
   */
  function OnSubmit(values: FormValues, numberOf: string -> Option<real>, create: FormValues -> Outcome<int>): (r: CreateResult)
    ensures r.Invalid? <==> Errors(values, numberOf) != {}
    ensures r.Created? ==>
      && r.payload == values && create(values).Ok?
      && r.path == ItemUrl("/customers", create(values).value)
      && r.notice == Snackbar("Customer created successfully", "success")
    ensures r.CreateFailed? ==> r.payload == values && r.notice == Snackbar("Failed to create customer", "error")
    ensures Errors(values, numberOf) == {} && create(values).Ok? ==> r.Created?
    ensures Errors(values, numberOf) == {} && create(values).Err? ==> r.CreateFailed?
  {
    CreateFlow(Errors(values, numberOf), values, create,
               "/customers", "Customer created successfully", "Failed to create customer")
  }
}
