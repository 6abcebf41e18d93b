/**
 * The "new transaction" page (app/finance/new/page.tsx): its yup schema,
 * the values a fresh form starts from, and what submitting sends.
 */
module FinanceNew {
  import opened Common
  import opened Js
  import opened Query
  import opened FormRules

  /** Four required fields, a non-negative amount, two optional texts and a nullable process. */
  const Schema: map<string, YupRule> := map[
    "type" := YupString(true),
    "category" := YupString(true),
    "amount" := YupNumber(true, false, Some(0.0)),
    "date" := YupString(true),
    "description" := YupString(false),
    "notes" := YupString(false),
    "processId" := YupNumber(false, true, None)]

  const Required: set<string> := {"type", "category", "amount", "date"}

  /** The fields that fail the schema. */
  function Errors(values: FormValues, numberOf: string -> Option<real>): (e: set<string>)
    ensures e <= Schema.Keys
    ensures forall f :: f in e <==> f in Schema && !YupHolds(Schema[f], Get(values, f), numberOf)
  {
    SchemaErrors(Schema, values, numberOf)
  }

  /**
   * The `processId` query parameter as the field's default: its `parseInt`
   * (NaN when it does not parse) when the parameter is truthy, null otherwise.
   */
  function DefaultProcess(processIdParam: Option<string>): (v: JsValue)
    ensures !Given(processIdParam) ==> v == Null
    ensures Given(processIdParam) ==>
      v == (match ParseInt(processIdParam.value) case Some(n) => Num(n as real) case None => NaN)
  {
    if Given(processIdParam) then
      match ParseInt(processIdParam.value)
      case Some(n) => Num(n as real)
      case None => NaN
    else Null
  }

  /** The form's `defaultValues`; `today` is the date part of the current time. */
  function Defaults(processIdParam: Option<string>, today: string): (d: FormValues)
    ensures d.Keys == Schema.Keys
    ensures d["type"] == Str("") && d["category"] == Str("") && d["amount"] == Num(0.0)
    ensures d["processId"] == DefaultProcess(processIdParam)
  {
    map[
      "type" := Str(""),
      "category" := Str(""),
      "amount" := Num(0.0),
      "date" := Str(today),
      "description" := Str(""),
      "notes" := Str(""),
      "processId" := DefaultProcess(processIdParam)]
  }

  /** The process field is locked exactly when the page was opened for a process. */
  predicate ProcessLocked(processIdParam: Option<string>) {
    Given(processIdParam)
  }

  /**
   * A fresh form fails on the type and the category until both are chosen,
   * and on the process as well when the page's process id does not parse.
   */
  lemma FreshFormErrors(processIdParam: Option<string>, today: string, numberOf: string -> Option<real>)
    requires today != ""
    ensures var e := Errors(Defaults(processIdParam, today), numberOf);
      if Given(processIdParam) && ParseInt(processIdParam.value).None?
      then e == {"type", "category", "processId"} && ProcessLocked(processIdParam)
      else e == {"type", "category"}
  {
    var d := Defaults(processIdParam, today);
    DefaultValues(processIdParam, today);
    FreshTextVerdicts(d, today, numberOf);
    FreshOtherVerdicts(d, processIdParam, numberOf);
    var e := Errors(d, numberOf);
    ErrorsFromVerdicts(e, Given(processIdParam) && ParseInt(processIdParam.value).None?);
  }

  /** Any errors that agree with the fresh verdicts are the type and the category, with the process when it fails. */
  lemma ErrorsFromVerdicts(e: set<string>, processFails: bool)
    requires e <= Schema.Keys
    requires {"type", "category"} <= e && e !! {"date", "description", "notes"} && e !! {"amount"}
    requires "processId" in e <==> processFails
    ensures e == if processFails then {"type", "category", "processId"} else {"type", "category"}
  {
    SchemaFields();
    if processFails {
      ErrorsExactly(e, Schema.Keys, {"date", "description", "notes"} + {"amount"}, {"type", "category"} + {"processId"});
    } else {
      ErrorsExactly(e, Schema.Keys, {"date", "description", "notes"} + {"amount"} + {"processId"}, {"type", "category"});
    }
  }

  /** The schema's fields: the texts, the amount and the process. */
  lemma SchemaFields()
    ensures Schema.Keys == {"date", "description", "notes"} + {"amount"} + {"type", "category"} + {"processId"}
  {
  }

  /** Each field's rule. */
  lemma SchemaRules()
    ensures "type" in Schema && "category" in Schema && "amount" in Schema && "date" in Schema
    ensures "description" in Schema && "notes" in Schema && "processId" in Schema
    ensures Schema["type"] == YupString(true) && Schema["category"] == YupString(true)
    ensures Schema["amount"] == YupNumber(true, false, Some(0.0)) && Schema["date"] == YupString(true)
    ensures Schema["description"] == YupString(false) && Schema["notes"] == YupString(false)
    ensures Schema["processId"] == YupNumber(false, true, None)
  {
  }

  /** Each field's default value. */
  lemma DefaultValues(processIdParam: Option<string>, today: string)
    ensures var d := Defaults(processIdParam, today);
      Get(d, "type") == Str("") && Get(d, "category") == Str("") && Get(d, "amount") == Num(0.0)
      && Get(d, "date") == Str(today) && Get(d, "description") == Str("") && Get(d, "notes") == Str("")
      && Get(d, "processId") == DefaultProcess(processIdParam)
  {
    var d := Defaults(processIdParam, today);
    assert d == map[
      "type" := Str(""),
      "category" := Str(""),
      "amount" := Num(0.0),
      "date" := Str(today),
      "description" := Str(""),
      "notes" := Str(""),
      "processId" := DefaultProcess(processIdParam)];
    assert "type" in d && "category" in d && "amount" in d && "date" in d;
    assert "description" in d && "notes" in d && "processId" in d;
  }

  /** The verdicts on the fresh form's text fields: the empty type and category fail. */
  lemma FreshTextVerdicts(d: FormValues, today: string, numberOf: string -> Option<real>)
    requires today != ""
    requires Get(d, "type") == Str("") && Get(d, "category") == Str("") && Get(d, "date") == Str(today)
    requires Get(d, "description") == Str("") && Get(d, "notes") == Str("")
    ensures var e := Errors(d, numberOf);
      {"type", "category"} <= e && e !! {"date", "description", "notes"}
  {
    SchemaRules();
    FieldVerdict(Schema, d, numberOf, "type", YupString(true), Str(""));
    FieldVerdict(Schema, d, numberOf, "category", YupString(true), Str(""));
    FieldVerdict(Schema, d, numberOf, "date", YupString(true), Str(today));
    FieldVerdict(Schema, d, numberOf, "description", YupString(false), Str(""));
    FieldVerdict(Schema, d, numberOf, "notes", YupString(false), Str(""));
  }

  /** The verdicts on the fresh amount and process: 0 passes, the process fails only when its parameter does not parse. */
  lemma FreshOtherVerdicts(d: FormValues, processIdParam: Option<string>, numberOf: string -> Option<real>)
    requires Get(d, "amount") == Num(0.0) && Get(d, "processId") == DefaultProcess(processIdParam)
    ensures var e := Errors(d, numberOf);
      e !! {"amount"}
      && ("processId" in e <==> Given(processIdParam) && ParseInt(processIdParam.value).None?)
  {
    var v := DefaultProcess(processIdParam);
    SchemaRules();
    FieldVerdict(Schema, d, numberOf, "amount", YupNumber(true, false, Some(0.0)), Num(0.0));
    FieldVerdict(Schema, d, numberOf, "processId", YupNumber(false, true, None), v);
    if Given(processIdParam) && ParseInt(processIdParam.value).None? {
      assert v == NaN;
      assert !YupHolds(YupNumber(false, true, None), v, numberOf);
    } else {
      assert v.Null? || v.Num?;
      assert YupHolds(YupNumber(false, true, None), v, numberOf);
    }
  }

  /** The process may be left empty (null or absent); an amount of 0 passes, a negative one fails. */
  lemma ProcessOptionalAmountNonNegative(values: FormValues, x: real, numberOf: string -> Option<real>)
    requires x < 0.0
    ensures "processId" !in Errors(values["processId" := Null], numberOf)
    ensures "processId" !in Errors(values - {"processId"}, numberOf)
    ensures "amount" !in Errors(values["amount" := Num(0.0)], numberOf)
    ensures "amount" in Errors(values["amount" := Num(x)], numberOf)
  {
    assert Get(values["processId" := Null], "processId") == Null;
    assert Get(values - {"processId"}, "processId") == Undefined;
    assert Get(values["amount" := Num(0.0)], "amount") == Num(0.0);
    assert Get(values["amount" := Num(x)], "amount") == Num(x);
  }

  /** Clearing any of the four required fields fails it. */
  lemma ClearedRequiredFails(values: FormValues, f: string, numberOf: string -> Option<real>)
    requires f in Required
    ensures f in Errors(values[f := Str("")], numberOf)
  {
    assert Get(values[f := Str("")], f) == Str("");
  }

  /** `{...data, amount: Number(data.amount), documentUrls: []}` over the values yup cast. */
  function Payload(values: FormValues, numberOf: string -> Option<real>): (p: FormValues)
    ensures p.Keys == values.Keys + {"documentUrls"}
    ensures p["documentUrls"] == Arr([])
    ensures forall k :: k in values && k !in Schema && k != "documentUrls" ==> p[k] == values[k]
  {
    CastNumbers(Schema, values, numberOf)["documentUrls" := Arr([])]
  }

  /** A valid form sends a numeric, non-negative amount and keeps the texts as entered. */
  lemma ValidPayloadIsNumeric(values: FormValues, numberOf: string -> Option<real>)
    requires Errors(values, numberOf) == {}
    ensures var p := Payload(values, numberOf);
      Get(p, "amount").Num? && Get(p, "amount").n >= 0.0 && Get(p, "type") == Get(values, "type")
  {
    assert Schema["amount"] == YupNumber(true, false, Some(0.0));
    assert YupHolds(Schema["amount"], Get(values, "amount"), numberOf);
    assert Schema["type"] == YupString(true);
  }

  /**
   * `handleSubmit(onSubmit)`: a valid form creates the transaction and
   * opens `/finance/{id}`; a failure only shows an error.
   */
  function OnSubmit(values: FormValues, numberOf: string -> Option<real>, create: FormValues -> Outcome<int>): (r: CreateResult)
    ensures r.Invalid? <==> Errors(values, numberOf) != {}
    ensures r.Created? ==>
      && r.payload == Payload(values, numberOf) && r.payload["documentUrls"] == Arr([])
      && Get(r.payload, "amount").Num? && Get(r.payload, "amount").n >= 0.0
      && create(r.payload).Ok? && r.path == ItemUrl("/finance", create(r.payload).value)
      && r.notice == Snackbar("Transaction created successfully", "success")
    ensures r.CreateFailed? ==> r.notice == Snackbar("Failed to create transaction", "error")
    ensures Errors(values, numberOf) == {} && create(Payload(values, numberOf)).Ok? ==> r.Created?
    ensures Errors(values, numberOf) == {} && create(Payload(values, numberOf)).Err? ==> r.CreateFailed?
  {
    if Errors(values, numberOf) == {} then
      ValidPayloadIsNumeric(values, numberOf);
      CreateFlow(Errors(values, numberOf), Payload(values, numberOf), create,
                 "/finance", "Transaction created successfully", "Failed to create transaction")
    else
      CreateFlow(Errors(values, numberOf), Payload(values, numberOf), create,
                 "/finance", "Transaction created successfully", "Failed to create transaction")
  }
}
