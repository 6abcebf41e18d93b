/**
 * `MarketingRecordForm` (app/components/business/MarketingRecordForm.tsx):
 * records a marketing expense. The cost field's display pair is in `Currency`.
 */
module MarketingRecordForm {
  import opened Common
  import opened Js
  import opened Forms

  /** An entry of the `customers` prop. */
  datatype CustomerRef = CustomerRef(id: int, name: string)

  /** A select option: `label` (here `labelText`) is shown, `value` is stored. */
  datatype SelectOption = SelectOption(labelText: string, value: int)

  /** The referral customer choices: one per customer, in the given order. */
  function ReferralOptions(customers: seq<CustomerRef>): (opts: seq<SelectOption>)
    ensures |opts| == |customers|
    ensures forall i :: 0 <= i < |customers| ==>
      opts[i] == SelectOption(customers[i].name, customers[i].id)
  {
    if customers == [] then []
    else [SelectOption(customers[0].name, customers[0].id)] + ReferralOptions(customers[1..])
  }

  /** Without a `customers` prop there is nothing to choose from. */
  lemma NoCustomersNoOptions(customers: Option<seq<CustomerRef>>)
    requires customers.None?
    ensures ReferralOptions(customers.GetOr([])) == []
  {
  }

  const RequiredFields: set<string> :=
    {"channel", "cost", "conversionSource", "marketingContent", "effectiveDate"}

  /** The fields that fail validation; the referral customer is never one of them. */
  function Errors(values: FormValues): (e: set<string>)
    ensures forall f :: f in e <==> f in RequiredFields && AntdEmpty(Get(values, f))
    ensures "referralCustomerId" !in e
  {
    Missing(values, RequiredFields)
  }

  /** A cost of 0 is filled in; a cleared cost field is not. */
  lemma ZeroCostAccepted(values: FormValues)
    ensures "cost" !in Errors(values["cost" := Num(0.0)])
    ensures "cost" in Errors(values["cost" := Null])
  {
    assert Get(values["cost" := Num(0.0)], "cost") == Num(0.0);
    assert Get(values["cost" := Null], "cost") == Null;
  }

  /**
   * `{...values, effectiveDate: values.effectiveDate.format('YYYY-MM-DD')}`;
   * the date library's formatting is the parameter `formatDate`.
   */
  function Record(values: FormValues, formatDate: JsValue -> string): (r: FormValues)
    ensures "effectiveDate" in r && r["effectiveDate"] == Str(formatDate(Get(values, "effectiveDate")))
    ensures forall k :: k != "effectiveDate" ==> (k in r <==> k in values)
    ensures forall k :: k in values && k != "effectiveDate" ==> r[k] == values[k]
  {
    values["effectiveDate" := Str(formatDate(Get(values, "effectiveDate")))]
  }

  /** `handleSubmit` behind antd's validation; the form has no initial values. */
  function SubmitMarketingRecord(values: FormValues, formatDate: JsValue -> string): (s: Submission)
    ensures s.sent.Some? <==> Errors(values) == {}
    ensures s.sent.Some? ==> s.sent.value == Record(values, formatDate) && s.after == map[]
    ensures s.sent.None? ==> s.after == values
  {
    Submit(values, Errors(values), Record(values, formatDate), map[])
  }
}
