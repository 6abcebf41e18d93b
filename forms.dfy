/**
 * What the antd forms under app/components/business share: field values
 * as a JavaScript object, the `required` rule, and what submitting does.
 */
module Forms {
  import opened Common
  import opened Js

  /** The values object a form hands to `onFinish`. */
  type FormValues = map<string, JsValue>

  /**
   * The emptiness antd's `required` rule rejects: no value, null, the empty
   * string and the empty list. `0` and `false` count as filled in.
   */
  predicate AntdEmpty(v: JsValue) {
    v.Undefined? || v.Null? || v == Str("") || v == Arr([])
  }

  /** The required fields whose value is empty, which are the fields that fail validation. */
  function Missing(values: FormValues, required: set<string>): (failed: set<string>)
    ensures failed <= required
    ensures forall f :: f in required ==> (f in failed <==> AntdEmpty(Get(values, f)))
  {
    set f | f in required && AntdEmpty(Get(values, f))
  }

  /**
   * One press of the submit button: `sent` is the record handed to the
   * `onSubmit` prop, if validation passed; `after` is what the fields then hold.
   */
  datatype Submission = Submission(sent: Option<FormValues>, after: FormValues)

  /**
   * antd runs `onFinish` only when no field fails; every `onFinish` here ends
   * in `form.resetFields()`, back to the form's initial values.
   */
  function Submit(values: FormValues, failed: set<string>, record: FormValues, initial: FormValues): (s: Submission)
    ensures s.sent.Some? <==> failed == {}
    ensures s.sent.Some? ==> s.sent.value == record && s.after == initial
    ensures s.sent.None? ==> s.after == values
  {
    if failed == {} then Submission(Some(record), initial) else Submission(None, values)
  }
}
