/**
 * What the "new" pages (business, finance, resources, customers) share: react-hook-form holding the
 * values, field rules written either as a yup schema (business, finance,
 * resources) or as `Controller` rules (customers), and an `onSubmit` that
 * creates the record, reports it and opens its page.
 */
module FormRules {
  import opened Common
  import opened Js
  import opened Query

  /** The values react-hook-form holds, by field name. */
  type FormValues = map<string, JsValue>

  /** The text without its `\s` characters, as yup strips it before reading a number. */
  function StripSpaces(s: string): (r: string)
    ensures |r| <= |s|
    ensures forall c :: c in r <==> c in s && !IsSpace(c)
  {
    if s == [] then []
    else if IsSpace(s[0]) then StripSpaces(s[1..])
    else [s[0]] + StripSpaces(s[1..])
  }

  // ---------------------------------------------------------------------
  // yup

  /** One entry of a yup object schema. */
  datatype YupRule =
    | YupString(required: bool)
    | YupNumber(required: bool, nullable: bool, min: Option<real>)

  /**
   * `yup.number()`'s cast: a number stays, a string is read as a number once
   * its spaces are stripped (`numberOf` is JavaScript's `Number` of that
   * text, None for NaN), and everything else is not a number.
   */
  function NumberCast(v: JsValue, numberOf: string -> Option<real>): (n: Option<real>)
    ensures v.Num? ==> n == Some(v.n)
    ensures !v.Num? && !v.Str? ==> n == None
    ensures v == Str("") ==> n == None
  {
    match v
    case Num(x) => Some(x)
    case Str(s) => if StripSpaces(s) == "" then None else numberOf(StripSpaces(s))
    case _ => None
  }

  /**
   * Whether a value passes its yup rule. A string rule takes strings and
   * anything yup casts to text (numbers, NaN, booleans); a number rule
   * refuses NaN and whatever does not cast to a number; `required` refuses
   * undefined and the empty string; null is refused unless the rule is
   * `nullable`, which only the number rules here are.
   */
  predicate YupHolds(rule: YupRule, v: JsValue, numberOf: string -> Option<real>) {
    match rule
    case YupString(required) =>
      (match v
       case Undefined => !required
       case Null => false
       case Str(s) => !required || s != ""
       case Num(_) => true
       case NaN => true
       case Bool(_) => true
       case Arr(_) => false
       case Obj(_) => false)
    case YupNumber(required, nullable, min) =>
      if v.Undefined? then !required
      else if v.Null? then nullable && !required
      else
        match NumberCast(v, numberOf)
        case None => false
        case Some(n) => min.None? || n >= min.value
  }

  /** The schema's fields whose value fails its rule: the errors yupResolver reports. */
  function SchemaErrors(schema: map<string, YupRule>, values: FormValues, numberOf: string -> Option<real>): (e: set<string>)
    ensures forall f :: f in e <==> f in schema && !YupHolds(schema[f], Get(values, f), numberOf)
  {
    set f | f in schema && !YupHolds(schema[f], Get(values, f), numberOf)
  }

  /** One field's verdict, read off its rule and its value. */
  lemma FieldVerdict(schema: map<string, YupRule>, values: FormValues, numberOf: string -> Option<real>,
                     f: string, rule: YupRule, v: JsValue)
    requires f in schema && schema[f] == rule && Get(values, f) == v
    ensures f in SchemaErrors(schema, values, numberOf) <==> !YupHolds(rule, v, numberOf)
  {
  }

  /**
   * The values yupResolver hands to `onSubmit`: each number field that
   * reads as a number becomes that number; everything else is kept.
   */
  function CastNumbers(schema: map<string, YupRule>, values: FormValues, numberOf: string -> Option<real>): (r: FormValues)
    ensures r.Keys == values.Keys
    ensures forall k :: k in values && k in schema && schema[k].YupNumber? && NumberCast(values[k], numberOf).Some? ==>
      r[k] == Num(NumberCast(values[k], numberOf).value)
    ensures forall k :: k in values && !(k in schema && schema[k].YupNumber?) ==> r[k] == values[k]
  {
    map k | k in values ::
      if k in schema && schema[k].YupNumber? && NumberCast(values[k], numberOf).Some?
      then Num(NumberCast(values[k], numberOf).value) else values[k]
  }

  /**
   * The errors worked out field by field: when every field is either known
   * to pass or among `fails`, the errors lie within `fails`; when each of
   * `fails` fails as well, they are exactly `fails`.
   */
  lemma ErrorsWithin(e: set<string>, keys: set<string>, passing: set<string>, fails: set<string>)
    requires e <= keys && keys <= passing + fails && e !! passing
    ensures e <= fails
  {
  }

  lemma ErrorsExactly(e: set<string>, keys: set<string>, passing: set<string>, fails: set<string>)
    requires e <= keys && keys <= passing + fails
    requires e !! passing && fails <= e
    ensures e == fails
  {
  }

  /** A required string rule fails exactly on a missing, null or empty value, or one yup cannot read as text. */
  lemma RequiredString(v: JsValue, numberOf: string -> Option<real>)
    ensures !YupHolds(YupString(true), v, numberOf) <==> v.Undefined? || v.Null? || v == Str("") || v.Arr? || v.Obj?
  {
  }

  /** A required number with a minimum accepts the minimum itself and refuses anything below it, and the empty field. */
  lemma NumberAtLeast(m: real, x: real, numberOf: string -> Option<real>)
    ensures YupHolds(YupNumber(true, false, Some(m)), Num(x), numberOf) <==> x >= m
    ensures YupHolds(YupNumber(true, false, Some(m)), Num(m), numberOf)
    ensures !YupHolds(YupNumber(true, false, Some(m)), Str(""), numberOf)
    ensures !YupHolds(YupNumber(true, false, Some(m)), Undefined, numberOf)
  {
  }

  // ---------------------------------------------------------------------
  // react-hook-form `rules`

  /** A `Controller`'s `rules`: `required`, and `min` when given. */
  datatype FieldRule = FieldRule(required: bool, min: Option<real>)

  /** react-hook-form's emptiness for `required`: undefined, null, '', [] and false. */
  predicate RhfEmpty(v: JsValue) {
    v.Undefined? || v.Null? || v == Str("") || v == Arr([]) || v == Bool(false)
  }

  /**
   * The number react-hook-form compares with `min`: `+value`, taken only
   * when `isNaN(value)` is false. A text is read by JavaScript's `Number`
   * as it stands (`numberOf`), with no spaces removed inside it, so "-1 000"
   * is NaN; a boolean is 1 or 0; NaN and objects are not numbers.
   */
  function RhfNumber(v: JsValue, numberOf: string -> Option<real>): (n: Option<real>)
    ensures v.Num? ==> n == Some(v.n)
    ensures v.Str? ==> n == numberOf(v.s)
    ensures v.Bool? ==> n == Some(if v.b then 1.0 else 0.0)
    ensures v.NaN? || v.Obj? || v.Undefined? || v.Null? ==> n == None
  {
    match v
    case Num(x) => Some(x)
    case Str(s) => numberOf(s)
    case Bool(b) => Some(if b then 1.0 else 0.0)
    case _ => None
  }

  /**
   * Whether a value passes its rules. `min` compares only values that read
   * as numbers (NaN skips the comparison), and never an empty value.
   */
  predicate RuleHolds(rule: FieldRule, v: JsValue, numberOf: string -> Option<real>) {
    !(rule.required && RhfEmpty(v))
    && !(rule.min.Some? && !RhfEmpty(v)
         && match RhfNumber(v, numberOf)
            case Some(n) => n < rule.min.value
            case None => false)
  }

  /** The fields whose rules fail, the ones `formState.errors` then holds. */
  function RuleErrors(rules: map<string, FieldRule>, values: FormValues, numberOf: string -> Option<real>): (e: set<string>)
    ensures forall f :: f in e <==> f in rules && !RuleHolds(rules[f], Get(values, f), numberOf)
  {
    set f | f in rules && !RuleHolds(rules[f], Get(values, f), numberOf)
  }

  /** A required field the values lack fails. */
  lemma AbsentRequiredFails(rules: map<string, FieldRule>, values: FormValues, f: string, numberOf: string -> Option<real>)
    requires f in rules && rules[f].required && f !in values
    ensures f in RuleErrors(rules, values, numberOf)
  {
  }

  /** A field holding non-empty text passes a rule without a minimum. */
  lemma TextPassesRule(rules: map<string, FieldRule>, values: FormValues, f: string, numberOf: string -> Option<real>)
    requires f in rules && rules[f].min.None? && f in values && values[f].Str? && values[f].s != ""
    ensures f !in RuleErrors(rules, values, numberOf)
  {
  }

  /**
   * A text JavaScript's `Number` cannot read skips `min`: a required field
   * holding it passes, even where yup, stripping its spaces, would find a
   * number below the minimum.
   */
  lemma UnreadableTextSkipsMin(m: real, s: string, numberOf: string -> Option<real>)
    requires s != "" && numberOf(s).None?
    ensures RuleHolds(FieldRule(true, Some(m)), Str(s), numberOf)
  {
  }

  /** A number at or above a rule's minimum passes it. */
  lemma NumberPassesRule(rules: map<string, FieldRule>, values: FormValues, f: string, numberOf: string -> Option<real>)
    requires f in rules && rules[f].min.Some? && f in values && values[f].Num? && values[f].n >= rules[f].min.value
    ensures f !in RuleErrors(rules, values, numberOf)
  {
  }

  // ---------------------------------------------------------------------
  // Submitting

  /** What pressing "create" comes to. */
  datatype CreateResult =
    | Invalid(errors: set<string>)
    | Created(payload: FormValues, notice: Notice, path: string)
    | CreateFailed(payload: FormValues, notice: Notice)

  /**
   * `handleSubmit(onSubmit)`: with errors nothing is sent; otherwise the
   * payload goes to the create mutation (`create`, standing for the
   * network, answering the new record's id). Success shows `created` and
   * opens `collection/id`; failure shows `failed` and stays.
   */
  function CreateFlow(errors: set<string>, payload: FormValues, create: FormValues -> Outcome<int>,
                      collection: string, created: string, failed: string): (r: CreateResult)
    ensures errors != {} <==> r.Invalid?
    ensures r.Invalid? ==> r.errors == errors
    ensures errors == {} && create(payload).Ok? ==>
      r == Created(payload, Snackbar(created, "success"), ItemUrl(collection, create(payload).value))
    ensures errors == {} && create(payload).Err? ==> r == CreateFailed(payload, Snackbar(failed, "error"))
  {
    if errors != {} then Invalid(errors)
    else match create(payload)
      case Ok(id) => Created(payload, Snackbar(created, "success"), ItemUrl(collection, id))
      case Err(_) => CreateFailed(payload, Snackbar(failed, "error"))
  }

  /** The page opened after a creation names the new record: its id reads back from the path. */
  lemma CreatedPathNamesRecord(errors: set<string>, payload: FormValues, create: FormValues -> Outcome<int>,
                               collection: string, created: string, failed: string)
    requires CreateFlow(errors, payload, create, collection, created, failed).Created?
    ensures var path := CreateFlow(errors, payload, create, collection, created, failed).path;
      create(payload).Ok? && path[..|collection| + 1] == collection + "/"
      && ParseInt(path[|collection| + 1..]) == Some(create(payload).value)
  {
  }
}
