/**
 * `StatusChangeForm` (app/components/business/StatusChangeForm.tsx): moves a
 * business to another phase, recording the phase it leaves.
 */
module StatusChangeForm {
  import opened Common
  import opened Js
  import opened Forms

  /** `BusinessPhase` (app/types/business.ts), in declaration order. */
  datatype BusinessPhase =
    | ADVERTISING | OFFLINE_CONTACT | REFERRAL | PACKAGE_DESIGN | CONTRACT_SIGNING
    | IVF | EMBRYO_TRANSFER | PREGNANCY_CARE | DELIVERY | PATERNITY_TEST
    | OVERSEAS_CARE | IMMIGRATION_SETTLEMENT

  /** `Object.entries(BusinessPhase)`, in declaration order. */
  const AllPhases: seq<BusinessPhase> := [
    ADVERTISING, OFFLINE_CONTACT, REFERRAL, PACKAGE_DESIGN, CONTRACT_SIGNING,
    IVF, EMBRYO_TRANSFER, PREGNANCY_CARE, DELIVERY, PATERNITY_TEST,
    OVERSEAS_CARE, IMMIGRATION_SETTLEMENT]

  /** Each phase's string value, which is its own name. */
  function PhaseName(p: BusinessPhase): string {
    match p
    case ADVERTISING => "ADVERTISING"
    case OFFLINE_CONTACT => "OFFLINE_CONTACT"
    case REFERRAL => "REFERRAL"
    case PACKAGE_DESIGN => "PACKAGE_DESIGN"
    case CONTRACT_SIGNING => "CONTRACT_SIGNING"
    case IVF => "IVF"
    case EMBRYO_TRANSFER => "EMBRYO_TRANSFER"
    case PREGNANCY_CARE => "PREGNANCY_CARE"
    case DELIVERY => "DELIVERY"
    case PATERNITY_TEST => "PATERNITY_TEST"
    case OVERSEAS_CARE => "OVERSEAS_CARE"
    case IMMIGRATION_SETTLEMENT => "IMMIGRATION_SETTLEMENT"
  }

  /** The list names every phase exactly once. */
  lemma AllPhasesListsEachOnce(p: BusinessPhase)
    ensures p in AllPhases
    ensures forall i, j :: 0 <= i < j < |AllPhases| ==> AllPhases[i] != AllPhases[j]
  {
  }

  datatype PhaseOption = PhaseOption(value: string, disabled: bool)

  /** One option per phase of `phases`, disabled when it is `current`. */
  function OptionsFor(phases: seq<BusinessPhase>, current: BusinessPhase): (opts: seq<PhaseOption>)
    ensures |opts| == |phases|
    ensures forall i :: 0 <= i < |phases| ==>
      opts[i].value == PhaseName(phases[i]) && (opts[i].disabled <==> phases[i] == current)
  {
    if phases == [] then []
    else [PhaseOption(PhaseName(phases[0]), phases[0] == current)] + OptionsFor(phases[1..], current)
  }

  /** The target-phase choices: every phase, the current one disabled. */
  function PhaseOptions(current: BusinessPhase): (opts: seq<PhaseOption>)
    ensures |opts| == 12
    ensures forall i :: 0 <= i < 12 ==>
      opts[i].value == PhaseName(AllPhases[i]) && (opts[i].disabled <==> AllPhases[i] == current)
  {
    OptionsFor(AllPhases, current)
  }

  /** Exactly one choice is disabled, and it is the current phase. */
  lemma OnlyCurrentPhaseDisabled(current: BusinessPhase)
    ensures exists i :: 0 <= i < 12 && PhaseOptions(current)[i] == PhaseOption(PhaseName(current), true)
    ensures forall i, j ::
      (0 <= i < 12 && 0 <= j < 12 && PhaseOptions(current)[i].disabled && PhaseOptions(current)[j].disabled) ==> i == j
  {
    AllPhasesListsEachOnce(current);
    OnlyOneDisabled(AllPhases, current);
    assert |AllPhases| == 12 && PhaseOptions(current) == OptionsFor(AllPhases, current);
  }

  /** Over a list naming each phase at most once, only the current phase's option is disabled. */
  lemma OnlyOneDisabled(phases: seq<BusinessPhase>, current: BusinessPhase)
    requires current in phases
    requires forall i, j :: 0 <= i < j < |phases| ==> phases[i] != phases[j]
    ensures exists i :: 0 <= i < |phases| && OptionsFor(phases, current)[i] == PhaseOption(PhaseName(current), true)
    ensures forall i, j ::
      (0 <= i < |phases| && 0 <= j < |phases| && OptionsFor(phases, current)[i].disabled
       && OptionsFor(phases, current)[j].disabled) ==> i == j
  {
    var opts := OptionsFor(phases, current);
    var k :| 0 <= k < |phases| && phases[k] == current;
    assert opts[k] == PhaseOption(PhaseName(current), true);
    forall i, j | 0 <= i < |phases| && 0 <= j < |phases| && opts[i].disabled && opts[j].disabled
      ensures i == j
    {
      assert phases[i] == current == phases[j];
    }
  }

  /** `initialValues`: the abnormal switch starts off. */
  const InitialValues: FormValues := map["isAbnormal" := Bool(false)]

  /**
   * The fields that carry a `required` rule: target phase and operator
   * always; reason and solution only while the abnormal switch is on, since
   * only then are they rendered.
   */
  function Required(values: FormValues): set<string> {
    {"currentPhase", "operator"} +
    (if Truthy(Get(values, "isAbnormal")) then {"abnormalReason", "solution"} else {})
  }

  /** The fields that fail validation. */
  function Errors(values: FormValues): (e: set<string>)
    ensures "currentPhase" in e <==> AntdEmpty(Get(values, "currentPhase"))
    ensures "operator" in e <==> AntdEmpty(Get(values, "operator"))
    ensures "abnormalReason" in e <==> Truthy(Get(values, "isAbnormal")) && AntdEmpty(Get(values, "abnormalReason"))
    ensures "solution" in e <==> Truthy(Get(values, "isAbnormal")) && AntdEmpty(Get(values, "solution"))
    ensures e <= {"currentPhase", "operator", "abnormalReason", "solution"}
  {
    Missing(values, Required(values))
  }

  /** A fresh form fails on the target phase and the operator only. */
  lemma FreshFormErrors()
    ensures Errors(InitialValues) == {"currentPhase", "operator"}
  {
    assert !Truthy(Get(InitialValues, "isAbnormal"));
  }

  /** `{...values, previousPhase: currentPhase}`. */
  function Record(values: FormValues, currentPhase: BusinessPhase): (r: FormValues)
    ensures "previousPhase" in r && r["previousPhase"] == Str(PhaseName(currentPhase))
    ensures forall k :: k != "previousPhase" ==> (k in r <==> k in values)
    ensures forall k :: k in values && k != "previousPhase" ==> r[k] == values[k]
  {
    values["previousPhase" := Str(PhaseName(currentPhase))]
  }

  /** `handleSubmit` behind antd's validation: send the record, then reset. */
  function SubmitStatusChange(values: FormValues, currentPhase: BusinessPhase): (s: Submission)
    ensures s.sent.Some? <==> Errors(values) == {}
    ensures s.sent.Some? ==> s.sent.value == Record(values, currentPhase) && s.after == InitialValues
    ensures s.sent.None? ==> s.after == values
  {
    Submit(values, Errors(values), Record(values, currentPhase), InitialValues)
  }

  /** A `previousPhase` typed into the values is overridden by the prop. */
  lemma PreviousPhaseForced(values: FormValues, currentPhase: BusinessPhase, other: JsValue)
    ensures Record(values["previousPhase" := other], currentPhase) == Record(values, currentPhase)
  {
    assert values["previousPhase" := other]["previousPhase" := Str(PhaseName(currentPhase))]
        == values["previousPhase" := Str(PhaseName(currentPhase))];
  }
}
