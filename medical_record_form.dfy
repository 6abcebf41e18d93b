/**
 * `MedicalRecordForm` (app/components/business/MedicalRecordForm.tsx):
 * records a medical check with its uploaded report files.
 */
module MedicalRecordForm {
  import opened Common
  import opened Js
  import opened Forms

  datatype TypeOption = TypeOption(key: string, value: string, text: string)

  /** The record-type choices: one per entry of `recordTypes`, which defaults to none. */
  function RecordTypeOptions(recordTypes: Option<seq<string>>): (opts: seq<TypeOption>)
    ensures recordTypes.None? ==> opts == []
    ensures recordTypes.Some? ==> |opts| == |recordTypes.value|
    ensures recordTypes.Some? ==> forall i :: 0 <= i < |opts| ==>
      opts[i] == TypeOption(recordTypes.value[i], recordTypes.value[i], recordTypes.value[i])
  {
    OptionsOf(recordTypes.GetOr([]))
  }

  function OptionsOf(types: seq<string>): (opts: seq<TypeOption>)
    ensures |opts| == |types|
    ensures forall i :: 0 <= i < |types| ==> opts[i] == TypeOption(types[i], types[i], types[i])
  {
    if types == [] then [] else [TypeOption(types[0], types[0], types[0])] + OptionsOf(types[1..])
  }

  /** `initialValues`: no abnormal flags. */
  const InitialValues: FormValues := map["abnormalFlags" := Arr([])]

  const RequiredFields: set<string> :=
    {"recordType", "hospitalName", "doctorName", "checkDate", "reportContent", "reportFiles"}

  /** The fields that fail validation; flags and follow-up actions never do. */
  function Errors(values: FormValues): (e: set<string>)
    ensures forall f :: f in e <==> f in RequiredFields && AntdEmpty(Get(values, f))
    ensures "abnormalFlags" !in e && "followUpActions" !in e
  {
    Missing(values, RequiredFields)
  }

  /** `file.response?.url` for each file, in list order. */
  function ResponseUrls(files: seq<JsValue>): (urls: seq<JsValue>)
    ensures |urls| == |files|
    ensures forall i :: 0 <= i < |files| ==> urls[i] == OptGet(OptGet(files[i], "response"), "url")
  {
    if files == [] then []
    else [OptGet(OptGet(files[0], "response"), "url")] + ResponseUrls(files[1..])
  }

  /**
   * `values.reportFiles?.fileList?.map(f => f.response?.url) || []`: the
   * uploaded files' URLs, or the empty list when there is no file list.
   */
  function ReportFiles(upload: JsValue): (r: JsValue)
    ensures r.Arr?
    ensures OptGet(upload, "fileList").Arr? ==>
      r.items == ResponseUrls(OptGet(upload, "fileList").items)
    ensures !OptGet(upload, "fileList").Arr? ==> r == Arr([])
  {
    match OptGet(upload, "fileList")
    case Arr(files) => Arr(ResponseUrls(files))
    case _ => Arr([])
  }

  /**
   * The record: the values, with the check date formatted (by `formatDate`),
   * the flags defaulted to [] and the report files reduced to their URLs.
   */
  function Record(values: FormValues, formatDate: JsValue -> string): (r: FormValues)
    ensures "checkDate" in r && r["checkDate"] == Str(formatDate(Get(values, "checkDate")))
    ensures "abnormalFlags" in r && r["abnormalFlags"] == Or(Get(values, "abnormalFlags"), Arr([]))
    ensures "reportFiles" in r && r["reportFiles"] == ReportFiles(Get(values, "reportFiles"))
    ensures forall k :: k !in {"checkDate", "abnormalFlags", "reportFiles"} ==>
      (k in r <==> k in values) && (k in values ==> r[k] == values[k])
  {
    values["checkDate" := Str(formatDate(Get(values, "checkDate")))]
          ["abnormalFlags" := Or(Get(values, "abnormalFlags"), Arr([]))]
          ["reportFiles" := ReportFiles(Get(values, "reportFiles"))]
  }

  /** With the flags absent or a list, both lists in the record are lists. */
  lemma RecordListsAreLists(values: FormValues, formatDate: JsValue -> string)
    requires Get(values, "abnormalFlags").Undefined? || Get(values, "abnormalFlags").Arr?
    ensures Record(values, formatDate)["abnormalFlags"].Arr?
    ensures Record(values, formatDate)["reportFiles"].Arr?
  {
  }

  /** `handleSubmit` behind antd's validation: send the record, then reset. */
  function SubmitMedicalRecord(values: FormValues, formatDate: JsValue -> string): (s: Submission)
    ensures s.sent.Some? <==> Errors(values) == {}
    ensures s.sent.Some? ==> s.sent.value == Record(values, formatDate) && s.after == InitialValues
    ensures s.sent.None? ==> s.after == values
  {
    Submit(values, Errors(values), Record(values, formatDate), InitialValues)
  }
}
