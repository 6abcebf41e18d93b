/**
 * `DocumentUpload` (app/documents/components/DocumentUpload.tsx): the upload
 * dialog. It holds the chosen file, category and description, builds a
 * multipart form from them and the component's props, and sends it.
 */
module DocumentUpload {
  import opened Common
  import opened Js

  /** A file picked in the browser; only its identity matters here. */
  datatype File = File(name: string, size: nat)

  /** One multipart form entry's value. */
  datatype FormValue = FileValue(file: File) | Text(text: string)

  datatype FormEntry = FormEntry(name: string, value: FormValue)

  const Categories: seq<string> :=
    ["Contract", "Report", "Invoice", "Medical Record", "Identification", "Other"]

  const MissingInput := "Please select a file and category"
  const Uploaded := "Document uploaded successfully"
  const UploadFailed := "Failed to upload document"

  /** `!file || !category`: what the Upload button and `handleUpload` both refuse. */
  predicate Rejects(file: Option<File>, category: string) {
    file.None? || category == ""
  }

  /** Whether the form has an entry of that name. */
  predicate HasEntry(form: seq<FormEntry>, name: string) {
    exists i :: 0 <= i < |form| && form[i].name == name
  }

  /**
   * The entries after the fixed four: the related entity's type when it is
   * non-empty, then its id, as decimal text, when it is given and not 0.
   */
  function RelatedFields(relatedEntityType: Option<string>, relatedEntityId: Option<int>): seq<FormEntry> {
    (if Given(relatedEntityType) then [FormEntry("relatedEntityType", Text(relatedEntityType.value))] else [])
    + (if relatedEntityId.Some? && relatedEntityId.value != 0
       then [FormEntry("relatedEntityId", Text(IntToString(relatedEntityId.value)))] else [])
  }

  /** The form sent: file, category, description and uploader, then the related entity's entries. */
  function FormDataOf(file: File, category: string, description: string, uploadedBy: string,
                      relatedEntityType: Option<string>, relatedEntityId: Option<int>): seq<FormEntry> {
    [FormEntry("file", FileValue(file)), FormEntry("category", Text(category)),
     FormEntry("description", Text(description)), FormEntry("uploadedBy", Text(uploadedBy))]
    + RelatedFields(relatedEntityType, relatedEntityId)
  }

  /** Appends the form's fields one at a time: the four fixed ones, then the related entity's. */
  method BuildFormData(file: File, category: string, description: string, uploadedBy: string,
                       relatedEntityType: Option<string>, relatedEntityId: Option<int>)
    returns (form: seq<FormEntry>)
    ensures form == FormDataOf(file, category, description, uploadedBy, relatedEntityType, relatedEntityId)
    ensures HasEntry(form, "relatedEntityType") <==> Given(relatedEntityType)
    ensures HasEntry(form, "relatedEntityId") <==> relatedEntityId.Some? && relatedEntityId.value != 0
  {
    form := [];
    form := form + [FormEntry("file", FileValue(file))];
    form := form + [FormEntry("category", Text(category))];
    form := form + [FormEntry("description", Text(description))];
    form := form + [FormEntry("uploadedBy", Text(uploadedBy))];
    ghost var fixed, extra := form, [];
    assert fixed == [FormEntry("file", FileValue(file)), FormEntry("category", Text(category)),
                     FormEntry("description", Text(description)), FormEntry("uploadedBy", Text(uploadedBy))];
    if Given(relatedEntityType) {
      var e := FormEntry("relatedEntityType", Text(relatedEntityType.value));
      form, extra := form + [e], [e];
    }
    assert form == fixed + extra;
    if relatedEntityId.Some? && relatedEntityId.value != 0 {
      var e := FormEntry("relatedEntityId", Text(IntToString(relatedEntityId.value)));
      form, extra := form + [e], extra + [e];
    }
    assert form == fixed + extra && extra == RelatedFields(relatedEntityType, relatedEntityId);
    FixedNames(file, category, description, uploadedBy);
    RelatedEntryNames(fixed, relatedEntityType, relatedEntityId);
  }

  /** None of the four fixed entries is named after the related entity. */
  lemma FixedNames(file: File, category: string, description: string, uploadedBy: string)
    ensures var fixed := [FormEntry("file", FileValue(file)), FormEntry("category", Text(category)),
                          FormEntry("description", Text(description)), FormEntry("uploadedBy", Text(uploadedBy))];
      !HasEntry(fixed, "relatedEntityType") && !HasEntry(fixed, "relatedEntityId")
  {
  }

  /** After entries of other names, the related entity's type and id are present exactly when appended. */
  lemma RelatedEntryNames(fixed: seq<FormEntry>, relatedEntityType: Option<string>, relatedEntityId: Option<int>)
    requires !HasEntry(fixed, "relatedEntityType") && !HasEntry(fixed, "relatedEntityId")
    ensures var form := fixed + RelatedFields(relatedEntityType, relatedEntityId);
      (HasEntry(form, "relatedEntityType") <==> Given(relatedEntityType))
      && (HasEntry(form, "relatedEntityId") <==> relatedEntityId.Some? && relatedEntityId.value != 0)
  {
    var extra := RelatedFields(relatedEntityType, relatedEntityId);
    HasEntryConcat(fixed, extra, "relatedEntityType");
    HasEntryConcat(fixed, extra, "relatedEntityId");
    if Given(relatedEntityType) {
      assert extra[0].name == "relatedEntityType";
    }
    if relatedEntityId.Some? && relatedEntityId.value != 0 {
      assert extra[|extra| - 1].name == "relatedEntityId";
    }
  }

  /** A concatenation has an entry of a name exactly when one of its parts has. */
  lemma HasEntryConcat(a: seq<FormEntry>, b: seq<FormEntry>, name: string)
    ensures HasEntry(a + b, name) <==> HasEntry(a, name) || HasEntry(b, name)
  {
    if HasEntry(a, name) {
      var i :| 0 <= i < |a| && a[i].name == name;
      assert (a + b)[i].name == name;
    }
    if HasEntry(b, name) {
      var i :| 0 <= i < |b| && b[i].name == name;
      assert (a + b)[|a| + i].name == name;
    }
    if HasEntry(a + b, name) {
      var i :| 0 <= i < |a + b| && (a + b)[i].name == name;
      if i < |a| {
        assert a[i].name == name;
      } else {
        assert b[i - |a|].name == name;
      }
    }
  }

  /** The id sent as text reads back, with `parseInt`, as the id itself. */
  lemma SentIdReadsBack(e: FormEntry, id: int)
    requires e == FormEntry("relatedEntityId", Text(IntToString(id)))
    ensures ParseInt(e.value.text) == Some(id)
  {
    ParseIntOfIntToString(id);
  }

  class DocumentUpload {
    const relatedEntityType: Option<string>
    const relatedEntityId: Option<int>
    const uploadedBy: string
    var file: Option<File>
    var category: string
    var description: string
    /** Toasts shown so far, oldest first. */
    var notices: seq<Notice>
    /** How many times the `onClose` prop has been called. */
    var closeCalls: nat

    constructor (relatedEntityType: Option<string>, relatedEntityId: Option<int>, uploadedBy: string)
      ensures this.relatedEntityType == relatedEntityType && this.relatedEntityId == relatedEntityId
      ensures this.uploadedBy == uploadedBy
      ensures file == None && category == "" && description == "" && notices == [] && closeCalls == 0
    {
      this.relatedEntityType := relatedEntityType;
      this.relatedEntityId := relatedEntityId;
      this.uploadedBy := uploadedBy;
      file, category, description, notices, closeCalls := None, "", "", [], 0;
    }

    /** The Upload button's `disabled`. */
    predicate UploadDisabled()
      reads this
    {
      file.None? || category == ""
    }

    /** `handleFileSelect`: the first chosen file; an empty choice keeps the old one. */
    method HandleFileSelect(files: Option<seq<File>>)
      modifies this
      ensures files.Some? && |files.value| > 0 ==> file == Some(files.value[0])
      ensures !(files.Some? && |files.value| > 0) ==> file == old(file)
      ensures category == old(category) && description == old(description)
      ensures notices == old(notices) && closeCalls == old(closeCalls)
    {
      if files.Some? && |files.value| > 0 {
        file := Some(files.value[0]);
      }
    }

    method SetCategory(value: string)
      modifies this
      ensures category == value
      ensures file == old(file) && description == old(description)
      ensures notices == old(notices) && closeCalls == old(closeCalls)
    {
      category := value;
    }

    method SetDescription(value: string)
      modifies this
      ensures description == value
      ensures file == old(file) && category == old(category)
      ensures notices == old(notices) && closeCalls == old(closeCalls)
    {
      description := value;
    }

    /** `handleClose`: clear the inputs and tell the parent. */
    method HandleClose()
      modifies this
      ensures file == None && category == "" && description == ""
      ensures closeCalls == old(closeCalls) + 1 && notices == old(notices)
    {
      file := None;
      category := "";
      description := "";
      closeCalls := closeCalls + 1;
    }

    /**
     * `handleUpload`: with a file and a category, send the form built from
     * them; on success close (clearing the inputs), on failure keep them.
     * `sent` is the form handed to the upload, if one was.
     */
    method HandleUpload(upload: seq<FormEntry> -> Outcome<()>) returns (sent: Option<seq<FormEntry>>)
      modifies this
      ensures Rejects(old(file), old(category)) ==>
        sent.None? && file == old(file) && category == old(category) && description == old(description) &&
        closeCalls == old(closeCalls) && notices == old(notices) + [Snackbar(MissingInput, "error")]
      ensures !Rejects(old(file), old(category)) ==>
        sent == Some(FormDataOf(old(file).value, old(category), old(description), uploadedBy,
                                relatedEntityType, relatedEntityId))
    ensures sent.Some? ==>
      (HasEntry(sent.value, "relatedEntityType") <==> Given(relatedEntityType)) &&
      (HasEntry(sent.value, "relatedEntityId") <==> relatedEntityId.Some? && relatedEntityId.value != 0)
      ensures sent.Some? && upload(sent.value).Ok? ==>
        file == None && category == "" && description == "" && closeCalls == old(closeCalls) + 1 &&
        notices == old(notices) + [Snackbar(Uploaded, "success")]
      ensures sent.Some? && upload(sent.value).Err? ==>
        file == old(file) && category == old(category) && description == old(description) &&
        closeCalls == old(closeCalls) && notices == old(notices) + [Snackbar(UploadFailed, "error")]
    {
      if file.None? || category == "" {
        notices := notices + [Snackbar(MissingInput, "error")];
        return None;
      }
      var form := BuildFormData(file.value, category, description, uploadedBy, relatedEntityType, relatedEntityId);
      sent := Some(form);
      var answer := upload(form);
      if answer.Ok? {
        notices := notices + [Snackbar(Uploaded, "success")];
        HandleClose();
      } else {
        notices := notices + [Snackbar(UploadFailed, "error")];
      }
    }
  }

  /** The Upload button is disabled exactly when `handleUpload` would refuse. */
  lemma DisabledMatchesGuard(d: DocumentUpload)
    ensures d.UploadDisabled() <==> Rejects(d.file, d.category)
  {
  }
}
