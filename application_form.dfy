/** The five-step application wizard: the form fields, the attached documents with the
    10 MiB limit per file, step validity and navigation, and the request body the last
    step sends. Reading a file into a data URI is a parameter (`encode`). */
module ApplicationForm {
  import opened Wrappers
  import opened Json
  import opened Seqs
  import opened Records

  /** A selected file: its name and size in bytes (the contents are not modelled). */
  datatype File = File(name: string, size: nat)

  /** `MAX_SIZE`: 10 MiB. */
  const MaxSize: nat := 10 * 1024 * 1024

  /** A file passes the size check unless it is strictly larger than the limit. */
  predicate Admissible(f: File) {
    f.size <= MaxSize
  }

  /** The two single-file slots of the documents step. */
  datatype Slot = ResumeSlot | CertificatesSlot | RecommendationSlot

  /** The ten text fields of the form, all initially empty. */
  const FormFields: seq<string> := ["fullName", "email", "phone", "position", "organization",
                                    "yearsExperience", "education", "specialization", "linkedin",
                                    "motivation"]

  /** `formData[field]`, with an absent field read as empty (both are falsy). */
  function Value(form: map<string, string>, field: string): string {
    if field in form then form[field] else ""
  }

  /** `isStepValid(step)` as written: each of steps 1 to 3 needs its text fields non-empty,
      step 4 needs a resume, and every other step is valid. Step 3 does not look at
      `motivation`. */
  function StepValid(form: map<string, string>, resume: Option<File>, step: int): (ok: bool)
    ensures step == 1 ==> (ok <==> Value(form, "fullName") != "" && Value(form, "email") != "" && Value(form, "phone") != "")
    ensures step == 2 ==> (ok <==> Value(form, "position") != "" && Value(form, "organization") != "" &&
                                   Value(form, "yearsExperience") != "")
    ensures step == 3 ==> (ok <==> Value(form, "education") != "" && Value(form, "specialization") != "")
    ensures step == 4 ==> (ok <==> resume.Some?)
    ensures !(1 <= step <= 4) ==> ok
  {
    match step
    case 1 => Value(form, "fullName") != "" && Value(form, "email") != "" && Value(form, "phone") != ""
    case 2 => Value(form, "position") != "" && Value(form, "organization") != "" && Value(form, "yearsExperience") != ""
    case 3 => Value(form, "education") != "" && Value(form, "specialization") != ""
    case 4 => resume.Some?
    case _ => true
  }

  /** The check step 3 evidently intends: the server requires `motivation` as well, so the
      step asks for it together with education and specialization. */
  function StepValidIntended(form: map<string, string>, resume: Option<File>, step: int): (ok: bool)
    ensures ok ==> StepValid(form, resume, step)
    ensures step != 3 ==> ok == StepValid(form, resume, step)
    ensures step == 3 ==> (ok <==> StepValid(form, resume, 3) && Value(form, "motivation") != "")
  {
    StepValid(form, resume, step) && (step != 3 || Value(form, "motivation") != "")
  }

  /** The wizard's four checked steps all pass. */
  predicate AllStepsValid(form: map<string, string>, resume: Option<File>) {
    forall step :: 1 <= step <= 4 ==> StepValid(form, resume, step)
  }

  predicate AllStepsValidIntended(form: map<string, string>, resume: Option<File>) {
    forall step :: 1 <= step <= 4 ==> StepValidIntended(form, resume, step)
  }

  // ---------------------------------------------------------------------------
  // The request body

  /** `fileData` is the `files` part of the request body for these documents: the resume and
      the recommendation with their names when present, and the certificates as a list of
      `{data, name}` objects, in order, when there is at least one. */
  predicate DescribesFiles(fileData: map<string, Json>, resume: Option<File>, recommendation: Option<File>,
                           certificates: seq<File>, encode: File -> string)
  {
    && ("resume" in fileData <==> resume.Some?) && ("resumeName" in fileData <==> resume.Some?)
    && (resume.Some? ==>
          fileData["resume"] == Str(encode(resume.value)) && fileData["resumeName"] == Str(resume.value.name))
    && ("recommendation" in fileData <==> recommendation.Some?)
    && ("recommendationName" in fileData <==> recommendation.Some?)
    && (recommendation.Some? ==>
          fileData["recommendation"] == Str(encode(recommendation.value)) &&
          fileData["recommendationName"] == Str(recommendation.value.name))
    && ("certificates" in fileData <==> |certificates| > 0)
    && (|certificates| > 0 ==>
          fileData["certificates"].Arr? && |fileData["certificates"].items| == |certificates| &&
          forall i :: 0 <= i < |certificates| ==>
            fileData["certificates"].items[i] == CertificateEntry(certificates[i], encode))
    && fileData.Keys <= {"resume", "resumeName", "recommendation", "recommendationName", "certificates"}
  }

  /** The `files` part of the request body as `handleSubmit` assembles it. */
  method BuildFileData(resume: Option<File>, recommendation: Option<File>, certificates: seq<File>,
                       encode: File -> string)
    returns (fileData: map<string, Json>)
    ensures DescribesFiles(fileData, resume, recommendation, certificates, encode)
  {
    fileData := map[];
    if resume.Some? {
      fileData := fileData["resume" := Str(encode(resume.value))];
      fileData := fileData["resumeName" := Str(resume.value.name)];
    }
    if recommendation.Some? {
      fileData := fileData["recommendation" := Str(encode(recommendation.value))];
      fileData := fileData["recommendationName" := Str(recommendation.value.name)];
    }
    if |certificates| > 0 {
      var entries: seq<Json> := [];
      var i := 0;
      while i < |certificates|
        invariant 0 <= i <= |certificates| && |entries| == i
        invariant forall k :: 0 <= k < i ==> entries[k] == CertificateEntry(certificates[k], encode)
      {
        entries := entries + [CertificateEntry(certificates[i], encode)];
        i := i + 1;
      }
      fileData := fileData["certificates" := Arr(entries)];
    }
  }

  /** `{ data: <data URI>, name }` for one certificate. */
  function CertificateEntry(f: File, encode: File -> string): (j: Json)
    ensures j.Obj? && j.fields.Keys == {"data", "name"} && j.fields["name"] == Str(f.name)
  {
    Obj(map["data" := Str(encode(f)), "name" := Str(f.name)])
  }

  /** `{ ...formData, files: fileData }`: every text field as a string, then `files`. */
  function Payload(form: map<string, string>, fileData: map<string, Json>): (body: map<string, Json>)
    ensures body.Keys == form.Keys + {"files"} && body["files"] == Obj(fileData)
    ensures forall f :: f in form && f != "files" ==> body[f] == Str(form[f])
  {
    (map f | f in form :: Str(form[f]))["files" := Obj(fileData)]
  }

  /** A text field is present in the body, and truthy, exactly when it is non-empty in the form. */
  lemma PayloadTruthy(form: map<string, string>, fileData: map<string, Json>, f: string)
    requires f != "files"
    ensures Truthy(Field(Payload(form, fileData), f)) <==> Value(form, f) != ""
  {
  }

  /** As written, the wizard lets an applicant through every step with `motivation` empty:
      the body it then sends lacks a field the primary server requires, so the server
      answers 400. */
  lemma {:induction false} WizardAllowsMissingMotivation(form: map<string, string>, resume: Option<File>,
                                                         fileData: map<string, Json>)
    requires forall f :: f in Required && f != "motivation" ==> Value(form, f) != ""
    requires resume.Some? && Value(form, "motivation") == ""
    ensures AllStepsValid(form, resume)
    ensures "motivation" in MissingFields(Payload(form, fileData))
  {
    assert "fullName" in Required && "email" in Required && "phone" in Required;
    assert "position" in Required && "organization" in Required && "yearsExperience" in Required;
    assert "education" in Required && "specialization" in Required && "motivation" in Required;
    MissingFieldsSpec(Payload(form, fileData));
    PayloadTruthy(form, fileData, "motivation");
  }

  /** With the intended step 3, passing all four steps guarantees a body with every field
      the primary server requires. */
  lemma {:induction false} IntendedStepsCoverRequired(form: map<string, string>, resume: Option<File>,
                                                      fileData: map<string, Json>)
    requires AllStepsValidIntended(form, resume)
    ensures MissingFields(Payload(form, fileData)) == []
  {
    var body := Payload(form, fileData);
    assert StepValidIntended(form, resume, 1) && StepValidIntended(form, resume, 2);
    assert StepValidIntended(form, resume, 3);
    forall f | f in Required
      ensures Truthy(Field(body, f))
    {
      RequiredIsCopied(f);
      PayloadTruthy(form, fileData, f);
    }
    MissingFieldsEmpty(body);
  }

  // ---------------------------------------------------------------------------
  // The component state

  class Wizard {
    var currentStep: int
    var formData: map<string, string>
    var resume: Option<File>
    var certificates: seq<File>
    var recommendation: Option<File>
    var loading: bool
    var error: string

    /** The step counter stays on one of the five steps. */
    predicate Valid()
      reads this
    {
      1 <= currentStep <= 5
    }

    constructor ()
      ensures Valid() && currentStep == 1
      ensures formData == map f | f in FormFields :: ""
      ensures resume == None && certificates == [] && recommendation == None
      ensures !loading && error == ""
    {
      currentStep := 1;
      formData := map f | f in FormFields :: "";
      resume := None;
      certificates := [];
      recommendation := None;
      loading := false;
      error := "";
    }

    /** `isStepValid`, with step 3 as intended (see `WizardAllowsMissingMotivation`). */
    function IsStepValid(step: int): bool
      reads this
    {
      StepValidIntended(formData, resume, step)
    }

    /** `handleInputChange`: only the named field changes. */
    method HandleInputChange(field: string, value: string)
      modifies this
      ensures formData == old(formData)[field := value]
      ensures forall f :: f != field ==> Value(formData, f) == Value(old(formData), f)
      ensures currentStep == old(currentStep) && resume == old(resume)
      ensures certificates == old(certificates) && recommendation == old(recommendation)
      ensures loading == old(loading) && error == old(error)
    {
      formData := formData[field := value];
    }

    /** `handleFileUpload` for the certificates input: files over the limit are dropped, the
        others appended in order; when none is left the list is unchanged. */
    method UploadCertificates(selected: seq<File>)
      modifies this
      ensures certificates == old(certificates) + Filter(selected, Admissible)
      ensures Filter(selected, Admissible) == [] ==> certificates == old(certificates)
      ensures forall f :: f in certificates && f !in old(certificates) ==> f in selected && Admissible(f)
      ensures currentStep == old(currentStep) && formData == old(formData)
      ensures resume == old(resume) && recommendation == old(recommendation)
      ensures loading == old(loading) && error == old(error)
    {
      var valid := Filter(selected, Admissible);
      if |valid| > 0 {
        certificates := certificates + valid;
      }
    }

    /** `handleFileUpload` for the resume or the recommendation: a file over the limit is
        refused and nothing changes; one at or under it fills the slot. */
    method UploadSingle(slot: Slot, f: File) returns (accepted: bool)
      requires slot != CertificatesSlot
      modifies this
      ensures accepted <==> Admissible(f)
      ensures resume == if accepted && slot == ResumeSlot then Some(f) else old(resume)
      ensures recommendation == if accepted && slot == RecommendationSlot then Some(f) else old(recommendation)
      ensures certificates == old(certificates)
      ensures currentStep == old(currentStep) && formData == old(formData)
      ensures loading == old(loading) && error == old(error)
    {
      if f.size > MaxSize {
        return false;
      }
      accepted := true;
      if slot == ResumeSlot {
        resume := Some(f);
      } else {
        recommendation := Some(f);
      }
    }

    /** `removeFile`: with an index, that certificate goes and the others keep their order;
        without one, the slot is emptied (an emptied certificate list behaves as `[]`). */
    method RemoveFile(slot: Slot, index: Option<int>)
      modifies this
      ensures slot == CertificatesSlot && index.Some? ==>
                certificates == if 0 <= index.value < |old(certificates)|
                                then old(certificates)[..index.value] + old(certificates)[index.value + 1..]
                                else old(certificates)
      ensures slot == CertificatesSlot && index.None? ==> certificates == []
      ensures slot != CertificatesSlot ==> certificates == old(certificates)
      ensures resume == if slot == ResumeSlot then None else old(resume)
      ensures recommendation == if slot == RecommendationSlot then None else old(recommendation)
      ensures currentStep == old(currentStep) && formData == old(formData)
      ensures loading == old(loading) && error == old(error)
    {
      if slot == CertificatesSlot && index.Some? {
        RemoveIndexSlices(certificates, index.value);
        certificates := RemoveIndex(certificates, index.value);
      } else if slot == CertificatesSlot {
        certificates := [];
      } else if slot == ResumeSlot {
        resume := None;
      } else {
        recommendation := None;
      }
    }

    /** The Previous button: one step back, never below step 1. */
    method Previous()
      requires Valid()
      modifies this
      ensures Valid()
      ensures currentStep == if old(currentStep) > 1 then old(currentStep) - 1 else 1
      ensures formData == old(formData) && resume == old(resume)
      ensures certificates == old(certificates) && recommendation == old(recommendation)
      ensures loading == old(loading) && error == old(error)
    {
      currentStep := if currentStep - 1 > 1 then currentStep - 1 else 1;
    }

    /** The Next button, shown below step 5 and enabled when the current step is valid. */
    method Next() returns (moved: bool)
      requires Valid()
      modifies this
      ensures Valid()
      ensures moved <==> old(currentStep) < 5 && StepValidIntended(old(formData), old(resume), old(currentStep))
      ensures currentStep == if moved then old(currentStep) + 1 else old(currentStep)
      ensures formData == old(formData) && resume == old(resume)
      ensures certificates == old(certificates) && recommendation == old(recommendation)
      ensures loading == old(loading) && error == old(error)
    {
      moved := currentStep < 5 && IsStepValid(currentStep);
      if moved {
        currentStep := currentStep + 1;
      }
    }

    /** `handleSubmit`: the request body built from the form and the documents. The server's
        answer is an input: `accepted` for an ok response, otherwise `message` is its error
        text, if any. A refused submission shows the error and stops loading; an accepted
        one leaves the wizard (`submitted`). */
    method Submit(encode: File -> string, accepted: bool, message: Option<string>)
      returns (body: map<string, Json>, submitted: bool)
      modifies this
      ensures body.Keys == old(formData).Keys + {"files"}
      ensures forall f :: f in old(formData) && f != "files" ==> body[f] == Str(old(formData)[f])
      ensures body["files"].Obj? &&
              DescribesFiles(body["files"].fields, old(resume), old(recommendation), old(certificates), encode)
      ensures submitted == accepted
      ensures loading == accepted
      ensures error == if accepted then "" else if message.Some? && message.value != "" then message.value
                                                else "Failed to submit application"
      ensures currentStep == old(currentStep) && formData == old(formData) && resume == old(resume)
      ensures certificates == old(certificates) && recommendation == old(recommendation)
    {
      loading := true;
      error := "";
      var fileData := BuildFileData(resume, recommendation, certificates, encode);
      body := Payload(formData, fileData);
      submitted := accepted;
      if !accepted {
        error := if message.Some? && message.value != "" then message.value else "Failed to submit application";
        loading := false;
      }
    }
  }
}
