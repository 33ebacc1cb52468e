/**
 * The careers application form: the résumé gate on the file input, the
 * name shown under it, and the switch to the thank-you panel on submit.
 */
module Careers {
  import opened Wrappers

  /** The fields of the selected `File` that the handler reads. */
  datatype ResumeFile = ResumeFile(name: string, mimeType: string, size: nat)

  const PdfType := "application/pdf"

  /** 5 MiB, the largest résumé accepted. */
  const MaxResumeBytes: nat := 5 * 1024 * 1024

  const NotPdfAlert := "Please upload a PDF file only"
  const TooLargeAlert := "File size must be less than 5MB"
  const SubmitErrorAlert := "There was an error submitting your application. Please try again."
  const DefaultHint := "PDF up to 5MB"

  datatype Verdict = Accepted | NotPdf | TooLarge

  /** The two checks of `handleFileChange`, the type before the size. */
  function Screen(f: ResumeFile): (v: Verdict)
    ensures v == Accepted <==> f.mimeType == PdfType && f.size <= MaxResumeBytes
    ensures v == NotPdf <==> f.mimeType != PdfType
    ensures v == TooLarge <==> f.mimeType == PdfType && f.size > MaxResumeBytes
  {
    if f.mimeType != PdfType then NotPdf
    else if f.size > MaxResumeBytes then TooLarge
    else Accepted
  }

  /** The `alert` a verdict raises: none for an accepted file. */
  function AlertFor(v: Verdict): (msg: Option<string>)
    ensures msg.None? <==> v == Accepted
    ensures msg == Some(NotPdfAlert) <==> v == NotPdf
    ensures msg == Some(TooLargeAlert) <==> v == TooLarge
  {
    match v
    case Accepted => None
    case NotPdf => Some(NotPdfAlert)
    case TooLarge => Some(TooLargeAlert)
  }

  /** The size bound is inclusive: exactly 5 MiB passes, one byte more does not. */
  lemma SizeBoundary(name: string)
    ensures Screen(ResumeFile(name, PdfType, 5242880)) == Accepted
    ensures Screen(ResumeFile(name, PdfType, 5242881)) == TooLarge
  {
  }

  /** A file failing both checks gets the type message, never the size message. */
  lemma TypeCheckedFirst(f: ResumeFile)
    requires f.mimeType != PdfType && f.size > MaxResumeBytes
    ensures AlertFor(Screen(f)) == Some(NotPdfAlert)
  {
  }

  /** `fileName || 'PDF up to 5MB'`: the line under the upload area is never blank. */
  function HintText(fileName: string): (h: string)
    ensures h != ""
    ensures fileName != "" ==> h == fileName
    ensures fileName == "" ==> h == DefaultHint
  {
    if fileName != "" then fileName else DefaultHint
  }

  class ApplicationForm {
    var isSubmitted: bool
    var fileName: string
    /** The file held by the `<input type="file">`, which the handlers clear or reset. */
    var inputFile: Option<ResumeFile>

    /** A file left in the input passed the gate, and its name is the one shown. */
    ghost predicate Valid()
      reads this
    {
      inputFile.Some? ==> Screen(inputFile.value) == Accepted && fileName == inputFile.value.name
    }

    constructor ()
      ensures Valid()
      ensures !isSubmitted && fileName == "" && inputFile == None
    {
      isSubmitted := false;
      fileName := "";
      inputFile := None;
    }

    /** The form, and so each of its handlers, is rendered until a submission; the thank-you panel after. */
    predicate ShowsForm()
      reads this
    {
      !isSubmitted
    }

    /**
     * The browser puts `file` (the first selected file, if any) into the
     * input and runs `handleFileChange`. A rejected file raises an alert and
     * empties the input; the name shown before is kept.
     */
    method HandleFileChange(file: Option<ResumeFile>) returns (alert: Option<string>)
      requires Valid() && ShowsForm()
      modifies this
      ensures Valid()
      ensures isSubmitted == old(isSubmitted)
      ensures file.None? ==> alert == None && fileName == old(fileName) && inputFile == None
      ensures file.Some? ==> alert == AlertFor(Screen(file.value))
      ensures file.Some? && Screen(file.value) == Accepted ==> fileName == file.value.name && inputFile == file
      ensures file.Some? && Screen(file.value) != Accepted ==> fileName == old(fileName) && inputFile == None
    {
      inputFile := file;
      alert := None;
      if file.Some? {
        var f := file.value;
        if f.mimeType != PdfType {
          alert := Some(NotPdfAlert);
          inputFile := None;
          return;
        }
        if f.size > MaxResumeBytes {
          alert := Some(TooLargeAlert);
          inputFile := None;
          return;
        }
        fileName := f.name;
      }
    }

    /**
     * `handleSubmit` as written, the one-second delay taken as one step.
     * After the delay it calls `reset()` on `e.currentTarget`;
     * `formStillAttached` says whether that is still the form. When it is
     * not, the call throws, the `catch` raises the error alert, and the
     * name is not cleared; `isSubmitted` was raised before the throw.
     */
    method HandleSubmit(formStillAttached: bool) returns (alert: Option<string>)
      requires Valid() && ShowsForm()
      modifies this
      ensures Valid()
      ensures isSubmitted
      ensures formStillAttached ==> alert == None && fileName == "" && inputFile == None
      ensures !formStillAttached ==> alert == Some(SubmitErrorAlert)
      ensures !formStillAttached ==> fileName == old(fileName) && inputFile == old(inputFile)
    {
      isSubmitted := true;
      if formStillAttached {
        inputFile := None;
        fileName := "";
        alert := None;
      } else {
        alert := Some(SubmitErrorAlert);
      }
    }

    /** `handleSubmit` with the form captured before the delay: the submission always ends clean. */
    method HandleSubmitCapturingForm()
      requires Valid() && ShowsForm()
      modifies this
      ensures Valid()
      ensures isSubmitted && fileName == "" && inputFile == None
    {
      isSubmitted := true;
      inputFile := None;
      fileName := "";
    }
  }

  /**
   * The event system clears `currentTarget` once the handler has returned
   * at its first `await`, so the submit handler as written reports an error
   * after a successful submission and keeps the old name.
   */
  method SubmitAfterDispatch() returns (alert: Option<string>, submitted: bool, name: string)
    ensures submitted && alert == Some(SubmitErrorAlert) && name == "cv.pdf"
  {
    var form := new ApplicationForm();
    var _ := form.HandleFileChange(Some(ResumeFile("cv.pdf", PdfType, 1024)));
    alert := form.HandleSubmit(false);
    submitted, name := form.isSubmitted, form.fileName;
  }

  /** The corrected handler ends the same session with no alert and a cleared name. */
  method SubmitCapturingFormAfterDispatch() returns (submitted: bool, name: string)
    ensures submitted && name == ""
  {
    var form := new ApplicationForm();
    var _ := form.HandleFileChange(Some(ResumeFile("cv.pdf", PdfType, 1024)));
    form.HandleSubmitCapturingForm();
    submitted, name := form.isSubmitted, form.fileName;
  }

  /**
   * A rejected file does not clear the stored name: after an accepted
   * résumé and a rejected one, the input is empty and the hint still shows
   * the first résumé's name.
   */
  method RejectionKeepsName() returns (hint: string, inputEmpty: bool)
    ensures inputEmpty && hint == "cv.pdf"
  {
    var form := new ApplicationForm();
    var _ := form.HandleFileChange(Some(ResumeFile("cv.pdf", PdfType, 1024)));
    var _ := form.HandleFileChange(Some(ResumeFile("photo.png", "image/png", 2048)));
    hint := HintText(form.fileName);
    inputEmpty := form.inputFile == None;
  }
}
