/** The export dialog: whether it shows at all, the file name it derives from the
    resume title and the current date, the check for the preview element, and the
    `exporting` flag around an export. The clock reading, the presence of the preview
    element and the outcome of the PDF capture are supplied by the caller. */
module ExportModal {
  import opened Js
  import opened Strings

  /** What the open dialog shows: the busy flag and the chosen format. */
  datatype View = View(exporting: bool, format: string)

  /** `if (!isOpen) return null`. */
  function Render(isOpen: bool, exporting: bool, format: string): (v: Option<View>)
    ensures v.None? <==> !isOpen
    ensures v.Some? ==> v.value.exporting == exporting && v.value.format == format
  {
    if isOpen then Some(View(exporting, format)) else None
  }

  /** `${title || 'resume'}_${iso.split('T')[0]}`. */
  function FileName(title: Val, iso: string): (r: string)
    ensures !Truthy(title) ==> r == "resume_" + Before(iso, 'T')
    ensures Truthy(title) ==> r == title.s + "_" + Before(iso, 'T')
  {
    Or(title, "resume") + "_" + Before(iso, 'T')
  }

  /** The date part of an ISO timestamp is what follows the underscore. */
  lemma FileNameDate(title: Val, date: string, time: string)
    requires 'T' !in date
    ensures FileName(title, date + "T" + time) == Or(title, "resume") + "_" + date
  {
    BeforeOfSeparated(date, time);
  }

  /** The text before the first 'T' of `a + "T" + b` is `a` when `a` holds no 'T'. */
  lemma BeforeOfSeparated(a: string, b: string)
    requires 'T' !in a
    ensures Before(a + "T" + b, 'T') == a
  {
    var s := a + "T" + b;
    forall k | 0 <= k < |a| ensures s[k] != 'T' {
      assert s[k] == a[k];
    }
    assert s[|a|] == 'T';
    assert IndexOf(s, 'T') == |a|;
    assert s[..|a|] == a;
  }

  const PreviewMissing: string := "Resume preview not found"
  const PdfFailed: string := "Failed to export PDF"
  /** The TypeErrors V8 raises for `resumeData.title` when `resumeData` is missing. */
  const UndefinedResumeData: string := "Cannot read properties of undefined (reading 'title')"
  const NullResumeData: string := "Cannot read properties of null (reading 'title')"

  /** The `resumeData` prop: undefined, null (the store's initial current resume), or a
      resume, of which only the title is read. */
  datatype ResumeProp = UndefinedResume | NullResume | GivenResume(title: Val)

  class ExportDialog {
    var exporting: bool
    var format: string

    constructor()
      ensures !exporting && format == "pdf"
    {
      exporting := false;
      format := "pdf";
    }

    method ChooseFormat(f: string)
      modifies this
      ensures format == f && exporting == old(exporting)
    {
      format := f;
    }

    /** `handleExport`. `resume` is the `resumeData` prop, `iso` the clock as `toISOString` writes it, `hasPreview`
        whether `previewRef.current` is set, and `captureFails` whether the PDF capture
        throws. Returns the file name handed to the PDF export (if it was called), the
        error message shown (if any), and whether the dialog was asked to close. */
    method HandleExport(resume: ResumeProp, iso: string, hasPreview: bool, captureFails: bool)
      returns (pdfName: Option<string>, error: Option<string>, closed: bool)
      modifies this
      ensures !exporting && format == old(format)
      ensures closed <==> error.None?
      ensures resume.UndefinedResume? ==> error == Some(UndefinedResumeData) && pdfName.None?
      ensures resume.NullResume? ==> error == Some(NullResumeData) && pdfName.None?
      ensures resume.GivenResume? && format == "pdf" && !hasPreview ==> error == Some(PreviewMissing) && pdfName.None?
      ensures resume.GivenResume? && format == "pdf" && hasPreview ==>
        pdfName == Some(FileName(resume.title, iso) + ".pdf") &&
        (error.Some? <==> captureFails) && (captureFails ==> error == Some(PdfFailed))
      ensures resume.GivenResume? && format != "pdf" ==> pdfName.None? && error.None?
    {
      exporting := true;
      pdfName := None;
      error := None;
      closed := false;
      if !resume.GivenResume? {
        error := Some(if resume.NullResume? then NullResumeData else UndefinedResumeData);
        exporting := false;
        return;
      }
      var filename := FileName(resume.title, iso);
      if format == "pdf" {
        if !hasPreview {
          error := Some(PreviewMissing);
          exporting := false;
          return;
        }
        pdfName := Some(filename + ".pdf");
        if captureFails {
          error := Some(PdfFailed);
          exporting := false;
          return;
        }
      }
      closed := true;
      exporting := false;
    }
  }
}
