/**
 * The "Generate Resume" handler at the bottom of app.py: it assembles
 * `resume_data` from the form, calls the generator for the chosen export
 * format, and offers the result as a download with a fixed file name and
 * MIME type. A PDF is offered only when the returned bytes are truthy
 * (neither `None` nor empty); the HTML and LaTeX text are offered as they
 * come back, and an exception from them propagates out of the handler.
 */
module Export {
  import opened Wrappers
  import opened PyText
  import opened ResumeData
  import opened PdfStory
  import opened PdfRender
  import opened Templates

  datatype ExportFormat = PDF | HTML | LaTeX

  /** What `st.download_button` is given besides the data. */
  datatype FileMeta = FileMeta(buttonLabel: string, fileName: string, mime: string)

  datatype Content = Bytes(bytes: seq<byte>) | Text(text: string)

  datatype Download = Download(meta: FileMeta, content: Content)

  /** What pressing the button leads to: a download offered, nothing
      offered, or the template error raised out of the handler. */
  datatype Outcome = Offered(download: Download) | NotOffered | Raised(error: TemplateError)

  function MetaOf(fmt: ExportFormat): FileMeta
  {
    match fmt
    case PDF => FileMeta("Download PDF", "resume.pdf", "application/pdf")
    case HTML => FileMeta("Download HTML", "resume.html", "text/html")
    case LaTeX => FileMeta("Download LaTeX", "resume.tex", "text/plain")
  }

  /** `resume_data` as the module assembles it from the form fields. */
  function AssembleResume(name: string, email: string, phone: string, linkedin: string, github: string,
                          work: seq<Entry>, education: seq<Entry>, skillsText: string): Resume
  {
    Resume(name, Contact(email, phone, linkedin, github), work, education, NormaliseSkills(skillsText))
  }

  /** The names bound at module level in each revision. */
  function NamesOf(rev: Revision): set<string>
  {
    match rev
    case AsWritten => ModuleNames
    case Corrected => FixedNames
  }

  /** Python truthiness of the value `generate_pdf` returns. */
  predicate Truthy(pdf: Option<seq<byte>>)
  {
    pdf.Some? && |pdf.value| > 0
  }

  /** The PDF branch: a download only when the bytes are truthy. */
  function PdfOutcome(pdf: Option<seq<byte>>): Outcome
  {
    if Truthy(pdf) then Offered(Download(MetaOf(PDF), Bytes(pdf.value))) else NotOffered
  }

  /** The HTML and LaTeX branches: the text is offered as it comes back, and
      an exception propagates. */
  function TextOutcome(fmt: ExportFormat, text: Result<string, TemplateError>): Outcome
  {
    match text
    case Ok(t) => Offered(Download(MetaOf(fmt), Text(t)))
    case Err(e) => Raised(e)
  }

  /** The outcome of the handler for one export format. The generators are
      called with `resume_data` itself, so the template's `data` and its
      globals are the same resume. */
  function Dispatch(fmt: ExportFormat, data: Resume, templateName: string, rev: Revision,
                    build: seq<Block> -> BuildResult): Outcome
  {
    match fmt
    case PDF => PdfOutcome(PdfResult(data, templateName, NamesOf(rev), build))
    case HTML => TextOutcome(HTML, GenerateHtml(data, templateName, data))
    case LaTeX => TextOutcome(LaTeX, GenerateLatex(data, templateName, data, rev))
  }

  /** The button handler. */
  method GenerateResume(fmt: ExportFormat, data: Resume, templateName: string, rev: Revision,
                        build: seq<Block> -> BuildResult) returns (outcome: Outcome)
    ensures outcome == Dispatch(fmt, data, templateName, rev, build)
    ensures outcome.Offered? ==> outcome.download.meta == MetaOf(fmt)
    ensures outcome.Offered? && fmt == PDF ==>
      outcome.download.content.Bytes? && |outcome.download.content.bytes| > 0
      && build(Story(data)) == Written(outcome.download.content.bytes)
    ensures fmt == PDF ==> !outcome.Raised?
  {
    match fmt
    case PDF =>
      var pdf := GeneratePdf(data, templateName, NamesOf(rev), build);
      if pdf.Some? && |pdf.value| > 0 {
        outcome := Offered(Download(MetaOf(PDF), Bytes(pdf.value)));
      } else {
        outcome := NotOffered;
      }
    case HTML =>
      var html := GenerateHtml(data, templateName, data);
      match html {
        case Ok(text) => outcome := Offered(Download(MetaOf(HTML), Text(text)));
        case Err(e) => outcome := Raised(e);
      }
    case LaTeX =>
      var latex := GenerateLatex(data, templateName, data, rev);
      match latex {
        case Ok(text) => outcome := Offered(Download(MetaOf(LaTeX), Text(text)));
        case Err(e) => outcome := Raised(e);
      }
  }

  /** The three downloads have pairwise different file names and labels,
      and each file name ends in the extension of its format. */
  lemma MetaDistinct(f: ExportFormat, g: ExportFormat)
    ensures f != g ==> MetaOf(f).fileName != MetaOf(g).fileName && MetaOf(f).buttonLabel != MetaOf(g).buttonLabel
    ensures EndsWith(MetaOf(f).fileName, match f case PDF => ".pdf" case HTML => ".html" case LaTeX => ".tex")
  {
  }

  /** As written, only the HTML export ever offers a download: the PDF
      export never does, and the LaTeX export always raises. */
  lemma AsWrittenOnlyHtmlOffered(fmt: ExportFormat, data: Resume, templateName: string,
                                 build: seq<Block> -> BuildResult)
    ensures Dispatch(fmt, data, templateName, AsWritten, build).Offered? <==> fmt == HTML
    ensures fmt == PDF ==> Dispatch(fmt, data, templateName, AsWritten, build) == NotOffered
    ensures fmt == LaTeX ==> Dispatch(fmt, data, templateName, AsWritten, build).Raised?
  {
    BasicAlwaysNoneAsWritten(data, templateName, build);
    HtmlTemplateCompiles();
    LatexAlwaysRaisesAsWritten(data, templateName, data);
  }

  /** The HTML export always offers the document rendered from
      `resume_data`, in either revision. */
  lemma HtmlAlwaysOffered(data: Resume, templateName: string, rev: Revision,
                          build: seq<Block> -> BuildResult)
    ensures Dispatch(HTML, data, templateName, rev, build)
      == Offered(Download(MetaOf(HTML), Text(HtmlDocument(ViewDocument(data, data)))))
  {
    HtmlTemplateCompiles();
  }

  /** With the LaTeX title line corrected, the LaTeX export always offers
      the document rendered from `resume_data`. */
  lemma CorrectedLatexOffered(data: Resume, templateName: string, build: seq<Block> -> BuildResult)
    ensures Dispatch(LaTeX, data, templateName, Corrected, build)
      == Offered(Download(MetaOf(LaTeX), Text(LatexDocument(ViewDocument(data, data)))))
  {
    LatexTemplateCompilesCorrected();
  }

  /** With `Spacer` imported, the PDF export offers a download exactly for
      the "Basic" template when ReportLab writes non-empty bytes, and then
      offers those bytes. */
  lemma CorrectedPdfOffered(data: Resume, templateName: string, build: seq<Block> -> BuildResult)
    ensures Dispatch(PDF, data, templateName, Corrected, build).Offered? <==>
      templateName == "Basic" && build(Story(data)).Written? && |build(Story(data)).bytes| > 0
    ensures Dispatch(PDF, data, templateName, Corrected, build).Offered? ==>
      Dispatch(PDF, data, templateName, Corrected, build).download.content == Bytes(build(Story(data)).bytes)
  {
    if templateName == "Basic" {
      FixedImportBuildsStory(data, build);
    }
  }

  /** The offered HTML document shows the three section headings in order,
      whatever the resume holds. */
  lemma OfferedHtmlShowsSections(data: Resume, templateName: string, rev: Revision,
                                 build: seq<Block> -> BuildResult)
    returns (p0: nat, p1: nat, p2: nat)
    ensures Dispatch(HTML, data, templateName, rev, build).Offered?
    ensures var text := Dispatch(HTML, data, templateName, rev, build).download.content.text;
      |HtmlBeforeSections(ViewDocument(data, data))| <= p0 < p1 < p2
      && OccursAt(text, HtmlHeading("Work Experience"), p0)
      && OccursAt(text, HtmlHeading("Education"), p1)
      && OccursAt(text, HtmlHeading("Skills"), p2)
  {
    var html := GenerateHtml(data, templateName, data);
    p0, p1, p2 := HtmlHeadingsInOrder(data, templateName, data);
    assert Dispatch(HTML, data, templateName, rev, build) == TextOutcome(HTML, html);
  }

  /** Skills typed as one comma-separated text reach the resume stripped,
      non-blank, without commas, and in the order typed. */
  lemma AssembledSkills(name: string, email: string, phone: string, linkedin: string, github: string,
                        work: seq<Entry>, education: seq<Entry>, a: string, b: string)
    ensures var r := AssembleResume(name, email, phone, linkedin, github, work, education, a + "," + b);
      r.skills == NormaliseSkills(a) + NormaliseSkills(b)
      && forall k | 0 <= k < |r.skills| :: r.skills[k] != "" && ',' !in r.skills[k] && Strip(r.skills[k]) == r.skills[k]
  {
    SkillsKeepOrder(a, b);
    SkillsHaveNoComma(a + "," + b);
    SkillsStripped(a + "," + b);
  }
}
