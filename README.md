# Resume builder rendering pipeline, in Dafny

A model of the rendering core of `app.py`, a Streamlit resume builder. The
form assembles one `resume_data` record (name, four contact fields, work
and education entries as string dictionaries, and skills cut from one
comma-separated text). Pressing "Generate Resume" renders that record in
one of three formats and offers the result as a download:

- PDF: `generate_pdf` builds a ReportLab story, an ordered list of flow
  blocks, and returns the bytes `doc.build` writes, or `None`.
- HTML: `generate_html` renders a Jinja2 template.
- LaTeX: `generate_latex` renders a Jinja2 template.

Modules, one per concern:

- `Wrappers`: `Option` and `Result`.
- `PyText`: the Python string operations the code relies on. These are
  `str.strip`, `str.split` on one character, `sep.join`, and
  `filter(None, ...)` on strings.
- `ResumeData`: the record, `dict.get` with a default, and the skills
  normalisation at `app.py:87`. A `Revision` value picks the code as
  written or with its two defects corrected (see "Findings").
- `PdfStory`: the block datatype and `Story`, the function that states which
  blocks the "Basic" branch builds, with lemmas on its headings, its
  paragraph texts and its length.
- `PdfRender`: the imperative story builder (`BuildStory`, with its section
  loop in `AppendSections`/`AppendSection`) and `GeneratePdf`. Each is
  proved equal to the specification functions. Name resolution is
  modelled as a set of bound module names, so that the `NameError` raised
  by the unimported `Spacer` is an outcome of the model rather than a
  silent success.
- `Templates`: Jinja2's look-up rules, as far as the two templates use
  them. A dictionary attribute that is missing is undefined. An attribute
  of a plain string is undefined. `default` replaces only an undefined
  value, undefined prints as the empty string, and `{% if %}` is false for
  undefined and for `""`. A document view is built from these rules, and
  the HTML and LaTeX printers work at section and entry granularity. A
  check of the first `{{` in a template models the compile step of
  `from_string`.
- `Export`: the button handler at `app.py:225-250`. It holds the file name,
  MIME type and label per format, the truthiness test on the PDF bytes,
  and the outcome (offered, not offered, or raised) for each format and
  revision.

The templates take `name` and `contact` from the module-level
`resume_data` (its keys are passed as globals), but they take the
sections from the `data` argument. The model keeps the two apart, as
`globals` and `data`. The button handler passes `resume_data` as `data`,
so there the two are the same record.

## Model

| member | source | states |
|---|---|---|
| PyText.LStrip | app.py:87 | the result is a suffix of the input, every character cut is whitespace, and a non-empty result does not start with whitespace |
| PyText.RStrip | app.py:87 | the result is a prefix of the input, every character cut is whitespace, and a non-empty result does not end with whitespace |
| PyText.Strip | app.py:87 | a non-empty stripped skill neither starts nor ends with whitespace |
| PyText.StripSlice | app.py:87 | the stripped text is the slice `s[i..j]` of the input, and everything before `i` and from `j` on is whitespace |
| PyText.StripIdempotent | app.py:87 | stripping twice is the same as stripping once |
| PyText.StripKeepsOut | app.py:87 | stripping never introduces a character that was not in the text |
| PyText.Split | app.py:69 | splitting on `,` gives at least one piece, and no piece contains a comma |
| PyText.SplitJoin | app.py:69 | joining the pieces with the separator gives back the original text |
| PyText.JoinSplit | app.py:69 | splitting a join of separator-free pieces gives back the pieces |
| PyText.SplitConcat | app.py:69 | the pieces of `a + "," + b` are the pieces of `a` followed by those of `b` |
| PyText.SplitWhole | app.py:69 | text without a comma splits into itself alone |
| PyText.NonEmpty | app.py:115 | `filter(None, ...)` keeps no more items than it is given, and none of them empty |
| PyText.NonEmptySingle | app.py:115 | a single string is kept exactly when it is non-empty |
| PyText.NonEmptyConcat | app.py:115 | filtering distributes over concatenation, so order is kept |
| PyText.NonEmptyNone | app.py:115 | the filter removes everything exactly when every item is empty |
| PyText.JoinShape | app.py:115 | a join is as long as its parts plus one separator between each pair, and it starts with the first part and ends with the last |
| PyText.JoinBlank | app.py:115 | a join of non-empty parts is empty exactly when there are no parts |
| ResumeData.Get | app.py:134-137 | `dict.get(key, default)` gives the stored value when the key is present, and the default only when it is absent |
| ResumeData.StrippedNonBlank | app.py:87 | the comprehension keeps at most as many skills as pieces, and none of them is empty |
| ResumeData.StrippedNonBlankFixed | app.py:87 | every skill the comprehension keeps is already stripped: stripping it again changes nothing |
| ResumeData.NormaliseSkills | app.py:87 | the skill list is no longer than the comma pieces, and no skill is empty |
| ResumeData.SkillsStripped | app.py:87 | every normalised skill is its own stripped form |
| ResumeData.StrippedNonBlankConcat | app.py:87 | the comprehension distributes over concatenated piece lists |
| ResumeData.StrippedNonBlankKeepsOut | app.py:87 | a character absent from every piece is absent from every skill |
| ResumeData.SkillsHaveNoComma | app.py:69 | no skill contains a comma |
| ResumeData.SkillsKeepOrder | app.py:69 | the skills of `a + "," + b` are the skills of `a` followed by the skills of `b` |
| ResumeData.SkillOfPiece | app.py:87 | text without a comma gives no skill if it is blank, and otherwise exactly its stripped self |
| PdfStory.ContactLineBlank | app.py:109-115 | the contact line is empty exactly when all four contact fields are empty |
| PdfStory.ContactFieldsKept | app.py:109-115 | the fields joined are the non-empty ones among email, phone, LinkedIn and GitHub, in that order |
| PdfStory.ContactLineShape | app.py:109-115 | the contact line starts with the first non-empty field and ends with the last, so no separator leads or trails. Its length is the fields' length plus one `" \| "` per gap |
| PdfStory.EntryTextShape | app.py:133-139 | an entry paragraph starts with the bold title. It is the bold title alone exactly when organisation, dates and description are all empty, and otherwise it is the title, `<br/>` and the joined non-empty details. A non-empty description ends it |
| PdfStory.EntryFallbacks | app.py:134-135 | the title is `job_title`, else `degree`, else empty, and the organisation is `company`, else `institution`, else empty |
| PdfStory.EntryBlocksAt | app.py:129-142 | each entry gives a paragraph followed by a 6-point spacer, in entry order |
| PdfStory.SectionBlocksShape | app.py:127-144 | an empty section adds no block. A non-empty one adds its heading, then two blocks per entry, then a 12-point spacer |
| PdfStory.EntryBlocksTexts | app.py:129-142 | the entry blocks hold no heading, and their paragraph texts are the entry texts in order |
| PdfStory.SectionBlocksTexts | app.py:126-144 | a section contributes its title as a heading only when non-empty, and exactly its entry texts as paragraphs |
| PdfStory.OpeningTexts | app.py:106-117 | the opening blocks hold no heading and one paragraph, the contact line |
| PdfStory.StoryOpening | app.py:106-117 | the story starts with the name as title, the contact line and a 12-point spacer |
| PdfStory.StoryHeadings | app.py:120-144 | the story's headings are Work Experience, Education and Skills, in that order, each present exactly when its list is non-empty |
| PdfStory.SectionTexts | app.py:126-141 | a section's heading appears exactly when `data.get(section_key)` is truthy, and its paragraphs are its entries' texts |
| PdfStory.ParagraphTexts | app.py:129-141 | paragraph `j` of work or education is entry `j`'s text, and paragraph `j` of the skills is `"• " + skill` |
| PdfStory.StoryBodies | app.py:106-141 | the story's paragraphs are the contact line, then every work entry, education entry and skill, in order |
| PdfStory.StoryLength | app.py:103-144 | the story has three blocks plus, per non-empty section, two blocks per entry and two more |
| PdfRender.FirstUnbound | app.py:96-117 | the result is absent exactly when every name looked up is bound. Otherwise it is the first unbound name in look-up order: it is unbound, and every name before it is bound |
| PdfRender.StoryNamesLookup | app.py:96-117 | the first name to fail is checked in evaluation order: `SimpleDocTemplate`, `letter`, `getSampleStyleSheet`, `Paragraph`, `Spacer` |
| PdfRender.AppendSection | app.py:126-144 | one pass of the section loop appends exactly that section's blocks to the story |
| PdfRender.AppendSections | app.py:120-144 | the loop over the three sections turns the opening into the whole story |
| PdfRender.BuildStory | app.py:96-144 | the step-by-step builder returns the `NameError` of the first unbound name, or else exactly `Story(data)` |
| PdfRender.GeneratePdf | app.py:91-152 | the result is `None` for every template but "Basic". Returned bytes are those `doc.build` wrote for `Story(data)`, with every name bound |
| PdfRender.SpacerUnboundAsWritten | app.py:117 | as written, the first name the "Basic" branch cannot resolve is `Spacer` |
| PdfRender.BasicAlwaysNoneAsWritten | app.py:91-152 | as written, `generate_pdf` returns `None` for every resume, template and ReportLab behaviour |
| PdfRender.FixedImportBuildsStory | app.py:91-148 | with `Spacer` imported, "Basic" returns exactly the bytes ReportLab writes for the story, and `None` only when ReportLab raises |
| Templates.Attr | app.py:180-182 | an attribute is defined exactly when the entry is a dictionary holding that key |
| Templates.DocumentSections | app.py:168-183 | the document shows the global name and contact and three sections headed Work Experience, Education and Skills, even when empty. Work and education show one entry per dictionary, in order, and every skill shows as a blank entry |
| Templates.FallbackAgreesWithPdf | app.py:180-181 | `a \| default(b)` on an entry shows the same title, organisation and dates as the PDF's `dict.get` fallbacks |
| Templates.DescriptionShown | app.py:182 | the description is shown exactly when the entry is a dictionary with a non-empty `description`, and then it is that text |
| Templates.ViewHeadings | app.py:175-177 | there are three section headings, in the fixed order |
| Templates.HtmlSectionHeading | app.py:176-177 | every HTML section holds its `<h2>` heading right after its opening `div` |
| Templates.LatexSectionHeading | app.py:210 | every LaTeX section starts with its `\section*` heading |
| Templates.HtmlSectionsHeadings | app.py:175-185 | three printed sections hold their `<h2>` headings in the order of the sections |
| Templates.HtmlDocumentHeadings | app.py:154-191 | a document of three sections prints their headings in order, after the head and contact block |
| Templates.LatexSectionsHeadings | app.py:209-216 | three printed sections hold their `\section*` headings in the order of the sections |
| Templates.LatexDocumentHeadings | app.py:193-221 | a document of three sections prints their headings in order, after the preamble and contact table |
| Templates.HtmlHeadingsInOrder | app.py:154-191 | `generate_html` always renders, and its text holds the three `<h2>` headings in the fixed order, after the head and contact block |
| Templates.LatexHeadingsInOrder | app.py:193-221 | with the title line corrected, `generate_latex` renders, and its text holds the three `\section*` headings in the fixed order, after the preamble and contact table |
| Templates.ViewDependsOn | app.py:178-182 | the document view depends on the work and education lists and the number of skills only, not on the skills' text |
| Templates.RenderedIgnoresSkillText | app.py:178-191 | the HTML and LaTeX output do not change with the text of the skills, `data`'s own name and contact, or the template name |
| Templates.HtmlTemplateCompiles | app.py:159 | the first expression of the HTML template is well formed, so `from_string` succeeds |
| Templates.LatexTemplateFailsAsWritten | app.py:200 | as written, the LaTeX template's first `{{` is followed by `\`, so `from_string` raises a syntax error |
| Templates.LatexTemplateCompilesCorrected | app.py:200 | with the title line written `\section*{\LARGE {{ name }} }`, the template compiles |
| Templates.LatexAlwaysRaisesAsWritten | app.py:193-221 | as written, `generate_latex` raises for every input |
| Export.GenerateResume | app.py:225-250 | the handler's outcome is that of `Dispatch`. An offered download carries its format's file name, MIME type and label. An offered PDF is non-empty bytes ReportLab wrote for the story, and the PDF path never raises |
| Export.MetaDistinct | app.py:229-249 | the three downloads have different file names and labels, and each name ends in `.pdf`, `.html` or `.tex` |
| Export.AsWrittenOnlyHtmlOffered | app.py:225-250 | as written, a download is offered exactly for HTML. PDF offers nothing, and LaTeX raises |
| Export.HtmlAlwaysOffered | app.py:235-242 | in either revision, HTML always offers `resume.html` holding the document rendered from `resume_data` |
| Export.CorrectedLatexOffered | app.py:243-250 | with the LaTeX title line corrected, LaTeX always offers `resume.tex` holding the document rendered from `resume_data` |
| Export.CorrectedPdfOffered | app.py:226-234 | with `Spacer` imported, PDF is offered exactly for "Basic" when ReportLab writes non-empty bytes, and the download holds those bytes |
| Export.OfferedHtmlShowsSections | app.py:235-241 | the offered HTML file holds the three section headings in order, after the head and contact block |
| Export.AssembledSkills | app.py:69-87 | skills typed as `a,b` reach `resume_data` stripped, non-blank, comma-free, and in typed order |

## Left out

- The Streamlit form, the session state and the buttons (`app.py:1-76`, `get_entry`) are left out. `resume_data` is a parameter, `AssembleResume` shows how it is built, and the export format is a parameter.
- ReportLab's layout and PDF encoding are left out. `doc.build` is a function parameter that either writes bytes or raises. A `Paragraph` parses its markup (`<b>`, `<br/>`) when it is constructed, so malformed markup in the name, the contact line, an entry or a skill raises at `app.py:106`, 116 or 141, while the story is built, not in `doc.build` at `app.py:146`. Any exception there gives `None`, so the model folds these construction errors into `build` raising. It does not decide which texts ReportLab accepts, and so it does not capture that a name with bad markup fails at `app.py:106`, before the `Spacer` look-up.
- The message shown by `st.error` is left out. The model keeps only the outcome, `None`.
- Jinja2 itself is left out. The output text drops the templates' indentation and line breaks. The printers keep the markup and the order of every value.
- The compile step is modelled only by the lexer rule that decides these two templates: what may follow `{{` on the line of each template's first expression. The rest of each template is taken to compile.
- `Templates.DataKey` maps the three fixed section titles to their keys (`work_experience`, `education`, `skills`) case by case, rather than modelling `lower` and `replace` on any string.
- Python integer width and the `gpa` field are left out: `gpa` is entered but no renderer reads it.
- Escaping is not modelled, because the code does none: the HTML `Environment` has no autoescape, and user text reaches both templates unescaped.
- An unsupported export format cannot arise, because the radio button offers exactly the three formats.
- Where the code and the written design disagree, the model follows the code:
  - The HTML and LaTeX contact blocks print all four fields with their separators and labels, even when blank.
  - The HTML and LaTeX sections are always headed, even when empty, while the PDF omits empty sections.
  - Skills render in HTML and LaTeX as blank entries, because a skill is a string with no `job_title` or `company`. `Templates.RenderedIgnoresSkillText` states this.
  - A PDF failure is caught and becomes "no download" rather than an error tagged with the format.

## Findings

| source | as written | input that shows it | evidently intended | confidence | as-written member | corrected member |
|---|---|---|---|---|---|---|
| app.py:117 | `Spacer` is used but not imported (`app.py:3-8` imports only `Paragraph` and `SimpleDocTemplate` from `reportlab.platypus`). The `NameError` is caught at `app.py:150`, so `generate_pdf` returns `None` and no PDF download is ever offered. (When the name holds markup ReportLab rejects, a `ValueError` at `app.py:106` comes first, with the same `None`.) | any resume with template "Basic" | `from reportlab.platypus import Paragraph, SimpleDocTemplate, Spacer`, after which the story is built and written | high; not executed | PdfRender.BasicAlwaysNoneAsWritten | PdfRender.FixedImportBuildsStory |
| app.py:200 | `\section*{{\LARGE {{ name }} }}` opens a Jinja2 expression with `{{` and then meets `\`, which no expression may start with, so `from_string` at `app.py:220` raises `TemplateSyntaxError` and the LaTeX export always fails | any resume with export format LaTeX | `\section*{\LARGE {{ name }} }`, a LaTeX group around the name | high; not executed | Templates.LatexAlwaysRaisesAsWritten | Templates.LatexHeadingsInOrder |
